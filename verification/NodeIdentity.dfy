// The node's half of the certificate, over a link that can lose an answer:
// who is locked out, when, and for how long.
module NodeIdentity {
  import opened Numerals
  import opened NodeCertificates

  // What the agent managed to write of an answer it received. A key without
  // its certificate is no identity at all.
  datatype Stored = Kept | NothingWritten | KeyOnly

  class Agent {
    const token: nat
    var identity: Option<Cert>
    // What its connection shows: the certificate of the day it was made.
    var shown: Option<Cert>

    constructor (token: nat)
      ensures this.token == token && identity == shown == None
    {
      this.token := token;
      identity, shown := None, None;
    }

    // A certificate stored whole gets a connection of its own.
    method Save(c: Cert, stored: Stored)
      modifies this
      ensures identity == StoredAs(old(identity), c, stored)
      ensures shown == if stored.Kept? then Some(c) else old(shown)
    {
      match stored
      case Kept => identity, shown := Some(c), Some(c);
      case NothingWritten =>
      case KeyOnly => identity := None;
    }

    // Run once, as the agent starts, when no connection is open yet.
    method Bootstrap(s: Server, q: Ask, delivered: bool, stored: Stored)
      requires 0 !in s.nodes
      modifies this, s
      ensures Sys(s.State(), identity, shown)
           == Booted(Sys(old(s.State()), old(identity), old(shown)), token, q, delivered, stored)
    {
      shown := identity;
      if identity.Some? && q.now < identity.value.notAfter { return; }
      if token == 0 { return; }
      var answer := s.Bootstrap(token, q);
      if answer.None? || !delivered { return; }
      Save(answer.value, stored);
    }

    method RenewIfNeeded(s: Server, q: Ask, delivered: bool, stored: Stored)
      modifies this, s, s.ca
      ensures Sys(s.State(), identity, shown)
           == Refreshed(Sys(old(s.State()), old(identity), old(shown)), q, delivered, stored)
    {
      if identity.None? { return; }
      if q.now < identity.value.notAfter - RENEW_BEFORE { return; }
      if shown.None? { return; }
      var answer := s.Renew(shown.value, q);
      if answer.None? || !delivered { return; }
      Save(answer.value, stored);
    }
  }

  // The panel, the certificate one agent holds, and the one its connection shows.
  datatype Sys = Sys(panel: Panel, identity: Option<Cert>, shown: Option<Cert>)

  function StoredAs(was: Option<Cert>, c: Cert, stored: Stored): Option<Cert> {
    match stored
    case Kept => Some(c)
    case NothingWritten => was
    case KeyOnly => None
  }

  function Received(s: Sys, panel: Panel, answer: Option<Cert>, delivered: bool, stored: Stored): Sys {
    if answer.None? || !delivered then s.(panel := panel)
    else Sys(panel, StoredAs(s.identity, answer.value, stored), if stored.Kept? then answer else s.shown)
  }

  ghost function Booted(s: Sys, token: nat, q: Ask, delivered: bool, stored: Stored): Sys {
    var started := s.(shown := s.identity);
    if s.identity.Some? && q.now < s.identity.value.notAfter then started
    else
      var (panel, answer) := Bootstrapped(s.panel, token, q);
      Received(started, panel, answer, delivered, stored)
  }

  ghost function Refreshed(s: Sys, q: Ask, delivered: bool, stored: Stored): Sys {
    if s.identity.None? || q.now < s.identity.value.notAfter - RENEW_BEFORE || s.shown.None? then s
    else
      var (panel, answer) := Renewed(s.panel, s.shown.value, q);
      Received(s, panel, answer, delivered, stored)
  }

  // What happens around one agent, enrolled as `me` with `token`. The others
  // are everyone else the panel answers.
  datatype Event =
    | Boots(q: Ask, delivered: bool, stored: Stored)
    | Refreshes(q: Ask, delivered: bool, stored: Stored)
    | Others(op: Op)

  ghost function Next(s: Sys, token: nat, e: Event): Sys {
    match e
    case Boots(q, delivered, stored) => Booted(s, token, q, delivered, stored)
    case Refreshes(q, delivered, stored) => Refreshed(s, q, delivered, stored)
    case Others(op) => s.(panel := After(s.panel, op))
  }

  // Nobody else holds this agent's token or certificates, or deletes it.
  ghost predicate Minds(s: Sys, me: nat, token: nat, e: Event) {
    match e
    case Boots(q, _, _) => FreshSerial(s.panel, q.serial)
    case Refreshes(q, _, _) => FreshSerial(s.panel, q.serial) && q.saved && q.wrote
    case Others(op) =>
      Lawful(s.panel, op) && WritesWork(op) &&
      match op
      case Bootstrap(t, _) => t != token
      case Renew(c, _) => c.node != me
      case Delete(id, _, _) => id != me
      case _ => true
  }

  ghost predicate Sound(s: Sys) {
    && Safe(s.panel) && s.panel.file == s.panel.revoked
    && OnFile(s.panel, s.identity) && OnFile(s.panel, s.shown)
    && (s.identity.Some? ==> s.shown == s.identity)
  }

  // The token is still good for a first certificate.
  predicate Waiting(s: Sys, me: nat, token: nat) {
    s.identity.None? && s.shown.None? && me in s.panel.nodes && s.panel.nodes[me].bootstrap == token
  }

  // The agent holds the certificate the panel recorded for it.
  predicate InStep(s: Sys, me: nat, token: nat) {
    && me in s.panel.nodes && s.panel.nodes[me].bootstrap == 0 && token in s.panel.bought
    && s.identity.Some? && s.shown == s.identity && s.identity.value.node == me
    && s.identity.value.serial == s.panel.nodes[me].serial && s.identity.value.serial !in s.panel.revoked
  }

  // The token is spent, and the certificate the agent shows, if any, is revoked.
  predicate Stranded(s: Sys, token: nat) {
    token in s.panel.bought && (s.shown.Some? ==> s.shown.value.serial in s.panel.revoked)
  }

  // The panel issued a certificate that this agent does not end up holding.
  ghost predicate Loses(s: Sys, token: nat, e: Event) {
    match e
    case Boots(q, delivered, stored) =>
      (s.identity.Some? ==> q.now >= s.identity.value.notAfter) && Bootstrapped(s.panel, token, q).1.Some?
      && !(delivered && stored.Kept?)
    case Refreshes(q, delivered, stored) =>
      && s.identity.Some? && q.now >= s.identity.value.notAfter - RENEW_BEFORE
      && s.shown.Some? && Renewed(s.panel, s.shown.value, q).1.Some?
      && !(delivered && stored.Kept?)
    case Others(_) => false
  }

  ghost predicate OnFile(p: Panel, identity: Option<Cert>) {
    identity.Some? ==> identity.value.serial in p.certs && p.certs[identity.value.serial] == identity.value
  }

  // Certificates handed over are never taken off the books.
  lemma BooksOnlyGrow(p: Panel, op: Op, c: Cert)
    requires Lawful(p, op) && OnFile(p, Some(c))
    ensures OnFile(After(p, op), Some(c))
  {
  }

  lemma AnswersAreOnFile(p: Panel, token: nat, c: Cert, q: Ask)
    ensures OnFile(Bootstrapped(p, token, q).0, Bootstrapped(p, token, q).1)
    ensures OnFile(Renewed(p, c, q).0, Renewed(p, c, q).1)
  {
  }

  lemma BootIsSound(s: Sys, token: nat, q: Ask, delivered: bool, stored: Stored)
    requires Sound(s) && FreshSerial(s.panel, q.serial)
    ensures Sound(Booted(s, token, q, delivered, stored))
  {
    BootstrapIsSafe(s.panel, token, q);
    AnswersAreOnFile(s.panel, token, Issue(0, q), q);
    if s.identity.Some? { BooksOnlyGrow(s.panel, Bootstrap(token, q), s.identity.value); }
    if s.shown.Some? { BooksOnlyGrow(s.panel, Bootstrap(token, q), s.shown.value); }
  }

  lemma RefreshIsSound(s: Sys, q: Ask, delivered: bool, stored: Stored)
    requires Sound(s) && FreshSerial(s.panel, q.serial) && q.saved && q.wrote
    ensures Sound(Refreshed(s, q, delivered, stored))
  {
    if s.identity.Some? {
      var c := s.shown.value;
      StepIsSafe(s.panel, Renew(c, q));
      AnswersAreOnFile(s.panel, 0, c, q);
      BooksOnlyGrow(s.panel, Renew(c, q), c);
    }
  }

  lemma StepIsSound(s: Sys, me: nat, token: nat, e: Event)
    requires Sound(s) && Minds(s, me, token, e)
    ensures Sound(Next(s, token, e))
  {
    match e
    case Boots(q, delivered, stored) => BootIsSound(s, token, q, delivered, stored);
    case Refreshes(q, delivered, stored) => RefreshIsSound(s, q, delivered, stored);
    case Others(op) =>
      StepIsSafe(s.panel, op);
      if s.identity.Some? { BooksOnlyGrow(s.panel, op, s.identity.value); }
      if s.shown.Some? { BooksOnlyGrow(s.panel, op, s.shown.value); }
  }

  lemma WaitingStep(s: Sys, me: nat, token: nat, e: Event)
    requires Sound(s) && Minds(s, me, token, e) && token != 0 && Waiting(s, me, token)
    ensures var n := Next(s, token, e);
            if Loses(s, token, e) then Stranded(n, token) else Waiting(n, me, token) || InStep(n, me, token)
  {
    match e
    case Boots(q, _, _) =>
      assert Holder(s.panel.nodes, token) == Some(me);
    case Refreshes(_, _, _) =>
    case Others(op) =>
  }

  lemma InStepStep(s: Sys, me: nat, token: nat, e: Event)
    requires Sound(s) && Minds(s, me, token, e) && token != 0 && InStep(s, me, token)
    ensures var n := Next(s, token, e);
            if Loses(s, token, e) then Stranded(n, token) else InStep(n, me, token)
  {
  }

  // Spent and revoked stay so.
  lemma StrandedStep(s: Sys, me: nat, token: nat, e: Event)
    requires Sound(s) && Minds(s, me, token, e) && token != 0 && Stranded(s, token)
    ensures Stranded(Next(s, token, e), token) && !Loses(s, token, e)
  {
  }

  ghost function Run(s: Sys, token: nat, es: seq<Event>): Sys {
    if es == [] then s else Next(Run(s, token, es[..|es| - 1]), token, es[|es| - 1])
  }

  ghost predicate Minded(s: Sys, me: nat, token: nat, es: seq<Event>) {
    es != [] ==>
      Minded(s, me, token, es[..|es| - 1]) && Minds(Run(s, token, es[..|es| - 1]), me, token, es[|es| - 1])
  }

  // Some event of the run lost an answer.
  ghost predicate LostOne(s: Sys, token: nat, es: seq<Event>) {
    es != [] &&
    (LostOne(s, token, es[..|es| - 1]) || Loses(Run(s, token, es[..|es| - 1]), token, es[|es| - 1]))
  }

  // The last certificate the panel issued to this agent.
  ghost function Issued(s: Sys, token: nat, es: seq<Event>): Option<Cert> {
    if es == [] then None
    else
      var answer := Answer(Run(s, token, es[..|es| - 1]), token, es[|es| - 1]);
      if answer.Some? then answer else Issued(s, token, es[..|es| - 1])
  }

  ghost function Answer(s: Sys, token: nat, e: Event): Option<Cert> {
    match e
    case Boots(q, _, _) =>
      if s.identity.Some? && q.now < s.identity.value.notAfter then None else Bootstrapped(s.panel, token, q).1
    case Refreshes(q, _, _) =>
      if s.identity.None? || q.now < s.identity.value.notAfter - RENEW_BEFORE || s.shown.None? then None
      else Renewed(s.panel, s.shown.value, q).1
    case Others(_) => None
  }

  // Where a run from enrolment leads: after a lost answer the token is spent and
  // nothing held works; before one, the agent holds what it was last issued, or
  // still waits with the token it was given.
  lemma {:induction false} WhereARunLeads(s: Sys, me: nat, token: nat, es: seq<Event>, end: Sys)
    requires Sound(s) && token != 0 && Waiting(s, me, token) && Minded(s, me, token, es)
    requires end == Run(s, token, es)
    ensures Sound(end) && SameRow(s, end, me)
    ensures if LostOne(s, token, es) then Stranded(end, token)
            else
              && end.identity == Issued(s, token, es)
              && if end.identity.None? then
                   Waiting(end, me, token) && end.panel.nodes[me].expires == s.panel.nodes[me].expires
                 else InStep(end, me, token)
  {
    if es != [] {
      var earlier, e := es[..|es| - 1], es[|es| - 1];
      var before := Run(s, token, earlier);
      WhereARunLeads(s, me, token, earlier, before);
      StepIsSound(before, me, token, e);
      RowStays(before, me, token, e);
      if LostOne(s, token, earlier) {
        StrandedStep(before, me, token, e);
      } else if Waiting(before, me, token) {
        WaitingStep(before, me, token, e);
      } else {
        InStepStep(before, me, token, e);
      }
      if !LostOne(s, token, es) { KeepsWhatItWasIssued(before, me, token, e); }
    }
  }

  predicate SameRow(s: Sys, n: Sys, me: nat) {
    me in s.panel.nodes && me in n.panel.nodes && n.panel.nodes[me].enrollToken == s.panel.nodes[me].enrollToken
  }

  lemma RowStays(s: Sys, me: nat, token: nat, e: Event)
    requires Minds(s, me, token, e) && me in s.panel.nodes
    ensures SameRow(s, Next(s, token, e), me)
  {
  }

  lemma KeepsWhatItWasIssued(s: Sys, me: nat, token: nat, e: Event)
    requires Sound(s) && Minds(s, me, token, e) && token != 0 && !Loses(s, token, e)
    requires Waiting(s, me, token) || InStep(s, me, token)
    ensures var n, answer := Next(s, token, e), Answer(s, token, e);
            && n.identity == (if answer.Some? then answer else s.identity)
            && (Waiting(s, me, token) && Waiting(n, me, token) ==>
                n.panel.nodes[me].expires == s.panel.nodes[me].expires)
  {
    if Waiting(s, me, token) && e.Boots? { assert Holder(s.panel.nodes, token) == Some(me); }
  }

  // ---- Locked out ----------------------------------------------------------------

  // A request in order, to a panel whose writes work.
  function Sincere(now: int): Ask { Ask(now, true, 0, true, true) }

  // At this moment nothing the agent can ask for is granted: no certificate for
  // its token, none for the one it holds, and no request of its own.
  ghost predicate LockedOut(s: Sys, token: nat, legacy: nat, strict: bool, now: int) {
    && (s.identity.None? || now >= s.identity.value.notAfter ==> !Sells(s.panel, token, Sincere(now)))
    && (s.shown.Some? ==> !Renews(s.panel, s.shown.value, Sincere(now)))
    && (forall id :: !Authenticates(s.panel, s.shown, legacy, strict, now, id))
  }

  // The panel still takes the enrol token from an agent that shows no certificate.
  predicate TakesEnrolToken(legacy: nat, strict: bool) { !strict && legacy != 0 }

  lemma StrandedIsLockedOut(s: Sys, me: nat, token: nat, legacy: nat, strict: bool, now: int)
    requires Sound(s) && token != 0 && Stranded(s, token) && me in s.panel.nodes
             && s.panel.nodes[me].enrollToken == legacy
    ensures LockedOut(s, token, legacy, strict, now) <==> s.shown.Some? || !TakesEnrolToken(legacy, strict)
  {
    SpentSellsNothing(s.panel, token, Sincere(now));
    if s.shown.None? && TakesEnrolToken(legacy, strict) {
      assert Authenticates(s.panel, s.shown, legacy, strict, now, me);
    }
  }

  lemma SpentSellsNothing(p: Panel, token: nat, q: Ask)
    requires Safe(p) && token in p.bought && token != 0
    ensures !Sells(p, token, q)
  {
    assert Holder(p.nodes, token).None? by {
      forall id | id in p.nodes ensures p.nodes[id].bootstrap != token { }
    }
  }

  lemma WaitingIsLockedOutIff(s: Sys, me: nat, token: nat, legacy: nat, strict: bool, now: int)
    requires Sound(s) && token != 0 && Waiting(s, me, token) && s.panel.nodes[me].enrollToken == legacy
    ensures LockedOut(s, token, legacy, strict, now)
            <==> now > s.panel.nodes[me].expires && !TakesEnrolToken(legacy, strict)
  {
    assert Holder(s.panel.nodes, token) == Some(me);
    if TakesEnrolToken(legacy, strict) { assert Authenticates(s.panel, s.shown, legacy, strict, now, me); }
  }

  lemma InStepIsLockedOutIff(s: Sys, me: nat, token: nat, legacy: nat, strict: bool, now: int)
    requires Sound(s) && token != 0 && InStep(s, me, token)
    ensures LockedOut(s, token, legacy, strict, now) <==> now > s.identity.value.notAfter
  {
    SpentSellsNothing(s.panel, token, Sincere(now));
    if now <= s.identity.value.notAfter { assert Authenticates(s.panel, s.shown, legacy, strict, now, me); }
  }

  // A certificate that was revoked is refused even where the enrol token is
  // still good; in step, the node is let in until its certificate expires.
  lemma WhoGetsIn(s: Sys, me: nat, token: nat, legacy: nat, strict: bool, now: int, id: nat)
    requires Sound(s)
    ensures Stranded(s, token) && (s.shown.Some? || strict) ==>
              !Authenticates(s.panel, s.shown, legacy, strict, now, id)
    ensures InStep(s, me, token) ==>
              (Authenticates(s.panel, s.shown, legacy, strict, now, id)
               <==> id == me && now <= s.identity.value.notAfter)
  {
  }

  // From enrolment on, over every run and at every moment after it, an agent is
  // locked out exactly when an answer that carried a certificate for it was lost,
  // or the clock has passed the last certificate it was issued, or, before the
  // first one, the token's time; unless it shows no certificate to a panel that
  // still takes its enrol token.
  lemma LockedOutIffLostOrLate(s: Sys, me: nat, token: nat, legacy: nat, strict: bool, es: seq<Event>, now: int)
    requires Sound(s) && token != 0 && Waiting(s, me, token) && Minded(s, me, token, es)
    requires legacy == s.panel.nodes[me].enrollToken
    ensures var end, issued := Run(s, token, es), Issued(s, token, es);
            var late := if issued.None? then now > s.panel.nodes[me].expires else now > issued.value.notAfter;
            LockedOut(end, token, legacy, strict, now)
            <==> (LostOne(s, token, es) || late) && (end.shown.Some? || !TakesEnrolToken(legacy, strict))
  {
    var end := Run(s, token, es);
    WhereARunLeads(s, me, token, es, end);
    if LostOne(s, token, es) {
      StrandedIsLockedOut(end, me, token, legacy, strict, now);
    } else if end.identity.None? {
      WaitingIsLockedOutIff(end, me, token, legacy, strict, now);
    } else {
      InStepIsLockedOutIff(end, me, token, legacy, strict, now);
    }
  }

  // The clock does not run backwards.
  predicate NotBefore(e: Event, now: int) {
    match e
    case Boots(q, _, _) => q.now >= now
    case Refreshes(q, _, _) => q.now >= now
    case Others(_) => true
  }

  // Locked out is for good: nothing the agent does, and nothing that happens to
  // the others, lets it in again, but for starting the agent anew when it holds no
  // certificate any more and the panel takes its enrol token.
  lemma LockedOutForGood(s: Sys, me: nat, token: nat, legacy: nat, strict: bool, es: seq<Event>, now: int, e: Event,
                         later: int)
    requires Sound(s) && token != 0 && Waiting(s, me, token) && legacy == s.panel.nodes[me].enrollToken
    requires Minded(s, me, token, es + [e]) && NotBefore(e, now) && now <= later
    requires LockedOut(Run(s, token, es), token, legacy, strict, now)
    ensures LockedOut(Run(s, token, es + [e]), token, legacy, strict, later)
            <==> !(e.Boots? && Run(s, token, es).identity.None? && TakesEnrolToken(legacy, strict))
  {
    assert (es + [e])[..|es|] == es;
    var end := Run(s, token, es);
    WhereARunLeads(s, me, token, es, end);
    LockedOutIffLostOrLate(s, me, token, legacy, strict, es, now);
    LockedOutIffLostOrLate(s, me, token, legacy, strict, es + [e], later);
    if LostOne(s, token, es) {
      StrandedStep(end, me, token, e);
    } else if end.identity.None? {
      assert Holder(end.panel.nodes, token) == Some(me);
    }
  }

  // ---- The three ways out, and one that stays in -------------------------------------

  function Enrolment(): Sys { Sys(Enrolled(NEW_PANEL, 1, 7, 9, 0), None, None) }

  lemma FirstAnswer(q: Ask, delivered: bool)
    requires q == Ask(0, true, 5, true, true)
    ensures var s, e := Enrolment(), Boots(q, delivered, Kept);
            && Sound(s) && Waiting(s, 1, 7) && Minded(s, 1, 7, []) && Minded(s, 1, 7, [e])
            && Answer(s, 7, e) == Some(Cert(5, 1, LEAF_TTL))
            && Run(s, 7, []) == s && Run(s, 7, [e]) == Next(s, 7, e)
            && LostOne(s, 7, [e]) == !delivered && Issued(s, 7, [e]) == Some(Cert(5, 1, LEAF_TTL))
  {
    var s, e := Enrolment(), Boots(q, delivered, Kept);
    assert [e][..0] == [];
    assert 1 in s.panel.nodes && s.panel.nodes[1].bootstrap == 7;
    assert Holder(s.panel.nodes, 7) == Some(1);
  }

  // The answer to the bootstrap is lost: out at once, though not on a panel that
  // takes the enrol token.
  lemma LosingTheAnswer(q: Ask)
    requires q == Ask(0, true, 5, true, true)
    ensures var end := Run(Enrolment(), 7, [Boots(q, false, Kept)]);
            LockedOut(end, 7, 9, true, 0) && !LockedOut(end, 7, 9, false, 0)
  {
    FirstAnswer(q, false);
    LockedOutIffLostOrLate(Enrolment(), 1, 7, 9, true, [Boots(q, false, Kept)], 0);
    LockedOutIffLostOrLate(Enrolment(), 1, 7, 9, false, [Boots(q, false, Kept)], 0);
  }

  // The certificate arrives and the node is then away for over thirty days.
  lemma AwayTooLong(q: Ask, strict: bool)
    requires q == Ask(0, true, 5, true, true)
    ensures var end := Run(Enrolment(), 7, [Boots(q, true, Kept)]);
            !LockedOut(end, 7, 9, strict, 30 * DAY) && LockedOut(end, 7, 9, strict, 30 * DAY + 1)
  {
    FirstAnswer(q, true);
    LockedOutIffLostOrLate(Enrolment(), 1, 7, 9, strict, [Boots(q, true, Kept)], 30 * DAY);
    LockedOutIffLostOrLate(Enrolment(), 1, 7, 9, strict, [Boots(q, true, Kept)], 30 * DAY + 1);
  }

  // The node first comes up half an hour after it was enrolled.
  lemma TooLateToStart(q: Ask)
    requires q == Ask(0, true, 5, true, true)
    ensures var end := Run(Enrolment(), 7, []);
            !LockedOut(end, 7, 9, true, 1800) && LockedOut(end, 7, 9, true, 1801) && !LockedOut(end, 7, 9, false, 1801)
  {
    FirstAnswer(q, true);
    LockedOutIffLostOrLate(Enrolment(), 1, 7, 9, true, [], 1800);
    LockedOutIffLostOrLate(Enrolment(), 1, 7, 9, true, [], 1801);
    LockedOutIffLostOrLate(Enrolment(), 1, 7, 9, false, [], 1801);
  }

  // A renewal of which the node stores the key and not the certificate: its open
  // connection goes on showing the one just revoked, and even a panel that takes
  // enrol tokens refuses it, until the agent is started again.
  lemma AHalfStoredRenewal(q: Ask, r: Ask, es: seq<Event>, again: Event)
    requires q == Ask(0, true, 5, true, true) && r == Ask(20 * DAY, true, 6, true, true)
    requires es == [Boots(q, true, Kept), Refreshes(r, true, KeyOnly)] && again == Boots(r.(serial := 7), true, Kept)
    ensures LockedOut(Run(Enrolment(), 7, es), 7, 9, false, 20 * DAY)
    ensures !LockedOut(Run(Enrolment(), 7, es + [again]), 7, 9, false, 20 * DAY)
  {
    var s, first := Enrolment(), [Boots(q, true, Kept)];
    FirstAnswer(q, true);
    assert es[..1] == first && (es + [again])[..2] == es;
    WhereARunLeads(s, 1, 7, first, Run(s, 7, first));
    LockedOutIffLostOrLate(s, 1, 7, 9, false, es, 20 * DAY);
    LockedOutForGood(s, 1, 7, 9, false, es, 20 * DAY, again, 20 * DAY);
  }
}
