// The panel's half of a node's certificate: enrol, bootstrap, renew, revoke.
//
// Tokens and serials are numbers, 0 standing for the empty string; a token
// stands for its hash. Times are seconds. One handler runs at a time.
module NodeCertificates {
  import opened Numerals

  const DAY: int := 24 * 3600
  const BOOTSTRAP_TTL: int := 30 * 60
  const LEAF_TTL: int := 30 * DAY
  const RENEW_BEFORE: int := 10 * DAY

  datatype Cert = Cert(serial: nat, node: nat, notAfter: int)

  datatype Node = Node(bootstrap: nat, expires: int, serial: nat, notAfter: int, enrollToken: nat)

  type Nodes = map<nat, Node>

  // What the panel knows, and what has happened: the certificates it handed
  // over, by serial, the tokens it ever minted, and what each one bought.
  datatype Panel = Panel(nodes: Nodes, revoked: set<nat>, file: set<nat>, certs: map<nat, Cert>, minted: set<nat>,
                         bought: multiset<nat>)

  // A request's surroundings: the clock, whether the certificate request is in
  // order, the serial drawn, and whether the two writes work.
  datatype Ask = Ask(now: int, csr: bool, serial: nat, saved: bool, wrote: bool)

  ghost function Holder(nodes: Nodes, token: nat): (r: Option<nat>)
    ensures r.Some? ==> r.value in nodes && nodes[r.value].bootstrap == token
    ensures r.Some? ==> forall id :: id in nodes && nodes[id].bootstrap == token ==> r.value <= id
    ensures r.None? ==> forall id :: id in nodes ==> nodes[id].bootstrap != token
  {
    if id :| id in nodes && nodes[id].bootstrap == token then Some(LeastHolder(nodes, token, id)) else None
  }

  ghost function LeastHolder(nodes: Nodes, token: nat, id: nat): (r: nat)
    requires id in nodes && nodes[id].bootstrap == token
    ensures r in nodes && nodes[r].bootstrap == token
    ensures forall j :: j in nodes && nodes[j].bootstrap == token ==> r <= j
  {
    if j :| j in nodes && nodes[j].bootstrap == token && j < id then LeastHolder(nodes, token, j) else id
  }

  function Revoked(p: Panel, serial: nat, wrote: bool): Panel {
    if serial == 0 then p
    else
      var revoked := p.revoked + {serial};
      p.(revoked := revoked, file := if wrote then revoked else p.file)
  }

  function Enrolled(p: Panel, id: nat, token: nat, enrollToken: nat, now: int): Panel {
    p.(nodes := p.nodes[id := Node(token, now + BOOTSTRAP_TTL, 0, 0, enrollToken)], minted := p.minted + {token})
  }

  function Issue(id: nat, q: Ask): Cert { Cert(q.serial, id, q.now + LEAF_TTL) }

  ghost predicate Sells(p: Panel, token: nat, q: Ask) {
    token != 0 && Holder(p.nodes, token).Some? && q.now <= p.nodes[Holder(p.nodes, token).value].expires
    && q.csr && q.saved
  }

  ghost function Bootstrapped(p: Panel, token: nat, q: Ask): (Panel, Option<Cert>) {
    if !Sells(p, token, q) then (p, None)
    else
      var id := Holder(p.nodes, token).value;
      var c := Issue(id, q);
      var row := p.nodes[id].(bootstrap := 0, expires := 0, serial := c.serial, notAfter := c.notAfter);
      (p.(nodes := p.nodes[id := row],
          certs := p.certs[c.serial := c], bought := p.bought + multiset{token}),
       Some(c))
  }

  // The node a presented certificate stands for.
  predicate Verifies(p: Panel, c: Cert, now: int) {
    c.serial !in p.revoked && now <= c.notAfter && c.node != 0
  }

  predicate Renews(p: Panel, c: Cert, q: Ask) {
    Verifies(p, c, q.now) && c.node in p.nodes && q.csr
  }

  function Renewed(p: Panel, c: Cert, q: Ask): (Panel, Option<Cert>) {
    if !Renews(p, c, q) then (p, None)
    else
      var issued := Issue(c.node, q);
      var was := p.nodes[c.node].serial;
      var r := if was != issued.serial then Revoked(p, was, q.wrote) else p;
      var row := p.nodes[c.node].(serial := issued.serial, notAfter := issued.notAfter);
      (r.(nodes := if q.saved then p.nodes[c.node := row] else p.nodes, certs := p.certs[issued.serial := issued]),
       Some(issued))
  }

  function Deleted(p: Panel, id: nat, gone: bool, wrote: bool): Panel {
    var r := if id in p.nodes then Revoked(p, p.nodes[id].serial, wrote) else p;
    if gone then r.(nodes := p.nodes - {id}) else r
  }

  function Restarted(p: Panel): Panel { p.(revoked := p.file) }

  ghost predicate HasToken(nodes: Nodes, id: nat, token: nat) { id in nodes && nodes[id].enrollToken == token }

  // Who a node-facing request comes from: the certificate decides when there
  // is one, the old enrol token only when there is none and the panel allows it.
  ghost predicate Authenticates(p: Panel, presented: Option<Cert>, token: nat, strict: bool, now: int, id: nat) {
    match presented
    case Some(c) => Verifies(p, c, now) && c.node in p.nodes && id == c.node
    case None => !strict && token != 0 && HasToken(p.nodes, id, token)
  }

  class CA {
    var revoked: set<nat>
    var file: set<nat>

    constructor ()
      ensures revoked == {} && file == {}
    {
      revoked, file := {}, {};
    }

    method Revoke(serial: nat, wrote: bool)
      modifies this
      ensures revoked == if serial == 0 then old(revoked) else old(revoked) + {serial}
      ensures file == if serial != 0 && wrote then revoked else old(file)
    {
      if serial == 0 { return; }
      revoked := revoked + {serial};
      if wrote { file := revoked; }
    }

    // Opening the CA again reads what the last run wrote.
    method Reopen()
      modifies this`revoked
      ensures revoked == file
    {
      revoked := file;
    }

    method Sign(csr: bool, id: nat, q: Ask) returns (r: Option<Cert>)
      ensures r == if id != 0 && csr then Some(Issue(id, q)) else None
    {
      if id == 0 || !csr { return None; }
      return Some(Cert(q.serial, id, q.now + LEAF_TTL));
    }
  }

  class Server {
    const ca: CA
    var nodes: Nodes
    ghost var certs: map<nat, Cert>
    ghost var minted: set<nat>
    ghost var bought: multiset<nat>

    ghost function State(): Panel
      reads this, ca
    {
      Panel(nodes, ca.revoked, ca.file, certs, minted, bought)
    }

    constructor ()
      ensures State() == Panel(map[], {}, {}, map[], {}, multiset{}) && fresh(ca)
    {
      ca := new CA();
      nodes, certs, minted, bought := map[], map[], {}, multiset{};
    }

    method Enroll(id: nat, token: nat, enrollToken: nat, now: int)
      modifies this
      ensures State() == Enrolled(old(State()), id, token, enrollToken, now)
    {
      nodes := nodes[id := Node(token, now + BOOTSTRAP_TTL, 0, 0, enrollToken)];
      minted := minted + {token};
    }

    method FindByBootstrap(token: nat) returns (r: Option<nat>)
      ensures r == Holder(nodes, token)
    {
      ghost var h := Holder(nodes, token);
      if exists id :: id in nodes && nodes[id].bootstrap == token {
        assert h.Some?;
        var id :| id in nodes && nodes[id].bootstrap == token
                  && forall j | j in nodes && nodes[j].bootstrap == token :: id <= j;
        return Some(id);
      }
      return None;
    }

    method Bootstrap(token: nat, q: Ask) returns (r: Option<Cert>)
      requires 0 !in nodes
      modifies this
      ensures (State(), r) == Bootstrapped(old(State()), token, q)
    {
      if token == 0 { return None; }
      var holder := FindByBootstrap(token);
      if holder.None? { return None; }
      var id := holder.value;
      if q.now > nodes[id].expires { return None; }
      var issued := ca.Sign(q.csr, id, q);
      if issued.None? { return None; }
      var c := issued.value;
      if !q.saved { return None; }
      nodes := nodes[id := nodes[id].(bootstrap := 0, expires := 0, serial := c.serial, notAfter := c.notAfter)];
      certs := certs[c.serial := c];
      bought := bought + multiset{token};
      return Some(c);
    }

    method Renew(c: Cert, q: Ask) returns (r: Option<Cert>)
      modifies this, ca
      ensures (State(), r) == Renewed(old(State()), c, q)
    {
      if c.serial in ca.revoked || q.now > c.notAfter || c.node == 0 { return None; }
      if c.node !in nodes { return None; }
      var n := nodes[c.node];
      var issued := ca.Sign(q.csr, c.node, q);
      if issued.None? { return None; }
      if n.serial != 0 && n.serial != issued.value.serial {
        ca.Revoke(n.serial, q.wrote);
      }
      if q.saved {
        nodes := nodes[c.node := n.(serial := issued.value.serial, notAfter := issued.value.notAfter)];
      }
      certs := certs[issued.value.serial := issued.value];
      return issued;
    }

    method Authenticate(presented: Option<Cert>, token: nat, strict: bool, now: int) returns (r: Option<nat>)
      ensures r.Some? ==> Authenticates(State(), presented, token, strict, now, r.value)
      ensures r.None? ==> forall id :: !Authenticates(State(), presented, token, strict, now, id)
    {
      if presented.Some? {
        var c := presented.value;
        if c.serial in ca.revoked || now > c.notAfter || c.node == 0 || c.node !in nodes { return None; }
        return Some(c.node);
      }
      if strict || token == 0 { return None; }
      if exists id :: id in nodes && nodes[id].enrollToken == token {
        var id :| id in nodes && nodes[id].enrollToken == token;
        return Some(id);
      }
      return None;
    }

    method Delete(id: nat, gone: bool, wrote: bool)
      modifies this, ca
      ensures State() == Deleted(old(State()), id, gone, wrote)
    {
      if id in nodes && nodes[id].serial != 0 {
        ca.Revoke(nodes[id].serial, wrote);
      }
      if gone { nodes := nodes - {id}; }
    }

    method Restart()
      modifies ca
      ensures State() == Restarted(old(State()))
    {
      ca.Reopen();
    }
  }

  // Every certificate that still works is the one its node's row records.
  predicate WorkingIsRecorded(p: Panel) {
    forall s :: s in p.certs && s !in p.revoked ==> p.certs[s].node in p.nodes && p.nodes[p.certs[s].node].serial == s
  }

  predicate Books(p: Panel) {
    && 0 !in p.nodes && 0 !in p.certs
    && (forall s :: s in p.certs ==> p.certs[s].serial == s)
    && (forall s :: s in p.revoked ==> s in p.certs)
    && (forall id :: id in p.nodes && p.nodes[id].serial != 0 ==>
          p.nodes[id].serial in p.certs && p.certs[p.nodes[id].serial].node == id)
  }

  // No token has bought two certificates, and an unspent one has bought none.
  predicate Tokens(p: Panel) {
    && (forall t :: t in p.bought ==> t in p.minted && p.bought[t] <= 1)
    && (forall id :: id in p.nodes && p.nodes[id].bootstrap != 0 ==>
          p.nodes[id].serial == 0 && p.nodes[id].bootstrap in p.minted && p.nodes[id].bootstrap !in p.bought)
    && (forall a, b :: a in p.nodes && b in p.nodes && a != b && p.nodes[a].bootstrap != 0 ==>
          p.nodes[a].bootstrap != p.nodes[b].bootstrap)
  }

  predicate Safe(p: Panel) { WorkingIsRecorded(p) && Books(p) && Tokens(p) && p.file <= p.revoked }

  datatype Op =
    | Enroll(id: nat, token: nat, enrollToken: nat, now: int)
    | Bootstrap(token: nat, q: Ask)
    | Renew(cert: Cert, q: Ask)
    | Delete(id: nat, gone: bool, wrote: bool)
    | Restart

  // Fresh ids, tokens and serials; a presented certificate is one the panel signed.
  predicate Lawful(p: Panel, op: Op) {
    match op
    case Enroll(id, token, _, _) => id != 0 && id !in p.nodes && token != 0 && token !in p.minted
    case Bootstrap(_, q) => FreshSerial(p, q.serial)
    case Renew(c, q) => FreshSerial(p, q.serial) && c.serial in p.certs && p.certs[c.serial] == c
    case Delete(_, _, _) => true
    case Restart => true
  }

  predicate FreshSerial(p: Panel, s: nat) { s != 0 && s !in p.certs && s !in p.revoked }

  ghost function After(p: Panel, op: Op): Panel {
    match op
    case Enroll(id, token, enrollToken, now) => Enrolled(p, id, token, enrollToken, now)
    case Bootstrap(token, q) => Bootstrapped(p, token, q).0
    case Renew(c, q) => Renewed(p, c, q).0
    case Delete(id, gone, wrote) => Deleted(p, id, gone, wrote)
    case Restart => Restarted(p)
  }

  lemma EnrollIsSafe(p: Panel, id: nat, token: nat, enrollToken: nat, now: int)
    requires Safe(p) && Lawful(p, Enroll(id, token, enrollToken, now))
    ensures Safe(Enrolled(p, id, token, enrollToken, now))
  {
  }

  lemma BootstrapIsSafe(p: Panel, token: nat, q: Ask)
    requires Safe(p) && FreshSerial(p, q.serial)
    ensures Safe(Bootstrapped(p, token, q).0)
  {
  }

  lemma DeleteIsSafe(p: Panel, id: nat, gone: bool, wrote: bool)
    requires Safe(p)
    ensures Safe(Deleted(p, id, gone, wrote))
  {
  }

  // The row is written after the new certificate is signed and the old one
  // revoked, and the handler answers whether or not that write worked.
  lemma RenewIsSafeIff(p: Panel, c: Cert, q: Ask)
    requires Safe(p) && Lawful(p, Renew(c, q)) && Renews(p, c, q)
    ensures Safe(Renewed(p, c, q).0) <==> q.saved
  {
    var now := Renewed(p, c, q).0;
    assert now.certs[q.serial] == Issue(c.node, q);
  }

  // The revocation that cannot be written to disk is forgotten by a restart.
  lemma RenewalSurvivesRestartIff(p: Panel, c: Cert, q: Ask)
    requires Safe(p) && p.file == p.revoked && Lawful(p, Renew(c, q)) && Renews(p, c, q) && q.saved
    ensures Safe(Restarted(Renewed(p, c, q).0)) <==> q.wrote
  {
    var now := Restarted(Renewed(p, c, q).0);
    assert p.nodes[c.node].serial == c.serial;
    if q.wrote {
      RenewIsSafeIff(p, c, q);
    } else {
      assert c.serial in now.certs && c.serial !in now.revoked;
    }
  }

  lemma DeletionSurvivesRestartIff(p: Panel, id: nat, wrote: bool)
    requires Safe(p) && p.file == p.revoked && id in p.nodes
    requires p.nodes[id].serial != 0 && p.nodes[id].serial !in p.revoked
    ensures Safe(Restarted(Deleted(p, id, true, wrote))) <==> wrote
  {
    var now := Restarted(Deleted(p, id, true, wrote));
    if wrote {
      DeleteIsSafe(p, id, true, true);
    } else {
      assert p.nodes[id].serial in now.certs && p.nodes[id].serial !in now.revoked;
    }
  }

  ghost function RunOps(p: Panel, ops: seq<Op>): Panel {
    if ops == [] then p else After(RunOps(p, ops[..|ops| - 1]), ops[|ops| - 1])
  }

  ghost predicate LawfulRun(p: Panel, ops: seq<Op>) {
    ops != [] ==> LawfulRun(p, ops[..|ops| - 1]) && Lawful(RunOps(p, ops[..|ops| - 1]), ops[|ops| - 1])
  }

  predicate WritesWork(op: Op) {
    match op
    case Renew(_, q) => q.saved && q.wrote
    case Delete(_, _, wrote) => wrote
    case _ => true
  }

  const NEW_PANEL := Panel(map[], {}, {}, map[], {}, multiset{})

  // Over every sequence of requests, from whoever holds a certificate or a
  // token, and every restart.
  lemma {:induction false} EveryRunIsSafe(ops: seq<Op>, p: Panel)
    requires LawfulRun(NEW_PANEL, ops) && forall k :: 0 <= k < |ops| ==> WritesWork(ops[k])
    requires p == RunOps(NEW_PANEL, ops)
    ensures Safe(p) && p.file == p.revoked
  {
    if ops != [] {
      var earlier, op := ops[..|ops| - 1], ops[|ops| - 1];
      var was := RunOps(NEW_PANEL, earlier);
      EveryRunIsSafe(earlier, was);
      StepIsSafe(was, op);
    }
  }

  lemma StepIsSafe(p: Panel, op: Op)
    requires Safe(p) && p.file == p.revoked && Lawful(p, op) && WritesWork(op)
    ensures Safe(After(p, op)) && After(p, op).file == After(p, op).revoked
  {
    match op
    case Enroll(id, token, enrollToken, now) => EnrollIsSafe(p, id, token, enrollToken, now);
    case Bootstrap(token, q) => BootstrapIsSafe(p, token, q);
    case Renew(c, q) => if Renews(p, c, q) { RenewIsSafeIff(p, c, q); }
    case Delete(id, gone, wrote) => DeleteIsSafe(p, id, gone, wrote);
    case Restart =>
  }

  // What the three promises come to: a token's second use buys nothing, a live
  // node has one working certificate at most, a deleted node none.
  lemma SafeMeans(p: Panel, token: nat, q: Ask, c: Cert, d: Cert)
    requires Safe(p) && c.serial in p.certs && p.certs[c.serial] == c && d.serial in p.certs && p.certs[d.serial] == d
    ensures token in p.bought ==> Bootstrapped(p, token, q) == (p, None)
    ensures c.node == d.node && c.serial !in p.revoked && d.serial !in p.revoked ==> c == d
    ensures c.node !in p.nodes ==> !Verifies(p, c, q.now)
  {
    if token in p.bought && token != 0 {
      assert Holder(p.nodes, token).None? by {
        forall id | id in p.nodes ensures p.nodes[id].bootstrap != token { }
      }
    }
  }

  // ---- One node, enrolled and given its first certificate --------------------------

  function FirstAsk(): Ask { Ask(0, true, 5, true, true) }

  ghost function OneNode(): Panel { Bootstrapped(Enrolled(NEW_PANEL, 1, 7, 9, 0), 7, FirstAsk()).0 }

  function FirstCert(): Cert { Issue(1, FirstAsk()) }

  lemma JustEnrolled(e: Panel)
    requires e == Enrolled(NEW_PANEL, 1, 7, 9, 0)
    ensures Safe(e) && Holder(e.nodes, 7) == Some(1)
  {
    assert 1 in e.nodes && e.nodes[1].bootstrap == 7;
    EnrollIsSafe(NEW_PANEL, 1, 7, 9, 0);
  }

  lemma OneNodeIs(p: Panel)
    requires p == OneNode()
    ensures Safe(p) && p.file == p.revoked == {} && p.certs == map[5 := FirstCert()]
    ensures p.nodes == map[1 := Node(0, 0, 5, LEAF_TTL, 9)]
  {
    var e := Enrolled(NEW_PANEL, 1, 7, 9, 0);
    JustEnrolled(e);
    BootstrapIsSafe(e, 7, FirstAsk());
    assert p.nodes.Keys == {1};
  }

  lemma OneNodeIsReached()
    ensures OneNode() == RunOps(NEW_PANEL, [Enroll(1, 7, 9, 0), Bootstrap(7, FirstAsk())])
    ensures LawfulRun(NEW_PANEL, [Enroll(1, 7, 9, 0), Bootstrap(7, FirstAsk())])
  {
    var enroll, boot := Enroll(1, 7, 9, 0), Bootstrap(7, FirstAsk());
    assert [enroll, boot][..1] == [enroll] && [enroll][..0] == [];
    assert RunOps(NEW_PANEL, [enroll]) == Enrolled(NEW_PANEL, 1, 7, 9, 0);
    assert LawfulRun(NEW_PANEL, [enroll]);
  }

  // A renewal on the twentieth day whose row cannot be written: the certificate
  // handed over works, nobody has it on record, and deleting the node revokes
  // another.
  lemma AnUnrecordedCertificate(q: Ask)
    requires q == Ask(20 * DAY, true, 6, false, true)
    ensures var p := Renewed(OneNode(), FirstCert(), q).0;
            && Renews(OneNode(), FirstCert(), q) && !Safe(p)
            && Verifies(p, Issue(1, q), q.now) && p.nodes[1].serial == 5
            && 6 !in Deleted(p, 1, true, true).revoked
  {
    OneNodeIs(OneNode());
    RenewIsSafeIff(OneNode(), FirstCert(), q);
  }

  // The list of revoked certificates cannot be written: after a restart both the
  // replaced certificate and its replacement work.
  lemma AReplacedCertificateComesBack(q: Ask)
    requires q == Ask(20 * DAY, true, 6, true, false)
    ensures var p := Restarted(Renewed(OneNode(), FirstCert(), q).0);
            !Safe(p) && Verifies(p, FirstCert(), q.now) && Verifies(p, Issue(1, q), q.now)
  {
    OneNodeIs(OneNode());
    RenewalSurvivesRestartIff(OneNode(), FirstCert(), q);
  }

  // Nor does a deleted node's certificate stay revoked.
  lemma ADeletedNodesCertificateComesBack()
    ensures var p := Deleted(OneNode(), 1, true, false);
            && !Verifies(p, FirstCert(), DAY) && !Safe(Restarted(p)) && Verifies(Restarted(p), FirstCert(), DAY)
  {
    OneNodeIs(OneNode());
    DeletionSurvivesRestartIff(OneNode(), 1, false);
  }
}
