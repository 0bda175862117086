// What the bounded limiter keeps over whole runs, against the limiter it stands
// in for: one that never forgets an entry on its own.
module LimiterRuns {
  import opened LoginLimiter
  import opened IpKeys

  datatype Op =
    | Allowed(key: string)
    | AllowedKey(key: string, budget: nat)
    | Fail(key: string)
    | FailKey(key: string)
    | Success(key: string)

  // An operation, when it happened, and the entry a scan for a victim settled on.
  datatype Event = Event(op: Op, now: int, victim: string)

  function Apply(t: Table, e: Event): Table {
    match e.op
    case Allowed(key) => AllowedNext(t, key, e.now).0
    case AllowedKey(key, budget) => AllowedKeyNext(t, key, budget, e.now).0
    case Fail(key) => FailNext(t, key, e.now, e.victim).0
    case FailKey(key) => FailKeyNext(t, key, e.now, e.victim)
    case Success(key) => SuccessNext(t, key)
  }

  function Run(t: Table, es: seq<Event>): Table {
    if es == [] then t else Apply(Run(t, es[..|es| - 1]), es[|es| - 1])
  }

  predicate Records(op: Op) { op.Fail? || op.FailKey? }

  predicate Sweeps(op: Op) { !op.Success? }

  // Addresses fail through Fail and usernames through FailKey, never crosswise.
  predicate Namespaced(op: Op) {
    (op.Fail? ==> !IsUserKey(op.key)) && (op.FailKey? ==> IsUserKey(op.key))
  }

  // The time of the last event, or the start.
  function Clock(start: int, es: seq<Event>): int {
    if es == [] then start else es[|es| - 1].now
  }

  // A run with a clock that never goes back, and scans that pick a real victim.
  predicate Runs(t: Table, start: int, es: seq<Event>) {
    es == [] ||
    var init, e := es[..|es| - 1], es[|es| - 1];
    && Runs(t, start, init)
    && 0 < start <= Clock(start, init) <= e.now
    && Namespaced(e.op)
    && (Records(e.op) ==> VictimOk(Run(t, init), e.op.key, e.now, e.victim))
  }

  function Empty(maxEntries: nat, ttl: int): Table { Table(map[], 0, maxEntries, ttl) }

  // ---- Size ----------------------------------------------------------------

  lemma FewerKeys(m: Entries, n: Entries)
    requires forall k :: k in m ==> k in n
    ensures |m| <= |n|
    ensures |m| == |n| ==> m.Keys == n.Keys
  {
    assert m.Keys <= n.Keys;
    SubsetSize(m.Keys, n.Keys);
  }

  lemma {:induction false} SubsetSize<T>(a: set<T>, b: set<T>)
    requires a <= b
    ensures |a| <= |b| && (|a| == |b| ==> a == b)
  {
    if a != {} {
      var x :| x in a;
      SubsetSize(a - {x}, b - {x});
    }
  }

  lemma OneMore(m: Entries, k: string, e: Entry)
    ensures |m[k := e]| == if k in m then |m| else |m| + 1
  {
    assert m[k := e].Keys == m.Keys + {k};
  }

  lemma OneLess(m: Entries, k: string)
    ensures |m - {k}| == if k in m then |m| - 1 else |m|
  {
    assert (m - {k}).Keys == m.Keys - {k};
  }

  // A failure on a key the table does not hold keeps within the bound exactly when
  // the scan for a victim, if one was needed, did not settle on the empty key.
  lemma FailureFitsIff(t: Table, key: string, now: int, victim: string)
    requires 1 <= t.maxEntries && |t.entries| <= t.maxEntries
    requires VictimOk(t, key, now, victim)
    ensures var s := Swept(t, now);
            |Opened(t, key, now, victim).0.entries[key := Entry(1, 0, now)]| <= t.maxEntries
            <==> key in s.entries || !NeedsVictim(s, now) || victim != ""
  {
    var s := Swept(t, now);
    FewerKeys(s.entries, t.entries);
    var left := Unexpired(s.entries, now, t.ttl);
    FewerKeys(left, s.entries);
    OneLess(left, victim);
    OneMore(Opened(t, key, now, victim).0.entries, key, Entry(1, 0, now));
  }

  // The bound does fail for the empty key: here it was seen least recently, so
  // nothing is evicted and the table outgrows its limit.
  lemma EmptyKeyOverflows()
    ensures var t := Table(map["" := Entry(1, 0, 10)], 10, 1, LIMITER_ENTRY_TTL);
            && VictimOk(t, "a", 11, "")
            && |FailNext(t, "a", 11, "").0.entries| == 2 > t.maxEntries
  {
    var t := Table(map["" := Entry(1, 0, 10)], 10, 1, LIMITER_ENTRY_TTL);
    assert Unexpired(t.entries, 11, t.ttl) == t.entries;
    OneMore(t.entries, "a", Failed(Entry(0, 0, 0), 11));
  }

  lemma StaysBounded(t: Table, e: Event)
    requires 1 <= t.maxEntries && |t.entries| <= t.maxEntries && "" !in t.entries
    requires e.op.key != "" && (Records(e.op) ==> VictimOk(t, e.op.key, e.now, e.victim))
    ensures var t' := Apply(t, e); |t'.entries| <= t.maxEntries == t'.maxEntries && "" !in t'.entries
  {
    var s := Swept(t, e.now);
    FewerKeys(s.entries, t.entries);
    match e.op {
      case Allowed(key) => OneMore(s.entries, key, Entry(0, 0, 0)); FewerKeys(Apply(t, e).entries, s.entries);
      case AllowedKey(key, budget) => FewerKeys(Apply(t, e).entries, s.entries);
      case Fail(key) => RecordFits(t, e);
      case FailKey(key) => RecordFits(t, e);
      case Success(key) => OneLess(t.entries, key);
    }
  }

  lemma RecordFits(t: Table, e: Event)
    requires 1 <= t.maxEntries && |t.entries| <= t.maxEntries && "" !in t.entries
    requires e.op.key != "" && Records(e.op) && VictimOk(t, e.op.key, e.now, e.victim)
    ensures var t' := Apply(t, e); |t'.entries| <= t.maxEntries == t'.maxEntries && "" !in t'.entries
  {
    var key := e.op.key;
    FailureFitsIff(t, key, e.now, e.victim);
    var roomy := Opened(t, key, e.now, e.victim).0.entries;
    OneMore(roomy, key, Entry(1, 0, e.now));
    OneMore(roomy, key, Apply(t, e).entries[key]);
    var left := Unexpired(Swept(t, e.now).entries, e.now, t.ttl);
    assert NeedsVictim(Swept(t, e.now), e.now) ==> left != map[];
  }

  // Over every run with non-empty keys the table never outgrows its limit.
  lemma {:induction false} NeverOutgrows(maxEntries: nat, ttl: int, start: int, es: seq<Event>)
    requires 1 <= maxEntries && Runs(Empty(maxEntries, ttl), start, es)
    requires forall i :: 0 <= i < |es| ==> es[i].op.key != ""
    ensures var t := Run(Empty(maxEntries, ttl), es);
            |t.entries| <= maxEntries == t.maxEntries && "" !in t.entries
  {
    if es != [] {
      var init := es[..|es| - 1];
      NeverOutgrows(maxEntries, ttl, start, init);
      StaysBounded(Run(Empty(maxEntries, ttl), init), es[|es| - 1]);
    }
  }

  // ---- Expiry --------------------------------------------------------------

  // A lock never outlives the last sight of its key by more than the longest
  // backoff, and nothing in the table was stale at the last sweep.
  ghost predicate Timely(t: Table, clock: int) {
    && 0 <= t.lastSweep <= clock
    && (t.lastSweep == 0 ==> t.entries == map[])
    && (forall k :: k in t.entries ==>
          && t.entries[k].lockedTill <= t.entries[k].lastSeen + MAX_BACKOFF
          && t.entries[k].lastSeen <= clock
          && t.lastSweep - t.entries[k].lastSeen < t.ttl)
  }

  lemma SweepStaysTimely(t: Table, clock: int, now: int)
    requires MAX_BACKOFF < t.ttl && Timely(t, clock) && 0 < clock <= now
    ensures Timely(Swept(t, now), now) && now - Swept(t, now).lastSweep < LIMITER_SWEEP_EVERY
    ensures Swept(t, now).ttl == t.ttl && 0 < Swept(t, now).lastSweep
  {
  }

  lemma EventStaysTimely(t: Table, clock: int, e: Event)
    requires MAX_BACKOFF < t.ttl && Timely(t, clock) && 0 < clock <= e.now
    ensures Timely(Apply(t, e), e.now) && Apply(t, e).ttl == t.ttl
    ensures Sweeps(e.op) ==> 0 < Apply(t, e).lastSweep && e.now - Apply(t, e).lastSweep < LIMITER_SWEEP_EVERY
  {
    SweepStaysTimely(t, clock, e.now);
    if Records(e.op) {
      var f := Opened(t, e.op.key, e.now, e.victim).1.fails;
      BackoffIsBoundedAndGrows(f + 1);
    }
  }

  lemma {:induction false} RunStaysTimely(maxEntries: nat, ttl: int, start: int, es: seq<Event>)
    requires MAX_BACKOFF < ttl && 0 < start && Runs(Empty(maxEntries, ttl), start, es)
    ensures Timely(Run(Empty(maxEntries, ttl), es), Clock(start, es)) && Run(Empty(maxEntries, ttl), es).ttl == ttl
    ensures start <= Clock(start, es)
  {
    if es != [] {
      var init := es[..|es| - 1];
      RunStaysTimely(maxEntries, ttl, start, init);
      EventStaysTimely(Run(Empty(maxEntries, ttl), init), Clock(start, init), es[|es| - 1]);
    }
  }

  // After any call that may sweep, an entry idle for the time to live and one
  // sweep interval is gone, whatever lock it once held.
  lemma StaleEntriesAreGone(maxEntries: nat, ttl: int, start: int, es: seq<Event>, key: string)
    requires MAX_BACKOFF < ttl && 0 < start && es != [] && Sweeps(es[|es| - 1].op)
    requires Runs(Empty(maxEntries, ttl), start, es)
    ensures var t := Run(Empty(maxEntries, ttl), es);
            key in t.entries ==> Clock(start, es) - t.entries[key].lastSeen < ttl + LIMITER_SWEEP_EVERY
  {
    var init := es[..|es| - 1];
    RunStaysTimely(maxEntries, ttl, start, init);
    EventStaysTimely(Run(Empty(maxEntries, ttl), init), Clock(start, init), es[|es| - 1]);
  }

  // A lock in force is lost in one way only, apart from a success: its entry was
  // the least recently seen of a table with nothing expired to drop.
  lemma LockInForceIsKeptIff(t: Table, e: Event, key: string)
    requires key in t.entries && e.now <= t.entries[key].lockedTill
    requires e.op.key != key && (Records(e.op) ==> VictimOk(t, e.op.key, e.now, e.victim))
    ensures var s := Swept(t, e.now);
            (key in Apply(t, e).entries && Apply(t, e).entries[key] == t.entries[key])
            <==> !(Records(e.op) && e.op.key !in s.entries && NeedsVictim(s, e.now) && e.victim == key && key != "")
  {
    var s := Swept(t, e.now);
    assert key in s.entries && s.entries[key] == t.entries[key];
    assert key in Unexpired(s.entries, e.now, s.ttl);
  }

  // ---- The unbounded limiter it refines ------------------------------------

  function Known(m: Entries, key: string): Entry { if key in m then m[key] else Entry(0, 0, 0) }

  function Seen(m: Entries, key: string, now: int): Entries {
    if key in m then m[key := m[key].(lastSeen := now)] else m
  }

  function ApplyUnbounded(m: Entries, e: Event): Entries {
    match e.op
    case Allowed(key) => Seen(m, key, e.now)
    case AllowedKey(key, budget) => Seen(m, key, e.now)
    case Fail(key) => m[key := Failed(Known(m, key), e.now)]
    case FailKey(key) => m[key := FailedKey(Known(m, key), e.now)]
    case Success(key) => m - {key}
  }

  function RunUnbounded(es: seq<Event>): Entries {
    if es == [] then map[] else ApplyUnbounded(RunUnbounded(es[..|es| - 1]), es[|es| - 1])
  }

  predicate PassesAddress(m: Entries, key: string, now: int) { key in m ==> !(now < m[key].lockedTill) }

  predicate PassesUser(m: Entries, key: string, budget: nat, now: int) {
    key in m ==> m[key].fails < budget || !(now < m[key].lockedTill)
  }

  // Entry by entry, the bounded table is at most as strict.
  ghost predicate Milder(t: Entries, m: Entries) {
    forall k :: k in t ==> k in m && t[k].fails <= m[k].fails && t[k].lockedTill <= m[k].lockedTill
  }

  ghost predicate LocksFollowFails(m: Entries, clock: int) {
    forall k :: k in m && !IsUserKey(k) ==> m[k].lockedTill <= clock + Backoff(m[k].fails)
  }

  lemma EventStaysMilder(t: Table, m: Entries, clock: int, e: Event)
    requires Milder(t.entries, m) && LocksFollowFails(m, clock) && 0 < clock <= e.now && Namespaced(e.op)
    requires forall k :: k in m ==> 0 <= m[k].lockedTill
    ensures Milder(Apply(t, e).entries, ApplyUnbounded(m, e)) && LocksFollowFails(ApplyUnbounded(m, e), e.now)
    ensures forall k :: k in ApplyUnbounded(m, e) ==> 0 <= ApplyUnbounded(m, e)[k].lockedTill
  {
    var s := Swept(t, e.now);
    assert Milder(s.entries, m);
    forall k | k in m && !IsUserKey(k) ensures m[k].lockedTill <= e.now + Backoff(m[k].fails) { }
    if Records(e.op) {
      var key := e.op.key;
      var (roomy, was) := Opened(t, key, e.now, e.victim);
      assert Milder(roomy.entries, m);
      if e.op.Fail? {
        FailedStaysMilder(was, Known(m, key), e.now);
      }
    }
  }

  lemma FailedStaysMilder(was: Entry, known: Entry, now: int)
    requires was.fails <= known.fails && was.lockedTill <= known.lockedTill
    requires 0 <= known.lockedTill <= now + Backoff(known.fails) && 0 < now
    ensures var a, b := Failed(was, now), Failed(known, now);
            && a.fails <= b.fails && a.lockedTill <= b.lockedTill
            && 0 <= b.lockedTill <= now + Backoff(b.fails)
  {
    BackoffMonotone(was.fails + 1, known.fails + 1);
    BackoffMonotone(known.fails, known.fails + 1);
    BackoffIsBoundedAndGrows(known.fails + 1);
  }

  lemma {:induction false} RunStaysMilder(maxEntries: nat, ttl: int, start: int, es: seq<Event>)
    requires 0 < start && Runs(Empty(maxEntries, ttl), start, es)
    ensures Milder(Run(Empty(maxEntries, ttl), es).entries, RunUnbounded(es))
    ensures LocksFollowFails(RunUnbounded(es), Clock(start, es)) && start <= Clock(start, es)
    ensures forall k :: k in RunUnbounded(es) ==> 0 <= RunUnbounded(es)[k].lockedTill
  {
    if es != [] {
      var init := es[..|es| - 1];
      RunStaysMilder(maxEntries, ttl, start, init);
      EventStaysMilder(Run(Empty(maxEntries, ttl), init), RunUnbounded(init), Clock(start, init), es[|es| - 1]);
    }
  }

  // Whatever it swept or evicted, the bounded limiter never refuses a login the
  // unbounded one would let through.
  lemma NeverStricter(maxEntries: nat, ttl: int, start: int, es: seq<Event>, key: string, budget: nat, now: int)
    requires 0 < start && Runs(Empty(maxEntries, ttl), start, es) && Clock(start, es) <= now
    ensures var t, m := Run(Empty(maxEntries, ttl), es), RunUnbounded(es);
            && (PassesAddress(m, key, now) ==> AllowedNext(t, key, now).1)
            && (PassesUser(m, key, budget, now) ==> AllowedKeyNext(t, key, budget, now).1)
  {
    RunStaysMilder(maxEntries, ttl, start, es);
  }

  // An event leaves the memory of one key intact: a scan for a victim, if the
  // event made one, settled on another entry, and if the event is the key's own
  // visit, it comes within the time to live of the last. What other keys do, and
  // when they last did it, is of no account.
  predicate Spares(t: Table, m: Entries, e: Event, key: string) {
    var s := Swept(t, e.now);
    && (Records(e.op) && e.op.key !in s.entries && NeedsVictim(s, e.now) ==> e.victim != key)
    && (e.op.key == key && key in m && !e.op.Success? ==> e.now - m[key].lastSeen < t.ttl)
  }

  predicate SparingRun(t: Table, es: seq<Event>, key: string) {
    es == [] ||
    var init := es[..|es| - 1];
    SparingRun(t, init, key) && Spares(Run(t, init), RunUnbounded(init), es[|es| - 1], key)
  }

  // The table holds what the unbounded limiter knows of the key, unless idle too long.
  predicate Remembers(t: Table, m: Entries, key: string, clock: int) {
    && (key in t.entries ==> key in m && t.entries[key] == m[key])
    && (key in m && clock - m[key].lastSeen < t.ttl ==> key in t.entries)
  }

  lemma SweptRemembers(t: Table, m: Entries, key: string, clock: int, now: int)
    requires Remembers(t, m, key, clock) && clock <= now
    ensures Remembers(Swept(t, now), m, key, now)
  {
  }

  lemma EventStaysRemembered(t: Table, m: Entries, clock: int, e: Event, key: string)
    requires Remembers(t, m, key, clock) && clock <= e.now && Spares(t, m, e, key)
    ensures Remembers(Apply(t, e), ApplyUnbounded(m, e), key, e.now)
  {
    SweptRemembers(t, m, key, clock, e.now);
    var s := Swept(t, e.now);
    if Records(e.op) {
      var (roomy, was) := Opened(t, e.op.key, e.now, e.victim);
      if e.op.key == key {
        assert was == Known(m, key);
      } else {
        assert Remembers(roomy, m, key, e.now);
      }
    }
  }

  lemma {:induction false} SparingRunRemembers(maxEntries: nat, ttl: int, start: int, es: seq<Event>, key: string)
    requires Runs(Empty(maxEntries, ttl), start, es) && SparingRun(Empty(maxEntries, ttl), es, key)
    ensures Remembers(Run(Empty(maxEntries, ttl), es), RunUnbounded(es), key, Clock(start, es))
    ensures Run(Empty(maxEntries, ttl), es).ttl == ttl
  {
    if es != [] {
      var init := es[..|es| - 1];
      SparingRunRemembers(maxEntries, ttl, start, init, key);
      EventStaysRemembered(Run(Empty(maxEntries, ttl), init), RunUnbounded(init), Clock(start, init),
                           es[|es| - 1], key);
    }
  }

  // For a key that was never evicted and never stayed away a time to live, the
  // two limiters are indistinguishable, whatever the other keys did: the same
  // entry, and the same answers.
  lemma AgreesOnKeysThatStay(maxEntries: nat, ttl: int, start: int, es: seq<Event>, key: string, budget: nat, now: int)
    requires Runs(Empty(maxEntries, ttl), start, es) && SparingRun(Empty(maxEntries, ttl), es, key)
    requires Clock(start, es) <= now
    requires key in RunUnbounded(es) ==> now - RunUnbounded(es)[key].lastSeen < ttl
    ensures var t, m := Run(Empty(maxEntries, ttl), es), RunUnbounded(es);
            && (key in m <==> key in t.entries)
            && (key in m ==> t.entries[key] == m[key])
            && (PassesAddress(m, key, now) <==> AllowedNext(t, key, now).1)
            && (PassesUser(m, key, budget, now) <==> AllowedKeyNext(t, key, budget, now).1)
  {
    SparingRunRemembers(maxEntries, ttl, start, es, key);
  }
}
