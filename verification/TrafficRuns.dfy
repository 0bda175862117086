// What billing by running totals guarantees over whole runs.
module TrafficRuns {
  import opened NodeTraffic
  import opened Numerals

  // ---- Repeated and retried heartbeats -------------------------------------

  lemma RetriedCounter(b: Books, r: Report, key: string, id: nat)
    requires r.cumulative && key in r.counters && InRange(b)
    ensures var mid, again := Account(b, r), r.(broken := {});
            && ChargeTo(b, r, key, id) + ChargeTo(mid, again, key, id) == ChargeTo(b, again, key, id)
            && 0 <= ChargeTo(b, r, key, id) && 0 <= ChargeTo(mid, again, key, id)
            && (var v, w := VerdictOn(mid, again, key).baseline, VerdictOn(b, again, key).baseline;
                (if v.Some? then v else Baseline(mid, r.node, key))
                == (if w.Some? then w else Baseline(b, r.node, key)))
  {
    var mid := Account(b, r);
    var v := VerdictOn(b, r, key);
    assert Baseline(mid, r.node, key) == if v.baseline.Some? then v.baseline else Baseline(b, r.node, key);
  }

  lemma {:induction false} RetriedCharge(b: Books, r: Report, keys: set<string>, id: nat)
    requires r.cumulative && keys <= r.counters.Keys && InRange(b)
    ensures Charged(b, r, keys, id) + Charged(Account(b, r), r.(broken := {}), keys, id)
            == Charged(b, r.(broken := {}), keys, id)
    decreases |keys|
  {
    if keys != {} {
      var k :| k in keys;
      RetriedCharge(b, r, keys - {k}, id);
      RetriedCounter(b, r, k, id);
      ChargedSplits(b, r, keys, k, id);
      ChargedSplits(Account(b, r), r.(broken := {}), keys, k, id);
      ChargedSplits(b, r.(broken := {}), keys, k, id);
    }
  }

  lemma RetriedBaselines(b: Books, r: Report)
    requires r.cumulative && InRange(b)
    ensures Account(Account(b, r), r.(broken := {})).baselines == Account(b, r.(broken := {})).baselines
  {
    var mid, again := Account(b, r), r.(broken := {});
    var left, right := Account(mid, again).baselines, Account(b, again).baselines;
    forall nk ensures (nk in left <==> nk in right) && (nk in left ==> left[nk] == right[nk])
    {
      if nk.0 == r.node && nk.1 in r.counters {
        RetriedCounter(b, r, nk.1, 0);
        assert Baseline(Account(mid, again), r.node, nk.1)
               == if VerdictOn(mid, again, nk.1).baseline.Some? then VerdictOn(mid, again, nk.1).baseline
                  else Baseline(mid, r.node, nk.1);
        assert Baseline(Account(b, again), r.node, nk.1)
               == if VerdictOn(b, again, nk.1).baseline.Some? then VerdictOn(b, again, nk.1).baseline
                  else Baseline(b, r.node, nk.1);
        assert nk == (r.node, nk.1);
      }
    }
  }

  // A report sent again after any of its transactions failed leaves the books as
  // if every one had succeeded at once: nothing is billed twice, nothing is lost.
  lemma RetryRecoversExactly(b: Books, r: Report)
    requires r.cumulative && InRange(b)
    ensures Account(Account(b, r), r.(broken := {})) == Account(b, r.(broken := {}))
  {
    var left, right := Account(Account(b, r), r.(broken := {})), Account(b, r.(broken := {}));
    RetriedBaselines(b, r);
    forall id | id in b.users
      ensures left.users[id] == right.users[id]
    {
      RetriedUser(b, r, id);
    }
    assert left.users.Keys == b.users.Keys == right.users.Keys;
    assert left.users == right.users;
  }

  lemma RetriedUser(b: Books, r: Report, id: nat)
    requires r.cumulative && InRange(b) && id in b.users
    ensures Account(Account(b, r), r.(broken := {})).users[id] == Account(b, r.(broken := {})).users[id]
  {
    var mid, again, keys := Account(b, r), r.(broken := {}), r.counters.Keys;
    RetriedCharge(b, r, keys, id);
    ChargedIsNotNegative(b, r, keys, id);
    ChargedIsNotNegative(mid, again, keys, id);
    ChargesAdd(b.users[id], Charged(b, r, keys, id), Charged(mid, again, keys, id));
  }

  // In particular a heartbeat whose response was lost costs nothing when repeated.
  lemma RepeatIsFree(b: Books, r: Report)
    requires r.cumulative && r.broken == {} && InRange(b)
    ensures Account(Account(b, r), r) == Account(b, r)
  {
    assert r.(broken := {}) == r;
    RetryRecoversExactly(b, r);
  }

  // Another node's reports, and other users' counters, are nobody else's business.
  lemma OthersUntouched(b: Books, r: Report, node: nat, key: string, id: nat)
    requires id in b.users && (forall k :: k in r.counters ==> UserOfKey(k) != Some(id))
    ensures node != r.node ==> Baseline(Account(b, r), node, key) == Baseline(b, node, key)
    ensures Account(b, r).users[id] == b.users[id]
  {
    NothingCharged(b, r, r.counters.Keys, id);
  }

  lemma {:induction false} NothingCharged(b: Books, r: Report, keys: set<string>, id: nat)
    requires keys <= r.counters.Keys && (forall k :: k in r.counters ==> UserOfKey(k) != Some(id))
    ensures Charged(b, r, keys, id) == 0
    decreases |keys|
  {
    if keys != {} {
      var k :| k in keys;
      ChargedSplits(b, r, keys, k, id);
      NothingCharged(b, r, keys - {k}, id);
    }
  }

  // ---- One counter over a lossy link ----------------------------------------

  // The core's running total, what the panel last took as its baseline, and what
  // was billed. `first` is the baseline of first contact; `served`, `restarted` and
  // `sinceBaseline` describe what really happened since then.
  datatype Meter = Meter(counter: nat, baseline: Option<int>, billed: int,
                         first: int, served: nat, restarted: bool,
                         sinceBaseline: nat, restartedSinceBaseline: bool)

  datatype Step =
    | Serve(bytes: nat)
    | RestartCore
    | Heartbeat(delivered: bool, committed: bool)

  function Take(m: Meter, key: string, step: Step): Meter {
    match step
    case Serve(bytes) =>
      m.(counter := m.counter + bytes, served := m.served + bytes, sinceBaseline := m.sinceBaseline + bytes)
    case RestartCore => m.(counter := 0, restarted := true, restartedSinceBaseline := true)
    case Heartbeat(delivered, committed) =>
      if !delivered then m
      else
        var v := Judge(m.baseline, key, m.counter, true, committed);
        var billed := m.(billed := m.billed + if v.charge.Some? then v.charge.value.1 else 0);
        if v.baseline.None? then billed
        else
          var moved := billed.(baseline := v.baseline, sinceBaseline := 0, restartedSinceBaseline := false);
          if m.baseline.None? then moved.(first := m.counter, served := 0, restarted := false) else moved
  }

  function Launched(): Meter { Meter(0, None, 0, 0, 0, false, 0, false) }

  function Run(key: string, steps: seq<Step>): Meter {
    if steps == [] then Launched() else Take(Run(key, steps[..|steps| - 1]), key, steps[|steps| - 1])
  }

  predicate Fair(m: Meter) {
    && (m.baseline.None? ==> m.billed == 0)
    && (m.baseline.Some? ==>
          && 0 <= m.billed && m.billed + m.sinceBaseline <= m.served
          && 0 <= m.baseline.value
          && (if m.restartedSinceBaseline then m.restarted && m.counter <= m.sinceBaseline
              else m.counter == m.baseline.value + m.sinceBaseline)
          && (!m.restarted ==> m.billed + m.sinceBaseline == m.served && m.billed == m.baseline.value - m.first))
  }

  lemma TakeStaysFair(m: Meter, key: string, step: Step)
    requires Fair(m) && UserOfKey(key).Some?
    ensures Fair(Take(m, key, step))
  {
  }

  // For a counter that grows or restarts at zero, over every interleaving of
  // traffic, restarts, and lost, repeated or failing heartbeats: no more is billed
  // than was served since first contact, and without a restart exactly the last
  // accounted total less the first baseline.
  lemma {:induction false} NeverOvercharges(key: string, steps: seq<Step>)
    requires UserOfKey(key).Some?
    ensures var m := Run(key, steps);
            && Fair(m)
            && (m.baseline.Some? ==> 0 <= m.billed <= m.served)
            && (m.baseline.Some? && !m.restarted ==> m.billed == m.baseline.value - m.first)
  {
    if steps != [] {
      NeverOvercharges(key, steps[..|steps| - 1]);
      TakeStaysFair(Run(key, steps[..|steps| - 1]), key, steps[|steps| - 1]);
    }
  }

  // Without a restart since first contact, one heartbeat that gets through and
  // commits settles the account to the byte, whatever was lost before it.
  lemma DeliverySettlesTheAccount(key: string, steps: seq<Step>)
    requires UserOfKey(key).Some? && Run(key, steps).baseline.Some? && !Run(key, steps).restarted
    ensures var m := Take(Run(key, steps), key, Heartbeat(true, true)); m.billed == m.served
  {
    NeverOvercharges(key, steps);
  }

  // ---- Several cores summed under one key -----------------------------------

  // One core's counter for a key: its running total, that total as it stood when
  // the baseline last moved, what of it the report showed then, and what the core
  // has served, and whether it restarted, since. A query that failed shows nothing.
  datatype Core = Core(counter: nat, held: nat, shown: nat, served: nat, restarted: bool)

  predicate CoreOk(c: Core) {
    && (c.shown == c.held || c.shown == 0)
    && if c.restarted then c.counter <= c.served else c.counter == c.held + c.served
  }

  // A core, and whether the next report lists it.
  datatype Listed = Listed(core: Core, listed: bool)

  function Sum(ls: seq<Listed>, f: Listed -> int): int {
    if ls == [] then 0 else f(ls[0]) + Sum(ls[1..], f)
  }

  function Reading(l: Listed): int { if l.listed then l.core.counter else 0 }

  function Shown(l: Listed): int { l.core.shown }

  function ServedBy(l: Listed): int { l.core.served }

  function Continues(l: Listed): bool { l.listed && !l.core.restarted }

  // What a listed core without a restart held when the baseline last moved: a sum
  // that fell bills all of it again.
  function Carried(l: Listed): int { if Continues(l) then l.core.held else 0 }

  // What of it the last report did not show: a sum that did not fall bills this.
  function Reappeared(l: Listed): int { if Continues(l) then l.core.held - l.core.shown else 0 }

  // Bytes served that the reading does not show.
  function Unseen(l: Listed): int {
    if !l.listed then l.core.served else if l.core.restarted then l.core.served - l.core.counter else 0
  }

  // What the last report showed and this one does not go on from.
  function Gone(l: Listed): int { if Continues(l) then 0 else l.core.shown }

  lemma {:induction false} ReadingsAddUp(ls: seq<Listed>)
    requires forall i :: 0 <= i < |ls| ==> CoreOk(ls[i].core)
    ensures Sum(ls, Reading) == Sum(ls, ServedBy) + Sum(ls, Carried) - Sum(ls, Unseen)
    ensures Sum(ls, Reading)
         == Sum(ls, Shown) + Sum(ls, ServedBy) + Sum(ls, Reappeared) - Sum(ls, Unseen) - Sum(ls, Gone)
  {
    if ls != [] {
      assert CoreOk(ls[0].core);
      ReadingsAddUp(ls[1..]);
    }
  }

  // What a report charges beyond what was served, by its causes.
  function Slip(ls: seq<Listed>): int {
    if Sum(ls, Reading) < Sum(ls, Shown) then Sum(ls, Carried) - Sum(ls, Unseen)
    else Sum(ls, Reappeared) - Sum(ls, Unseen) - Sum(ls, Gone)
  }

  // A report that sums several cores overcharges exactly when the sum fell and
  // what the continuing cores had counted before outweighs what the reading
  // misses, or it did not fall and what re-appeared outweighs what the reading
  // misses and what went.
  lemma SummedReportOverchargesIff(ls: seq<Listed>)
    requires forall i :: 0 <= i < |ls| ==> CoreOk(ls[i].core)
    ensures var last, now := Sum(ls, Shown), Sum(ls, Reading);
            var excess := TrafficDelta(last, now) - Sum(ls, ServedBy);
            && (excess > 0 <==> if now < last then Sum(ls, Carried) > Sum(ls, Unseen)
                                else Sum(ls, Reappeared) > Sum(ls, Unseen) + Sum(ls, Gone))
            && excess == Slip(ls)
  {
    ReadingsAddUp(ls);
  }

  // The panel's account of one key of a node with several cores. `accounted` is
  // what had been served, since first contact, when the baseline last moved, and
  // `slips` what the causes of overcharging add up to.
  datatype Pool = Pool(cores: seq<Core>, baseline: Option<int>, billed: int, accounted: int, slips: int)

  datatype PoolStep =
    | ServeBy(i: nat, bytes: nat)
    | RestartOf(i: nat)
    | RestartAll
    | Settle(listed: set<nat>, delivered: bool, committed: bool)

  function ListedIn(cores: seq<Core>, listed: set<nat>): (ls: seq<Listed>)
    ensures |ls| == |cores| && forall i :: 0 <= i < |cores| ==> ls[i] == Listed(cores[i], i in listed)
  {
    seq(|cores|, i requires 0 <= i < |cores| => Listed(cores[i], i in listed))
  }

  function Restarted(c: Core): Core { c.(counter := 0, restarted := true) }

  function Moved(l: Listed): Core {
    Core(l.core.counter, l.core.counter, if l.listed then l.core.counter else 0, 0, false)
  }

  function MovedAll(ls: seq<Listed>): (cores: seq<Core>)
    ensures |cores| == |ls| && forall i :: 0 <= i < |ls| ==> cores[i] == Moved(ls[i])
  {
    seq(|ls|, i requires 0 <= i < |ls| => Moved(ls[i]))
  }

  function RestartedAll(cores: seq<Core>): (r: seq<Core>)
    ensures |r| == |cores| && forall i :: 0 <= i < |cores| ==> r[i] == Restarted(cores[i])
  {
    seq(|cores|, i requires 0 <= i < |cores| => Restarted(cores[i]))
  }

  // A key no core lists is not in the report at all.
  predicate Reported(ls: seq<Listed>) { exists i :: 0 <= i < |ls| && ls[i].listed }

  function TakePooled(p: Pool, key: string, step: PoolStep): Pool {
    match step
    case ServeBy(i, bytes) =>
      if i >= |p.cores| then p
      else
        var c := p.cores[i];
        p.(cores := p.cores[i := c.(counter := c.counter + bytes, served := c.served + bytes)])
    case RestartOf(i) => if i >= |p.cores| then p else p.(cores := p.cores[i := Restarted(p.cores[i])])
    case RestartAll => p.(cores := RestartedAll(p.cores))
    case Settle(listed, delivered, committed) =>
      var ls := ListedIn(p.cores, listed);
      if !delivered || !Reported(ls) then p
      else
        var v := Judge(p.baseline, key, Sum(ls, Reading), true, committed);
        if v.baseline.None? then p
        else if p.baseline.None? then Pool(MovedAll(ls), v.baseline, p.billed, 0, 0)
        else
          Pool(MovedAll(ls), v.baseline, p.billed + (if v.charge.Some? then v.charge.value.1 else 0),
               p.accounted + Sum(ls, ServedBy), p.slips + Slip(ls))
  }

  function LaunchedPool(n: nat): Pool { Pool(seq(n, i => Core(0, 0, 0, 0, false)), None, 0, 0, 0) }

  function RunPooled(n: nat, key: string, steps: seq<PoolStep>): Pool {
    if steps == [] then LaunchedPool(n)
    else TakePooled(RunPooled(n, key, steps[..|steps| - 1]), key, steps[|steps| - 1])
  }

  function AllListed(cores: seq<Core>): seq<Listed> { ListedIn(cores, {}) }

  predicate Balanced(p: Pool) {
    && (forall i :: 0 <= i < |p.cores| ==> CoreOk(p.cores[i]))
    && (p.baseline.None? ==> p.billed == 0)
    && (p.baseline.Some? ==> p.baseline.value == Sum(AllListed(p.cores), Shown) && p.billed == p.accounted + p.slips)
  }

  lemma {:induction false} ShownStays(ls: seq<Listed>, qs: seq<Listed>)
    requires |ls| == |qs| && forall i :: 0 <= i < |ls| ==> ls[i].core.shown == qs[i].core.shown
    ensures Sum(ls, Shown) == Sum(qs, Shown)
  {
    if ls != [] { ShownStays(ls[1..], qs[1..]); }
  }

  lemma {:induction false} MovedShows(ls: seq<Listed>, qs: seq<Listed>)
    requires |ls| == |qs| && forall i :: 0 <= i < |ls| ==> qs[i].core == Moved(ls[i])
    ensures Sum(qs, Shown) == Sum(ls, Reading)
  {
    if ls != [] { MovedShows(ls[1..], qs[1..]); }
  }

  lemma {:induction false} SumsAreNotNegative(ls: seq<Listed>)
    ensures Sum(ls, Reading) >= 0 && Sum(ls, ServedBy) >= 0
  {
    if ls != [] { SumsAreNotNegative(ls[1..]); }
  }

  lemma AccountingStaysBalanced(p: Pool, key: string, listed: set<nat>, committed: bool)
    requires Balanced(p) && UserOfKey(key).Some?
    ensures Balanced(TakePooled(p, key, Settle(listed, true, committed)))
  {
    var ls := ListedIn(p.cores, listed);
    var n := TakePooled(p, key, Settle(listed, true, committed));
    SumsAreNotNegative(ls);
    ShownStays(ls, AllListed(p.cores));
    if n.baseline != p.baseline || n.cores != p.cores {
      MovedShows(ls, AllListed(n.cores));
      if p.baseline.Some? { SummedReportOverchargesIff(ls); }
    }
  }

  lemma PoolStaysBalanced(p: Pool, key: string, step: PoolStep)
    requires Balanced(p) && UserOfKey(key).Some?
    ensures Balanced(TakePooled(p, key, step))
  {
    match step
    case Settle(listed, delivered, committed) => if delivered { AccountingStaysBalanced(p, key, listed, committed); }
    case ServeBy(_, _) => ShownStays(AllListed(p.cores), AllListed(TakePooled(p, key, step).cores));
    case RestartOf(_) => ShownStays(AllListed(p.cores), AllListed(TakePooled(p, key, step).cores));
    case RestartAll => ShownStays(AllListed(p.cores), AllListed(TakePooled(p, key, step).cores));
  }

  lemma {:induction false} LaunchedIsBalanced(n: nat)
    ensures Balanced(LaunchedPool(n))
  {
  }

  // Over every run of traffic, restarts of any core, and reports that list any of
  // them, lost and failing ones among them: the panel has billed what was served
  // and what the slips add up to, so it overcharges exactly when they do not
  // cancel out.
  lemma {:induction false} PooledBillIsServiceAndSlips(n: nat, key: string, steps: seq<PoolStep>)
    requires UserOfKey(key).Some?
    ensures var p := RunPooled(n, key, steps);
            && Balanced(p)
            && (p.baseline.Some? ==> (p.billed > p.accounted <==> p.slips > 0))
  {
    if steps == [] {
      LaunchedIsBalanced(n);
    } else {
      PooledBillIsServiceAndSlips(n, key, steps[..|steps| - 1]);
      PoolStaysBalanced(RunPooled(n, key, steps[..|steps| - 1]), key, steps[|steps| - 1]);
    }
  }

  // Every report lists every core that has counted anything, and cores restart
  // together or not at all.
  predicate Steady(n: nat, key: string, steps: seq<PoolStep>) {
    steps == [] ||
    var init := steps[..|steps| - 1];
    Steady(n, key, init) && StepIsSteady(RunPooled(n, key, init).cores, steps[|steps| - 1])
  }

  predicate StepIsSteady(cores: seq<Core>, step: PoolStep) {
    match step
    case Settle(listed, _, _) => forall i :: 0 <= i < |cores| ==> i in listed || cores[i].counter == 0
    case RestartOf(_) => |cores| == 1
    case _ => true
  }

  predicate Alike(p: Pool) {
    && (forall i :: 0 <= i < |p.cores| ==> p.cores[i].shown == p.cores[i].held)
    && (forall i, j :: 0 <= i < |p.cores| && 0 <= j < |p.cores| ==> p.cores[i].restarted == p.cores[j].restarted)
  }

  lemma {:induction false} SteadySlip(ls: seq<Listed>, restarted: bool)
    requires forall i :: 0 <= i < |ls| ==>
               && CoreOk(ls[i].core) && (ls[i].listed || ls[i].core.counter == 0)
               && ls[i].core.shown == ls[i].core.held && ls[i].core.restarted == restarted
    ensures Sum(ls, Unseen) >= 0 && Sum(ls, Gone) >= 0 && Sum(ls, Reappeared) == 0
    ensures restarted ==> Sum(ls, Carried) == 0
    ensures !restarted ==> Sum(ls, Reading) >= Sum(ls, Shown)
  {
    if ls != [] {
      assert CoreOk(ls[0].core);
      SteadySlip(ls[1..], restarted);
    }
  }

  lemma SteadySettlement(p: Pool, key: string, listed: set<nat>, committed: bool)
    requires Balanced(p) && Alike(p) && StepIsSteady(p.cores, Settle(listed, true, committed))
    ensures var q := TakePooled(p, key, Settle(listed, true, committed));
            |q.cores| == |p.cores| && Alike(q) && (p.slips <= 0 ==> q.slips <= 0)
  {
    if p.cores != [] { SteadySlip(ListedIn(p.cores, listed), p.cores[0].restarted); }
  }

  lemma SteadyStep(p: Pool, key: string, step: PoolStep)
    requires Balanced(p) && Alike(p) && p.slips <= 0 && StepIsSteady(p.cores, step)
    ensures var q := TakePooled(p, key, step); |q.cores| == |p.cores| && Alike(q) && q.slips <= 0
  {
    match step
    case Settle(listed, delivered, committed) => if delivered { SteadySettlement(p, key, listed, committed); }
    case _ =>
  }

  // Then nothing is ever overcharged: summed counters are as good as one.
  lemma {:induction false} SteadyPoolNeverOvercharges(n: nat, key: string, steps: seq<PoolStep>)
    requires UserOfKey(key).Some? && Steady(n, key, steps)
    ensures var p := RunPooled(n, key, steps);
            |p.cores| == n && Alike(p) && p.slips <= 0 && (p.baseline.Some? ==> p.billed <= p.accounted)
  {
    PooledBillIsServiceAndSlips(n, key, steps);
    if steps != [] {
      var init := steps[..|steps| - 1];
      SteadyPoolNeverOvercharges(n, key, init);
      PooledBillIsServiceAndSlips(n, key, init);
      SteadyStep(RunPooled(n, key, init), key, steps[|steps| - 1]);
    }
  }

  lemma SumOfTwo(a: Listed, b: Listed, f: Listed -> int)
    ensures Sum([a, b], f) == f(a) + f(b)
  {
    calc {
      Sum([a, b], f);
      f(a) + Sum([a, b][1..], f);
      { assert [a, b][1..] == [b]; }
      f(a) + Sum([b], f);
      f(a) + f(b) + Sum([b][1..], f);
      { assert [b][1..] == []; }
      f(a) + f(b);
    }
  }

  // One core of two restarts and nothing at all is served: the other's hundred
  // bytes are billed a second time.
  lemma OneOfTwoCoresRestarting(a: Listed, b: Listed)
    requires a == Listed(Core(0, 100, 100, 0, true), true) && b == Listed(Core(100, 100, 100, 0, false), true)
    ensures Sum([a, b], ServedBy) == 0 && TrafficDelta(Sum([a, b], Shown), Sum([a, b], Reading)) == 100
  {
    SumOfTwo(a, b, ServedBy);
    SumOfTwo(a, b, Shown);
    SumOfTwo(a, b, Reading);
  }

  lemma SettleTwo(p: Pool, key: string, listed: set<nat>)
    requires |p.cores| == 2 && p.baseline.Some? && UserOfKey(key).Some? && (0 in listed || 1 in listed)
    ensures var a, b := Listed(p.cores[0], 0 in listed), Listed(p.cores[1], 1 in listed);
            var last, now := p.baseline.value, Reading(a) + Reading(b);
            var q := TakePooled(p, key, Settle(listed, true, true));
            now != last ==>
              && q.cores == [Moved(a), Moved(b)] && q.baseline == Some(now)
              && q.accounted == p.accounted + a.core.served + b.core.served
              && (TrafficDelta(last, now) > 0 ==> q.billed == p.billed + TrafficDelta(last, now))
  {
    var a, b := Listed(p.cores[0], 0 in listed), Listed(p.cores[1], 1 in listed);
    var ls := ListedIn(p.cores, listed);
    assert ls == [a, b];
    assert Reported(ls) by { assert ls[0].listed || ls[1].listed; }
    SumOfTwo(a, b, ServedBy);
    SumOfTwo(a, b, Reading);
  }

  // One query fails once and nothing at all is served: the core that answered is
  // billed again when the sum falls, and the other when it comes back.
  lemma AQueryFailingOnce(key: string, c: Core)
    requires UserOfKey(key).Some? && c == Core(100, 100, 100, 0, false)
    ensures var p := Pool([c, c], Some(200), 200, 200, 0);
            var q := TakePooled(TakePooled(p, key, Settle({0}, true, true)), key, Settle({0, 1}, true, true));
            Balanced(p) && q.billed == 400 && q.accounted == 200
  {
    var p := Pool([c, c], Some(200), 200, 200, 0);
    SumOfTwo(Listed(c, false), Listed(c, false), Shown);
    assert AllListed(p.cores) == [Listed(c, false), Listed(c, false)];
    SettleTwo(p, key, {0});
    SettleTwo(TakePooled(p, key, Settle({0}, true, true)), key, {0, 1});
  }
}
