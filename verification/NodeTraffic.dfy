// Billing the traffic a remote node reports.
//
// A node reports running totals; the panel bills the difference to the total it
// last accounted, so a heartbeat can be repeated or lost without cost.
module NodeTraffic {
  import opened Numerals

  const MAX_INT64: int := 0x7FFF_FFFF_FFFF_FFFF
  const MAX_UINT64: int := 0xFFFF_FFFF_FFFF_FFFF

  datatype Status = Active | OnHold | Limited | Disabled | Expired

  datatype User = User(used: int, dataLimit: int, status: Status, firstConnected: bool)

  // The panel's books: a baseline per node and counter key, and every user.
  datatype Books = Books(baselines: map<(nat, string), int>, users: map<nat, User>)

  // ---- Counter keys ----------------------------------------------------------

  // "u<id>" names a user; anything else names nobody.
  function UserOfKey(key: string): Option<nat> {
    if |key| < 2 || key[0] != 'u' then None
    else
      var n := ParseDecimal(key[1..]);
      if n.Some? && 0 < n.value <= MAX_UINT64 then n else None
  }

  function UserKey(id: nat): string { "u" + Itoa(id) }

  // The key stamped into a node's config comes back as the user it was stamped for.
  lemma UserKeyRoundTrip(id: nat)
    requires 0 < id <= MAX_UINT64
    ensures UserOfKey(UserKey(id)) == Some(id)
  {
    assert UserKey(id)[1..] == Itoa(id);
    ParseUndoesItoa(id);
  }

  // ---- One counter -----------------------------------------------------------

  function TrafficDelta(previous: int, current: int): int {
    if current < previous then current else current - previous
  }

  // What accounting does about one counter: the baseline it should have from now
  // on, and the bytes to charge to a user.
  datatype Verdict = Verdict(baseline: Option<int>, charge: Option<(nat, int)>)

  // `billable` says whether the charge can be committed; baseline and charge move
  // together or not at all.
  function Judge(previous: Option<int>, key: string, reported: int, cumulative: bool, billable: bool): Verdict {
    if cumulative && previous.None? then Verdict(Some(reported), None)
    else
      var delta := if cumulative then TrafficDelta(previous.value, reported) else reported;
      var id := UserOfKey(key);
      if id.None? then Verdict(if cumulative then Some(reported) else None, None)
      else if delta <= 0 then
        Verdict(if cumulative && reported != previous.value then Some(reported) else None, None)
      else if !billable then Verdict(None, None)
      else Verdict(if cumulative then Some(reported) else None, Some((id.value, delta)))
  }

  function Baseline(b: Books, node: nat, key: string): Option<int> {
    if (node, key) in b.baselines then Some(b.baselines[(node, key)]) else None
  }

  // One heartbeat's counters. A key in `broken` is one whose transaction fails.
  datatype Report = Report(node: nat, counters: map<string, int>, cumulative: bool, broken: set<string>)

  function Billable(b: Books, r: Report, key: string): bool {
    var id := UserOfKey(key);
    id.Some? && id.value in b.users && key !in r.broken
  }

  function VerdictOn(b: Books, r: Report, key: string): Verdict
    requires key in r.counters
  {
    Judge(Baseline(b, r.node, key), key, r.counters[key], r.cumulative, Billable(b, r, key))
  }

  function ChargeTo(b: Books, r: Report, key: string, id: nat): int
    requires key in r.counters
  {
    var charge := VerdictOn(b, r, key).charge;
    if charge.Some? && charge.value.0 == id then charge.value.1 else 0
  }

  // What the counters among `keys` charge to a user. Several keys may name the
  // same user ("u7" and "u07" do), so this is a sum.
  ghost function Charged(b: Books, r: Report, keys: set<string>, id: nat): int
    requires keys <= r.counters.Keys
  {
    if keys == {} then 0
    else
      var k :| k in keys;
      ChargeTo(b, r, k, id) + Charged(b, r, keys - {k}, id)
  }

  lemma {:induction false} ChargedSplits(b: Books, r: Report, keys: set<string>, k: string, id: nat)
    requires keys <= r.counters.Keys && k in keys
    ensures Charged(b, r, keys, id) == ChargeTo(b, r, k, id) + Charged(b, r, keys - {k}, id)
    decreases |keys|
  {
    var j :| j in keys && Charged(b, r, keys, id) == ChargeTo(b, r, j, id) + Charged(b, r, keys - {j}, id);
    if j != k {
      ChargedSplits(b, r, keys - {j}, k, id);
      ChargedSplits(b, r, keys - {k}, j, id);
      assert keys - {j} - {k} == keys - {k} - {j};
    }
  }

  lemma {:induction false} ChargedIsNotNegative(b: Books, r: Report, keys: set<string>, id: nat)
    requires keys <= r.counters.Keys
    ensures 0 <= Charged(b, r, keys, id)
    decreases |keys|
  {
    if keys != {} {
      var k :| k in keys;
      ChargedSplits(b, r, keys, k, id);
      ChargedIsNotNegative(b, r, keys - {k}, id);
    }
  }

  // ---- A user ----------------------------------------------------------------

  function SaturatingAdd(used: int, delta: int): int {
    if MAX_INT64 - delta < used then MAX_INT64 else used + delta
  }

  // A user after being charged `delta` in all, in however many instalments.
  function Charge(u: User, delta: int): User {
    if delta <= 0 then u
    else
      var used := SaturatingAdd(u.used, delta);
      u.(used := used,
         firstConnected := u.firstConnected || u.status == OnHold,
         status := if 0 < u.dataLimit <= used && u.status == Active then Limited else u.status)
  }

  lemma ChargesAdd(u: User, a: int, b: int)
    requires 0 <= a && 0 <= b && u.used <= MAX_INT64
    ensures Charge(Charge(u, a), b) == Charge(u, a + b) && Charge(u, a).used <= MAX_INT64
  {
  }

  ghost predicate InRange(b: Books) {
    forall id :: id in b.users ==> b.users[id].used <= MAX_INT64
  }

  // ---- The whole report --------------------------------------------------------

  // The books after the counters among `keys`, in no particular order.
  ghost function After(b: Books, r: Report, keys: set<string>): Books
    requires keys <= r.counters.Keys
  {
    Books(
      map nk | nk in b.baselines.Keys + (set k | k in keys && VerdictOn(b, r, k).baseline.Some? :: (r.node, k)) ::
        if nk.0 == r.node && nk.1 in keys && VerdictOn(b, r, nk.1).baseline.Some?
        then VerdictOn(b, r, nk.1).baseline.value
        else b.baselines[nk],
      map id | id in b.users :: Charge(b.users[id], Charged(b, r, keys, id)))
  }

  ghost function Account(b: Books, r: Report): Books { After(b, r, r.counters.Keys) }

  // What one more counter adds.
  lemma AfterOne(b: Books, r: Report, keys: set<string>, key: string)
    requires keys <= r.counters.Keys && key in r.counters && key !in keys && InRange(b)
    ensures var v, mid := VerdictOn(b, r, key), After(b, r, keys);
            && InRange(mid)
            && (v.charge.Some? ==> v.charge.value.0 in mid.users && v.charge.value.1 > 0)
            && After(b, r, keys + {key})
               == Books(if v.baseline.Some? then mid.baselines[(r.node, key) := v.baseline.value] else mid.baselines,
                        if v.charge.Some? then
                          mid.users[v.charge.value.0 := Charge(mid.users[v.charge.value.0], v.charge.value.1)]
                        else mid.users)
  {
    UsersOne(b, r, keys, key);
    BaselinesOne(b, r, keys, key);
  }

  lemma UsersOne(b: Books, r: Report, keys: set<string>, key: string)
    requires keys <= r.counters.Keys && key in r.counters && key !in keys && InRange(b)
    ensures var v, mid := VerdictOn(b, r, key), After(b, r, keys);
            && InRange(mid)
            && (v.charge.Some? ==> v.charge.value.0 in mid.users && v.charge.value.1 > 0)
            && After(b, r, keys + {key}).users
               == if v.charge.Some? then
                    mid.users[v.charge.value.0 := Charge(mid.users[v.charge.value.0], v.charge.value.1)]
                  else mid.users
  {
    ChargeIsReal(b, r, key);
    var v, mid, next := VerdictOn(b, r, key), After(b, r, keys).users, After(b, r, keys + {key}).users;
    var want := if v.charge.Some? then mid[v.charge.value.0 := Charge(mid[v.charge.value.0], v.charge.value.1)]
                else mid;
    forall id | id in b.users
      ensures next[id] == want[id] && mid[id].used <= MAX_INT64
    {
      UserOne(b, r, keys, key, id);
    }
    assert next.Keys == want.Keys == b.users.Keys;
  }

  lemma ChargeIsReal(b: Books, r: Report, key: string)
    requires key in r.counters
    ensures var charge := VerdictOn(b, r, key).charge; charge.Some? ==> charge.value.0 in b.users && charge.value.1 > 0
  {
  }

  lemma UserOne(b: Books, r: Report, keys: set<string>, key: string, id: nat)
    requires keys <= r.counters.Keys && key in r.counters && key !in keys && InRange(b) && id in b.users
    ensures var was := Charge(b.users[id], Charged(b, r, keys, id));
            && was.used <= MAX_INT64
            && Charge(b.users[id], Charged(b, r, keys + {key}, id)) == Charge(was, ChargeTo(b, r, key, id))
  {
    assert keys + {key} - {key} == keys;
    ChargedSplits(b, r, keys + {key}, key, id);
    ChargedIsNotNegative(b, r, keys, id);
    ChargesAdd(b.users[id], Charged(b, r, keys, id), ChargeTo(b, r, key, id));
  }

  // Some user who was active when the report came is limited by it.
  ghost predicate Trips(before: map<nat, User>, after: map<nat, User>) {
    exists id :: id in before && id in after && before[id].status == Active && after[id].status == Limited
  }

  lemma TripsAccumulate(b: Books, r: Report, keys: set<string>, key: string)
    requires keys <= r.counters.Keys && key in r.counters && key !in keys && InRange(b)
    ensures var mid, next := After(b, r, keys).users, After(b, r, keys + {key}).users;
            Trips(b.users, next) <==> Trips(b.users, mid) || Trips(mid, next)
  {
    UsersOne(b, r, keys, key);
    var mid, next := After(b, r, keys).users, After(b, r, keys + {key}).users;
    forall id | id in b.users
      ensures id in mid && id in next
      ensures b.users[id].status == Active && next[id].status == Limited
              <==> || (b.users[id].status == Active && mid[id].status == Limited)
                   || (mid[id].status == Active && next[id].status == Limited)
    {
    }
    if Trips(b.users, mid) {
      var id :| id in b.users && id in mid && b.users[id].status == Active && mid[id].status == Limited;
      assert next[id].status == Limited;
    }
    if Trips(mid, next) {
      var id :| id in mid && id in next && mid[id].status == Active && next[id].status == Limited;
      assert b.users[id].status == Active;
    }
    if Trips(b.users, next) {
      var id :| id in b.users && id in next && b.users[id].status == Active && next[id].status == Limited;
      assert id in mid;
    }
  }

  lemma BaselinesOne(b: Books, r: Report, keys: set<string>, key: string)
    requires keys <= r.counters.Keys && key in r.counters && key !in keys
    ensures var v, mid := VerdictOn(b, r, key), After(b, r, keys);
            After(b, r, keys + {key}).baselines
            == if v.baseline.Some? then mid.baselines[(r.node, key) := v.baseline.value] else mid.baselines
  {
    var v, mid, next := VerdictOn(b, r, key), After(b, r, keys), After(b, r, keys + {key});
    var want := if v.baseline.Some? then mid.baselines[(r.node, key) := v.baseline.value] else mid.baselines;
    forall nk ensures nk in next.baselines <==> nk in want { }
    forall nk | nk in next.baselines ensures next.baselines[nk] == want[nk] { }
  }

  class Ledger {
    var baselines: map<(nat, string), int>
    var users: map<nat, User>

    ghost function State(): Books
      reads this
    {
      Books(baselines, users)
    }

    constructor (users: map<nat, User>)
      ensures State() == Books(map[], users)
    {
      this.baselines, this.users := map[], users;
    }

    // `readable` is whether the stored baselines could be read at all.
    method AccountNodeTraffic(node: nat, counters: map<string, int>, cumulative: bool,
                              readable: bool, broken: set<string>)
      returns (changed: bool)
      requires InRange(State())
      modifies this
      ensures cumulative && !readable ==> State() == old(State()) && !changed
      ensures !cumulative || readable ==>
                && State() == Account(old(State()), Report(node, counters, cumulative, broken))
                && (changed <==> Trips(old(users), users))
    {
      changed := false;
      if cumulative && !readable { return; }
      ghost var r := Report(node, counters, cumulative, broken);
      ghost var b0 := State();
      var prev := baselines;
      var todo := counters.Keys;
      assert counters.Keys - todo == {};
      while todo != {}
        invariant todo <= counters.Keys
        invariant InRange(State())
        invariant State() == After(b0, r, counters.Keys - todo)
        invariant changed <==> Trips(b0.users, users)
      {
        var key :| key in todo;
        ghost var done := counters.Keys - todo;
        var tripped := AccountOne(node, key, counters[key], cumulative, key in broken,
                                  if (node, key) in prev then Some(prev[(node, key)]) else None, b0, r, done);
        todo := todo - {key};
        assert counters.Keys - todo == done + {key};
        TripsAccumulate(b0, r, done, key);
        if tripped { changed := true; }
      }
      assert counters.Keys - todo == counters.Keys;
    }

    method AccountOne(node: nat, key: string, reported: int, cumulative: bool, failing: bool,
                      previous: Option<int>, ghost b0: Books, ghost r: Report, ghost done: set<string>)
      returns (tripped: bool)
      requires done <= r.counters.Keys && key in r.counters && key !in done
      requires reported == r.counters[key] && node == r.node && cumulative == r.cumulative
               && failing == (key in r.broken)
      requires previous == Baseline(b0, node, key)
      requires InRange(b0) && InRange(State()) && State() == After(b0, r, done)
      modifies this
      ensures InRange(State()) && State() == After(b0, r, done + {key})
      ensures tripped <==> Trips(old(users), users)
    {
      AfterOne(b0, r, done, key);
      tripped := false;
      var delta := reported;
      if cumulative {
        if previous.None? {
          // First contact: the baseline is recorded and nothing is billed.
          baselines := baselines[(node, key) := reported];
          return;
        }
        delta := TrafficDelta(previous.value, reported);
      }
      var id := UserOfKey(key);
      if id.None? {
        if cumulative { baselines := baselines[(node, key) := reported]; }
        return;
      }
      if delta <= 0 {
        if cumulative && reported != previous.value { baselines := baselines[(node, key) := reported]; }
        return;
      }
      if id.value !in users || failing { return; }
      // Usage and baseline move in one transaction.
      var u := users[id.value];
      var charged := Charge(u, delta);
      tripped := u.status == Active && charged.status == Limited;
      users := users[id.value := charged];
      if cumulative { baselines := baselines[(node, key) := reported]; }
    }
  }
}
