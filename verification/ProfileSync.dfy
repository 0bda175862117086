// One protocol definition deployed through bindings: the sync that turns every
// enabled binding into the inbound row it owns.
//
// `make` is the template at work: the config a binding's node, port and host
// materialise to, or None where they cannot. `pick` is the database choosing
// the id of a new row.
module ProfileSync {
  import opened Numerals

  datatype Spot = Spot(nodeID: nat, port: nat, host: string)

  // inboundID 0 owns nothing.
  datatype Binding = Binding(spot: Spot, inboundID: nat, enabled: bool)

  // A row's config, and the columns a sync carries over.
  datatype Row = Row(config: string, rest: string)

  const NEW_ROW_REST: string := ""

  type Rows = map<nat, Row>

  datatype Store = Store(rows: Rows, bindings: seq<Binding>)

  type Template = Spot -> Option<string>
  type Picker = set<nat> -> nat

  ghost predicate Lawful(pick: Picker) {
    forall s: set<nat> :: pick(s) !in s && pick(s) != 0
  }

  predicate Wanted(b: Binding, on: bool) { b.enabled && on }

  function Own(st: Store, i: nat, id: nat, rows: Rows): Store
    requires i < |st.bindings|
  {
    Store(rows, st.bindings[i := st.bindings[i].(inboundID := id)])
  }

  // One binding's turn; None where its config cannot be made.
  function Turn(st: Store, i: nat, on: bool, make: Template, pick: Picker): (r: Option<Store>)
    requires i < |st.bindings|
    ensures r.Some? ==> |r.value.bindings| == |st.bindings|
  {
    var b := st.bindings[i];
    if !Wanted(b, on) then
      Some(if b.inboundID == 0 then st else Own(st, i, 0, st.rows - {b.inboundID}))
    else
      match make(b.spot)
      case None => None
      case Some(config) =>
        if b.inboundID != 0 && b.inboundID in st.rows then
          Some(st.(rows := st.rows[b.inboundID := st.rows[b.inboundID].(config := config)]))
        else
          var id := pick(st.rows.Keys);
          Some(Own(st, i, id, st.rows[id := Row(config, NEW_ROW_REST)]))
  }

  predicate CanMake(b: Binding, on: bool, make: Template) {
    Wanted(b, on) ==> make(b.spot).Some?
  }

  // The store after the turns of the first n bindings, up to the first failure.
  function Synced(st: Store, n: nat, on: bool, make: Template, pick: Picker): (r: Store)
    requires n <= |st.bindings|
    ensures |r.bindings| == |st.bindings|
  {
    if n == 0 then st
    else
      var before := Synced(st, n - 1, on, make, pick);
      if FirstBad(st, on, make) < n then before
      else match Turn(before, n - 1, on, make, pick) case Some(after) => after case None => before
  }

  // The number of bindings before the first whose config cannot be made.
  function FirstBad(st: Store, on: bool, make: Template): (k: nat)
    ensures k <= |st.bindings|
    ensures forall i :: 0 <= i < k ==> CanMake(st.bindings[i], on, make)
    ensures k < |st.bindings| ==> !CanMake(st.bindings[k], on, make)
  {
    FirstBadFrom(st.bindings, 0, on, make)
  }

  function FirstBadFrom(bs: seq<Binding>, i: nat, on: bool, make: Template): (k: nat)
    requires i <= |bs|
    ensures i <= k <= |bs|
    ensures forall j :: i <= j < k ==> CanMake(bs[j], on, make)
    ensures k < |bs| ==> !CanMake(bs[k], on, make)
    decreases |bs| - i
  {
    if i == |bs| || !CanMake(bs[i], on, make) then i else FirstBadFrom(bs, i + 1, on, make)
  }

  function WantedIn(bs: seq<Binding>, n: nat, on: bool): nat
    requires n <= |bs|
  {
    if n == 0 then 0 else WantedIn(bs, n - 1, on) + if Wanted(bs[n - 1], on) then 1 else 0
  }

  class Database {
    var rows: Rows
    var bindings: seq<Binding>

    ghost function State(): Store
      reads this
    {
      Store(rows, bindings)
    }

    constructor (rows: Rows, bindings: seq<Binding>)
      ensures State() == Store(rows, bindings)
    {
      this.rows, this.bindings := rows, bindings;
    }

    method Adopt(i: nat, id: nat)
      requires i < |bindings|
      modifies this`bindings
      ensures bindings == old(bindings)[i := old(bindings)[i].(inboundID := id)]
    {
      bindings := bindings[i := bindings[i].(inboundID := id)];
    }

    method Sync(on: bool, make: Template, pick: Picker) returns (applied: nat, ok: bool)
      modifies this
      ensures var was := old(State());
              && State() == Synced(was, |was.bindings|, on, make, pick)
              && ok == (FirstBad(was, on, make) == |was.bindings|)
              && applied == WantedIn(was.bindings, FirstBad(was, on, make), on)
    {
      ghost var was := State();
      applied := 0;
      var i := 0;
      while i < |bindings|
        invariant 0 <= i <= |bindings| == |was.bindings|
        invariant i <= FirstBad(was, on, make)
        invariant State() == Synced(was, i, on, make, pick)
        invariant applied == WantedIn(was.bindings, i, on)
        invariant forall j :: i <= j < |bindings| ==> bindings[j] == was.bindings[j]
      {
        var b := bindings[i];
        if !b.enabled || !on {
          if b.inboundID != 0 {
            rows := rows - {b.inboundID};
            Adopt(i, 0);
          }
        } else {
          var config := make(b.spot);
          if config.None? {
            SyncedStops(was, i, |was.bindings|, on, make, pick);
            return applied, false;
          }
          if b.inboundID != 0 && b.inboundID in rows {
            rows := rows[b.inboundID := rows[b.inboundID].(config := config.value)];
          } else {
            var id := pick(rows.Keys);
            rows := rows[id := Row(config.value, NEW_ROW_REST)];
            Adopt(i, id);
          }
          applied := applied + 1;
        }
        i := i + 1;
      }
      ok := true;
    }
  }

  // Nothing after the first failure is touched.
  lemma {:induction false} SyncedStops(st: Store, k: nat, n: nat, on: bool, make: Template, pick: Picker)
    requires k <= n <= |st.bindings| && FirstBad(st, on, make) <= k
    ensures Synced(st, n, on, make, pick) == Synced(st, k, on, make, pick)
  {
    if k < n {
      SyncedStops(st, k, n - 1, on, make, pick);
    }
  }

  predicate OneEach(bs: seq<Binding>) {
    forall i, j :: 0 <= i < j < |bs| && bs[i].inboundID != 0 ==> bs[i].inboundID != bs[j].inboundID
  }

  predicate Owned(bs: seq<Binding>, n: nat, id: nat)
    requires n <= |bs|
  {
    exists i :: 0 <= i < n && bs[i].inboundID == id
  }

  predicate Dangling(st: Store, j: nat)
    requires j < |st.bindings|
  {
    st.bindings[j].inboundID != 0 && st.bindings[j].inboundID !in st.rows
  }

  predicate Creates(st: Store, i: nat, on: bool)
    requires i < |st.bindings|
  {
    Wanted(st.bindings[i], on) && (st.bindings[i].inboundID == 0 || Dangling(st, i))
  }

  // No binding still names a deleted row by the time an earlier one asks the
  // database for a new id, so the new id cannot be that one.
  predicate NoStaleClaim(st: Store, on: bool) {
    forall i, j :: 0 <= i < j < |st.bindings| && Dangling(st, j) ==> !Creates(st, i, on)
  }

  // What a binding whose turn has come ends with.
  predicate Settled(st: Store, i: nat, on: bool, make: Template)
    requires i < |st.bindings|
  {
    var b := st.bindings[i];
    if Wanted(b, on) then
      b.inboundID != 0 && b.inboundID in st.rows && make(b.spot) == Some(st.rows[b.inboundID].config)
    else b.inboundID == 0
  }

  ghost predicate Reconciled(st: Store, on: bool, make: Template) {
    OneEach(st.bindings) && forall i :: 0 <= i < |st.bindings| ==> Settled(st, i, on, make)
  }

  // Midway through a sync of `st`, after the first n turns: the bindings...
  ghost predicate Turned(st: Store, n: nat, on: bool, make: Template, now: Store)
    requires n <= |st.bindings|
  {
    && |now.bindings| == |st.bindings|
    && OneEach(now.bindings)
    && (forall i :: 0 <= i < |st.bindings| ==>
          now.bindings[i] == st.bindings[i].(inboundID := now.bindings[i].inboundID))
    && (forall i :: n <= i < |st.bindings| ==>
          now.bindings[i] == st.bindings[i] && (Dangling(now, i) <==> Dangling(st, i)))
    && (forall i :: n <= i < |st.bindings| && st.bindings[i].inboundID in now.rows
                    && !Dangling(st, i) && st.bindings[i].inboundID != 0 ==>
          now.rows[st.bindings[i].inboundID] == st.rows[st.bindings[i].inboundID])
    && (forall i :: 0 <= i < n ==> Settled(now, i, on, make))
    && (forall i :: 0 <= i < n && Wanted(st.bindings[i], on) && !Creates(st, i, on) ==> KeptItsRow(st, now, i))
  }

  // ...and the rows: every row is a binding's, or was there before and no
  // binding whose turn has come named it; strangers are untouched.
  ghost predicate Accounted(st: Store, n: nat, now: Store)
    requires n <= |st.bindings| == |now.bindings|
  {
    && 0 !in now.rows
    && (forall id :: id in now.rows ==> Owned(now.bindings, n, id) || (id in st.rows && !Owned(st.bindings, n, id)))
    && (forall id :: id in st.rows && !Owned(st.bindings, |st.bindings|, id) ==>
        id in now.rows && now.rows[id] == st.rows[id])
  }

  predicate KeptItsRow(st: Store, now: Store, i: nat)
    requires i < |st.bindings| == |now.bindings|
  {
    var id := st.bindings[i].inboundID;
    now.bindings[i].inboundID == id && id in st.rows && id in now.rows && now.rows[id].rest == st.rows[id].rest
  }

  lemma TurnKeepsTurned(st: Store, n: nat, on: bool, make: Template, pick: Picker, now: Store, after: Store)
    requires 0 < n <= |st.bindings| && Lawful(pick) && NoStaleClaim(st, on)
    requires Turned(st, n - 1, on, make, now) && 0 !in now.rows
    requires Turn(now, n - 1, on, make, pick) == Some(after)
    ensures Turned(st, n, on, make, after)
  {
    var k := n - 1;
    var b := now.bindings[k];
    if after.bindings[k].inboundID != b.inboundID && Wanted(b, on) {
      assert Creates(st, k, on) by { assert Dangling(now, k) <==> Dangling(st, k); }
      forall j | 0 <= j < |st.bindings| && j != k
        ensures now.bindings[j].inboundID != after.bindings[k].inboundID
      {
        if j < k { assert Settled(now, j, on, make); } else { assert !Dangling(st, j); }
      }
    }
    forall i | 0 <= i < n
      ensures Settled(after, i, on, make)
    {
      if i < k { assert Settled(now, i, on, make); }
    }
  }

  lemma TurnKeepsAccounted(st: Store, n: nat, on: bool, make: Template, pick: Picker, now: Store, after: Store)
    requires 0 < n <= |st.bindings| && Lawful(pick) && NoStaleClaim(st, on)
    requires Turned(st, n - 1, on, make, now) && Accounted(st, n - 1, now)
    requires Turn(now, n - 1, on, make, pick) == Some(after)
    ensures Accounted(st, n, after)
  {
    forall id | id in after.rows
      ensures Owned(after.bindings, n, id) || (id in st.rows && !Owned(st.bindings, n, id))
    {
      if id == after.bindings[n - 1].inboundID {
      } else {
        assert id in now.rows;
        if Owned(now.bindings, n - 1, id) {
          var i :| 0 <= i < n - 1 && now.bindings[i].inboundID == id;
          assert after.bindings[i].inboundID == id;
        }
      }
    }
    forall id | id in st.rows && !Owned(st.bindings, |st.bindings|, id)
      ensures id in after.rows && after.rows[id] == st.rows[id]
    {
      assert st.bindings[n - 1].inboundID != id;
    }
  }

  ghost predicate Midway(st: Store, n: nat, on: bool, make: Template, now: Store)
    requires n <= |st.bindings|
  {
    Turned(st, n, on, make, now) && Accounted(st, n, now)
  }

  lemma SyncedIsATurn(st: Store, n: nat, on: bool, make: Template, pick: Picker)
    requires 0 < n <= FirstBad(st, on, make)
    requires var now := Synced(st, n - 1, on, make, pick); now.bindings[n - 1] == st.bindings[n - 1]
    ensures Turn(Synced(st, n - 1, on, make, pick), n - 1, on, make, pick) == Some(Synced(st, n, on, make, pick))
  {
    assert CanMake(st.bindings[n - 1], on, make);
  }

  lemma OneMoreTurn(st: Store, n: nat, on: bool, make: Template, pick: Picker, now: Store, after: Store)
    requires 0 < n <= |st.bindings| && Lawful(pick) && NoStaleClaim(st, on)
    requires Midway(st, n - 1, on, make, now) && Turn(now, n - 1, on, make, pick) == Some(after)
    ensures Midway(st, n, on, make, after)
  {
    TurnKeepsTurned(st, n, on, make, pick, now, after);
    TurnKeepsAccounted(st, n, on, make, pick, now, after);
  }

  lemma {:induction false} SyncIsMidway(st: Store, n: nat, on: bool, make: Template, pick: Picker, now: Store)
    requires n <= FirstBad(st, on, make) && Lawful(pick) && NoStaleClaim(st, on)
    requires OneEach(st.bindings) && 0 !in st.rows
    requires now == Synced(st, n, on, make, pick)
    ensures Midway(st, n, on, make, now)
  {
    if n > 0 {
      var before := Synced(st, n - 1, on, make, pick);
      SyncIsMidway(st, n - 1, on, make, pick, before);
      SyncedIsATurn(st, n, on, make, pick);
      OneMoreTurn(st, n, on, make, pick, before, now);
    }
  }

  // A sync whose every config can be made leaves each wanted binding with a
  // row of its own that equals its template, each other binding with none,
  // and no other row changed, added or lost. Rows are updated in place.
  lemma SyncReconciles(st: Store, on: bool, make: Template, pick: Picker)
    requires Lawful(pick) && OneEach(st.bindings) && 0 !in st.rows && NoStaleClaim(st, on)
    requires FirstBad(st, on, make) == |st.bindings|
    ensures var now := Synced(st, |st.bindings|, on, make, pick);
            && Reconciled(now, on, make)
            && (forall id :: id in now.rows <==>
                  (Owned(now.bindings, |now.bindings|, id) && id != 0)
                  || (id in st.rows && !Owned(st.bindings, |st.bindings|, id)))
            && (forall id :: id in st.rows && !Owned(st.bindings, |st.bindings|, id) ==> now.rows[id] == st.rows[id])
            && (forall i :: 0 <= i < |st.bindings| && Wanted(st.bindings[i], on) && !Creates(st, i, on) ==>
                  KeptItsRow(st, now, i))
  {
    var n := |st.bindings|;
    var now := Synced(st, n, on, make, pick);
    SyncIsMidway(st, n, on, make, pick, now);
    forall id | Owned(now.bindings, n, id) && id != 0
      ensures id in now.rows
    {
      var i :| 0 <= i < n && now.bindings[i].inboundID == id;
      assert Settled(now, i, on, make);
    }
  }

  lemma {:induction false} SettledPrefixIsFree(st: Store, n: nat, on: bool, make: Template, pick: Picker)
    requires n <= |st.bindings| && forall i :: 0 <= i < n ==> Settled(st, i, on, make)
    ensures Synced(st, n, on, make, pick) == st
  {
    if n > 0 {
      SettledPrefixIsFree(st, n - 1, on, make, pick);
      assert Settled(st, n - 1, on, make);
      var id := st.bindings[n - 1].inboundID;
      if id != 0 { assert st.rows[id := st.rows[id].(config := st.rows[id].config)] == st.rows; }
    }
  }

  // Syncing again creates, deletes and changes nothing.
  lemma SecondSyncIsFree(st: Store, on: bool, make: Template, pick: Picker, again: Picker)
    requires Lawful(pick) && OneEach(st.bindings) && 0 !in st.rows && NoStaleClaim(st, on)
    requires FirstBad(st, on, make) == |st.bindings|
    ensures var now := Synced(st, |st.bindings|, on, make, pick);
            Synced(now, |now.bindings|, on, make, again) == now
  {
    SyncReconciles(st, on, make, pick);
    var now := Synced(st, |st.bindings|, on, make, pick);
    SettledPrefixIsFree(now, |now.bindings|, on, make, again);
  }

  ghost function Highest(s: set<nat>): (m: nat)
    ensures forall x :: x in s ==> x <= m
  {
    if s == {} then 0
    else
      var x :| x in s;
      var rest := Highest(s - {x});
      assert forall y :: y in s && y != x ==> y in s - {x};
      if x > rest then x else rest
  }

  // A database that hands out d again as soon as no row has it.
  ghost function Reusing(d: nat): Picker {
    (s: set<nat>) => if d !in s && d != 0 then d else Highest(s) + 1
  }

  // Before any creation the rows are among those that were there.
  lemma {:induction false} NoRowsAdded(st: Store, n: nat, on: bool, make: Template, pick: Picker)
    requires n <= FirstBad(st, on, make) && OneEach(st.bindings)
    requires forall i :: 0 <= i < n ==> !Creates(st, i, on)
    ensures var now := Synced(st, n, on, make, pick);
            && (forall id :: id in now.rows ==> id in st.rows)
            && (forall i :: n <= i < |st.bindings| ==>
                  now.bindings[i] == st.bindings[i] && (Dangling(now, i) <==> Dangling(st, i)))
  {
    if n > 0 {
      NoRowsAdded(st, n - 1, on, make, pick);
      var before := Synced(st, n - 1, on, make, pick);
      assert before.bindings[n - 1] == st.bindings[n - 1];
      assert Dangling(before, n - 1) <==> Dangling(st, n - 1);
      assert !Creates(st, n - 1, on);
    }
  }

  // The binding i holds d, which is no row or another's too.
  predicate Spoiled(now: Store, i: nat, n: nat, d: nat)
    requires i < n <= |now.bindings|
  {
    now.bindings[i].inboundID == d &&
    (d !in now.rows || exists k :: 0 <= k < n && k != i && now.bindings[k].inboundID == d)
  }

  lemma {:induction false} HoldsOnTo(st: Store, i: nat, n: nat, d: nat, on: bool, make: Template)
    requires i < n <= FirstBad(st, on, make) && OneEach(st.bindings) && Creates(st, i, on)
    requires forall k :: 0 <= k < i ==> !Creates(st, k, on)
    requires d != 0 && d !in st.rows
    ensures var now := Synced(st, n, on, make, Reusing(d));
            && now.bindings[i].inboundID == d
            && (forall k :: n <= k < |st.bindings| ==> now.bindings[k] == st.bindings[k])
  {
    if n == i + 1 {
      NoRowsAdded(st, i, on, make, Reusing(d));
    } else {
      HoldsOnTo(st, i, n - 1, d, on, make);
    }
  }

  lemma {:induction false} StaysSpoiled(st: Store, i: nat, j: nat, n: nat, on: bool, make: Template)
    requires i < j < n <= FirstBad(st, on, make) && OneEach(st.bindings) && Creates(st, i, on) && Dangling(st, j)
    requires forall k :: 0 <= k < i ==> !Creates(st, k, on)
    ensures Spoiled(Synced(st, n, on, make, Reusing(st.bindings[j].inboundID)), i, n, st.bindings[j].inboundID)
  {
    var d := st.bindings[j].inboundID;
    var before := Synced(st, n - 1, on, make, Reusing(d));
    var now := Synced(st, n, on, make, Reusing(d));
    HoldsOnTo(st, i, n - 1, d, on, make);
    HoldsOnTo(st, i, n, d, on, make);
    if n == j + 1 {
      assert before.bindings[j].inboundID == d;
      assert now.bindings[j].inboundID == d || d !in now.rows;
    } else {
      StaysSpoiled(st, i, j, n - 1, on, make);
      assert before.bindings[n - 1].inboundID == st.bindings[n - 1].inboundID != d;
      if d in before.rows {
        var k :| 0 <= k < n - 1 && k != i && before.bindings[k].inboundID == d;
        assert now.bindings[k].inboundID == d;
      } else if d in now.rows {
        assert now.bindings[n - 1].inboundID == d;
      }
    }
  }

  lemma StaleClaimCanBeTakenOver(st: Store, on: bool, make: Template)
    requires OneEach(st.bindings) && FirstBad(st, on, make) == |st.bindings| && !NoStaleClaim(st, on)
    ensures exists pick :: Lawful(pick) && !Reconciled(Synced(st, |st.bindings|, on, make, pick), on, make)
  {
    var i, j :| 0 <= i < j < |st.bindings| && Dangling(st, j) && Creates(st, i, on);
    i := FirstCreating(st, on, i);
    var d := st.bindings[j].inboundID;
    StaysSpoiled(st, i, j, |st.bindings|, on, make);
    var now := Synced(st, |st.bindings|, on, make, Reusing(d));
    if d in now.rows {
      var k :| 0 <= k < |now.bindings| && k != i && now.bindings[k].inboundID == d;
      assert !OneEach(now.bindings) by {
        if i >= k { assert now.bindings[k].inboundID == now.bindings[i].inboundID; }
      }
    } else {
      HoldsOnTo(st, i, |st.bindings|, d, on, make);
      SpotsStay(st, |st.bindings|, on, make, Reusing(d));
      assert !Settled(now, i, on, make);
    }
    assert Lawful(Reusing(d));
  }

  lemma {:induction false} SpotsStay(st: Store, n: nat, on: bool, make: Template, pick: Picker)
    requires n <= |st.bindings|
    ensures var now := Synced(st, n, on, make, pick);
            forall i :: 0 <= i < |st.bindings| ==>
              now.bindings[i] == st.bindings[i].(inboundID := now.bindings[i].inboundID)
  {
    if n > 0 { SpotsStay(st, n - 1, on, make, pick); }
  }

  ghost function FirstCreating(st: Store, on: bool, i: nat): (k: nat)
    requires i < |st.bindings| && Creates(st, i, on)
    ensures k <= i && Creates(st, k, on) && forall j :: 0 <= j < k ==> !Creates(st, j, on)
  {
    if j :| 0 <= j < i && Creates(st, j, on) then FirstCreating(st, on, j) else i
  }

  // Whatever ids the database hands out, each binding ends with a row of its
  // own exactly when no binding names a deleted row that an earlier one's new
  // row could be given.
  lemma AnyIdsWillDoIff(st: Store, on: bool, make: Template)
    requires OneEach(st.bindings) && 0 !in st.rows && FirstBad(st, on, make) == |st.bindings|
    ensures (forall pick :: Lawful(pick) ==> Reconciled(Synced(st, |st.bindings|, on, make, pick), on, make))
            <==> NoStaleClaim(st, on)
  {
    if NoStaleClaim(st, on) {
      forall pick: Picker | Lawful(pick)
        ensures Reconciled(Synced(st, |st.bindings|, on, make, pick), on, make)
      {
        SyncReconciles(st, on, make, pick);
      }
    } else {
      StaleClaimCanBeTakenOver(st, on, make);
    }
  }

  // A sync that fails is meant to be refused whole. What it did before the bad
  // binding stays done, so it leaves the store as it was exactly when there
  // was nothing to do for the bindings before that one.
  lemma FailedSyncChangesNothingIff(st: Store, on: bool, make: Template, pick: Picker)
    requires Lawful(pick) && OneEach(st.bindings) && 0 !in st.rows && NoStaleClaim(st, on)
    requires FirstBad(st, on, make) < |st.bindings|
    ensures Synced(st, |st.bindings|, on, make, pick) == st
            <==> forall i :: 0 <= i < FirstBad(st, on, make) ==> Settled(st, i, on, make)
  {
    var k := FirstBad(st, on, make);
    SyncedStops(st, k, |st.bindings|, on, make, pick);
    SyncIsMidway(st, k, on, make, pick, Synced(st, k, on, make, pick));
    if forall i :: 0 <= i < k ==> Settled(st, i, on, make) {
      SettledPrefixIsFree(st, k, on, make, pick);
    }
  }

  // Two bindings, the second without a usable port: the first is on the new
  // definition already when the sync is refused.
  lemma AFailedSyncIsHalfDone(make: Template, pick: Picker, a: Spot, b: Spot, rest: string)
    requires make(a) == Some("new") && make(b) == None
    ensures var st := Store(map[7 := Row("old", rest), 8 := Row("old", rest)],
                            [Binding(a, 7, true), Binding(b, 8, true)]);
            var now := Synced(st, 2, true, make, pick);
            FirstBad(st, true, make) == 1 && now.rows == map[7 := Row("new", rest), 8 := Row("old", rest)]
  {
    var st := Store(map[7 := Row("old", rest), 8 := Row("old", rest)], [Binding(a, 7, true), Binding(b, 8, true)]);
    assert CanMake(st.bindings[0], true, make) && !CanMake(st.bindings[1], true, make);
    var one := Synced(st, 1, true, make, pick);
    assert Synced(st, 0, true, make, pick) == st;
    assert Turn(st, 0, true, make, pick) == Some(one);
    SyncedStops(st, 1, 2, true, make, pick);
  }

  // What an administrator does to a profile; each but a removal is followed by
  // a sync. An edit carries the owned row forward.
  datatype Op =
    | Retemplate(on: bool, make: Template)
    | Add(spot: Spot, enabled: bool)
    | Edit(i: nat, spot: Spot, enabled: bool)
    | Remove(i: nat)

  datatype Profile = Profile(st: Store, on: bool, make: Template)

  function Resynced(p: Profile, pick: Picker): Profile {
    p.(st := Synced(p.st, |p.st.bindings|, p.on, p.make, pick))
  }

  function Saved(st: Store, op: Op): Store
    requires op.Add? || op.Edit?
  {
    match op
    case Add(spot, enabled) => st.(bindings := st.bindings + [Binding(spot, 0, enabled)])
    case Edit(i, spot, enabled) =>
      if i < |st.bindings| then
        st.(bindings := st.bindings[i := Binding(spot, st.bindings[i].inboundID, enabled)])
      else st
  }

  function Removed(st: Store, i: nat): Store {
    if i < |st.bindings| then
      Store(st.rows - {st.bindings[i].inboundID}, st.bindings[..i] + st.bindings[i + 1..])
    else st
  }

  function Done(p: Profile, op: Op, pick: Picker): Profile {
    match op
    case Retemplate(on, make) => Resynced(Profile(p.st, on, make), pick)
    case Add(_, _) => Resynced(p.(st := Saved(p.st, op)), pick)
    case Edit(_, _, _) => Resynced(p.(st := Saved(p.st, op)), pick)
    case Remove(i) => p.(st := Removed(p.st, i))
  }

  function RunOps(p: Profile, ops: seq<Op>, pick: Picker): Profile {
    if ops == [] then p else Done(RunOps(p, ops[..|ops| - 1], pick), ops[|ops| - 1], pick)
  }

  predicate Tidy(st: Store) {
    OneEach(st.bindings) && 0 !in st.rows && forall i :: 0 <= i < |st.bindings| ==> !Dangling(st, i)
  }

  lemma SyncKeepsTidy(st: Store, on: bool, make: Template, pick: Picker)
    requires Lawful(pick) && Tidy(st)
    ensures Tidy(Synced(st, |st.bindings|, on, make, pick))
  {
    var k := FirstBad(st, on, make);
    var now := Synced(st, k, on, make, pick);
    SyncedStops(st, k, |st.bindings|, on, make, pick);
    SyncIsMidway(st, k, on, make, pick, now);
    forall i | 0 <= i < |now.bindings|
      ensures !Dangling(now, i)
    {
      if i < k { assert Settled(now, i, on, make); } else { assert !Dangling(st, i); }
    }
  }

  lemma EditKeepsTidy(st: Store, op: Op)
    requires Tidy(st) && (op.Add? || op.Edit?)
    ensures Tidy(Saved(st, op))
  {
    var now := Saved(st, op);
    forall i | 0 <= i < |now.bindings|
      ensures !Dangling(now, i)
    {
      if i < |st.bindings| { assert !Dangling(st, i); }
    }
  }

  lemma RemoveKeepsTidy(st: Store, i: nat)
    requires Tidy(st) && i < |st.bindings|
    ensures Tidy(Removed(st, i))
  {
    var now := Removed(st, i);
    forall j | 0 <= j < |now.bindings|
      ensures !Dangling(now, j)
    {
      assert !Dangling(st, if j < i then j else j + 1);
    }
  }

  // Through any sequence of changes, failed syncs among them, the bindings
  // keep distinct live rows; and whenever the templates can all be made, the
  // fleet is what the profile says.
  lemma {:induction false} EveryRunStaysTidy(p: Profile, ops: seq<Op>, pick: Picker)
    requires Lawful(pick) && Tidy(p.st)
    ensures Tidy(RunOps(p, ops, pick).st)
  {
    if ops != [] {
      var was, op := RunOps(p, ops[..|ops| - 1], pick), ops[|ops| - 1];
      EveryRunStaysTidy(p, ops[..|ops| - 1], pick);
      match op {
        case Retemplate(on, make) => SyncKeepsTidy(was.st, on, make, pick);
        case Remove(i) => if i < |was.st.bindings| { RemoveKeepsTidy(was.st, i); }
        case Add(_, _) => EditKeepsTidy(was.st, op); SyncKeepsTidy(Saved(was.st, op), was.on, was.make, pick);
        case Edit(_, _, _) => EditKeepsTidy(was.st, op); SyncKeepsTidy(Saved(was.st, op), was.on, was.make, pick);
      }
    }
  }

  lemma EveryRunReconciles(p: Profile, ops: seq<Op>, op: Op, pick: Picker)
    requires Lawful(pick) && Tidy(p.st) && !op.Remove?
    requires var q := Done(RunOps(p, ops, pick), op, pick); FirstBad(q.st, q.on, q.make) == |q.st.bindings|
    ensures var q := Done(RunOps(p, ops, pick), op, pick); Reconciled(q.st, q.on, q.make)
  {
    EveryRunStaysTidy(p, ops, pick);
    var was := RunOps(p, ops, pick);
    var st := if op.Retemplate? then was.st else Saved(was.st, op);
    if !op.Retemplate? { EditKeepsTidy(was.st, op); }
    var q := Done(was, op, pick);
    SpotsStay(st, |st.bindings|, q.on, q.make, pick);
    SameBad(st, q.st, q.on, q.make);
    SyncReconciles(st, q.on, q.make, pick);
  }

  lemma SameBad(st: Store, now: Store, on: bool, make: Template)
    requires |now.bindings| == |st.bindings|
    requires forall i :: 0 <= i < |st.bindings| ==>
               now.bindings[i] == st.bindings[i].(inboundID := now.bindings[i].inboundID)
    ensures FirstBad(st, on, make) == FirstBad(now, on, make)
  {
    forall i | 0 <= i < |st.bindings|
      ensures CanMake(st.bindings[i], on, make) == CanMake(now.bindings[i], on, make)
    {
    }
  }
}
