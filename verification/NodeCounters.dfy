// Where a node's traffic counters come from: both cores, merged under one key.
module NodeCounters {
  import opened NodeTraffic
  import opened Numerals

  const MARK: string := ">>>"

  // ---- Splitting a counter's name ------------------------------------------------

  predicate MarkAt(s: string, i: nat) { i + 3 <= |s| && s[i] == s[i + 1] == s[i + 2] == '>' }

  ghost predicate Marked(s: string) { exists i: nat :: MarkAt(s, i) }

  // Where the first mark at or after `i` begins, or the length when there is none.
  function Find(s: string, i: nat): (k: nat)
    requires i <= |s|
    ensures i <= k <= |s| && (k < |s| ==> MarkAt(s, k))
    ensures forall j: nat :: i <= j < k ==> !MarkAt(s, j)
    decreases |s| - i
  {
    if i == |s| || MarkAt(s, i) then i else Find(s, i + 1)
  }

  function Split(s: string): (parts: seq<string>)
    ensures parts != []
  {
    var i := Find(s, 0);
    if i == |s| then [s] else [s[..i]] + Split(s[i + 3..])
  }

  lemma {:induction false} PartsAreUnmarked(s: string, k: nat)
    requires k < |Split(s)|
    ensures !Marked(Split(s)[k])
  {
    var i := Find(s, 0);
    forall j: nat ensures MarkAt(s[..i], j) ==> MarkAt(s, j) { }
    if i == |s| {
      assert s[..i] == s;
    } else if k > 0 {
      PartsAreUnmarked(s[i + 3..], k - 1);
    }
  }

  // A text free of '>' and a mark: the first part is the text, whatever follows.
  lemma SplitAfter(s: string, rest: string)
    requires '>' !in s
    ensures Split(s + MARK + rest) == [s] + Split(rest)
  {
    var all := s + MARK + rest;
    assert MarkAt(all, |s|);
    forall j: nat | j < |s| ensures !MarkAt(all, j) { assert all[j] == s[j]; }
    assert Find(all, 0) == |s|;
    assert all[..|s|] == s && all[|s| + 3..] == rest;
  }

  lemma SplitPlain(s: string)
    requires '>' !in s
    ensures Split(s) == [s]
  {
    var i := Find(s, 0);
    assert i == |s|;
  }

  // ---- Xray's counters -------------------------------------------------------------

  // One entry of the answer; no value when it is absent or not a number.
  datatype Stat = Stat(name: string, value: Option<int>)

  function CounterName(user: string, direction: string): string {
    "user" + MARK + (user + MARK + ("traffic" + MARK + direction))
  }

  // The key an entry counts towards.
  function KeyOf(stat: Stat): Option<string> {
    var parts := Split(stat.name);
    if |parts| != 4 || parts[0] != "user" || stat.value.None? || stat.value.value <= 0 then None else Some(parts[1])
  }

  function Total(stats: seq<Stat>, key: string): (n: nat) {
    if stats == [] then 0
    else
      var last := stats[|stats| - 1];
      Total(stats[..|stats| - 1], key) + if KeyOf(last) == Some(key) then last.value.value else 0
  }

  method CollectXrayTraffic(stats: seq<Stat>) returns (totals: map<string, int>)
    ensures forall key :: key in totals <==> Total(stats, key) > 0
    ensures forall key :: key in totals ==> totals[key] == Total(stats, key)
  {
    totals := map[];
    for i := 0 to |stats|
      invariant forall key :: key in totals <==> Total(stats[..i], key) > 0
      invariant forall key :: key in totals ==> totals[key] == Total(stats[..i], key)
    {
      assert stats[..i + 1][..i] == stats[..i];
      var key := KeyOf(stats[i]);
      if key.Some? {
        totals := totals[key.value := (if key.value in totals then totals[key.value] else 0) + stats[i].value.value];
      }
    }
    assert stats[..|stats|] == stats;
  }

  // No key Xray's answer is collected under holds a mark.
  lemma {:induction false} XrayKeysAreUnmarked(stats: seq<Stat>, key: string)
    requires Total(stats, key) > 0
    ensures !Marked(key)
  {
    var last := stats[|stats| - 1];
    if KeyOf(last) == Some(key) {
      PartsAreUnmarked(last.name, 1);
    } else {
      XrayKeysAreUnmarked(stats[..|stats| - 1], key);
    }
  }

  lemma {:induction false} NumeralsAreDigits(n: nat)
    ensures '>' !in Itoa(n)
  {
    if n >= 10 { NumeralsAreDigits(n / 10); }
  }

  lemma NameSplits(user: string, direction: string)
    requires '>' !in user && '>' !in direction
    ensures Split(CounterName(user, direction)) == ["user", user, "traffic", direction]
  {
    SplitAfter("user", user + MARK + ("traffic" + MARK + direction));
    SplitAfter(user, "traffic" + MARK + direction);
    SplitAfter("traffic", direction);
    SplitPlain(direction);
  }

  // What Xray counts for a user is collected under that user's own key, and billed
  // to that user.
  lemma XrayCounterFindsItsUser(id: nat, direction: string, value: nat)
    requires 0 < id <= MAX_UINT64 && value > 0 && '>' !in direction
    ensures KeyOf(Stat(CounterName(UserKey(id), direction), Some(value))) == Some(UserKey(id))
    ensures UserOfKey(UserKey(id)) == Some(id)
  {
    NumeralsAreDigits(id);
    UserKeyRoundTrip(id);
    NameSplits(UserKey(id), direction);
  }

  // ---- Both cores --------------------------------------------------------------------

  function At(m: map<string, int>, key: string): int { if key in m then m[key] else 0 }

  ghost predicate IsMerged(out: map<string, int>, xray: map<string, int>, singbox: map<string, int>) {
    && out.Keys == xray.Keys + singbox.Keys
    && (forall key :: key in out ==> out[key] == At(xray, key) + At(singbox, key))
  }

  // sing-box's counters are added to Xray's, name by name as its API returned them.
  method CollectTraffic(xray: map<string, int>, singbox: map<string, int>) returns (out: map<string, int>)
    ensures IsMerged(out, xray, singbox)
  {
    out := xray;
    var todo := singbox.Keys;
    while todo != {}
      invariant todo <= singbox.Keys && out.Keys == xray.Keys + (singbox.Keys - todo)
      invariant forall key :: key in out ==> out[key] == At(xray, key) + if key in todo then 0 else At(singbox, key)
    {
      var key :| key in todo;
      out := out[key := At(out, key) + singbox[key]];
      todo := todo - {key};
    }
  }

  lemma {:induction false} DigitsOnly(s: string, i: nat)
    requires ParseDecimal(s).Some? && i < |s|
    ensures '0' <= s[i] <= '9'
  {
    if |s| > 1 && i < |s| - 1 { DigitsOnly(s[..|s| - 1], i); }
  }

  // A name with a mark in it is nobody's key.
  lemma MarkedNamesNobody(key: string)
    requires Marked(key)
    ensures UserOfKey(key).None?
  {
    var i: nat :| MarkAt(key, i);
    if UserOfKey(key).Some? { DigitsOnly(key[1..], i); }
  }

  lemma {:induction false} SameCharges(b: Books, r: Report, q: Report, keys: set<string>, id: nat)
    requires keys <= r.counters.Keys && keys <= q.counters.Keys
    requires forall k :: k in keys ==> ChargeTo(b, r, k, id) == ChargeTo(b, q, k, id)
    ensures Charged(b, r, keys, id) == Charged(b, q, keys, id)
    decreases |keys|
  {
    if keys != {} {
      var k :| k in keys;
      ChargedSplits(b, r, keys, k, id);
      ChargedSplits(b, q, keys, k, id);
      SameCharges(b, r, q, keys - {k}, id);
    }
  }

  lemma {:induction false} NobodysKeysAddNothing(b: Books, r: Report, keys: set<string>, more: set<string>, id: nat)
    requires keys + more <= r.counters.Keys && keys !! more
    requires forall k :: k in more ==> UserOfKey(k).None?
    ensures Charged(b, r, keys + more, id) == Charged(b, r, keys, id)
    decreases |more|
  {
    if more == {} {
      assert keys + more == keys;
    } else {
      var k :| k in more;
      ChargedSplits(b, r, keys + more, k, id);
      assert keys + more - {k} == keys + (more - {k});
      NobodysKeysAddNothing(b, r, keys, more - {k}, id);
    }
  }

  // A query for "user>>>" brings back names that hold a mark, so what sing-box
  // counted never meets what Xray counted, and no user is billed a byte of it:
  // their books are as if sing-box had reported nothing.
  lemma SingboxTrafficIsNeverBilled(b: Books, r: Report, xray: map<string, int>, singbox: map<string, int>,
                                    stats: seq<Stat>)
    requires IsMerged(r.counters, xray, singbox)
    requires forall key :: key in xray ==> Total(stats, key) > 0
    requires forall key :: key in singbox ==> Marked(key)
    ensures xray.Keys !! singbox.Keys
    ensures Account(b, r).users == Account(b, r.(counters := xray)).users
  {
    forall key | key in xray
      ensures key !in singbox
    {
      XrayKeysAreUnmarked(stats, key);
    }
    forall key | key in singbox ensures UserOfKey(key).None? { MarkedNamesNobody(key); }
    forall id | id in b.users
      ensures Charged(b, r, r.counters.Keys, id) == Charged(b, r.(counters := xray), xray.Keys, id)
    {
      NobodysKeysAddNothing(b, r, xray.Keys, singbox.Keys, id);
      SameCharges(b, r, r.(counters := xray), xray.Keys, id);
    }
  }

  // The names the two cores use are the same, and the keys they end under are not:
  // one user served by both is billed for Xray's half alone.
  lemma TheSameNameTwoKeys(id: nat, direction: string)
    requires 0 < id <= MAX_UINT64 && '>' !in direction
    ensures var name := CounterName(UserKey(id), direction);
            && Marked(name) && UserOfKey(name).None?
            && KeyOf(Stat(name, Some(1))) == Some(UserKey(id)) && name != UserKey(id)
  {
    var name := CounterName(UserKey(id), direction);
    assert MarkAt(name, 4);
    MarkedNamesNobody(name);
    XrayCounterFindsItsUser(id, direction, 1);
  }
}
