// Operation ids for an API document: the name asked for, or the name and the
// first number that makes it new.
module OperationIds {
  import opened Numerals

  function Candidate(id: string, n: nat): string { id + Itoa(n) }

  lemma CandidatesDiffer(id: string, m: nat, n: nat)
    requires m != n
    ensures Candidate(id, m) != Candidate(id, n)
  {
    if Candidate(id, m) == Candidate(id, n) {
      assert Itoa(m) == Candidate(id, m)[|id|..] == Itoa(n);
      ItoaIsInjective(m, n);
    }
  }

  // The id handed out: the name while it is new, else its first new numbering.
  ghost predicate Fits(used: set<string>, id: string, r: string) {
    r !in used && if id !in used then r == id else exists n: nat :: Numbered(used, id, n, r)
  }

  ghost predicate Numbered(used: set<string>, id: string, n: nat, r: string) {
    n >= 2 && r == Candidate(id, n) && forall m :: 2 <= m < n ==> Candidate(id, m) in used
  }

  class IdTable {
    var used: set<string>

    constructor ()
      ensures used == {}
    {
      used := {};
    }

    // The search ends: every candidate passed over is another of the finitely
    // many ids in use.
    method UniqueOperationID(id: string) returns (r: string)
      modifies this
      ensures Fits(old(used), id, r) && used == old(used) + {r}
    {
      if id !in used {
        used := used + {id};
        return id;
      }
      var n := 2;
      ghost var left := used;
      while true
        invariant n >= 2 && used == old(used)
        invariant forall m :: 2 <= m < n ==> Candidate(id, m) in used
        invariant left <= used && forall m: nat :: m >= n && Candidate(id, m) in used ==> Candidate(id, m) in left
        decreases |left|
      {
        var cand := Candidate(id, n);
        if cand !in used {
          used := used + {cand};
          assert Numbered(old(used), id, n, cand);
          return cand;
        }
        forall m: nat | m > n
          ensures Candidate(id, m) != cand
        {
          CandidatesDiffer(id, m, n);
        }
        left := left - {cand};
        n := n + 1;
      }
    }
  }

  function SetOf(ids: seq<string>): set<string> { set x | x in ids }

  // Each id fits the ones handed out before it.
  ghost predicate AllFit(names: seq<string>, ids: seq<string>) {
    |ids| == |names| && forall k :: 0 <= k < |ids| ==> Fits(SetOf(ids[..k]), names[k], ids[k])
  }

  method AssignIds(names: seq<string>) returns (ids: seq<string>)
    ensures AllFit(names, ids)
  {
    var table := new IdTable();
    ids := [];
    var i := 0;
    while i < |names|
      invariant 0 <= i <= |names| && |ids| == i
      invariant table.used == SetOf(ids)
      invariant forall k :: 0 <= k < i ==> Fits(SetOf(ids[..k]), names[k], ids[k])
    {
      var r := table.UniqueOperationID(names[i]);
      ghost var was := ids;
      ids := ids + [r];
      assert ids[..i] == was && forall k :: 0 <= k < i ==> ids[..k] == was[..k];
      i := i + 1;
    }
  }

  // However many routes share a name, no two operations share an id.
  lemma IdsAreDistinct(names: seq<string>, ids: seq<string>, i: nat, j: nat)
    requires AllFit(names, ids) && i < j < |ids|
    ensures ids[i] != ids[j]
  {
    assert ids[..j][i] == ids[i];
    assert ids[i] in SetOf(ids[..j]);
  }

  // An operation keeps its name exactly when nobody before it was given that
  // name, as a name or as a numbering of another.
  lemma KeepsItsNameIff(names: seq<string>, ids: seq<string>, k: nat)
    requires AllFit(names, ids) && k < |ids|
    ensures ids[k] == names[k] <==> names[k] !in ids[..k]
    ensures ids[k] != names[k] ==> exists n: nat :: n >= 2 && ids[k] == Candidate(names[k], n)
  {
    var used := SetOf(ids[..k]);
    assert Fits(used, names[k], ids[k]);
    if names[k] in used {
      var n: nat :| Numbered(used, names[k], n, ids[k]);
      assert n >= 2 && ids[k] == Candidate(names[k], n);
    }
  }

  lemma OneFits(used: set<string>, id: string, r: string, s: string)
    requires Fits(used, id, r) && Fits(used, id, s)
    ensures r == s
  {
    if id in used {
      var m: nat :| Numbered(used, id, m, r);
      var n: nat :| Numbered(used, id, n, s);
    }
  }

  lemma AgreeNext(names: seq<string>, ids: seq<string>, again: seq<string>, k: nat)
    requires AllFit(names, ids) && AllFit(names, again) && k < |names| && ids[..k] == again[..k]
    ensures ids[k] == again[k]
  {
    OneFits(SetOf(ids[..k]), names[k], ids[k], again[k]);
  }

  // The ids depend on the names alone: regenerating the document renames nothing.
  lemma SameNamesSameIds(names: seq<string>, ids: seq<string>, again: seq<string>)
    requires AllFit(names, ids) && AllFit(names, again)
    ensures ids == again
  {
    var k := FirstApart(ids, again, 0);
    if k < |ids| { AgreeNext(names, ids, again, k); }
  }

  function FirstApart(a: seq<string>, b: seq<string>, i: nat): (k: nat)
    requires |a| == |b| && i <= |a| && a[..i] == b[..i]
    ensures i <= k <= |a| && a[..k] == b[..k] && (k < |a| ==> a[k] != b[k]) && (k == |a| ==> a == b)
    decreases |a| - i
  {
    if i == |a| || a[i] != b[i] then
      (assert a[..|a|] == a && b[..|b|] == b;
       i)
    else
      assert a[..i + 1] == a[..i] + [a[i]] && b[..i + 1] == b[..i] + [b[i]];
      FirstApart(a, b, i + 1)
  }
}
