// The bounded log buffer shared by the node agent and the panel.
//
// Every line ever added has an absolute position, counted from zero. The buffer
// holds the newest `size` of them and overwrites in place once it is full, so a
// reader resumes by position and not by index.
module LogBuffer {

  // What a watcher is shown on opening the stream: at most this many lines.
  const SNAPSHOT_LINES: nat := 20

  function Min(a: int, b: int): int { if a < b then a else b }

  function Max(a: int, b: int): int { if a < b then b else a }

  // The position a reader asking for `pos` is served from: a reader behind the
  // window, or ahead of everything written, is given all that is held.
  function ResumeFrom(written: nat, size: nat, pos: int): (start: nat)
    ensures written - size <= start <= written
  {
    var first := Max(0, written - size);
    if pos < first || pos > written then first else pos
  }

  // The newest n lines of a sequence, oldest first.
  function Newest<T>(lines: seq<T>, n: nat): seq<T> {
    lines[|lines| - Min(|lines|, n)..]
  }

  // The slot of a position. It is the remainder (SlotIsRemainder), taken by
  // repeated subtraction so that reasoning about it stays linear.
  function Slot(p: nat, size: nat): (slot: nat)
    requires size > 0
    ensures slot < size && slot <= p
  {
    if p < size then p else Slot(p - size, size)
  }

  lemma {:induction false} SlotIsRemainder(p: nat, size: nat)
    requires size > 0
    ensures Slot(p, size) == p % size
  {
    if p >= size {
      SlotIsRemainder(p - size, size);
      OneTurnLess(p, size);
    } else {
      RemainderUnique(p, size, 0, p);
    }
  }

  lemma OneTurnLess(p: int, size: int)
    requires size > 0
    ensures (p - size) % size == p % size
  {
    var k := p / size;
    assert size * (k - 1) == size * k - size;
    RemainderUnique(p - size, size, k - 1, p % size);
  }

  lemma RemainderUnique(p: int, size: int, k: int, r: int)
    requires 0 <= r < size && p == size * k + r
    ensures p % size == r
  {
    var k', r' := p / size, p % size;
    assert p == size * k' + r' && 0 <= r' < size;
    QuotientUnique(size, k, r, k', r');
  }

  lemma QuotientUnique(size: int, k: int, r: int, k': int, r': int)
    requires 0 <= r < size && 0 <= r' < size
    requires size * k + r == size * k' + r'
    ensures r == r'
  {
    var d := k' - k;
    assert size * d == r - r' by {
      assert size * (k' - k) == size * k' - size * k;
    }
    MultipleBound(size, d);
  }

  // A non-zero multiple is at least as large as what it is a multiple of.
  lemma MultipleBound(size: int, d: int)
    requires size > 0
    ensures d >= 1 ==> size * d >= size
    ensures d <= -1 ==> size * d <= -size
  {
    if d >= 1 {
      assert size * d == size + size * (d - 1) && size * (d - 1) >= 0;
    } else if d <= -1 {
      assert size * d == -size + size * (d + 1) && size * (d + 1) <= 0;
    }
  }

  // Positions closer together than the size never share a slot.
  lemma {:induction false} SlotsDiffer(p: nat, q: nat, size: nat)
    requires p < q < p + size
    ensures Slot(p, size) != Slot(q, size)
    decreases p
  {
    if p >= size {
      SlotsDiffer(p - size, q - size, size);
    } else if q >= size {
      assert Slot(q, size) == q - size < p;
    }
  }

  class LogRing {
    var buf: seq<string>
    var n: nat
    const size: nat
    // Every line ever added: what the buffer stands for.
    ghost var all: seq<string>

    ghost predicate Valid()
      reads this
    {
      && size > 0
      && n == |all|
      && |buf| == Min(n, size)
      && (forall p: nat :: n - |buf| <= p < n ==> buf[Slot(p, size)] == all[p])
    }

    constructor (size: int)
      ensures Valid() && all == []
      ensures this.size == if size <= 0 then 1 else size
    {
      this.size := if size <= 0 then 1 else size;
      buf := [];
      n := 0;
      all := [];
    }

    method Add(line: string)
      requires Valid()
      modifies this
      ensures Valid()
      ensures all == old(all) + [line]
    {
      if |buf| < size {
        buf := buf + [line];
      } else {
        forall p: nat | n - size < p < n
          ensures Slot(p, size) != Slot(n, size)
        {
          SlotsDiffer(p, n, size);
        }
        buf := buf[Slot(n, size) := line];
      }
      n := n + 1;
      all := all + [line];
    }

    // The lines of a stretch of positions still held, oldest first.
    method Lines(from: nat, to: nat) returns (out: seq<string>)
      requires Valid() && n - |buf| <= from <= to <= n
      ensures out == all[from..to]
    {
      out := [];
      var i := from;
      while i < to
        invariant from <= i <= to
        invariant out == all[from..i]
      {
        out := out + [buf[Slot(i, size)]];
        i := i + 1;
      }
    }

    // What has been written from a position on, and the position to ask for next.
    method Since(pos: int) returns (out: seq<string>, next: nat)
      requires Valid()
      ensures out == all[ResumeFrom(|all|, size, pos)..]
      ensures next == |all|
    {
      var held := n;
      if held > size { held := size; }
      if held > |buf| { held := |buf|; }
      var first := n - held;
      var from := pos;
      if from < first || from > n { from := first; }
      out := Lines(from, n);
      next := n;
    }

    // The most recent k lines still held, oldest first.
    method SnapshotN(k: int) returns (out: seq<string>)
      requires Valid()
      ensures out == Newest(all, Max(0, Min(k, size)))
    {
      var held := n;
      if held > size { held := size; }
      if held > |buf| { held := |buf|; }
      var m := k;
      if m > held { m := held; }
      if m <= 0 {
        return [];
      }
      out := Lines(n - m, n);
    }

    method Snapshot() returns (out: seq<string>)
      requires Valid()
      ensures out == Newest(all, Min(SNAPSHOT_LINES, size))
    {
      out := SnapshotN(SNAPSHOT_LINES);
    }
  }
}
