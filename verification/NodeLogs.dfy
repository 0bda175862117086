// How the panel files the log lines a node reports, and who it shows them to.
module NodeLogs {
  import opened LogBuffer

  const NODE_LOG_RING: nat := 400
  const NODE_LOG_BURST: nat := 200
  const NODE_LOG_QUEUE: nat := 256

  // What the panel knows of one node: the agent process it last heard from, the
  // sequence position it expects next, and every line filed since it booted.
  datatype Filing<E, T> = Filing(epoch: E, next: int, log: seq<T>)

  // What one batch does: the process and position expected from now on, and the
  // lines that are new.
  datatype Verdict<E, T> = Verdict(epoch: E, next: int, filed: seq<T>)

  // Judging a batch that starts at position `at` of the process `epoch`.
  function Judge<E(==), T>(known: E, next: int, epoch: E, at: int, lines: seq<T>): Verdict<E, T> {
    if |lines| == 0 || at < 0 then Verdict(known, next, [])
    else
      var extra := Max(0, |lines| - NODE_LOG_BURST);
      JudgeTrimmed(if known == epoch then next else 0, epoch, at + extra, lines[extra..])
  }

  function JudgeTrimmed<E, T>(next: int, epoch: E, at: int, lines: seq<T>): Verdict<E, T> {
    var want := Max(at, next);
    var end := at + |lines|;
    if end <= want then Verdict(epoch, next, [])
    else Verdict(epoch, end, lines[want - at..])
  }

  function FileBatch<E(==), T>(f: Filing<E, T>, epoch: E, at: int, lines: seq<T>): Filing<E, T> {
    var v := Judge(f.epoch, f.next, epoch, at, lines);
    Filing(v.epoch, v.next, f.log + v.filed)
  }

  // A batch overlapping what is filed by its first k lines files the others.
  lemma JudgedOverlap<E, T>(known: E, next: int, epoch: E, at: nat, lines: seq<T>, k: nat)
    requires 0 < |lines| <= NODE_LOG_BURST && k <= |lines|
    requires k == if known == epoch then next - at else 0
    ensures Judge(known, next, epoch, at, lines) == Verdict(epoch, at + |lines|, lines[k..])
  {
    assert lines[0..] == lines;
    assert lines[|lines|..] == [];
  }

  // A heartbeat delivered twice files nothing the second time.
  lemma RefilingIsIdempotent<E, T>(f: Filing<E, T>, epoch: E, at: int, lines: seq<T>)
    ensures FileBatch(FileBatch(f, epoch, at, lines), epoch, at, lines) == FileBatch(f, epoch, at, lines)
  {
  }

  // A batch whose response was lost is sent again, possibly grown. What the panel
  // ends up holding is the new batch exactly when it extends the old one.
  lemma ResendIsExactIffExtension<E, T>(f: Filing<E, T>, epoch: E, at: nat, first: seq<T>, again: seq<T>)
    requires f.epoch != epoch || f.next <= at
    requires 0 < |first| <= |again| <= NODE_LOG_BURST
    ensures FileBatch(FileBatch(f, epoch, at, first), epoch, at, again).log == f.log + again
            <==> first <= again
  {
    var g := FileBatch(f, epoch, at, first);
    assert g == Filing(epoch, at + |first|, f.log + first);
    var h := FileBatch(g, epoch, at, again);
    assert h.log == (f.log + first) + again[|first|..];
    assert h.log == f.log + (first + again[|first|..]);
    if first <= again {
      assert first + again[|first|..] == again;
    }
    if h.log == f.log + again {
      assert first == h.log[|f.log|..|f.log| + |first|] == again[..|first|];
    }
  }

  // What a bounded channel holds after lines are offered to it without waiting:
  // whatever does not fit is dropped for this watcher alone.
  function Offer<T>(queue: seq<T>, lines: seq<T>): seq<T> {
    queue + lines[..Min(|lines|, Max(0, NODE_LOG_QUEUE - |queue|))]
  }

  // The channel of one watching admin.
  class Watcher {
    var queue: seq<string>

    constructor ()
      ensures queue == []
    {
      queue := [];
    }

    method Send(line: string)
      modifies this
      ensures queue == Offer(old(queue), [line])
    {
      if |queue| < NODE_LOG_QUEUE {
        queue := queue + [line];
      }
    }
  }

  class NodeLogHub {
    var rings: map<nat, LogRing>
    var next: map<nat, int>
    var epochs: map<nat, string>
    var subs: map<nat, set<Watcher>>

    ghost predicate Valid()
      reads this, rings.Values
    {
      && (forall id :: id in rings ==> rings[id].Valid() && rings[id].size == NODE_LOG_RING)
      && (forall i, j :: i in rings && j in rings && i != j ==> rings[i] != rings[j])
    }

    ghost function Held(id: nat): seq<string>
      reads this, rings.Values
    {
      if id in rings then rings[id].all else []
    }

    function EpochOf(id: nat): string
      reads this
    {
      if id in epochs then epochs[id] else ""
    }

    function NextOf(id: nat): int
      reads this
    {
      if id in next then next[id] else 0
    }

    ghost function FilingOf(id: nat): Filing<string, string>
      reads this, rings.Values
    {
      Filing(EpochOf(id), NextOf(id), Held(id))
    }

    ghost function WatchersOf(id: nat): set<Watcher>
      reads this
    {
      if id in subs then subs[id] else {}
    }

    constructor ()
      ensures Valid()
      ensures forall id :: FilingOf(id) == Filing("", 0, []) && WatchersOf(id) == {}
    {
      rings, next, epochs, subs := map[], map[], map[], map[];
    }

    // The node's buffer, created on first use.
    method Ring(id: nat) returns (r: LogRing)
      requires Valid()
      modifies this`rings
      ensures Valid() && id in rings && r == rings[id]
      ensures rings == old(rings)[id := r]
      ensures r in old(rings.Values) || fresh(r)
      ensures forall any :: Held(any) == old(Held(any))
    {
      if id !in rings {
        var made := new LogRing(NODE_LOG_RING);
        rings := rings[id := made];
      }
      r := rings[id];
    }

    method Publish(id: nat, epoch: string, at: int, lines: seq<string>)
      requires Valid()
      modifies this, rings.Values, WatchersOf(id)
      ensures Valid()
      ensures FilingOf(id) == FileBatch(old(FilingOf(id)), epoch, at, lines)
      ensures forall other :: other != id ==> FilingOf(other) == old(FilingOf(other))
      ensures subs == old(subs)
      ensures forall w :: w in WatchersOf(id) ==>
                w.queue == Offer(old(w.queue), Judge(old(EpochOf(id)), old(NextOf(id)), epoch, at, lines).filed)
    {
      var filed := FileLocked(id, epoch, at, lines);
      SendAll(id, filed);
    }

    // The part of publishing done under the lock.
    method FileLocked(id: nat, epoch: string, at: int, lines: seq<string>) returns (filed: seq<string>)
      requires Valid()
      modifies this`rings, this`next, this`epochs, rings.Values
      ensures Valid()
      ensures FilingOf(id) == FileBatch(old(FilingOf(id)), epoch, at, lines)
      ensures filed == Judge(old(EpochOf(id)), old(NextOf(id)), epoch, at, lines).filed
      ensures forall other :: other != id ==> FilingOf(other) == old(FilingOf(other))
    {
      filed := Expect(id, epoch, at, lines);
      if |filed| > 0 {
        Append(id, filed);
      } else {
        assert Held(id) + filed == Held(id);
      }
    }

    method Expect(id: nat, epoch: string, at: int, lines: seq<string>) returns (filed: seq<string>)
      modifies this`next, this`epochs
      ensures Verdict(EpochOf(id), NextOf(id), filed) == Judge(old(EpochOf(id)), old(NextOf(id)), epoch, at, lines)
      ensures forall other :: other != id ==>
                EpochOf(other) == old(EpochOf(other)) && NextOf(other) == old(NextOf(other))
    {
      if |lines| == 0 || at < 0 { return []; }
      var batch, from := lines, at;
      var extra := |batch| - NODE_LOG_BURST;
      if extra > 0 {
        batch, from := batch[extra..], from + extra;
      }
      filed := ExpectTrimmed(id, epoch, from, batch);
    }

    method ExpectTrimmed(id: nat, epoch: string, from: int, batch: seq<string>) returns (filed: seq<string>)
      modifies this`next, this`epochs
      ensures Verdict(EpochOf(id), NextOf(id), filed) ==
              JudgeTrimmed(if old(EpochOf(id)) == epoch then old(NextOf(id)) else 0, epoch, from, batch)
      ensures forall other :: other != id ==>
                EpochOf(other) == old(EpochOf(other)) && NextOf(other) == old(NextOf(other))
    {
      Meet(id, epoch);
      filed := Advance(id, from, batch);
    }

    // A different agent process numbers from zero.
    method Meet(id: nat, epoch: string)
      modifies this`next, this`epochs
      ensures EpochOf(id) == epoch
      ensures NextOf(id) == if old(EpochOf(id)) == epoch then old(NextOf(id)) else 0
      ensures forall other :: other != id ==>
                EpochOf(other) == old(EpochOf(other)) && NextOf(other) == old(NextOf(other))
    {
      if EpochOf(id) != epoch {
        epochs := epochs[id := epoch];
        next := next[id := 0];
      }
    }

    method Advance(id: nat, from: int, batch: seq<string>) returns (filed: seq<string>)
      modifies this`next
      ensures Verdict(EpochOf(id), NextOf(id), filed) == JudgeTrimmed(old(NextOf(id)), EpochOf(id), from, batch)
      ensures forall other :: other != id ==> NextOf(other) == old(NextOf(other))
    {
      var want := NextOf(id);
      if from > want { want := from; }
      var end := from + |batch|;
      if end <= want { return []; }
      filed := batch[want - from..];
      next := next[id := end];
    }

    method Append(id: nat, batch: seq<string>)
      requires Valid()
      modifies this`rings, rings.Values
      ensures Valid()
      ensures Held(id) == old(Held(id)) + batch
      ensures forall other :: other != id ==> Held(other) == old(Held(other))
    {
      var r := Ring(id);
      AddAll(r, batch);
    }

    method AddAll(r: LogRing, batch: seq<string>)
      requires r.Valid()
      modifies r
      ensures r.Valid() && r.all == old(r.all) + batch
    {
      var i := 0;
      while i < |batch|
        invariant 0 <= i <= |batch|
        invariant r.Valid() && r.all == old(r.all) + batch[..i]
      {
        r.Add(batch[i]);
        i := i + 1;
      }
      assert batch[..i] == batch;
    }

    method SendAll(id: nat, batch: seq<string>)
      modifies WatchersOf(id)
      ensures forall w :: w in WatchersOf(id) ==> w.queue == Offer(old(w.queue), batch)
    {
      var todo := if id in subs then subs[id] else {};
      while todo != {}
        invariant todo <= WatchersOf(id)
        invariant forall w :: w in todo ==> w.queue == old(w.queue)
        invariant forall w :: w in WatchersOf(id) - todo ==> w.queue == Offer(old(w.queue), batch)
      {
        var ch :| ch in todo;
        var i := 0;
        while i < |batch|
          invariant 0 <= i <= |batch|
          invariant ch.queue == Offer(old(ch.queue), batch[..i])
          invariant forall w :: w in todo && w != ch ==> w.queue == old(w.queue)
          invariant forall w :: w in WatchersOf(id) - todo ==> w.queue == Offer(old(w.queue), batch)
        {
          ch.Send(batch[i]);
          i := i + 1;
        }
        assert batch[..i] == batch;
        todo := todo - {ch};
      }
    }

    // Registers a watcher and hands it what the panel shows of the past.
    method Subscribe(id: nat) returns (backlog: seq<string>, ch: Watcher)
      requires Valid()
      modifies this
      ensures Valid()
      ensures fresh(ch) && ch.queue == []
      ensures WatchersOf(id) == old(WatchersOf(id)) + {ch}
      ensures forall other :: other != id ==> WatchersOf(other) == old(WatchersOf(other))
      ensures forall any :: FilingOf(any) == old(FilingOf(any))
      ensures backlog == Newest(FilingOf(id).log, SNAPSHOT_LINES)
    {
      ch := Watch(id);
      var r := Ring(id);
      backlog := r.Snapshot();
    }

    method Watch(id: nat) returns (ch: Watcher)
      modifies this`subs
      ensures fresh(ch) && ch.queue == []
      ensures WatchersOf(id) == old(WatchersOf(id)) + {ch}
      ensures forall other :: other != id ==> WatchersOf(other) == old(WatchersOf(other))
    {
      ch := new Watcher();
      subs := subs[id := (if id in subs then subs[id] else {}) + {ch}];
    }

    method Unsubscribe(id: nat, ch: Watcher)
      requires Valid()
      modifies this`subs
      ensures Valid()
      ensures WatchersOf(id) == old(WatchersOf(id)) - {ch}
      ensures forall other :: other != id ==> WatchersOf(other) == old(WatchersOf(other))
    {
      if id in subs {
        var left := subs[id] - {ch};
        subs := if left == {} then subs - {id} else subs[id := left];
      }
    }

    method Forget(id: nat)
      requires Valid()
      modifies this`rings, this`next, this`epochs
      ensures Valid()
      ensures FilingOf(id) == Filing("", 0, [])
      ensures forall other :: other != id ==> FilingOf(other) == old(FilingOf(other))
    {
      rings := rings - {id};
      next := next - {id};
      epochs := epochs - {id};
    }
  }

  // The backlog shows all that the buffer holds exactly while at most twenty
  // lines have been filed; beyond that, held lines are in neither the backlog
  // nor the live channel.
  lemma BacklogIsEverythingHeldIff(log: seq<string>)
    ensures Newest(log, SNAPSHOT_LINES) == Newest(log, NODE_LOG_RING) <==> |log| <= SNAPSHOT_LINES
  {
    assert |Newest(log, SNAPSHOT_LINES)| == Min(|log|, SNAPSHOT_LINES);
    assert |Newest(log, NODE_LOG_RING)| == Min(|log|, NODE_LOG_RING);
  }

  // Of twenty-one lines the first is held and not shown.
  lemma OneLineTooMany(log: seq<string>)
    requires |log| == SNAPSHOT_LINES + 1
    ensures Newest(log, NODE_LOG_RING) == log && Newest(log, SNAPSHOT_LINES) == log[1..]
  {
  }
}
