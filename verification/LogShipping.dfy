// Log shipping end to end: the agent's half of the heartbeat, and what every run
// over a lossy link leaves on the panel.
module LogShipping {
  import opened LogBuffer
  import opened NodeLogs

  const NODE_LOG_LINES: nat := 400
  const NODE_LOG_BATCH: nat := 200

  // ---- The agent ---------------------------------------------------------

  function Prefixed(name: string, lines: seq<string>): seq<string> {
    seq(|lines|, i requires 0 <= i < |lines| => name + ": " + lines[i])
  }

  class CoreLog {
    const name: string
    const ring: LogRing
    var logCursor: nat

    constructor (name: string, ring: LogRing)
      ensures this.name == name && this.ring == ring && logCursor == 0
    {
      this.name, this.ring, logCursor := name, ring, 0;
    }

    // What this core has said that the panel has not accepted.
    ghost function Unaccepted(): seq<string>
      reads this, ring
    {
      Prefixed(name, ring.all[ResumeFrom(|ring.all|, ring.size, logCursor)..])
    }
  }

  class NodeAgent {
    // The supervised cores in name order.
    const engines: seq<CoreLog>
    var logSeq: nat

    ghost predicate Valid()
      reads this, engines, set e | e in engines :: e.ring
    {
      && (forall i :: 0 <= i < |engines| ==> engines[i].ring.Valid())
      && (forall i, j :: 0 <= i < j < |engines| ==> engines[i] != engines[j])
    }

    constructor (engines: seq<CoreLog>)
      ensures this.engines == engines && logSeq == 0
    {
      this.engines, logSeq := engines, 0;
    }

    ghost function UnacceptedOf(k: nat): (lines: seq<string>)
      requires k <= |engines|
      reads this, engines, set e | e in engines :: e.ring
    {
      if k == 0 then [] else UnacceptedOf(k - 1) + engines[k - 1].Unaccepted()
    }

    method Gather(e: CoreLog, before: seq<string>) returns (out: seq<string>, next: nat)
      requires e.ring.Valid()
      ensures out == before + e.Unaccepted() && next == |e.ring.all|
    {
      var lines;
      lines, next := e.ring.Since(e.logCursor);
      out := before;
      var j := 0;
      while j < |lines|
        invariant 0 <= j <= |lines|
        invariant out == before + Prefixed(e.name, lines)[..j]
      {
        out := out + [e.name + ": " + lines[j]];
        j := j + 1;
      }
      assert Prefixed(e.name, lines)[..j] == e.Unaccepted();
    }

    method GatherAll() returns (out: seq<string>, cursors: seq<nat>)
      requires Valid()
      ensures out == UnacceptedOf(|engines|)
      ensures |cursors| == |engines|
      ensures forall i :: 0 <= i < |engines| ==> cursors[i] == |engines[i].ring.all|
    {
      out, cursors := [], [];
      var k := 0;
      while k < |engines|
        invariant 0 <= k <= |engines| && |cursors| == k
        invariant out == UnacceptedOf(k)
        invariant forall i :: 0 <= i < k ==> cursors[i] == |engines[i].ring.all|
      {
        var next;
        out, next := Gather(engines[k], out);
        cursors := cursors + [next];
        k := k + 1;
      }
    }

    // Gathers a batch. Nothing is committed: a batch whose response never comes
    // is gathered again.
    method CollectLogs() returns (out: seq<string>, cursors: seq<nat>)
      requires Valid()
      ensures out == Newest(UnacceptedOf(|engines|), NODE_LOG_BATCH)
      ensures |cursors| == |engines|
      ensures forall i :: 0 <= i < |engines| ==> cursors[i] == |engines[i].ring.all|
    {
      out, cursors := GatherAll();
      var extra := |out| - NODE_LOG_BATCH;
      if extra > 0 {
        out := out[extra..];
      }
    }

    // Runs only after a heartbeat succeeded.
    method Accept(cursors: seq<nat>, shipped: nat)
      requires |cursors| == |engines|
      requires Valid()
      modifies this, engines
      ensures forall i :: 0 <= i < |engines| ==> engines[i].logCursor == cursors[i]
      ensures logSeq == old(logSeq) + shipped
    {
      var k := 0;
      while k < |engines|
        invariant 0 <= k <= |engines|
        invariant logSeq == old(logSeq)
        invariant forall i :: 0 <= i < k ==> engines[i].logCursor == cursors[i]
      {
        engines[k].logCursor := cursors[k];
        k := k + 1;
      }
      logSeq := logSeq + shipped;
    }
  }

  // ---- The protocol, for a node with one core -----------------------------

  // `out` is what the core has written under the current agent process and `dead`
  // what it wrote under each earlier one; processes are numbered from 1, and 0 is
  // the panel's "never heard of it".
  datatype System<T> = System(dead: seq<seq<T>>, out: seq<T>, cursor: nat, logSeq: nat, panel: Filing<nat, T>) {
    function Epoch(): nat { |dead| + 1 }

    function Start(): int { |out| - |Batch()| }

    // What the agent would send now.
    function Batch(): seq<T> {
      Newest(out[ResumeFrom(|out|, NODE_LOG_LINES, cursor)..], NODE_LOG_BATCH)
    }

    // The line a process wrote at a position.
    predicate Has(o: Origin) {
      && 1 <= o.epoch <= Epoch()
      && o.pos < if o.epoch == Epoch() then |out| else |dead[o.epoch - 1]|
    }

    function LineAt(o: Origin): T
      requires Has(o)
    {
      if o.epoch == Epoch() then out[o.pos] else dead[o.epoch - 1][o.pos]
    }
  }

  datatype Origin = Origin(epoch: nat, pos: nat)

  predicate Before(a: Origin, b: Origin) {
    a.epoch < b.epoch || (a.epoch == b.epoch && a.pos < b.pos)
  }

  // A heartbeat may be lost on the way (not delivered), or its response may be
  // lost on the way back (delivered, not answered).
  datatype Step<T> =
    | Emit(line: T)
    | Heartbeat(delivered: bool, answered: bool)
    | RestartPanel
    | RestartAgent

  function Boot<T>(): System<T> { System([], [], 0, 0, Filing(0, 0, [])) }

  // The panel files the batch; the agent does not know it yet.
  function Delivered<T>(s: System<T>): System<T> {
    s.(panel := FileBatch(s.panel, s.Epoch(), s.logSeq, s.Batch()))
  }

  // The agent marks what it sent as accepted.
  function Accepted<T>(s: System<T>): System<T> {
    s.(cursor := |s.out|, logSeq := s.logSeq + |s.Batch()|)
  }

  function Take<T>(s: System<T>, step: Step<T>): System<T> {
    match step
    case Emit(line) => s.(out := s.out + [line])
    case Heartbeat(delivered, answered) =>
      if !delivered then s else if answered then Accepted(Delivered(s)) else Delivered(s)
    case RestartPanel => s.(panel := Filing(0, 0, []))
    case RestartAgent => System(s.dead + [s.out], [], 0, 0, s.panel)
  }

  function Run<T>(s: System<T>, steps: seq<Step<T>>): System<T> {
    if steps == [] then s else Take(Run(s, steps[..|steps| - 1]), steps[|steps| - 1])
  }

  // The origin of every filed line, in filing order.
  ghost predicate Traces<T>(s: System<T>, trace: seq<Origin>) {
    && |trace| == |s.panel.log|
    && (forall i :: 0 <= i < |trace| ==> s.Has(trace[i]) && s.LineAt(trace[i]) == s.panel.log[i])
    && (forall i, j :: 0 <= i < j < |trace| ==> Before(trace[i], trace[j]))
  }

  // The panel's expectation never runs ahead of what the agent would re-send.
  ghost predicate InStep<T>(s: System<T>, trace: seq<Origin>) {
    && s.cursor <= |s.out|
    && s.panel.epoch <= s.Epoch()
    && (forall i :: 0 <= i < |trace| ==> trace[i].epoch <= s.panel.epoch)
    && (s.panel.epoch == s.Epoch() ==>
          && s.logSeq <= s.panel.next <= s.logSeq + |s.Batch()|
          && (forall i :: 0 <= i < |trace| && trace[i].epoch == s.Epoch() ==>
                trace[i].pos < s.Start() + s.panel.next - s.logSeq))
  }

  // A batch is the newest unaccepted lines, and its start never moves back.
  lemma BatchIsTail<T>(s: System<T>)
    requires s.cursor <= |s.out|
    ensures s.Start() == Max(s.cursor, |s.out| - NODE_LOG_BATCH)
    ensures s.Batch() == s.out[s.Start()..]
  {
  }

  lemma EmitKeeps<T>(s: System<T>, line: T, trace: seq<Origin>)
    requires Traces(s, trace) && InStep(s, trace)
    ensures Traces(Take(s, Emit(line)), trace) && InStep(Take(s, Emit(line)), trace)
  {
    var s' := Take(s, Emit(line));
    BatchIsTail(s);
    BatchIsTail(s');
    forall i | 0 <= i < |trace|
      ensures s'.Has(trace[i]) && s'.LineAt(trace[i]) == s'.panel.log[i]
    {
      assert s.Has(trace[i]);
    }
  }

  lemma RestartAgentKeeps<T>(s: System<T>, trace: seq<Origin>)
    requires Traces(s, trace) && InStep(s, trace)
    ensures Traces(Take(s, RestartAgent), trace) && InStep(Take(s, RestartAgent), trace)
  {
    var s' := Take(s, RestartAgent);
    forall i | 0 <= i < |trace|
      ensures s'.Has(trace[i]) && s'.LineAt(trace[i]) == s'.panel.log[i]
    {
      assert s.Has(trace[i]);
    }
  }

  // How many lines of the batch are news to the panel.
  function News<T>(s: System<T>): int {
    |s.Batch()| - if s.panel.epoch == s.Epoch() then s.panel.next - s.logSeq else 0
  }

  // A delivered batch leaves the panel expecting its end, with the newest `News`
  // lines of the core's output appended.
  lemma DeliveryEffect<T>(s: System<T>)
    requires s.cursor <= |s.out| && 0 <= News(s) <= |s.Batch()| != 0
    ensures Delivered(s).panel
            == Filing(s.Epoch(), s.logSeq + |s.Batch()|, s.panel.log + s.out[|s.out| - News(s)..])
  {
    BatchIsTail(s);
    var known := |s.Batch()| - News(s);
    JudgedOverlap(s.panel.epoch, s.panel.next, s.Epoch(), s.logSeq, s.Batch(), known);
    assert s.Batch()[known..] == s.out[|s.out| - News(s)..];
  }

  lemma NothingToDeliver<T>(s: System<T>)
    requires s.Batch() == []
    ensures Delivered(s) == s
  {
    assert s.panel.log + [] == s.panel.log;
  }

  // The origins of the k newest lines.
  function NewestOrigins<T>(s: System<T>, k: nat): (origins: seq<Origin>)
    requires k <= |s.out|
    ensures |origins| == k
    ensures forall i :: 0 <= i < k ==> origins[i] == Origin(s.Epoch(), |s.out| - k + i)
  {
    seq(k, i requires 0 <= i < k => Origin(s.Epoch(), |s.out| - k + i))
  }

  lemma DeliveryKeeps<T>(s: System<T>, trace: seq<Origin>) returns (trace': seq<Origin>)
    requires Traces(s, trace) && InStep(s, trace)
    ensures Traces(Delivered(s), trace')
    ensures InStep(Delivered(s), trace')
    ensures s.Batch() != [] ==> Delivered(s).panel.next == s.logSeq + |s.Batch()|
  {
    if s.Batch() == [] {
      NothingToDeliver(s);
      trace' := trace;
    } else {
      BatchIsTail(s);
      DeliveryEffect(s);
      var s' := Delivered(s);
      var added := NewestOrigins(s, News(s));
      trace' := trace + added;
      forall i | 0 <= i < |trace'|
        ensures s'.Has(trace'[i]) && s'.LineAt(trace'[i]) == s'.panel.log[i]
      {
        if i < |trace| { assert s.Has(trace[i]); }
      }
      forall i, j | 0 <= i < j < |trace'|
        ensures Before(trace'[i], trace'[j])
      {
        if i < |trace| <= j {
          assert trace'[i] == trace[i] && trace'[j] == added[j - |trace|];
          assert trace[i].epoch <= s.panel.epoch <= s.Epoch();
        }
      }
    }
  }

  lemma TakeKeeps<T>(s: System<T>, step: Step<T>, trace: seq<Origin>) returns (trace': seq<Origin>)
    requires Traces(s, trace) && InStep(s, trace)
    ensures Traces(Take(s, step), trace') && InStep(Take(s, step), trace')
  {
    trace' := trace;
    match step {
      case Emit(line) => EmitKeeps(s, line, trace);
      case RestartAgent => RestartAgentKeeps(s, trace);
      case RestartPanel => trace' := [];
      case Heartbeat(delivered, answered) =>
        if delivered {
          trace' := DeliveryKeeps(s, trace);
          if answered { AcceptKeeps(Delivered(s), trace'); }
        }
    }
  }

  lemma AcceptKeeps<T>(s: System<T>, trace: seq<Origin>)
    requires Traces(s, trace) && InStep(s, trace)
    requires s.Batch() != [] ==> s.panel.next == s.logSeq + |s.Batch()|
    ensures Traces(Accepted(s), trace) && InStep(Accepted(s), trace)
  {
    var s' := Accepted(s);
    BatchIsTail(s);
    BatchIsTail(s');
    forall i | 0 <= i < |trace|
      ensures s'.Has(trace[i]) && s'.LineAt(trace[i]) == s'.panel.log[i]
    {
      assert s.Has(trace[i]);
    }
  }

  // Over every run of output, heartbeats, lost requests, lost responses, panel
  // restarts and agent restarts, the lines filed since the panel booted are a
  // strictly increasing selection of what the core wrote: at most once, in order.
  lemma {:induction false} AtMostOnceInOrder<T>(steps: seq<Step<T>>) returns (trace: seq<Origin>)
    ensures Traces(Run(Boot(), steps), trace) && InStep(Run(Boot(), steps), trace)
  {
    if steps == [] {
      trace := [];
    } else {
      var before := AtMostOnceInOrder(steps[..|steps| - 1]);
      trace := TakeKeeps(Run(Boot(), steps[..|steps| - 1]), steps[|steps| - 1], before);
    }
  }

  // A restarted agent's output is never mistaken for a repeat of its
  // predecessor's: its first delivered batch is filed whole.
  lemma NewProcessIsFiledWhole<T>(steps: seq<Step<T>>, said: seq<Step<T>>)
    requires forall i :: 0 <= i < |said| ==> said[i].Emit?
    ensures var s := Run(Take(Run(Boot(), steps), RestartAgent), said);
            Take(s, Heartbeat(true, true)).panel.log == s.panel.log + s.Batch()
  {
    var _ := AtMostOnceInOrder(steps);
    var s0 := Take(Run(Boot(), steps), RestartAgent);
    EmittingMovesNothingElse(s0, said);
    var s := Run(s0, said);
    BatchIsTail(s);
    if s.Batch() == [] {
      assert Take(s, Heartbeat(true, true)).panel == s.panel by { NothingToDeliver(s); }
    } else {
      DeliveryEffect(s);
      assert s.out[|s.out| - News(s)..] == s.Batch();
    }
  }

  lemma {:induction false} EmittingMovesNothingElse<T>(s: System<T>, said: seq<Step<T>>)
    requires forall i :: 0 <= i < |said| ==> said[i].Emit?
    ensures Run(s, said) == s.(out := Run(s, said).out)
  {
    if said != [] {
      EmittingMovesNothingElse(s, said[..|said| - 1]);
    }
  }

  // ---- When nothing is missed ---------------------------------------------

  // No restart, and at every heartbeat at most one batch's worth is unaccepted.
  predicate Unhurried<T>(s: System<T>, steps: seq<Step<T>>) {
    steps == [] ||
    var init := steps[..|steps| - 1];
    && Unhurried(s, init)
    && match steps[|steps| - 1] {
         case Emit(_) => true
         case Heartbeat(_, _) => |Run(s, init).out| - Run(s, init).cursor <= NODE_LOG_BATCH
         case _ => false
       }
  }

  // How far into the core's output the panel has filed, while nothing was cut.
  function FiledUpTo<T>(s: System<T>): int {
    s.cursor + if s.panel.epoch == s.Epoch() then s.panel.next - s.logSeq else 0
  }

  // The panel holds the core's output without a hole from position `from` on.
  ghost predicate Gapless<T>(s: System<T>, from: nat) {
    && from <= s.cursor <= FiledUpTo(s) <= |s.out|
    && s.panel.log == s.out[from..FiledUpTo(s)]
    && (s.panel.epoch != s.Epoch() ==> s.cursor == from)
  }

  // A panel that has filed the core's output to its end.
  function Filled<T>(s: System<T>, from: nat): System<T>
    requires from <= |s.out| && s.cursor <= |s.out|
  {
    s.(panel := Filing(s.Epoch(), s.logSeq + (|s.out| - s.cursor), s.out[from..]))
  }

  lemma FilledIsGapless<T>(s: System<T>, from: nat)
    requires from <= s.cursor <= |s.out|
    ensures Gapless(Filled(s, from), from)
  {
    assert s.out[from..|s.out|] == s.out[from..];
  }

  lemma NewsIsUnfiled<T>(s: System<T>, from: nat)
    requires Gapless(s, from) && |s.out| - s.cursor <= NODE_LOG_BATCH
    ensures |s.Batch()| == |s.out| - s.cursor && News(s) == |s.out| - FiledUpTo(s)
  {
    BatchIsTail(s);
  }

  lemma DeliveryFills<T>(s: System<T>, from: nat, panel: Filing<nat, T>)
    requires Gapless(s, from) && |s.out| - s.cursor <= NODE_LOG_BATCH && s.Batch() != []
    requires panel == Delivered(s).panel
    ensures panel == Filled(s, from).panel
  {
    NewsIsUnfiled(s, from);
    DeliveryEffect(s);
    JoinAt(s.out, from, FiledUpTo(s));
  }

  lemma SilentIsFiled<T>(s: System<T>, from: nat)
    requires Gapless(s, from) && |s.out| - s.cursor <= NODE_LOG_BATCH && s.Batch() == []
    ensures s.panel.log == s.out[from..]
  {
    BatchIsTail(s);
    JoinAt(s.out, from, |s.out|);
  }

  lemma JoinAt<T>(lines: seq<T>, from: nat, upto: nat)
    requires from <= upto <= |lines|
    ensures lines[from..upto] + lines[upto..] == lines[from..]
    ensures lines[from..|lines|] == lines[from..]
  {
  }

  lemma AcceptStaysGapless<T>(s: System<T>, from: nat)
    requires Gapless(s, from) && |s.Batch()| == |s.out| - s.cursor
    requires s.Batch() != [] ==> s.panel.epoch == s.Epoch() && s.panel.next == s.logSeq + |s.Batch()|
    ensures Gapless(Accepted(s), from)
  {
  }

  lemma HeartbeatStaysGapless<T>(s: System<T>, from: nat, s2: System<T>)
    requires Gapless(s, from) && |s.out| - s.cursor <= NODE_LOG_BATCH && s2 == Delivered(s)
    ensures Gapless(s2, from) && s2.panel.log == s2.out[from..] && Gapless(Accepted(s2), from)
  {
    NewsIsUnfiled(s, from);
    if s.Batch() == [] {
      NothingToDeliver(s);
      SilentIsFiled(s, from);
    } else {
      DeliveryFills(s, from, s2.panel);
      assert s2 == Filled(s, from);
      FilledIsGapless(s, from);
    }
    assert s2.Batch() == s.Batch();
    AcceptStaysGapless(s2, from);
  }

  lemma EmitStaysGapless<T>(s: System<T>, from: nat, line: T)
    requires Gapless(s, from)
    ensures Gapless(Take(s, Emit(line)), from)
  {
    assert (s.out + [line])[from..FiledUpTo(s)] == s.out[from..FiledUpTo(s)];
  }

  lemma TakeStaysGapless<T>(s: System<T>, from: nat, step: Step<T>)
    requires Gapless(s, from)
    requires step.Emit? || (step.Heartbeat? && |s.out| - s.cursor <= NODE_LOG_BATCH)
    ensures Gapless(Take(s, step), from)
    ensures step.Heartbeat? && step.delivered ==> Take(s, step).panel.log == Take(s, step).out[from..]
  {
    match step
    case Emit(line) => EmitStaysGapless(s, from, line);
    case Heartbeat(delivered, answered) =>
      if delivered {
        HeartbeatStaysGapless(s, from, Delivered(s));
      }
  }

  // From a panel boot on, while no unaccepted backlog outgrows one batch, the
  // filed lines are one contiguous run starting at the agent's cursor; and right
  // after a delivered heartbeat that run reaches the newest line.
  lemma {:induction false} ContiguousWhileUnhurried<T>(s: System<T>, steps: seq<Step<T>>)
    requires s.panel == Filing(0, 0, []) && s.cursor <= |s.out|
    requires Unhurried(s, steps)
    ensures Gapless(Run(s, steps), s.cursor)
    ensures steps != [] && steps[|steps| - 1].Heartbeat? && steps[|steps| - 1].delivered ==>
              Run(s, steps).panel.log == Run(s, steps).out[s.cursor..]
  {
    if steps != [] {
      var init := steps[..|steps| - 1];
      ContiguousWhileUnhurried(s, init);
      TakeStaysGapless(Run(s, init), s.cursor, steps[|steps| - 1]);
    }
  }

  // With the panel up from the start, a delivered heartbeat leaves it holding
  // exactly what the core has said: every line once, in order.
  lemma ExactlyOnceWhileUnhurried<T>(steps: seq<Step<T>>, answered: bool)
    requires Unhurried(Boot(), steps + [Heartbeat(true, answered)])
    ensures Run(Boot(), steps + [Heartbeat(true, answered)]).panel.log == Run(Boot(), steps).out
  {
    var all := steps + [Heartbeat(true, answered)];
    assert all[..|all| - 1] == steps;
    ContiguousWhileUnhurried(Boot(), all);
  }

  // ---- A node with several cores ------------------------------------------

  // Unaccepted lines of several cores, grouped by core in name order.
  function Grouped<T>(pending: seq<seq<T>>): seq<T> {
    if pending == [] then [] else pending[0] + Grouped(pending[1..])
  }

  // What the same cores have unaccepted after each wrote some more.
  function Grown<T>(pending: seq<seq<T>>, more: seq<seq<T>>): (grown: seq<seq<T>>)
    requires |pending| == |more|
    ensures |grown| == |pending|
    ensures forall i :: 0 <= i < |pending| ==> grown[i] == pending[i] + more[i]
  {
    seq(|pending|, i requires 0 <= i < |pending| => pending[i] + more[i])
  }

  // A core that wrote more is followed by no core with lines still unaccepted.
  ghost predicate GrowsOnlyAtTheEnd<T>(pending: seq<seq<T>>, more: seq<seq<T>>)
    requires |pending| == |more|
  {
    forall i, j :: 0 <= i < j < |pending| && more[i] != [] ==> pending[j] == []
  }

  // Each line carries its core's name, so no two cores write the same line.
  ghost predicate Named<T>(lines: seq<seq<T>>) {
    forall i, j, a, b :: 0 <= i < j < |lines| && 0 <= a < |lines[i]| && 0 <= b < |lines[j]| ==>
        lines[i][a] != lines[j][b]
  }

  lemma {:induction false} GroupedEmpty<T>(pending: seq<seq<T>>)
    requires forall i :: 0 <= i < |pending| ==> pending[i] == []
    ensures Grouped(pending) == []
  {
    if pending != [] {
      GroupedEmpty(pending[1..]);
    }
  }

  lemma {:induction false} GroupedFirst<T>(pending: seq<seq<T>>)
    requires Grouped(pending) != []
    ensures exists j, b :: 0 <= j < |pending| && 0 <= b < |pending[j]| && pending[j][b] == Grouped(pending)[0]
  {
    if pending[0] == [] {
      GroupedFirst(pending[1..]);
      var j, b :| 0 <= j < |pending| - 1 && 0 <= b < |pending[1..][j]| && pending[1..][j][b] == Grouped(pending)[0];
      assert pending[j + 1][b] == Grouped(pending)[0];
    } else {
      assert pending[0][0] == Grouped(pending)[0];
    }
  }

  lemma {:induction false} GroupedNonEmpty<T>(pending: seq<seq<T>>, j: nat)
    requires j < |pending| && pending[j] != []
    ensures Grouped(pending) != []
  {
    if j > 0 {
      GroupedNonEmpty(pending[1..], j - 1);
    }
  }

  // A re-sent batch extends the first one exactly when growth happened only at
  // the end. With one core it always does.
  lemma {:induction false} ResentBatchExtendsIff<T>(pending: seq<seq<T>>, more: seq<seq<T>>)
    requires |pending| == |more|
    requires Named(Grown(pending, more))
    ensures Grouped(pending) <= Grouped(Grown(pending, more)) <==> GrowsOnlyAtTheEnd(pending, more)
  {
    if pending != [] {
      NamedTail(pending, more);
      ResentBatchExtendsIff(pending[1..], more[1..]);
      if more[0] == [] {
        SameHead(pending, more);
      } else {
        FirstCoreGrew(pending, more);
      }
    }
  }

  lemma SameHead<T>(pending: seq<seq<T>>, more: seq<seq<T>>)
    requires |pending| == |more| > 0 && more[0] == []
    requires Grouped(pending[1..]) <= Grouped(Grown(pending[1..], more[1..]))
             <==> GrowsOnlyAtTheEnd(pending[1..], more[1..])
    ensures Grouped(pending) <= Grouped(Grown(pending, more)) <==> GrowsOnlyAtTheEnd(pending, more)
  {
    var g := Grown(pending, more);
    TailGrowth(pending, more);
    assert g[1..] == Grown(pending[1..], more[1..]) && g[0] == pending[0];
    PrefixUnderCommonHead(pending[0], Grouped(pending[1..]), Grouped(g[1..]));
  }

  lemma NamedTail<T>(pending: seq<seq<T>>, more: seq<seq<T>>)
    requires |pending| == |more| > 0 && Named(Grown(pending, more))
    ensures Named(Grown(pending[1..], more[1..]))
    ensures Grown(pending, more)[1..] == Grown(pending[1..], more[1..])
  {
    var g, g1 := Grown(pending, more), Grown(pending[1..], more[1..]);
    assert g[1..] == g1;
    forall i, j, a, b | 0 <= i < j < |g1| && 0 <= a < |g1[i]| && 0 <= b < |g1[j]|
      ensures g1[i][a] != g1[j][b]
    {
      assert g[i + 1][a] != g[j + 1][b];
    }
  }

  lemma FirstCoreGrew<T>(pending: seq<seq<T>>, more: seq<seq<T>>)
    requires |pending| == |more| > 0 && Named(Grown(pending, more)) && more[0] != []
    ensures Grouped(pending) <= Grouped(Grown(pending, more)) <==> GrowsOnlyAtTheEnd(pending, more)
  {
    var g := Grown(pending, more);
    var rest, was := Grouped(g[1..]), Grouped(pending[1..]);
    assert Grouped(pending) == pending[0] + was && Grouped(g) == (pending[0] + more[0]) + rest;
    HeadPrefix(pending[0], more[0], rest, was);
    if was == [] {
      OthersSilent(pending, more);
    } else {
      SomeoneSpoke(pending, more);
    }
  }

  lemma OthersSilent<T>(pending: seq<seq<T>>, more: seq<seq<T>>)
    requires |pending| == |more| > 0 && Grouped(pending[1..]) == []
    ensures GrowsOnlyAtTheEnd(pending, more)
  {
    forall i, j | 0 <= i < j < |pending| && more[i] != [] ensures pending[j] == [] {
      if pending[1..][j - 1] != [] { GroupedNonEmpty(pending[1..], j - 1); }
    }
  }

  lemma SomeoneSpoke<T>(pending: seq<seq<T>>, more: seq<seq<T>>)
    requires |pending| == |more| > 0 && Named(Grown(pending, more))
    requires more[0] != [] && Grouped(pending[1..]) != []
    ensures !GrowsOnlyAtTheEnd(pending, more)
    ensures Grouped(pending[1..])[0] != more[0][0]
  {
    var g, p1 := Grown(pending, more), pending[1..];
    GroupedFirst(p1);
    var k, b :| 0 <= k < |p1| && 0 <= b < |p1[k]| && p1[k][b] == Grouped(p1)[0];
    assert pending[k + 1] != [] && more[0] != [];
    assert g[0][|pending[0]|] == more[0][0] && g[k + 1][b] == Grouped(p1)[0];
  }

  // Lines inserted after a common head keep the old sequence a prefix only if
  // what followed the head is empty or begins as the insertion does.
  lemma HeadPrefix<T>(head: seq<T>, inserted: seq<T>, rest: seq<T>, was: seq<T>)
    requires inserted != []
    ensures was == [] ==> head + was <= (head + inserted) + rest
    ensures was != [] && was[0] != inserted[0] ==> !(head + was <= (head + inserted) + rest)
  {
    var now := (head + inserted) + rest;
    assert now[|head|] == inserted[0];
    if was != [] {
      assert (head + was)[|head|] == was[0];
    }
  }

  lemma TailGrowth<T>(pending: seq<seq<T>>, more: seq<seq<T>>)
    requires |pending| == |more| > 0 && more[0] == []
    ensures GrowsOnlyAtTheEnd(pending, more) <==> GrowsOnlyAtTheEnd(pending[1..], more[1..])
  {
    if GrowsOnlyAtTheEnd(pending, more) {
      forall i, j | 0 <= i < j < |pending[1..]| && more[1..][i] != [] ensures pending[1..][j] == [] {
        assert more[i + 1] != [] && pending[j + 1] == [];
      }
    }
    if GrowsOnlyAtTheEnd(pending[1..], more[1..]) {
      forall i, j | 0 <= i < j < |pending| && more[i] != [] ensures pending[j] == [] {
        assert more[1..][i - 1] != [] && pending[1..][j - 1] == [];
      }
    }
  }

  lemma PrefixUnderCommonHead<T>(head: seq<T>, a: seq<T>, b: seq<T>)
    ensures head + a <= head + b <==> a <= b
  {
    if head + a <= head + b {
      assert a == (head + a)[|head|..] && b == (head + b)[|head|..];
    }
  }

  // The panel's file after a lost response and a re-send, for any number of
  // cores: it is what the cores said exactly when growth happened at the end.
  lemma SeveralCoresResend<T>(f: Filing<nat, T>, epoch: nat, at: nat, pending: seq<seq<T>>, more: seq<seq<T>>)
    requires |pending| == |more| && Named(Grown(pending, more))
    requires f.epoch != epoch || f.next <= at
    requires 0 < |Grouped(pending)| <= |Grouped(Grown(pending, more))| <= NODE_LOG_BURST
    ensures var again := Grouped(Grown(pending, more));
            FileBatch(FileBatch(f, epoch, at, Grouped(pending)), epoch, at, again).log == f.log + again
            <==> GrowsOnlyAtTheEnd(pending, more)
  {
    ResendIsExactIffExtension(f, epoch, at, Grouped(pending), Grouped(Grown(pending, more)));
    ResentBatchExtendsIff(pending, more);
  }

  // Two cores, one lost response: a line is filed twice and another never.
  lemma TwoCoresRepeatALine()
    ensures var first := Grouped([["sing-box: a"], ["xray: b"]]);
            var again := Grouped([["sing-box: a", "sing-box: c"], ["xray: b"]]);
            FileBatch(FileBatch(Filing(0, 0, []), 1, 0, first), 1, 0, again).log
            == ["sing-box: a", "xray: b", "xray: b"]
  {
    var p := [["sing-box: a"], ["xray: b"]];
    var q := [["sing-box: a", "sing-box: c"], ["xray: b"]];
    assert p[1..] == [["xray: b"]] && q[1..] == [["xray: b"]] && p[1..][1..] == [] && q[1..][1..] == [];
    assert Grouped(p[1..]) == ["xray: b"];
    assert Grouped(p) == ["sing-box: a", "xray: b"];
    assert Grouped(q) == ["sing-box: a", "sing-box: c", "xray: b"];
  }
}
