// Whole runs of a node with several cores: while each core writes only when no
// core after it has unaccepted lines, the node is as good as one with one core.
module LogCores {
  import opened LogBuffer
  import opened NodeLogs
  import opened LogShipping

  // What every core has said that was accepted, as it was shipped, and what each
  // has unaccepted; `dead` is what each earlier agent process had in all.
  datatype Cores<T> = Cores(dead: seq<seq<T>>, accepted: seq<T>, pending: seq<seq<T>>, logSeq: nat,
                            panel: Filing<nat, T>)

  datatype CoreStep<T> =
    | Says(core: nat, line: T)
    | Beats(delivered: bool, answered: bool)
    | PanelRestarts
    | AgentRestarts

  // Each core's ring holds its newest lines.
  function HeldAll<T>(pending: seq<seq<T>>): (held: seq<seq<T>>)
    ensures |held| == |pending|
    ensures forall i :: 0 <= i < |pending| ==> held[i] == Newest(pending[i], NODE_LOG_LINES)
  {
    seq(|pending|, i requires 0 <= i < |pending| => Newest(pending[i], NODE_LOG_LINES))
  }

  function BatchOf<T>(c: Cores<T>): seq<T> { Newest(Grouped(HeldAll(c.pending)), NODE_LOG_BATCH) }

  function Silent<T>(n: nat): (pending: seq<seq<T>>)
    ensures |pending| == n && forall i :: 0 <= i < n ==> pending[i] == []
  {
    seq(n, i => [])
  }

  function FiledAll<T>(c: Cores<T>): Cores<T> {
    c.(panel := FileBatch(c.panel, |c.dead| + 1, c.logSeq, BatchOf(c)))
  }

  function AcceptedAll<T>(c: Cores<T>): Cores<T> {
    c.(accepted := c.accepted + Grouped(c.pending), pending := Silent(|c.pending|), logSeq := c.logSeq + |BatchOf(c)|)
  }

  function TakeAll<T>(c: Cores<T>, step: CoreStep<T>): Cores<T> {
    match step
    case Says(core, line) =>
      if core < |c.pending| then c.(pending := c.pending[core := c.pending[core] + [line]]) else c
    case Beats(delivered, answered) =>
      if !delivered then c else if answered then AcceptedAll(FiledAll(c)) else FiledAll(c)
    case PanelRestarts => c.(panel := Filing(0, 0, []))
    case AgentRestarts =>
      Cores(c.dead + [c.accepted + Grouped(c.pending)], [], Silent(|c.pending|), 0, c.panel)
  }

  function RunAll<T>(n: nat, steps: seq<CoreStep<T>>): Cores<T> {
    if steps == [] then Cores([], [], Silent(n), 0, Filing(0, 0, []))
    else TakeAll(RunAll(n, steps[..|steps| - 1]), steps[|steps| - 1])
  }

  // The core that writes is followed by none with lines still unaccepted.
  ghost predicate AtTheEnd<T>(pending: seq<seq<T>>, step: CoreStep<T>) {
    step.Says? ==> step.core < |pending| && forall j :: step.core < j < |pending| ==> pending[j] == []
  }

  ghost predicate WritesAtTheEnd<T>(n: nat, steps: seq<CoreStep<T>>) {
    steps == [] ||
    var init := steps[..|steps| - 1];
    WritesAtTheEnd(n, init) && AtTheEnd(RunAll(n, init).pending, steps[|steps| - 1])
  }

  // ---- The cores as one -------------------------------------------------------

  function AsOne<T>(c: Cores<T>): System<T> {
    System(c.dead, c.accepted + Grouped(c.pending), |c.accepted|, c.logSeq, c.panel)
  }

  function StepAsOne<T>(step: CoreStep<T>): Step<T> {
    match step
    case Says(_, line) => Emit(line)
    case Beats(delivered, answered) => Heartbeat(delivered, answered)
    case PanelRestarts => RestartPanel
    case AgentRestarts => RestartAgent
  }

  function StepsAsOne<T>(steps: seq<CoreStep<T>>): (r: seq<Step<T>>)
    ensures |r| == |steps|
  {
    if steps == [] then [] else StepsAsOne(steps[..|steps| - 1]) + [StepAsOne(steps[|steps| - 1])]
  }

  lemma NewestOfTwo<T>(a: seq<T>, b: seq<T>, k: nat)
    ensures Newest(a + b, k) == if |b| >= k then Newest(b, k) else Newest(a, k - |b|) + b
  {
  }

  // Cutting each core to its ring first costs a batch nothing.
  lemma {:induction false} HeldIsEnough<T>(pending: seq<seq<T>>, k: nat)
    requires k <= NODE_LOG_LINES
    ensures Newest(Grouped(HeldAll(pending)), k) == Newest(Grouped(pending), k)
  {
    if pending != [] {
      var a, rest := pending[0], pending[1..];
      var held, all := Grouped(HeldAll(rest)), Grouped(rest);
      assert HeldAll(pending)[1..] == HeldAll(rest);
      HeldIsEnough(rest, k);
      NewestOfTwo(Newest(a, NODE_LOG_LINES), held, k);
      NewestOfTwo(a, all, k);
      if |all| < k { NewestOfNewest(a, NODE_LOG_LINES, k - |all|); }
    }
  }

  lemma NewestOfNewest<T>(a: seq<T>, m: nat, k: nat)
    requires k <= m
    ensures Newest(Newest(a, m), k) == Newest(a, k)
  {
  }

  lemma BatchIsTheSame<T>(c: Cores<T>)
    ensures AsOne(c).Batch() == BatchOf(c)
  {
    HeldIsEnough(c.pending, NODE_LOG_BATCH);
    BatchIsTail(AsOne(c));
    NewestOfTwo(c.accepted, Grouped(c.pending), NODE_LOG_BATCH);
  }

  lemma {:induction false} SilentGroup<T>(pending: seq<seq<T>>)
    requires forall i :: 0 <= i < |pending| ==> pending[i] == []
    ensures Grouped(pending) == []
  {
    GroupedEmpty(pending);
  }

  lemma {:induction false} SaidAtTheEnd<T>(pending: seq<seq<T>>, core: nat, line: T)
    requires core < |pending| && forall j :: core < j < |pending| ==> pending[j] == []
    ensures Grouped(pending[core := pending[core] + [line]]) == Grouped(pending) + [line]
  {
    var now := pending[core := pending[core] + [line]];
    if core == 0 {
      assert now[1..] == pending[1..];
      SilentGroup(pending[1..]);
    } else {
      assert now[1..] == pending[1..][core - 1 := pending[1..][core - 1] + [line]];
      SaidAtTheEnd(pending[1..], core - 1, line);
    }
  }

  lemma BeatAsOne<T>(c: Cores<T>, answered: bool)
    ensures AsOne(TakeAll(c, Beats(true, answered))) == Take(AsOne(c), Heartbeat(true, answered))
  {
    BatchIsTheSame(c);
    if answered {
      var f := FiledAll(c);
      SilentGroup(Silent<T>(|c.pending|));
      BatchIsTheSame(f);
      assert AsOne(AcceptedAll(f)).out == AsOne(f).out;
    }
  }

  lemma StepRefines<T>(c: Cores<T>, step: CoreStep<T>)
    requires AtTheEnd(c.pending, step)
    ensures AsOne(TakeAll(c, step)) == Take(AsOne(c), StepAsOne(step))
  {
    match step
    case Says(core, line) => SaidAtTheEnd(c.pending, core, line);
    case Beats(delivered, answered) => if delivered { BeatAsOne(c, answered); }
    case PanelRestarts =>
    case AgentRestarts => SilentGroup(Silent<T>(|c.pending|));
  }

  lemma {:induction false} RunRefines<T>(n: nat, steps: seq<CoreStep<T>>)
    requires WritesAtTheEnd(n, steps)
    ensures AsOne(RunAll(n, steps)) == Run(Boot(), StepsAsOne(steps))
  {
    if steps == [] {
      SilentGroup(Silent<T>(n));
    } else {
      var init, all := steps[..|steps| - 1], StepsAsOne(steps);
      RunRefines(n, init);
      StepRefines(RunAll(n, init), steps[|steps| - 1]);
      assert all[..|all| - 1] == StepsAsOne(init);
    }
  }

  // Over every such run of any number of cores, with requests and responses lost
  // and either side restarting: what the panel filed since it booted is a strictly
  // increasing selection of what the cores said, at most once and in order.
  lemma SeveralCoresAtMostOnce<T>(n: nat, steps: seq<CoreStep<T>>) returns (trace: seq<Origin>)
    requires WritesAtTheEnd(n, steps)
    ensures Traces(AsOne(RunAll(n, steps)), trace)
  {
    RunRefines(n, steps);
    trace := AtMostOnceInOrder(StepsAsOne(steps));
  }
}
