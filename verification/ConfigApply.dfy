// How a node installs a new core config: write, validate, commit, then reach
// the running core or restart it.
//
// Every call's environment — which writes, checks, renames and starts work —
// is a parameter, so a lemma holds for every way the host can behave.
module ConfigApply {
  import opened Numerals

  // The position of the last dot of the path's final element.
  function DotAt(p: string): (r: Option<nat>)
    ensures r.Some? ==>
              r.value < |p| && p[r.value] == '.' && forall k :: r.value < k < |p| ==> p[k] != '.' && p[k] != '/'
    ensures r.None? ==> forall k :: 0 <= k < |p| && p[k] == '.' ==> exists j :: k < j < |p| && p[j] == '/'
  {
    if p == "" || p[|p| - 1] == '/' then None
    else if p[|p| - 1] == '.' then Some(|p| - 1)
    else DotAt(p[..|p| - 1])
  }

  function Ext(p: string): string {
    match DotAt(p) case None => "" case Some(i) => p[i..]
  }

  function Stem(p: string): string {
    match DotAt(p) case None => p case Some(i) => p[..i]
  }

  // The directory part, with its slash.
  function Dir(p: string): string {
    if p == "" || p[|p| - 1] == '/' then p else Dir(p[..|p| - 1])
  }

  function TempPath(p: string): string { Stem(p) + ".tmp" + Ext(p) }

  lemma {:induction false} DotAtFound(p: string, i: nat)
    requires i < |p| && p[i] == '.' && forall k :: i < k < |p| ==> p[k] != '.' && p[k] != '/'
    ensures DotAt(p) == Some(i)
  {
    if i < |p| - 1 { DotAtFound(p[..|p| - 1], i); }
  }

  lemma {:induction false} DirSkips(p: string, q: string)
    requires forall k :: 0 <= k < |q| ==> q[k] != '/'
    ensures Dir(p + q) == Dir(p)
  {
    if q == "" {
      assert p + q == p;
    } else {
      assert (p + q)[..|p + q| - 1] == p + q[..|q| - 1];
      DirSkips(p, q[..|q| - 1]);
    }
  }

  // The commit is a rename inside one directory.
  lemma TempPathIsASibling(p: string)
    ensures TempPath(p) != p && Dir(TempPath(p)) == Dir(p)
  {
    var stem, ext := Stem(p), Ext(p);
    assert p == stem + ext;
    assert TempPath(p) == stem + (".tmp" + ext);
    DirSkips(stem, ext);
    DirSkips(stem, ".tmp" + ext);
  }

  // A core tells a config's format from its extension.
  lemma TempPathKeepsTheExtension(p: string)
    requires Ext(p) != ""
    ensures Ext(TempPath(p)) == Ext(p)
  {
    var i := DotAt(p).value;
    var tmp := TempPath(p);
    assert forall k :: i + 4 <= k < |tmp| ==> tmp[k] == p[k - 4];
    DotAtFound(tmp, i + 4);
  }

  // A config's file and the temporary file it is committed from.
  datatype Place = Place(file: string, temp: string)

  function PlaceOf(path: string): (pl: Place)
    ensures pl.file == path && pl.temp != path
  {
    TempPathIsASibling(path);
    Place(path, TempPath(path))
  }

  datatype Failure = WriteFailed | Rejected(words: string) | CommitFailed | NoBinary | StartFailed

  datatype Core = Core(serving: string, alive: bool)

  // A supervised core. `bin` is "" when the node has no binary; `hot` says
  // whether the core can take user changes while it runs; startedAt 0 is never.
  datatype Engine = Engine(bin: string, hot: bool, lastCfg: string, core: Option<Core>, startedAt: int,
                           lastErr: Option<Failure>)

  type Disk = map<string, string>

  // What offering a change to a running core comes to. A failed offer may
  // have changed some users already.
  datatype Offer = Reached | Declined | Broke(left: string)

  datatype Outcome = Outcome(written: bool, torn: Option<string>, valid: bool, words: string, renamed: bool,
                             swept: bool, offer: Offer, started: bool, now: int)

  function Without(d: Disk, path: string, gone: bool): Disk {
    if gone then d - {path} else d
  }

  function Torn(d: Disk, path: string, torn: Option<string>): Disk {
    match torn case None => d case Some(s) => d[path := s]
  }

  function Stopped(e: Engine): Engine { e.(core := None, startedAt := 0) }

  function Failed(e: Engine, f: Failure): Engine { e.(lastErr := Some(f)) }

  predicate Commits(e: Engine, o: Outcome) {
    o.written && (e.bin == "" || o.valid) && o.renamed
  }

  // Everything after the commit, reading the config the file now holds.
  function Launched(e: Engine, file: string, o: Outcome): Engine {
    if e.bin != "" && e.core.Some? && e.hot && o.offer.Reached? then
      e.(core := Some(e.core.value.(serving := e.lastCfg)), lastErr := None)
    else if e.bin == "" then Failed(Stopped(e), NoBinary)
    else if !o.started then Failed(Stopped(e).(startedAt := o.now), StartFailed)
    else Stopped(e).(startedAt := o.now, core := Some(Core(file, true)), lastErr := None)
  }

  function Refusal(e: Engine, o: Outcome): Failure {
    if !o.written then WriteFailed else if e.bin != "" && !o.valid then Rejected(o.words) else CommitFailed
  }

  function Applied(e: Engine, cfg: string, o: Outcome): Engine {
    if cfg == e.lastCfg then e
    else if cfg == "" then Stopped(e).(lastCfg := "")
    else if Commits(e, o) then Launched(e.(lastCfg := cfg), cfg, o)
    else Failed(e, Refusal(e, o))
  }

  function DiskAfter(e: Engine, d: Disk, pl: Place, cfg: string, o: Outcome): Disk {
    if cfg == e.lastCfg then d
    else if cfg == "" then Without(d, pl.file, o.swept)
    else if !o.written then Torn(d, pl.temp, o.torn)
    else if Commits(e, o) then d[pl.file := cfg] - {pl.temp}
    else Without(d[pl.temp := cfg], pl.temp, o.swept)
  }

  // The node's filesystem, as far as configs go.
  class Files {
    var files: Disk

    constructor ()
      ensures files == map[]
    {
      files := map[];
    }

    method Write(path: string, content: string, ok: bool, torn: Option<string>)
      modifies this
      ensures files == if ok then old(files)[path := content] else Torn(old(files), path, torn)
    {
      if ok {
        files := files[path := content];
      } else if torn.Some? {
        files := files[path := torn.value];
      }
    }

    method Remove(path: string, ok: bool)
      modifies this
      ensures files == Without(old(files), path, ok)
    {
      if ok { files := files - {path}; }
    }

    method Rename(from: string, to: string, ok: bool)
      requires from in files && from != to
      modifies this
      ensures files == if ok then old(files)[to := old(files)[from]] - {from} else old(files)
    {
      if ok { files := files[to := files[from]] - {from}; }
    }
  }

  class EngineProc {
    const configPath: string
    const bin: string
    const hot: bool
    var lastCfg: string
    var core: Option<Core>
    var startedAt: int
    var lastErr: Option<Failure>

    ghost function State(): Engine
      reads this
    {
      Engine(bin, hot, lastCfg, core, startedAt, lastErr)
    }

    constructor (configPath: string, bin: string, hot: bool)
      ensures State() == Fresh(bin, hot) && this.configPath == configPath
    {
      this.configPath, this.bin, this.hot := configPath, bin, hot;
      lastCfg, core, startedAt, lastErr := "", None, 0, None;
    }

    method Stop()
      modifies this
      ensures State() == Stopped(old(State()))
    {
      core := None;
      startedAt := 0;
    }

    // The user change reached the running core, or the core is restarted from
    // the file.
    method Launch(disk: Files, o: Outcome)
      requires configPath in disk.files
      modifies this
      ensures State() == Launched(old(State()), disk.files[configPath], o)
    {
      if bin != "" && core.Some? && hot {
        match o.offer {
          case Reached =>
            core := Some(core.value.(serving := lastCfg));
            lastErr := None;
            return;
          case Broke(left) =>
            core := Some(core.value.(serving := left));
          case Declined =>
        }
      }
      Stop();
      if bin == "" {
        lastErr := Some(NoBinary);
        return;
      }
      startedAt := o.now;
      if !o.started {
        lastErr := Some(StartFailed);
        return;
      }
      core := Some(Core(disk.files[configPath], true));
      lastErr := None;
    }

    method Apply(disk: Files, cfg: string, o: Outcome)
      modifies this, disk
      ensures State() == Applied(old(State()), cfg, o)
      ensures disk.files == DiskAfter(old(State()), old(disk.files), PlaceOf(configPath), cfg, o)
    {
      if cfg == lastCfg { return; }
      if cfg == "" {
        Stop();
        disk.Remove(configPath, o.swept);
        lastCfg := "";
        return;
      }
      var tmp := PlaceOf(configPath).temp;
      disk.Write(tmp, cfg, o.written, o.torn);
      if !o.written {
        lastErr := Some(WriteFailed);
        return;
      }
      if bin != "" && !o.valid {
        lastErr := Some(Rejected(o.words));
        disk.Remove(tmp, o.swept);
        return;
      }
      disk.Rename(tmp, configPath, o.renamed);
      if !o.renamed {
        lastErr := Some(CommitFailed);
        disk.Remove(tmp, o.swept);
        return;
      }
      lastCfg := cfg;
      Launch(disk, o);
    }
  }

  function Fresh(bin: string, hot: bool): Engine { Engine(bin, hot, "", None, 0, None) }

  // What every run keeps: the committed file is the last accepted config, a
  // supervised core was given exactly that, and a core that should be there and is
  // not has left a failure behind.
  predicate Sound(e: Engine, d: Disk, file: string) {
    && (e.lastCfg != "" ==> file in d && d[file] == e.lastCfg)
    && (e.core.Some? ==> e.lastCfg != "" && e.bin != "" && e.core.value.serving == e.lastCfg)
    && (e.lastCfg != "" && e.core.None? ==> e.lastErr.Some?)
  }

  function Look(d: Disk, x: string): Option<string> {
    if x in d then Some(d[x]) else None
  }

  // One call touches two paths, and what it leaves there depends on those two.
  lemma ApplyIsLocal(e: Engine, d: Disk, other: Disk, pl: Place, cfg: string, o: Outcome, x: string)
    requires Look(d, x) == Look(other, x)
    ensures Look(DiskAfter(e, d, pl, cfg, o), x) == Look(DiskAfter(e, other, pl, cfg, o), x)
    ensures x != pl.file && x != pl.temp ==> Look(DiskAfter(e, d, pl, cfg, o), x) == Look(d, x)
  {
  }

  // The file the core would be started from, call by call.
  lemma FileAfter(e: Engine, d: Disk, pl: Place, cfg: string, o: Outcome)
    requires pl.temp != pl.file
    ensures cfg == e.lastCfg || (cfg != "" && !Commits(e, o)) ==>
              Look(DiskAfter(e, d, pl, cfg, o), pl.file) == Look(d, pl.file)
    ensures cfg != e.lastCfg && cfg != "" && Commits(e, o) ==> Look(DiskAfter(e, d, pl, cfg, o), pl.file) == Some(cfg)
  {
  }

  lemma ApplyKeepsSound(e: Engine, d: Disk, pl: Place, cfg: string, o: Outcome)
    requires pl.temp != pl.file && Sound(e, d, pl.file)
    ensures Sound(Applied(e, cfg, o), DiskAfter(e, d, pl, cfg, o), pl.file)
  {
    FileAfter(e, d, pl, cfg, o);
  }

  // A config refused before the commit costs the node nothing it had.
  lemma RefusalChangesNothing(e: Engine, d: Disk, pl: Place, cfg: string, o: Outcome)
    requires pl.temp != pl.file && cfg != e.lastCfg && cfg != "" && !Commits(e, o)
    ensures var n := Applied(e, cfg, o); n == e.(lastErr := n.lastErr) && n.lastErr.Some?
    ensures forall x :: x != pl.temp ==> Look(DiskAfter(e, d, pl, cfg, o), x) == Look(d, x)
  {
    forall x | x != pl.temp ensures Look(DiskAfter(e, d, pl, cfg, o), x) == Look(d, x) {
      if x == pl.file { FileAfter(e, d, pl, cfg, o); } else { ApplyIsLocal(e, d, d, pl, cfg, o, x); }
    }
  }

  // A new config costs the core its connections exactly when the change could
  // not reach it as it ran; a core that keeps running keeps its uptime.
  lemma RestartedUnlessReached(e: Engine, d: Disk, file: string, cfg: string, o: Outcome)
    requires Sound(e, d, file) && e.bin != "" && cfg != e.lastCfg && cfg != "" && Commits(e, o)
    requires o.started && o.now != e.startedAt
    ensures var n := Applied(e, cfg, o);
            && n.core.Some?
            && (n.startedAt == e.startedAt <==> e.core.Some? && e.hot && o.offer.Reached?)
            && (n.startedAt == e.startedAt ==> n.core.value.alive == e.core.value.alive)
            && (n.startedAt != e.startedAt ==> n.startedAt == o.now && n.core.value.alive)
  {
  }

  // The core for the config asked for is supervised; whether it is alive is not asked.
  predicate Supervises(e: Engine, cfg: string) {
    e.lastCfg == cfg && (e.core.Some? <==> cfg != "") && (e.core.Some? ==> e.core.value.serving == cfg)
  }

  // The config asked for is served, by a live core.
  predicate DoesAsAsked(e: Engine, cfg: string) {
    Supervises(e, cfg) && (e.core.Some? ==> e.core.value.alive)
  }

  predicate CoreIsDead(e: Engine) { e.core.Some? && !e.core.value.alive }

  // A dead core is kept: it is asked for the config it already has, or for one
  // that reads the same, which a hot change takes without asking the core.
  predicate KeepsTheDead(e: Engine, cfg: string, o: Outcome) {
    CoreIsDead(e) && cfg != "" && (cfg == e.lastCfg || (e.hot && o.offer.Reached?))
  }

  // When the node reports no failure, the core for the config it was asked for is
  // the one it supervises, and that config is served exactly unless a dead core
  // was kept.
  lemma SilenceMeansServed(e: Engine, d: Disk, pl: Place, cfg: string, o: Outcome)
    requires pl.temp != pl.file && Sound(e, d, pl.file)
    requires Applied(e, cfg, o).lastErr.None?
    ensures Supervises(Applied(e, cfg, o), cfg)
    ensures DoesAsAsked(Applied(e, cfg, o), cfg) <==> !KeepsTheDead(e, cfg, o)
  {
    ApplyKeepsSound(e, d, pl, cfg, o);
  }

  // The verdict can blame a core that is in place. It is clear exactly when a
  // new non-empty config was taken, or there was nothing to clear: a good config
  // sent again after a rejected one clears nothing, nor does an empty one.
  lemma VerdictIsClearIff(e: Engine, d: Disk, pl: Place, cfg: string, o: Outcome)
    requires pl.temp != pl.file && Sound(e, d, pl.file)
    requires Supervises(Applied(e, cfg, o), cfg)
    ensures Applied(e, cfg, o).lastErr.None? <==> e.lastErr.None? || (cfg != e.lastCfg && cfg != "")
  {
    ApplyKeepsSound(e, d, pl, cfg, o);
  }

  // The death of a core nobody has reported on, and none will be.
  predicate HidesADeath(e: Engine, cfg: string, o: Outcome) {
    KeepsTheDead(e, cfg, o) && if cfg == e.lastCfg then e.lastErr.None? else Commits(e, o)
  }

  // A failure on record from another config, and nothing that clears it.
  predicate BlamesTheLiving(e: Engine, cfg: string) {
    e.lastErr.Some? && (cfg == "" || (cfg == e.lastCfg && e.core.Some? && e.core.value.alive))
  }

  // The node's verdict on itself is true, clear exactly when it does as asked,
  // exactly when it neither hides a death nor blames the living.
  lemma VerdictIsTrueIff(e: Engine, d: Disk, pl: Place, cfg: string, o: Outcome)
    requires pl.temp != pl.file && Sound(e, d, pl.file)
    ensures var n := Applied(e, cfg, o);
            (n.lastErr.None? <==> DoesAsAsked(n, cfg)) <==> !HidesADeath(e, cfg, o) && !BlamesTheLiving(e, cfg)
  {
    ApplyKeepsSound(e, d, pl, cfg, o);
  }

  // The core serves "a"; "b" is rejected; "a" is asked for again and served
  // all along, and the node still reports the rejection.
  lemma AServingCoreIsBlamed(o: Outcome)
    requires o.written && !o.valid
    ensures var e := Engine("xray", true, "a", Some(Core("a", true)), 1, None);
            var n := Applied(Applied(e, "b", o), "a", o);
            DoesAsAsked(n, "a") && n.lastErr == Some(Rejected(o.words))
  {
  }

  // The core takes "a", dies, and is asked for "a" again, on a host where every
  // step works: nothing is served and nothing is reported.
  lemma ADeadCoreIsNotMissed(n: Node, pl: Place, o: Outcome)
    requires pl.temp != pl.file && Healthy(o) && n == Node(Fresh("xray", true), map[], {})
    ensures var end := After(After(After(n, pl, Beat("a", o)), pl, CoreDies), pl, Beat("a", o)).engine;
            end == Engine("xray", true, "a", Some(Core("a", false)), o.now, None) && !DoesAsAsked(end, "a")
  {
  }

  predicate Healthy(o: Outcome) { o.written && o.valid && o.renamed && o.started && !o.offer.Broke? }

  // On a host where every step works, the config asked for is served unless a
  // dead core is kept, or it is the very one whose core could not be started.
  lemma HealthyApplyServesIff(e: Engine, d: Disk, pl: Place, cfg: string, o: Outcome)
    requires pl.temp != pl.file && Sound(e, d, pl.file) && e.bin != "" && Healthy(o)
    ensures DoesAsAsked(Applied(e, cfg, o), cfg)
            <==> !KeepsTheDead(e, cfg, o) && !(cfg == e.lastCfg && cfg != "" && e.core.None?)
  {
    ApplyKeepsSound(e, d, pl, cfg, o);
  }

  datatype Event =
    | Beat(cfg: string, o: Outcome)
    | CoreDies
    | AgentRestarts(bin: string)

  // The configs that passed the core's own check are remembered beside the state.
  datatype Node = Node(engine: Engine, disk: Disk, passed: set<string>)

  predicate Checked(e: Engine, cfg: string, o: Outcome) {
    cfg != e.lastCfg && cfg != "" && o.written && e.bin != "" && o.valid
  }

  function After(n: Node, pl: Place, ev: Event): Node {
    match ev
    case Beat(cfg, o) =>
      Node(Applied(n.engine, cfg, o), DiskAfter(n.engine, n.disk, pl, cfg, o),
           if Checked(n.engine, cfg, o) then n.passed + {cfg} else n.passed)
    case CoreDies =>
      if n.engine.core.None? then n
      else n.(engine := n.engine.(core := Some(n.engine.core.value.(alive := false))))
    case AgentRestarts(bin) => n.(engine := Fresh(bin, n.engine.hot))
  }

  function Run(n: Node, pl: Place, evs: seq<Event>): Node {
    if evs == [] then n else After(Run(n, pl, evs[..|evs| - 1]), pl, evs[|evs| - 1])
  }

  predicate Transactional(n: Node, file: string) {
    Sound(n.engine, n.disk, file) && (n.engine.lastCfg != "" && n.engine.bin != "" ==> n.engine.lastCfg in n.passed)
  }

  // Over every run, from whatever the disk held when the agent started.
  lemma {:induction false} EveryRunIsTransactional(bin: string, hot: bool, d: Disk, pl: Place, evs: seq<Event>)
    requires pl.temp != pl.file
    ensures Transactional(Run(Node(Fresh(bin, hot), d, {}), pl, evs), pl.file)
  {
    if evs != [] {
      var before := Run(Node(Fresh(bin, hot), d, {}), pl, evs[..|evs| - 1]);
      EveryRunIsTransactional(bin, hot, d, pl, evs[..|evs| - 1]);
      match evs[|evs| - 1] {
        case Beat(cfg, o) => ApplyKeepsSound(before.engine, before.disk, pl, cfg, o);
        case CoreDies =>
        case AgentRestarts(_) =>
      }
    }
  }

  predicate OnlyBeats(evs: seq<Event>) { forall k :: 0 <= k < |evs| ==> evs[k].Beat? }

  predicate SweepsWork(evs: seq<Event>) {
    forall k :: 0 <= k < |evs| && evs[k].Beat? && evs[k].cfg == "" ==> evs[k].o.swept
  }

  // In one life of the agent, started with no config file on the disk and
  // able to remove its own, a config is on the disk exactly while one is in force.
  lemma {:induction false} AFileExactlyWhileServing(bin: string, hot: bool, d: Disk, pl: Place, evs: seq<Event>)
    requires pl.temp != pl.file && OnlyBeats(evs) && SweepsWork(evs) && pl.file !in d
    ensures var n := Run(Node(Fresh(bin, hot), d, {}), pl, evs);
            pl.file in n.disk <==> n.engine.lastCfg != ""
  {
    if evs != [] {
      var n := Run(Node(Fresh(bin, hot), d, {}), pl, evs[..|evs| - 1]);
      AFileExactlyWhileServing(bin, hot, d, pl, evs[..|evs| - 1]);
      var ev := evs[|evs| - 1];
      OneBeatKeepsTheFileInStep(n.engine, n.disk, pl, ev.cfg, ev.o);
    }
  }

  lemma OneBeatKeepsTheFileInStep(e: Engine, d: Disk, pl: Place, cfg: string, o: Outcome)
    requires pl.temp != pl.file
    requires (pl.file in d <==> e.lastCfg != "") && (cfg == "" ==> o.swept)
    ensures pl.file in DiskAfter(e, d, pl, cfg, o) <==> Applied(e, cfg, o).lastCfg != ""
  {
    FileAfter(e, d, pl, cfg, o);
  }

  // A core that could not be started, or died, stays as it is for as long as
  // the panel keeps asking for the same config.
  lemma {:induction false} DownUntilTheConfigChanges(n: Node, pl: Place, evs: seq<Event>)
    requires forall k :: 0 <= k < |evs| ==> evs[k].Beat? && evs[k].cfg == n.engine.lastCfg
    ensures Run(n, pl, evs) == n
  {
    if evs != [] {
      DownUntilTheConfigChanges(n, pl, evs[..|evs| - 1]);
    }
  }

  predicate Apart(p: Place, q: Place) {
    p.file != q.file && p.file != q.temp && p.temp != q.file && p.temp != q.temp
  }

  lemma SameDisk(d: Disk, e: Disk)
    requires forall x :: Look(d, x) == Look(e, x)
    ensures d == e
  {
    forall x ensures x in d <==> x in e { assert Look(d, x) == Look(e, x); }
    forall x | x in d ensures d[x] == e[x] { assert Look(d, x) == Look(e, x); }
  }

  // The cores of one node are visited in no fixed order, and need none.
  lemma AppliesCommute(a: Engine, p: Place, ca: string, oa: Outcome, b: Engine, q: Place, cb: string, ob: Outcome,
                       d: Disk)
    requires Apart(p, q)
    ensures DiskAfter(b, DiskAfter(a, d, p, ca, oa), q, cb, ob) == DiskAfter(a, DiskAfter(b, d, q, cb, ob), p, ca, oa)
  {
    var left := DiskAfter(b, DiskAfter(a, d, p, ca, oa), q, cb, ob);
    var right := DiskAfter(a, DiskAfter(b, d, q, cb, ob), p, ca, oa);
    forall x
      ensures Look(left, x) == Look(right, x)
    {
      CommuteAt(a, p, ca, oa, b, q, cb, ob, d, x);
    }
    SameDisk(left, right);
  }

  lemma CommuteAt(a: Engine, p: Place, ca: string, oa: Outcome, b: Engine, q: Place, cb: string, ob: Outcome,
                  d: Disk, x: string)
    requires Apart(p, q)
    ensures Look(DiskAfter(b, DiskAfter(a, d, p, ca, oa), q, cb, ob), x)
         == Look(DiskAfter(a, DiskAfter(b, d, q, cb, ob), p, ca, oa), x)
  {
    var afterA, afterB := DiskAfter(a, d, p, ca, oa), DiskAfter(b, d, q, cb, ob);
    ApplyIsLocal(a, d, d, p, ca, oa, x);
    ApplyIsLocal(b, d, d, q, cb, ob, x);
    if x == p.file || x == p.temp {
      ApplyIsLocal(a, afterB, d, p, ca, oa, x);
      ApplyIsLocal(b, afterA, afterA, q, cb, ob, x);
    } else {
      ApplyIsLocal(b, afterA, d, q, cb, ob, x);
      ApplyIsLocal(a, afterB, afterB, p, ca, oa, x);
    }
  }

  lemma OtherEngineStaysSound(a: Engine, p: Place, ca: string, oa: Outcome, b: Engine, file: string, d: Disk)
    requires file != p.file && file != p.temp && Sound(b, d, file)
    ensures Sound(b, DiskAfter(a, d, p, ca, oa), file)
  {
    ApplyIsLocal(a, d, d, p, ca, oa, file);
    assert Look(d, file) == Look(DiskAfter(a, d, p, ca, oa), file);
  }

  ghost predicate Separate(engines: seq<EngineProc>)
    reads engines
  {
    forall i, j :: 0 <= i < |engines| && 0 <= j < |engines| && i != j ==>
      engines[i] != engines[j] && Apart(PlaceOf(engines[i].configPath), PlaceOf(engines[j].configPath))
  }

  // The agent hands every core its share; each ends as if it were alone.
  method ApplyConfigs(engines: seq<EngineProc>, disk: Files, cfgs: seq<string>, os: seq<Outcome>)
    requires |engines| == |cfgs| == |os| && Separate(engines)
    requires forall i :: 0 <= i < |engines| ==> Sound(engines[i].State(), disk.files, engines[i].configPath)
    modifies engines, disk
    ensures forall i :: 0 <= i < |engines| ==> engines[i].State() == Applied(old(engines[i].State()), cfgs[i], os[i])
    ensures forall i :: 0 <= i < |engines| ==> Sound(engines[i].State(), disk.files, engines[i].configPath)
  {
    var n := 0;
    while n < |engines|
      invariant 0 <= n <= |engines|
      invariant forall i :: 0 <= i < n ==> engines[i].State() == Applied(old(engines[i].State()), cfgs[i], os[i])
      invariant forall i :: n <= i < |engines| ==> engines[i].State() == old(engines[i].State())
      invariant forall i :: 0 <= i < |engines| ==> Sound(engines[i].State(), disk.files, engines[i].configPath)
    {
      ghost var was, e, pl := disk.files, engines[n].State(), PlaceOf(engines[n].configPath);
      engines[n].Apply(disk, cfgs[n], os[n]);
      ApplyKeepsSound(e, was, pl, cfgs[n], os[n]);
      forall i | 0 <= i < |engines| && i != n
        ensures Sound(engines[i].State(), disk.files, engines[i].configPath)
      {
        OtherEngineStaysSound(e, pl, cfgs[n], os[n], engines[i].State(), engines[i].configPath, was);
      }
      n := n + 1;
    }
  }

  // The two cores' files, and the temporary files beside them, never meet.
  lemma TheNodesPathsAreApart(dir: string)
    ensures Apart(PlaceOf(dir + "/node-xray.json"), PlaceOf(dir + "/node-singbox.json"))
  {
    var x, s := dir + "/node-xray.json", dir + "/node-singbox.json";
    DotAtFound(x, |dir| + 10);
    DotAtFound(s, |dir| + 13);
    assert TempPath(x)[|dir| + 6] == 'x' && TempPath(s)[|dir| + 6] == 's' && x[|dir| + 6] == 'x' && s[|dir| + 6] == 's';
  }
}
