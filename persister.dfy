/**
 * The persister: where the published file and its staging file live, and
 * the staged write followed by one atomic move that publishes the data.
 */
module Persister {
  import opened Wrappers
  import opened Json
  import opened Exceptions
  import opened Paths
  import opened Files

  /** The four paths the persister fixes at construction. */
  datatype Layout = Layout(target: Path, targetParent: Option<Path>, tmpTarget: Path, tmpTargetParent: Option<Path>)

  const DefaultTarget: string := "rds/rds-data.json"
  /** DefaultTarget as a path (DefaultTargetParses). */
  const DefaultTargetPath: Path := Path(false, ["rds", "rds-data.json"])
  const StagingSuffix: string := ".tmp"

  /** The published file: the configured or default target, resolved against the data root. */
  function TargetPath(dataPath: Path, targetConfig: Option<string>): Path {
    Resolve(dataPath, match targetConfig case Some(t) => ParsePath(t) case None => DefaultTargetPath)
  }

  /**
   * The staging file: a configured one resolved against the data root, or
   * else the target's file name plus ".tmp", next to the target (bare when
   * the target has no parent).
   */
  function StagingPath(dataPath: Path, target: Path, tmpTargetConfig: Option<string>): Path {
    match tmpTargetConfig
    case Some(t) => Resolve(dataPath, ParsePath(t))
    case None =>
      var bare := ParsePath(FileNameString(target) + StagingSuffix);
      match Parent(target)
      case None => bare
      case Some(parent) => Resolve(parent, bare)
  }

  function DeriveLayout(dataPath: Path, targetConfig: Option<string>, tmpTargetConfig: Option<string>): Layout {
    var target := TargetPath(dataPath, targetConfig);
    var tmpTarget := StagingPath(dataPath, target, tmpTargetConfig);
    Layout(target, Parent(target), tmpTarget, Parent(tmpTarget))
  }

  /** The parents are the parents of the paths. */
  predicate Consistent(l: Layout) {
    l.targetParent == Parent(l.target) && l.tmpTargetParent == Parent(l.tmpTarget)
  }

  /**
   * Staging cannot touch the target: the two differ, and creating the
   * staging directory does not create the target.
   */
  predicate Separated(l: Layout) {
    l.tmpTarget != l.target
    && (l.tmpTargetParent.Some? ==> l.target !in Ancestors(l.tmpTargetParent.value))
  }

  /** Why a persist stopped; each failure is one exception of RdsDataPersister.persist. */
  datatype Failure =
    | NullParent                                   // Files.isDirectory(null): NullPointerException
    | StagingDirectoryFailed(dir: Path)
    | StagingWriteFailed(file: Path)
    | TargetDirectoryFailed(dir: Path)
    | MoveFailed(source: Path, destination: Path)
    | WriterNotInitialized                         // writer variant: persist before getCleanWriter
    | EmptyData                                    // writer variant: nothing was written

  datatype Outcome = Done | Failed(failure: Failure)

  /** One file-system call of a persist: the call, whether it succeeded, the entries after it. */
  datatype Step = Step(op: FsOp, ok: bool, after: FsMap)

  /** The calls a persist made, and how it ended. */
  datatype Run = Run(steps: seq<Step>, result: Outcome)

  function FinalState(fs: FsMap, steps: seq<Step>): FsMap {
    if steps == [] then fs else steps[|steps| - 1].after
  }

  /** The entries just before step i. */
  function StateBefore(fs: FsMap, steps: seq<Step>, i: nat): FsMap
    requires i <= |steps|
  {
    if i == 0 then fs else steps[i - 1].after
  }

  /** The calls of the steps, in order. */
  function Ops(steps: seq<Step>): seq<FsOp> {
    seq(|steps|, i requires 0 <= i < |steps| => steps[i].op)
  }

  /** `if (!Files.isDirectory(dir)) Files.createDirectories(dir)`: no call, or one. */
  function EnsureDirectory(fs: FsMap, dir: Path): (steps: seq<Step>)
    ensures |steps| <= 1
  {
    if IsDirectory(fs, dir) then []
    else if CanCreateDirectories(fs, dir) then [Step(CreateDirectories(dir), true, CreateDirectoriesResult(fs, dir))]
    else [Step(CreateDirectories(dir), false, fs)]
  }


  /** The message of the IOException each failure raises. */
  function FailureMessage(f: Failure): string {
    match f
    case NullParent => ""
    case StagingDirectoryFailed(dir) => "Failed to create temporary target directory " + PathString(dir)
    case StagingWriteFailed(file) => "Failed to write temporarty target " + PathString(file)
    case TargetDirectoryFailed(dir) => "Failed to create target directory " + PathString(dir)
    case MoveFailed(source, destination) =>
      "Failed to move temporary target " + PathString(source) + " to effective target " + PathString(destination)
    case WriterNotInitialized => "Writer is not initialized - Fetch the data into the writer before calling persist!"
    case EmptyData => "Downloaded RDS data is empty!"
  }

  function FailureException(f: Failure): Exc {
    if f.NullParent? then NullPointer() else IOError(FailureMessage(f))
  }

  /** `s` occurs in `msg`. */
  predicate Mentions(msg: string, s: string) {
    exists k :: 0 <= k <= |msg| && s <= msg[k..]
  }

  lemma SuffixMentioned(a: string, s: string)
    ensures Mentions(a + s, s)
  {
    assert (a + s)[|a|..] == s;
  }

  lemma MoveMessageNamesPaths(a: string, source: string, b: string, destination: string)
    ensures Mentions(a + source + b + destination, source)
    ensures Mentions(a + source + b + destination, destination)
  {
    InfixMentioned(a, source, b + destination);
    assert a + source + (b + destination) == a + source + b + destination;
    SuffixMentioned(a + source + b, destination);
  }

  lemma InfixMentioned(a: string, s: string, b: string)
    ensures Mentions(a + s + b, s)
  {
    assert (a + s + b)[|a|..] == s + b;
  }

  /**
   * Every IOException of persist names the path it failed on; the failed
   * move names both the staging file and the target.
   */
  lemma FailureMessageNamesPaths(f: Failure)
    ensures !f.NullParent? ==> FailureException(f).kind == IOExceptionKind
    ensures (f.StagingDirectoryFailed? || f.TargetDirectoryFailed?) ==> Mentions(FailureMessage(f), PathString(f.dir))
    ensures f.StagingWriteFailed? ==> Mentions(FailureMessage(f), PathString(f.file))
    ensures f.MoveFailed? ==> (Mentions(FailureMessage(f), PathString(f.source))
                               && Mentions(FailureMessage(f), PathString(f.destination)))
  {
    match f
    case NullParent =>
    case StagingDirectoryFailed(dir) =>
      SuffixMentioned("Failed to create temporary target directory ", PathString(dir));
    case StagingWriteFailed(file) =>
      SuffixMentioned("Failed to write temporarty target ", PathString(file));
    case TargetDirectoryFailed(dir) =>
      SuffixMentioned("Failed to create target directory ", PathString(dir));
    case WriterNotInitialized =>
    case EmptyData =>
    case MoveFailed(source, destination) =>
      MoveMessageNamesPaths("Failed to move temporary target ", PathString(source),
                            " to effective target ", PathString(destination));
  }

  /** How persist returns: normally, or by throwing the failure's exception. */
  function ToCompletion(o: Outcome): Completion {
    match o
    case Done => Normal
    case Failed(f) => Thrown(FailureException(f))
  }

  /**
   * Steps 3 and 4, from the entries `fs` reached by the steps `done`:
   * make sure the target's directory exists, then move staging onto target.
   */
  function Commit(l: Layout, fs: FsMap, done: seq<Step>): Run {
    if l.targetParent.None? then Run(done, Failed(NullParent))
    else
      var s3 := EnsureDirectory(fs, l.targetParent.value);
      if s3 != [] && !s3[0].ok then Run(done + s3, Failed(TargetDirectoryFailed(l.targetParent.value)))
      else Move(l, FinalState(fs, s3), done + s3)
  }

  /** Step 4: the atomic move of staging onto target, from the entries `fs`. */
  function Move(l: Layout, fs: FsMap, done: seq<Step>): Run {
    var ok := CanMove(fs, l.tmpTarget, l.target);
    var after := if ok then MoveResult(fs, l.tmpTarget, l.target) else fs;
    Run(done + [Step(MoveReplace(l.tmpTarget, l.target), ok, after)],
        if ok then Done else Failed(MoveFailed(l.tmpTarget, l.target)))
  }

  /** Step 2: write the bytes to the staging file, from the entries `fs`, then Commit. */
  function Stage(l: Layout, fs: FsMap, done: seq<Step>, bytes: seq<byte>): Run {
    var ok := CanWrite(fs, l.tmpTarget);
    var after := if ok then fs[l.tmpTarget := File(bytes)] else fs;
    var steps := done + [Step(WriteFile(l.tmpTarget, bytes), ok, after)];
    if !ok then Run(steps, Failed(StagingWriteFailed(l.tmpTarget)))
    else Commit(l, after, steps)
  }

  /**
   * persist: make sure the staging directory exists, write the bytes to the
   * staging file, then Commit.  Each failure ends the run with its exception.
   */
  function PersistRun(l: Layout, fs: FsMap, bytes: seq<byte>): Run {
    if l.tmpTargetParent.None? then Run([], Failed(NullParent))
    else
      var s1 := EnsureDirectory(fs, l.tmpTargetParent.value);
      if s1 != [] && !s1[0].ok then Run(s1, Failed(StagingDirectoryFailed(l.tmpTargetParent.value)))
      else Stage(l, FinalState(fs, s1), s1, bytes)
  }

  /** The calls persist plans, the directory creations included or not. */
  function PlannedOps(l: Layout, bytes: seq<byte>, createStaging: bool, createTarget: bool): seq<FsOp> {
    (if createStaging && l.tmpTargetParent.Some? then [CreateDirectories(l.tmpTargetParent.value)] else [])
    + [WriteFile(l.tmpTarget, bytes)]
    + (if createTarget && l.targetParent.Some? then [CreateDirectories(l.targetParent.value)] else [])
    + [MoveReplace(l.tmpTarget, l.target)]
  }

  /** No step of `steps` changes the entry at `p` from `v`. */
  predicate Keeps(steps: seq<Step>, p: Path, v: Option<Node>) {
    forall i :: 0 <= i < |steps| ==> Lookup(steps[i].after, p) == v
  }

  /** No step of `steps` is a move. */
  predicate NoMove(steps: seq<Step>) {
    forall i :: 0 <= i < |steps| ==> !steps[i].op.MoveReplace?
  }

  /**
   * How a run treats the target of the move `m`: a step that is not the move
   * leaves the target's entry `v`; the move, if made, is `m`, is the last
   * step and decides the outcome; and a run that throws ends with `v`.
   */
  predicate TargetSafe(start: FsMap, run: Run, target: Path, v: Option<Node>, m: FsOp) {
    var st := run.steps;
    (forall i :: 0 <= i < |st| && !st[i].op.MoveReplace? ==> Lookup(st[i].after, target) == v)
    && (forall i :: 0 <= i < |st| && st[i].op.MoveReplace? ==>
          i == |st| - 1 && st[i].op == m && (st[i].ok <==> run.result.Done?))
    && (run.result.Failed? ==> Lookup(FinalState(start, st), target) == v)
  }

  lemma OpsAppend(a: seq<Step>, b: seq<Step>)
    ensures Ops(a + b) == Ops(a) + Ops(b)
  {
    assert forall i :: 0 <= i < |a + b| ==> (a + b)[i].op == (Ops(a) + Ops(b))[i];
  }

  lemma AncestorsAreShorter(p: Path, q: Path)
    requires q in Ancestors(p)
    ensures 1 <= |q.names| <= |p.names|
  {
  }

  /** The target is not among the directories created for its own parent. */
  lemma TargetNotAncestorOfItsParent(target: Path)
    requires Parent(target).Some?
    ensures target !in Ancestors(Parent(target).value)
  {
    if target in Ancestors(Parent(target).value) {
      AncestorsAreShorter(Parent(target).value, target);
    }
  }

  /** Making sure a directory exists touches nothing outside that directory's ancestors. */
  lemma EnsureDirectoryKeeps(fs: FsMap, dir: Path, p: Path)
    requires p !in Ancestors(dir)
    ensures var s := EnsureDirectory(fs, dir);
            Keeps(s, p, Lookup(fs, p)) && NoMove(s) && Lookup(FinalState(fs, s), p) == Lookup(fs, p)
  {
  }

  /** ... and it leaves a regular file alone. */
  lemma EnsureDirectoryKeepsFile(fs: FsMap, dir: Path, p: Path)
    requires IsFile(fs, p)
    ensures Lookup(FinalState(fs, EnsureDirectory(fs, dir)), p) == Lookup(fs, p)
  {
    if !IsDirectory(fs, dir) && CanCreateDirectories(fs, dir) {
      assert p !in Ancestors(dir);
    }
  }

  lemma KeepsAppend(a: seq<Step>, b: seq<Step>, p: Path, v: Option<Node>)
    requires Keeps(a, p, v) && Keeps(b, p, v) && NoMove(a) && NoMove(b)
    ensures Keeps(a + b, p, v) && NoMove(a + b)
  {
    forall i | 0 <= i < |a + b|
      ensures Lookup((a + b)[i].after, p) == v && !(a + b)[i].op.MoveReplace?
    {
      if i >= |a| {
        assert (a + b)[i] == b[i - |a|];
      }
    }
  }

  lemma NoMoveAppend(a: seq<Step>, b: seq<Step>)
    requires NoMove(a) && NoMove(b)
    ensures NoMove(a + b)
  {
    forall i | 0 <= i < |a + b|
      ensures !(a + b)[i].op.MoveReplace?
    {
      if i >= |a| {
        assert (a + b)[i] == b[i - |a|];
      }
    }
  }

  lemma MoveSafe(l: Layout, start: FsMap, fs: FsMap, done: seq<Step>, v: Option<Node>)
    requires Keeps(done, l.target, v) && NoMove(done) && Lookup(fs, l.target) == v
    ensures TargetSafe(start, Move(l, fs, done), l.target, v, MoveReplace(l.tmpTarget, l.target))
  {
    var run := Move(l, fs, done);
    assert run.steps[..|done|] == done;
  }

  lemma CommitSafe(l: Layout, start: FsMap, fs: FsMap, done: seq<Step>, v: Option<Node>)
    requires l.targetParent == Parent(l.target)
    requires Keeps(done, l.target, v) && NoMove(done) && Lookup(fs, l.target) == v
    requires FinalState(start, done) == fs
    ensures TargetSafe(start, Commit(l, fs, done), l.target, v, MoveReplace(l.tmpTarget, l.target))
  {
    if l.targetParent.Some? {
      var s3 := EnsureDirectory(fs, l.targetParent.value);
      TargetNotAncestorOfItsParent(l.target);
      EnsureDirectoryKeeps(fs, l.targetParent.value, l.target);
      KeepsAppend(done, s3, l.target, v);
      if s3 == [] || s3[0].ok {
        MoveSafe(l, start, FinalState(fs, s3), done + s3, v);
      }
    }
  }

  lemma StageSafe(l: Layout, start: FsMap, fs: FsMap, done: seq<Step>, bytes: seq<byte>, v: Option<Node>)
    requires Consistent(l) && l.tmpTarget != l.target
    requires Keeps(done, l.target, v) && NoMove(done) && Lookup(fs, l.target) == v
    requires FinalState(start, done) == fs
    ensures TargetSafe(start, Stage(l, fs, done, bytes), l.target, v, MoveReplace(l.tmpTarget, l.target))
  {
    var ok := CanWrite(fs, l.tmpTarget);
    var after := if ok then fs[l.tmpTarget := File(bytes)] else fs;
    var w := [Step(WriteFile(l.tmpTarget, bytes), ok, after)];
    KeepsAppend(done, w, l.target, v);
    if ok {
      CommitSafe(l, start, after, done + w, v);
    }
  }

  /**
   * The target changes only through the final move: every other call leaves
   * its entry as it was, the move of staging onto target is the last call
   * when it is made at all, and a persist that throws leaves the target's
   * entry as it was.
   */
  lemma PersistTargetSafe(l: Layout, fs: FsMap, bytes: seq<byte>)
    requires Consistent(l) && Separated(l)
    ensures TargetSafe(fs, PersistRun(l, fs, bytes), l.target, Lookup(fs, l.target), MoveReplace(l.tmpTarget, l.target))
  {
    if l.tmpTargetParent.Some? {
      var s1 := EnsureDirectory(fs, l.tmpTargetParent.value);
      EnsureDirectoryKeeps(fs, l.tmpTargetParent.value, l.target);
      if s1 == [] || s1[0].ok {
        StageSafe(l, fs, FinalState(fs, s1), s1, bytes, Lookup(fs, l.target));
      }
    }
  }

  lemma CommitPublishes(l: Layout, fs: FsMap, done: seq<Step>, bytes: seq<byte>)
    requires Lookup(fs, l.tmpTarget) == Some(File(bytes))
    ensures var run := Commit(l, fs, done);
            run.result.Done? ==>
              run.steps != [] &&
              Lookup(FinalState(fs, run.steps), l.target) == Some(File(bytes)) &&
              (l.tmpTarget != l.target ==> l.tmpTarget !in FinalState(fs, run.steps))
  {
    if l.targetParent.Some? {
      EnsureDirectoryKeepsFile(fs, l.targetParent.value, l.tmpTarget);
    }
  }

  /**
   * A persist that ends normally leaves exactly the data at the target,
   * whatever was at the target or the staging path before, and no staging
   * file.
   */
  lemma PersistPublishes(l: Layout, fs: FsMap, bytes: seq<byte>)
    ensures var run := PersistRun(l, fs, bytes);
            run.result.Done? ==>
              Lookup(FinalState(fs, run.steps), l.target) == Some(File(bytes)) &&
              (l.tmpTarget != l.target ==> l.tmpTarget !in FinalState(fs, run.steps))
  {
    if l.tmpTargetParent.Some? {
      var s1 := EnsureDirectory(fs, l.tmpTargetParent.value);
      if s1 == [] || s1[0].ok {
        var fs1 := FinalState(fs, s1);
        if CanWrite(fs1, l.tmpTarget) {
          var w := [Step(WriteFile(l.tmpTarget, bytes), true, fs1[l.tmpTarget := File(bytes)])];
          CommitPublishes(l, fs1[l.tmpTarget := File(bytes)], s1 + w, bytes);
        }
      }
    }
  }

  /** A persist that throws leaves the target's entry as it was. */
  lemma PersistFailureKeepsTarget(l: Layout, fs: FsMap, bytes: seq<byte>)
    requires Consistent(l) && Separated(l)
    ensures var run := PersistRun(l, fs, bytes);
            run.result.Failed? ==> Lookup(FinalState(fs, run.steps), l.target) == Lookup(fs, l.target)
  {
    PersistTargetSafe(l, fs, bytes);
  }

  /**
   * In a run that keeps the target safe, every state holds the old entry or
   * the entry the run publishes.
   */
  lemma SafeRunShowsOldOrNew(start: FsMap, run: Run, target: Path, v: Option<Node>, m: FsOp, published: Option<Node>)
    requires TargetSafe(start, run, target, v, m)
    requires run.result.Done? ==> Lookup(FinalState(start, run.steps), target) == published
    ensures forall i :: 0 <= i < |run.steps| ==> Lookup(run.steps[i].after, target) in {v, published}
  {
    forall i | 0 <= i < |run.steps|
      ensures Lookup(run.steps[i].after, target) in {v, published}
    {
      if run.steps[i].op.MoveReplace? {
        assert FinalState(start, run.steps) == run.steps[i].after;
      }
    }
  }

  /** Every state a reader can see holds the target's old entry or the complete new file. */
  lemma ReadersSeeOldOrNew(l: Layout, fs: FsMap, bytes: seq<byte>)
    requires Consistent(l) && Separated(l)
    ensures var run := PersistRun(l, fs, bytes);
            forall i :: 0 <= i < |run.steps| ==>
              Lookup(run.steps[i].after, l.target) in {Lookup(fs, l.target), Some(File(bytes))}
  {
    PersistTargetSafe(l, fs, bytes);
    PersistPublishes(l, fs, bytes);
    SafeRunShowsOldOrNew(fs, PersistRun(l, fs, bytes), l.target, Lookup(fs, l.target),
                         MoveReplace(l.tmpTarget, l.target), Some(File(bytes)));
  }

  /** The calls of Commit follow the plan's tail, after the calls `done` that follow `p`. */
  function PlannedTail(l: Layout, createTarget: bool): seq<FsOp> {
    (if createTarget && l.targetParent.Some? then [CreateDirectories(l.targetParent.value)] else [])
    + [MoveReplace(l.tmpTarget, l.target)]
  }

  /** Whether Commit from `fs` creates the target's directory. */
  predicate CommitCreates(l: Layout, fs: FsMap) {
    l.targetParent.Some? && !IsDirectory(fs, l.targetParent.value)
  }

  lemma OpsSingle(s: Step)
    ensures Ops([s]) == [s.op]
  {
    assert [s][..0] == [];
  }

  lemma EnsureDirectoryOps(fs: FsMap, dir: Path)
    ensures Ops(EnsureDirectory(fs, dir)) == if IsDirectory(fs, dir) then [] else [CreateDirectories(dir)]
  {
    if !IsDirectory(fs, dir) {
      OpsSingle(EnsureDirectory(fs, dir)[0]);
    }
  }

  lemma AppendAssociates<T>(a: seq<T>, b: seq<T>, c: seq<T>)
    ensures a + b + c == a + (b + c)
  {
  }

  lemma PrefixOfAppend<T>(a: seq<T>, b: seq<T>)
    ensures a <= a + b
  {
    assert (a + b)[..|a|] == a;
  }

  lemma MoveOps(l: Layout, fs: FsMap, done: seq<Step>)
    ensures Ops(Move(l, fs, done).steps) == Ops(done) + [MoveReplace(l.tmpTarget, l.target)]
  {
    var steps := Move(l, fs, done).steps;
    OpsAppend(done, [steps[|steps| - 1]]);
    OpsSingle(steps[|steps| - 1]);
  }

  lemma CommitFollowsPlan(l: Layout, fs: FsMap, done: seq<Step>, p: seq<FsOp>)
    requires Ops(done) == p
    ensures var run := Commit(l, fs, done);
            Ops(run.steps) <= p + PlannedTail(l, CommitCreates(l, fs)) &&
            (run.result.Done? ==> Ops(run.steps) == p + PlannedTail(l, CommitCreates(l, fs)))
  {
    var run := Commit(l, fs, done);
    var m := MoveReplace(l.tmpTarget, l.target);
    if l.targetParent.Some? {
      var d := l.targetParent.value;
      var s3 := EnsureDirectory(fs, d);
      var mk := if !IsDirectory(fs, d) then [CreateDirectories(d)] else [];
      assert PlannedTail(l, CommitCreates(l, fs)) == mk + [m];
      OpsAppend(done, s3);
      EnsureDirectoryOps(fs, d);
      assert Ops(done + s3) == p + mk;
      if s3 == [] || s3[0].ok {
        MoveOps(l, FinalState(fs, s3), done + s3);
        assert Ops(run.steps) == (p + mk) + [m];
      } else {
        assert Ops(run.steps) == p + mk;
        PrefixOfAppend(p + mk, [m]);
      }
    } else {
      PrefixOfAppend(p, PlannedTail(l, CommitCreates(l, fs)));
    }
  }

  lemma StageFollowsPlan(l: Layout, fs: FsMap, done: seq<Step>, bytes: seq<byte>, p: seq<FsOp>)
    requires Ops(done) == p
    ensures var run := Stage(l, fs, done, bytes);
            var plan := p + [WriteFile(l.tmpTarget, bytes)] + PlannedTail(l, CommitCreates(l, fs[l.tmpTarget := File(bytes)]));
            Ops(run.steps) <= plan && (run.result.Done? ==> Ops(run.steps) == plan)
  {
    var ok := CanWrite(fs, l.tmpTarget);
    var after := if ok then fs[l.tmpTarget := File(bytes)] else fs;
    var w := Step(WriteFile(l.tmpTarget, bytes), ok, after);
    var tail := PlannedTail(l, CommitCreates(l, fs[l.tmpTarget := File(bytes)]));
    OpsAppend(done, [w]);
    OpsSingle(w);
    if ok {
      CommitFollowsPlan(l, after, done + [w], p + [w.op]);
    } else {
      PrefixOfAppend(p + [w.op], tail);
    }
  }

  /**
   * The calls persist makes are, in order, a prefix of the plan (create the
   * staging directory if missing, write staging, create the target directory
   * if missing, move staging onto target), and all of it when it succeeds.
   */
  lemma PersistFollowsPlan(l: Layout, fs: FsMap, bytes: seq<byte>)
    ensures var run := PersistRun(l, fs, bytes);
            exists createStaging, createTarget ::
              Ops(run.steps) <= PlannedOps(l, bytes, createStaging, createTarget) &&
              (run.result.Done? ==> Ops(run.steps) == PlannedOps(l, bytes, createStaging, createTarget))
  {
    var c1, c2 := PlanChoices(l, fs, bytes);
  }

  /** The directory creations a persist from `fs` includes. */
  lemma PlanChoices(l: Layout, fs: FsMap, bytes: seq<byte>) returns (c1: bool, c2: bool)
    ensures var run := PersistRun(l, fs, bytes);
            Ops(run.steps) <= PlannedOps(l, bytes, c1, c2) &&
            (run.result.Done? ==> Ops(run.steps) == PlannedOps(l, bytes, c1, c2))
  {
    var run := PersistRun(l, fs, bytes);
    c1, c2 := false, false;
    if l.tmpTargetParent.Some? {
      var d := l.tmpTargetParent.value;
      var s1 := EnsureDirectory(fs, d);
      c1 := !IsDirectory(fs, d);
      EnsureDirectoryOps(fs, d);
      var staging := if c1 then [CreateDirectories(d)] else [];
      var rest := [WriteFile(l.tmpTarget, bytes)] + PlannedTail(l, false);
      if s1 != [] && !s1[0].ok {
        assert run == Run(s1, Failed(StagingDirectoryFailed(d)));
        PrefixOfAppend(staging, rest);
        assert PlannedOps(l, bytes, c1, false) == staging + rest;
      } else {
        var fs1 := FinalState(fs, s1);
        assert run == Stage(l, fs1, s1, bytes);
        c2 := CommitCreates(l, fs1[l.tmpTarget := File(bytes)]);
        StageFollowsPlan(l, fs1, s1, bytes, staging);
        assert PlannedOps(l, bytes, c1, c2) == staging + [WriteFile(l.tmpTarget, bytes)] + PlannedTail(l, c2);
      }
    }
  }

  /**
   * The staging directory: an existing one is left alone, a missing one is
   * created first, and when it cannot be created nothing else is attempted,
   * no entry changes and the error names the directory.
   */
  lemma StagingDirectoryHandling(l: Layout, fs: FsMap, bytes: seq<byte>)
    requires l.tmpTargetParent.Some?
    ensures var d := l.tmpTargetParent.value;
            var run := PersistRun(l, fs, bytes);
            && (IsDirectory(fs, d) ==> run.steps != [] && run.steps[0].op == WriteFile(l.tmpTarget, bytes))
            && (!IsDirectory(fs, d) && CanCreateDirectories(fs, d) ==>
                  run.steps != [] && run.steps[0].op == CreateDirectories(d) && IsDirectory(run.steps[0].after, d))
            && (!IsDirectory(fs, d) && !CanCreateDirectories(fs, d) ==>
                  run.result == Failed(StagingDirectoryFailed(d)) &&
                  Ops(run.steps) == [CreateDirectories(d)] && FinalState(fs, run.steps) == fs)
  {
    var d := l.tmpTargetParent.value;
    EnsureDirectoryOps(fs, d);
  }

  lemma MoveOntoDirectoryFails(l: Layout, fs: FsMap, done: seq<Step>)
    requires Lookup(fs, l.target) == Some(Dir) && NoMove(done)
    ensures Move(l, fs, done).result == Failed(MoveFailed(l.tmpTarget, l.target))
  {
  }

  lemma CommitOntoDirectoryFails(l: Layout, fs: FsMap, done: seq<Step>)
    requires l.targetParent == Parent(l.target)
    requires Lookup(fs, l.target) == Some(Dir) && NoMove(done)
    ensures var run := Commit(l, fs, done);
            run.result.Failed? && (!NoMove(run.steps) ==> run.result == Failed(MoveFailed(l.tmpTarget, l.target)))
  {
    if l.targetParent.Some? {
      var s3 := EnsureDirectory(fs, l.targetParent.value);
      TargetNotAncestorOfItsParent(l.target);
      EnsureDirectoryKeeps(fs, l.targetParent.value, l.target);
      NoMoveAppend(done, s3);
    }
  }

  /**
   * A directory at the target makes persist fail; when the move is reached,
   * the error is the move's, which names the target.
   */
  lemma DirectoryAtTargetFails(l: Layout, fs: FsMap, bytes: seq<byte>)
    requires Consistent(l) && Separated(l) && Lookup(fs, l.target) == Some(Dir)
    ensures var run := PersistRun(l, fs, bytes);
            run.result.Failed? && (!NoMove(run.steps) ==> run.result == Failed(MoveFailed(l.tmpTarget, l.target)))
  {
    if l.tmpTargetParent.Some? {
      var s1 := EnsureDirectory(fs, l.tmpTargetParent.value);
      EnsureDirectoryKeeps(fs, l.tmpTargetParent.value, l.target);
      if s1 == [] || s1[0].ok {
        var fs1 := FinalState(fs, s1);
        if CanWrite(fs1, l.tmpTarget) {
          var after := fs1[l.tmpTarget := File(bytes)];
          var w := [Step(WriteFile(l.tmpTarget, bytes), true, after)];
          NoMoveAppend(s1, w);
          CommitOntoDirectoryFails(l, after, s1 + w);
        }
      }
    }
  }

  /**
   * With no target configured, the target is the string rds/rds-data.json
   * resolved against the data root: two names below the root.
   */
  lemma DefaultTargetUnderDataRoot(dataPath: Path)
    ensures TargetPath(dataPath, None) == Resolve(dataPath, ParsePath(DefaultTarget))
    ensures TargetPath(dataPath, None) == Path(dataPath.absolute, dataPath.names + ["rds", "rds-data.json"])
  {
    DefaultTargetNames();
  }

  lemma TargetWellFormed(dataPath: Path, targetConfig: Option<string>)
    requires WellFormed(dataPath)
    ensures WellFormed(TargetPath(dataPath, targetConfig))
  {
    match targetConfig
    case Some(t) =>
      ParsedPathWellFormed(t);
      ResolveWellFormed(dataPath, ParsePath(t));
    case None =>
      assert '/' !in "rds-data.json";
      ResolveWellFormed(dataPath, DefaultTargetPath);
  }

  /** A file name plus ".tmp" parses as that single name. */
  lemma StagingNameParses(name: string)
    requires '/' !in name
    ensures ParsePath(name + StagingSuffix) == Path(false, [name + StagingSuffix])
  {
    assert '/' !in StagingSuffix;
    assert '/' !in name + StagingSuffix;
    ParseSingleName(name + StagingSuffix);
  }

  lemma SiblingStaging(dataPath: Path, t: Path)
    requires WellFormed(t) && t.names != []
    ensures StagingPath(dataPath, t, None)
            == Path(t.absolute, t.names[..|t.names| - 1] + [t.names[|t.names| - 1] + StagingSuffix])
  {
    var name := t.names[|t.names| - 1];
    StagingNameParses(name);
    if |t.names| == 1 {
      assert t.names[..0] == [];
    }
  }

  /**
   * With no staging path configured, staging is the target's file name plus
   * ".tmp", in the target's directory: same parent, same depth.
   */
  lemma DefaultStagingIsSibling(dataPath: Path, targetConfig: Option<string>)
    requires WellFormed(dataPath)
    ensures var t := TargetPath(dataPath, targetConfig);
            var s := StagingPath(dataPath, t, None);
            t.names != [] ==>
              && s.absolute == t.absolute
              && |s.names| == |t.names|
              && s.names[..|s.names| - 1] == t.names[..|t.names| - 1]
              && s.names[|s.names| - 1] == t.names[|t.names| - 1] + StagingSuffix
              && Parent(s) == Parent(t)
  {
    var t := TargetPath(dataPath, targetConfig);
    TargetWellFormed(dataPath, targetConfig);
    if t.names != [] {
      SiblingStaging(dataPath, t);
      var s := StagingPath(dataPath, t, None);
      assert s.names[..|s.names| - 1] == t.names[..|t.names| - 1];
    }
  }

  /**
   * A configured staging path is resolved against the data root: a relative
   * one lies under it, an absolute one is taken as it is.
   */
  lemma ConfiguredStagingResolved(dataPath: Path, target: Path, tmpTargetConfig: string)
    ensures var s := StagingPath(dataPath, target, Some(tmpTargetConfig));
            var c := ParsePath(tmpTargetConfig);
            (c.absolute ==> s == c) &&
            (!c.absolute ==> s.absolute == dataPath.absolute && s.names == dataPath.names + c.names)
  {
  }

  /** In the default layout staging cannot touch the target. */
  lemma DefaultLayoutSeparated(dataPath: Path, targetConfig: Option<string>)
    requires WellFormed(dataPath)
    ensures Consistent(DeriveLayout(dataPath, targetConfig, None))
    ensures Separated(DeriveLayout(dataPath, targetConfig, None))
  {
    var l := DeriveLayout(dataPath, targetConfig, None);
    var t := l.target;
    DefaultStagingIsSibling(dataPath, targetConfig);
    if t.names == [] {
      if t.absolute {
        StagingNameParses("null");
      } else {
        assert FileNameString(t) + StagingSuffix == "" + StagingSuffix;
        StagingNameParses("");
      }
    } else {
      var s := l.tmpTarget;
      assert |s.names[|s.names| - 1]| > |t.names[|t.names| - 1]|;
      if Parent(t).Some? {
        TargetNotAncestorOfItsParent(t);
      }
    }
  }

  lemma FinalStateAppend(fs: FsMap, a: seq<Step>, b: seq<Step>)
    ensures FinalState(fs, a + b) == FinalState(FinalState(fs, a), b)
  {
    if b != [] {
      assert (a + b)[|a + b| - 1] == b[|b| - 1];
    } else {
      assert a + b == a;
    }
  }

  /** `if (!Files.isDirectory(dir)) Files.createDirectories(dir)`, and the steps it takes. */
  method EnsureDirectoryAt(fs: FileSystem, dir: Path) returns (ok: bool, ghost added: seq<Step>)
    modifies fs
    ensures added == EnsureDirectory(old(fs.entries), dir)
    ensures ok <==> added == [] || added[0].ok
    ensures fs.entries == FinalState(old(fs.entries), added) && fs.ops == old(fs.ops) + Ops(added)
  {
    ok := true;
    added := [];
    var isDirectory := fs.IsDirectoryAt(dir);
    if !isDirectory {
      ok := fs.CreateDirectoriesAt(dir);
      added := [Step(CreateDirectories(dir), ok, fs.entries)];
      OpsSingle(added[0]);
    }
  }

  /** Step 4 on the file system. */
  method MoveAt(fs: FileSystem, l: Layout, ghost done: seq<Step>) returns (o: Outcome, ghost added: seq<Step>)
    modifies fs
    ensures Move(l, old(fs.entries), done) == Run(done + added, o)
    ensures fs.entries == FinalState(old(fs.entries), added) && fs.ops == old(fs.ops) + Ops(added)
  {
    var ok := fs.Move(l.tmpTarget, l.target);
    added := [Step(MoveReplace(l.tmpTarget, l.target), ok, fs.entries)];
    OpsSingle(added[0]);
    if ok {
      o := Done;
    } else {
      o := Failed(MoveFailed(l.tmpTarget, l.target));
    }
  }

  /** Steps 3 and 4 on the file system. */
  method CommitAt(fs: FileSystem, l: Layout, ghost done: seq<Step>) returns (o: Outcome, ghost added: seq<Step>)
    modifies fs
    ensures Commit(l, old(fs.entries), done) == Run(done + added, o)
    ensures fs.entries == FinalState(old(fs.entries), added) && fs.ops == old(fs.ops) + Ops(added)
  {
    ghost var start, ops0 := fs.entries, fs.ops;
    if l.targetParent.None? {
      o, added := Failed(NullParent), [];
      assert done + added == done;
      return;
    }
    var ok, s3 := EnsureDirectoryAt(fs, l.targetParent.value);
    if !ok {
      o, added := Failed(TargetDirectoryFailed(l.targetParent.value)), s3;
      return;
    }
    ghost var m;
    o, m := MoveAt(fs, l, done + s3);
    added := s3 + m;
    AppendAssociates(done, s3, m);
    FinalStateAppend(start, s3, m);
    OpsAppend(s3, m);
    AppendAssociates(ops0, Ops(s3), Ops(m));
  }

  /** Step 2 and the rest on the file system. */
  method StageAt(fs: FileSystem, l: Layout, bytes: seq<byte>, ghost done: seq<Step>) returns (o: Outcome, ghost added: seq<Step>)
    modifies fs
    ensures Stage(l, old(fs.entries), done, bytes) == Run(done + added, o)
    ensures fs.entries == FinalState(old(fs.entries), added) && fs.ops == old(fs.ops) + Ops(added)
  {
    ghost var start, ops0 := fs.entries, fs.ops;
    var ok := fs.Write(l.tmpTarget, bytes);
    ghost var w := [Step(WriteFile(l.tmpTarget, bytes), ok, fs.entries)];
    OpsSingle(w[0]);
    if !ok {
      o, added := Failed(StagingWriteFailed(l.tmpTarget)), w;
      return;
    }
    ghost var rest;
    o, rest := CommitAt(fs, l, done + w);
    added := w + rest;
    AppendAssociates(done, w, rest);
    FinalStateAppend(start, w, rest);
    OpsAppend(w, rest);
    AppendAssociates(ops0, Ops(w), Ops(rest));
  }

  /** RdsDataPersister.persist on the file system, for the layout `l` and the serialised data. */
  method PersistAt(fs: FileSystem, l: Layout, bytes: seq<byte>) returns (o: Outcome, ghost steps: seq<Step>)
    modifies fs
    ensures PersistRun(l, old(fs.entries), bytes) == Run(steps, o)
    ensures fs.entries == FinalState(old(fs.entries), steps) && fs.ops == old(fs.ops) + Ops(steps)
  {
    ghost var start, ops0 := fs.entries, fs.ops;
    if l.tmpTargetParent.None? {
      o, steps := Failed(NullParent), [];
      return;
    }
    var ok, s1 := EnsureDirectoryAt(fs, l.tmpTargetParent.value);
    if !ok {
      o, steps := Failed(StagingDirectoryFailed(l.tmpTargetParent.value)), s1;
      return;
    }
    assert PersistRun(l, start, bytes) == Stage(l, fs.entries, s1, bytes);
    ghost var rest;
    o, rest := StageAt(fs, l, bytes, s1);
    steps := s1 + rest;
    FinalStateAppend(start, s1, rest);
    OpsAppend(s1, rest);
    AppendAssociates(ops0, Ops(s1), Ops(rest));
  }

  /**
   * The persister of RdsDataPersister.java: the layout fixed at construction
   * and the staged, atomically published write.
   */
  class RdsDataPersister {
    const target: Path
    const targetParent: Option<Path>
    const tmpTarget: Path
    const tmpTargetParent: Option<Path>
    /** rdsData.toString() encoded as UTF-8; Gson is not part of this model. */
    const serialize: Json -> seq<byte>

    function PathLayout(): Layout {
      Layout(target, targetParent, tmpTarget, tmpTargetParent)
    }

    constructor (dataPath: Path, targetConfig: Option<string>, tmpTargetConfig: Option<string>,
                 serialize: Json -> seq<byte>)
      ensures PathLayout() == DeriveLayout(dataPath, targetConfig, tmpTargetConfig)
      ensures Consistent(PathLayout())
      ensures this.serialize == serialize
    {
      var t := TargetPath(dataPath, targetConfig);
      var tmp: Path;
      if tmpTargetConfig.None? {
        if Parent(t).None? {
          tmp := ParsePath(FileNameString(t) + StagingSuffix);
        } else {
          tmp := Resolve(Parent(t).value, ParsePath(FileNameString(t) + StagingSuffix));
        }
      } else {
        tmp := Resolve(dataPath, ParsePath(tmpTargetConfig.value));
      }
      target := t;
      targetParent := Parent(t);
      tmpTarget := tmp;
      tmpTargetParent := Parent(tmp);
      this.serialize := serialize;
    }

    /**
     * persist: the calls on `fs`, the way it returns and the entries
     * afterwards are those of PersistRun; a normal return leaves exactly the
     * serialised data at the target, and a throw leaves the target as it was.
     */
    method Persist(fs: FileSystem, rdsData: Json) returns (c: Completion)
      requires Consistent(PathLayout())
      modifies fs
      ensures var run := PersistRun(PathLayout(), old(fs.entries), serialize(rdsData));
              c == ToCompletion(run.result) && fs.entries == FinalState(old(fs.entries), run.steps)
              && fs.ops == old(fs.ops) + Ops(run.steps)
      ensures c.Normal? ==> Lookup(fs.entries, target) == Some(File(serialize(rdsData)))
      ensures c.Thrown? && Separated(PathLayout()) ==> Lookup(fs.entries, target) == Lookup(old(fs.entries), target)
    {
      var bytes := serialize(rdsData);
      PersistPublishes(PathLayout(), fs.entries, bytes);
      if Separated(PathLayout()) {
        PersistFailureKeepsTarget(PathLayout(), fs.entries, bytes);
      }
      var o, steps := PersistAt(fs, PathLayout(), bytes);
      c := ToCompletion(o);
    }
  }
}
