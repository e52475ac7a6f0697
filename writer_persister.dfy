/**
 * The writer-based variant of the persister that RdsDataPersisterTest.java
 * exercises: getCleanWriter() opens a fresh sink on the staging file, the
 * caller writes the serialised data into it, and persist() flushes and closes
 * the sink, refuses empty data and then commits by the same two steps as
 * RdsDataPersister.persist (target directory, atomic move).
 */
module WriterPersister {
  import opened Wrappers
  import opened Exceptions
  import opened Json
  import opened Paths
  import opened Files
  import opened Persister

  /**
   * getCleanWriter: make sure the staging directory exists, then create or
   * truncate the staging file.
   */
  function AcquireRun(l: Layout, fs: FsMap): Run {
    if l.tmpTargetParent.None? then Run([], Failed(NullParent))
    else
      var s1 := EnsureDirectory(fs, l.tmpTargetParent.value);
      if s1 != [] && !s1[0].ok then Run(s1, Failed(StagingDirectoryFailed(l.tmpTargetParent.value)))
      else
        var mid := FinalState(fs, s1);
        var ok := CanWrite(mid, l.tmpTarget);
        Run(s1 + [Step(WriteFile(l.tmpTarget, []), ok, if ok then mid[l.tmpTarget := File([])] else mid)],
            if ok then Done else Failed(StagingWriteFailed(l.tmpTarget)))
  }

  /**
   * persist of the variant, with the sink open or not and the bytes written
   * into it: without a sink nothing happens and it throws; otherwise the
   * sink is flushed into the staging file, empty data is refused, and the
   * staged file is committed.
   */
  function CommitStagedRun(l: Layout, fs: FsMap, open: bool, pending: seq<byte>): Run {
    if !open then Run([], Failed(WriterNotInitialized))
    else
      var ok := CanWrite(fs, l.tmpTarget);
      var after := if ok then fs[l.tmpTarget := File(pending)] else fs;
      var flushed := [Step(WriteFile(l.tmpTarget, pending), ok, after)];
      if !ok then Run(flushed, Failed(StagingWriteFailed(l.tmpTarget)))
      else if pending == [] then Run(flushed, Failed(EmptyData))
      else Commit(l, after, flushed)
  }

  /** The two guards of the variant throw IOExceptions with these messages. */
  lemma WriterFailureMessages()
    ensures FailureException(WriterNotInitialized)
            == IOError("Writer is not initialized - Fetch the data into the writer before calling persist!")
    ensures FailureException(EmptyData) == IOError("Downloaded RDS data is empty!")
  {
  }

  /** Without a sink, persist throws the "not initialized" error and makes no call. */
  lemma UninitializedWriterFails(l: Layout, fs: FsMap, pending: seq<byte>)
    ensures var run := CommitStagedRun(l, fs, false, pending);
            run.steps == [] && FinalState(fs, run.steps) == fs && run.result == Failed(WriterNotInitialized)
  {
  }

  /**
   * Empty data is refused: persist throws, the only call is the flush into
   * the staging file, and the target keeps its entry; with a writable
   * staging file the error is "Downloaded RDS data is empty!".
   */
  lemma EmptyDataRejected(l: Layout, fs: FsMap)
    requires l.tmpTarget != l.target
    ensures var run := CommitStagedRun(l, fs, true, []);
            run.result.Failed? && Ops(run.steps) == [WriteFile(l.tmpTarget, [])]
            && Lookup(FinalState(fs, run.steps), l.target) == Lookup(fs, l.target)
            && (CanWrite(fs, l.tmpTarget) <==> run.result == Failed(EmptyData))
  {
    var run := CommitStagedRun(l, fs, true, []);
    OpsSingle(run.steps[0]);
  }

  /** getCleanWriter never touches the target, and on success leaves an empty staging file. */
  lemma AcquireKeepsTarget(l: Layout, fs: FsMap)
    requires Consistent(l) && Separated(l)
    ensures var run := AcquireRun(l, fs);
            Keeps(run.steps, l.target, Lookup(fs, l.target)) && NoMove(run.steps)
            && Lookup(FinalState(fs, run.steps), l.target) == Lookup(fs, l.target)
            && (run.result.Done? ==> Lookup(FinalState(fs, run.steps), l.tmpTarget) == Some(File([])))
  {
    if l.tmpTargetParent.Some? {
      var s1 := EnsureDirectory(fs, l.tmpTargetParent.value);
      EnsureDirectoryKeeps(fs, l.tmpTargetParent.value, l.target);
      if s1 == [] || s1[0].ok {
        var mid := FinalState(fs, s1);
        var ok := CanWrite(mid, l.tmpTarget);
        var w := [Step(WriteFile(l.tmpTarget, []), ok, if ok then mid[l.tmpTarget := File([])] else mid)];
        KeepsAppend(s1, w, l.target, Lookup(fs, l.target));
      }
    }
  }

  /**
   * getCleanWriter followed by persist with nothing written is refused with
   * the empty-data error, and the target keeps the entry it had before both.
   */
  lemma AcquireThenEmptyFails(l: Layout, fs: FsMap)
    requires Consistent(l) && Separated(l)
    ensures var a := AcquireRun(l, fs);
            var c := CommitStagedRun(l, FinalState(fs, a.steps), true, []);
            a.result.Done? ==>
              c.result == Failed(EmptyData)
              && Lookup(FinalState(FinalState(fs, a.steps), c.steps), l.target) == Lookup(fs, l.target)
  {
    var a := AcquireRun(l, fs);
    AcquireKeepsTarget(l, fs);
    if a.result.Done? {
      var s1 := EnsureDirectory(fs, l.tmpTargetParent.value);
      TruncatedStagingWritable(l, FinalState(fs, s1));
      EmptyDataRejected(l, FinalState(fs, a.steps));
    }
  }

  /** Commit depends on the earlier calls only in that it appends to them. */
  lemma CommitAppends(l: Layout, fs: FsMap, done: seq<Step>)
    ensures var run := Commit(l, fs, []);
            Commit(l, fs, done) == Run(done + run.steps, run.result)
  {
    if l.targetParent.Some? {
      var s3 := EnsureDirectory(fs, l.targetParent.value);
      assert [] + s3 == s3;
      if s3 == [] || s3[0].ok {
        var m := Move(l, FinalState(fs, s3), s3).steps[|s3|];
        AppendAssociates(done, s3, [m]);
      }
    } else {
      assert done + [] == done;
    }
  }

  /** With data written, persist of the variant is Stage from the flushed sink. */
  lemma CommitStagedIsStage(l: Layout, fs: FsMap, pending: seq<byte>)
    requires pending != []
    ensures CommitStagedRun(l, fs, true, pending) == Stage(l, fs, [], pending)
  {
    var ok := CanWrite(fs, l.tmpTarget);
    var after := if ok then fs[l.tmpTarget := File(pending)] else fs;
    assert [] + [Step(WriteFile(l.tmpTarget, pending), ok, after)] == [Step(WriteFile(l.tmpTarget, pending), ok, after)];
  }

  /** Truncating the staging file first does not change what writing it does. */
  lemma TruncatedStagingWritable(l: Layout, mid: FsMap)
    requires CanWrite(mid, l.tmpTarget)
    ensures CanWrite(mid[l.tmpTarget := File([])], l.tmpTarget)
  {
    var p := l.tmpTarget;
    if Parent(p).Some? {
      assert |Parent(p).value.names| < |p.names|;
      assert Lookup(mid[p := File([])], Parent(p).value) == Lookup(mid, Parent(p).value);
    }
  }

  /**
   * For non-empty data, getCleanWriter followed by persist ends like
   * RdsDataPersister.persist of the same bytes: the same outcome and the same
   * entries afterwards, whether getCleanWriter fails or not.
   */
  lemma VariantAgreesWithPersist(l: Layout, fs: FsMap, bytes: seq<byte>)
    requires bytes != []
    ensures var a := AcquireRun(l, fs);
            var p := PersistRun(l, fs, bytes);
            (a.result.Failed? ==> a.result == p.result && FinalState(fs, a.steps) == FinalState(fs, p.steps))
            && (a.result.Done? ==>
                  var c := CommitStagedRun(l, FinalState(fs, a.steps), true, bytes);
                  c.result == p.result && FinalState(FinalState(fs, a.steps), c.steps) == FinalState(fs, p.steps))
  {
    if l.tmpTargetParent.Some? {
      var s1 := EnsureDirectory(fs, l.tmpTargetParent.value);
      if s1 == [] || s1[0].ok {
        var mid := FinalState(fs, s1);
        var a := AcquireRun(l, fs);
        var p := PersistRun(l, fs, bytes);
        assert p == Stage(l, mid, s1, bytes);
        if CanWrite(mid, l.tmpTarget) {
          var mid0 := mid[l.tmpTarget := File([])];
          assert FinalState(fs, a.steps) == mid0;
          TruncatedStagingWritable(l, mid);
          assert mid0[l.tmpTarget := File(bytes)] == mid[l.tmpTarget := File(bytes)];
          var after := mid[l.tmpTarget := File(bytes)];
          var w := Step(WriteFile(l.tmpTarget, bytes), true, after);
          CommitStagedIsStage(l, mid0, bytes);
          var c := CommitStagedRun(l, mid0, true, bytes);
          assert c == Commit(l, after, [w]);
          assert p == Commit(l, after, s1 + [w]);
          CommitAppends(l, after, [w]);
          CommitAppends(l, after, s1 + [w]);
          AppendAssociates(s1, [w], Commit(l, after, []).steps);
          FinalStateAppend(fs, s1, [w] + Commit(l, after, []).steps);
        } else {
          assert FinalState(fs, a.steps) == mid;
          FinalStateAppend(fs, s1, [Step(WriteFile(l.tmpTarget, bytes), false, mid)]);
        }
      }
    }
  }

  /** getCleanWriter on the file system. */
  method AcquireAt(fs: FileSystem, l: Layout) returns (o: Outcome, ghost steps: seq<Step>)
    modifies fs
    ensures AcquireRun(l, old(fs.entries)) == Run(steps, o)
    ensures fs.entries == FinalState(old(fs.entries), steps) && fs.ops == old(fs.ops) + Ops(steps)
  {
    ghost var start, ops0 := fs.entries, fs.ops;
    if l.tmpTargetParent.None? {
      o, steps := Failed(NullParent), [];
      return;
    }
    var ok, s1 := EnsureDirectoryAt(fs, l.tmpTargetParent.value);
    if !ok {
      o, steps := Failed(StagingDirectoryFailed(l.tmpTargetParent.value)), s1;
      return;
    }
    var written := fs.Write(l.tmpTarget, []);
    ghost var w := [Step(WriteFile(l.tmpTarget, []), written, fs.entries)];
    OpsSingle(w[0]);
    o := if written then Done else Failed(StagingWriteFailed(l.tmpTarget));
    steps := s1 + w;
    FinalStateAppend(start, s1, w);
    OpsAppend(s1, w);
    AppendAssociates(ops0, Ops(s1), Ops(w));
  }

  /**
   * The writer-based persister: the layout fixed at construction, whether a
   * sink is open, and the bytes written into the open sink.
   */
  class RdsDataWriterPersister {
    const layout: Layout
    var writerOpen: bool
    var pending: seq<byte>

    constructor (dataPath: Path, targetConfig: Option<string>, tmpTargetConfig: Option<string>)
      ensures layout == DeriveLayout(dataPath, targetConfig, tmpTargetConfig) && Consistent(layout)
      ensures !writerOpen && pending == []
    {
      layout := DeriveLayout(dataPath, targetConfig, tmpTargetConfig);
      writerOpen := false;
      pending := [];
    }

    /**
     * getCleanWriter: drops any open sink, then opens a new, empty one on the
     * staging file; the sink is open exactly when this returns normally.
     */
    method GetCleanWriter(fs: FileSystem) returns (c: Completion)
      modifies this, fs
      ensures var run := AcquireRun(layout, old(fs.entries));
              c == ToCompletion(run.result) && fs.entries == FinalState(old(fs.entries), run.steps)
              && fs.ops == old(fs.ops) + Ops(run.steps)
      ensures writerOpen <==> c.Normal?
      ensures pending == []
    {
      writerOpen, pending := false, [];
      var o, steps := AcquireAt(fs, layout);
      writerOpen := o.Done?;
      c := ToCompletion(o);
    }

    /** Writer.write: appends to the open sink; a closed sink throws. */
    method Write(data: seq<byte>) returns (c: Completion)
      modifies this
      ensures writerOpen == old(writerOpen)
      ensures old(writerOpen) ==> c == Normal && pending == old(pending) + data
      ensures !old(writerOpen) ==> c == Thrown(IOError("Stream closed")) && pending == old(pending)
    {
      if !writerOpen {
        c := Thrown(IOError("Stream closed"));
        return;
      }
      pending := pending + data;
      c := Normal;
    }

    /**
     * persist: as CommitStagedRun on the sink's state; the sink is closed
     * afterwards in every case.
     */
    method Persist(fs: FileSystem) returns (c: Completion)
      modifies this, fs
      ensures var run := CommitStagedRun(layout, old(fs.entries), old(writerOpen), old(pending));
              c == ToCompletion(run.result) && fs.entries == FinalState(old(fs.entries), run.steps)
              && fs.ops == old(fs.ops) + Ops(run.steps)
      ensures !writerOpen && pending == []
    {
      if !writerOpen {
        c := Thrown(FailureException(WriterNotInitialized));
        pending := [];
        return;
      }
      var data := pending;
      writerOpen, pending := false, [];
      ghost var start, ops0 := fs.entries, fs.ops;
      var ok := fs.Write(layout.tmpTarget, data);
      ghost var w := [Step(WriteFile(layout.tmpTarget, data), ok, fs.entries)];
      OpsSingle(w[0]);
      if !ok {
        c := ToCompletion(Failed(StagingWriteFailed(layout.tmpTarget)));
        return;
      }
      if |data| == 0 {
        c := ToCompletion(Failed(EmptyData));
        return;
      }
      var o, rest := CommitAt(fs, layout, w);
      c := ToCompletion(o);
      FinalStateAppend(start, w, rest);
      OpsAppend(w, rest);
      AppendAssociates(ops0, Ops(w), Ops(rest));
    }
  }
}
