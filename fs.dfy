/** lib/fs.js: copying a list of files between directories with a size check,
    backing files up into a fresh temporary directory, and an idempotent delete. */
module Fs {
  import opened Results
  import opened Env

  const BACKUP_PREFIX: string := "git-crypt-backup-"
  /** What `path.join` throws when handed `undefined`. */
  const PATH_MESSAGE: string := "The \"path\" argument must be of type string"

  // ---------------------------------------------------------------------------
  // copyFiles

  /** One pass of copyFiles's loop: create the parent directory, copy, then
      compare the sizes of source and copy. */
  function CopyOne(w: World, s: State, source: Path, target: Path, filePath: Option<Path>): Outcome<()>
  {
    match filePath
    case None => Outcome(s, Err(TypeError(PATH_MESSAGE)))
    case Some(p) =>
      var src := JoinPath(source, p);
      var dst := JoinPath(target, p);
      var c := CopyFileStep(w, Logged(s, MakeParents(dst)), src, dst);
      if c.result.Err? then c
      else
        var want := StatStep(c.state, src);
        if want.result.Err? then Outcome(want.state, Err(want.result.error))
        else
          var got := StatStep(want.state, dst);
          if got.result.Err? then Outcome(got.state, Err(got.result.error))
          else if want.result.value != got.result.value then
            Outcome(got.state, Err(SizeMismatch(p, got.result.value, want.result.value)))
          else Outcome(got.state, Ok(()))
  }

  /** copyFiles: the passes in order, stopping at the first that throws. */
  function CopyRun(w: World, s: State, source: Path, target: Path, paths: seq<Option<Path>>): Outcome<()>
    decreases |paths|
  {
    if paths == [] then Outcome(s, Ok(()))
    else
      var o := CopyRun(w, s, source, target, paths[..|paths| - 1]);
      if o.result.Err? then o else CopyOne(w, o.state, source, target, paths[|paths| - 1])
  }

  /** The calls one pass makes when nothing fails. */
  function CopyOnePlan(source: Path, target: Path, filePath: Option<Path>): seq<Op>
  {
    match filePath
    case None => []
    case Some(p) =>
      var src := JoinPath(source, p);
      var dst := JoinPath(target, p);
      [MakeParents(dst), Copy(src, dst), StatOf(src), StatOf(dst)]
  }

  function CopyPlan(source: Path, target: Path, paths: seq<Option<Path>>): seq<Op>
    decreases |paths|
  {
    if paths == [] then []
    else CopyPlan(source, target, paths[..|paths| - 1]) + CopyOnePlan(source, target, paths[|paths| - 1])
  }

  /** Once a pass has thrown, the later paths are not touched. */
  lemma {:induction false} CopyRunStops(w: World, s: State, source: Path, target: Path,
                                        paths: seq<Option<Path>>, n: nat)
    requires n <= |paths| && CopyRun(w, s, source, target, paths[..n]).result.Err?
    ensures CopyRun(w, s, source, target, paths) == CopyRun(w, s, source, target, paths[..n])
    decreases |paths|
  {
    if n < |paths| {
      var init := paths[..|paths| - 1];
      assert init[..n] == paths[..n];
      CopyRunStops(w, s, source, target, init, n);
    } else {
      assert paths[..n] == paths;
    }
  }

  /** A pass writes one file, inside `target`, and changes nothing else. */
  lemma CopyOneFrame(w: World, s: State, source: Path, target: Path, filePath: Option<Path>)
    ensures var o := CopyOne(w, s, source, target, filePath);
            o.state.config == s.config
            && (forall q :: !Under(q, target) ==> (q in o.state.files <==> q in s.files))
            && (forall q :: q in s.files && !Under(q, target) ==> o.state.files[q] == s.files[q])
  {
  }

  /** copyFiles writes only inside `target`: the source files and every other
      path keep their contents, and the configuration is untouched. */
  lemma {:induction false} CopyRunFrame(w: World, s: State, source: Path, target: Path, paths: seq<Option<Path>>)
    ensures var o := CopyRun(w, s, source, target, paths);
            o.state.config == s.config
            && (forall q :: !Under(q, target) ==> (q in o.state.files <==> q in s.files))
            && (forall q :: q in s.files && !Under(q, target) ==> o.state.files[q] == s.files[q])
    decreases |paths|
  {
    if paths != [] {
      var init := paths[..|paths| - 1];
      CopyRunFrame(w, s, source, target, init);
      CopyOneFrame(w, CopyRun(w, s, source, target, init).state, source, target, paths[|paths| - 1]);
    }
  }

  /** A pass that succeeds leaves an exact copy of the source file. */
  lemma CopyOneCopies(w: World, s: State, source: Path, target: Path, filePath: Option<Path>)
    requires source != target
    requires CopyOne(w, s, source, target, filePath).result.Ok?
    ensures filePath.Some?
    ensures var o := CopyOne(w, s, source, target, filePath);
            var src := JoinPath(source, filePath.value);
            var dst := JoinPath(target, filePath.value);
            src in s.files && dst in o.state.files && o.state.files[dst] == s.files[src]
            && (forall q :: q != dst ==> (q in o.state.files <==> q in s.files))
            && (forall q :: q != dst && q in s.files ==> o.state.files[q] == s.files[q])
  {
    var p := filePath.value;
    var src := JoinPath(source, p);
    var dst := JoinPath(target, p);
    JoinPathInjective(source, target, p, p);
    assert src != dst;
  }

  /** After a successful copyFiles every listed path is present under `target`
      with the content it has under `source` (which the copies leave alone). */
  lemma {:induction false} CopyRunCopies(w: World, s: State, source: Path, target: Path, paths: seq<Option<Path>>)
    requires Apart(source, target)
    requires CopyRun(w, s, source, target, paths).result.Ok?
    ensures AllDefined(paths)
    ensures var o := CopyRun(w, s, source, target, paths);
            forall k :: 0 <= k < |paths| ==>
              JoinPath(source, paths[k].value) in s.files
              && JoinPath(target, paths[k].value) in o.state.files
              && o.state.files[JoinPath(target, paths[k].value)] == s.files[JoinPath(source, paths[k].value)]
    decreases |paths|
  {
    if paths != [] {
      var n := |paths| - 1;
      var init := paths[..n];
      var mid := CopyRun(w, s, source, target, init);
      CopyRunCopies(w, s, source, target, init);
      CopyRunFrame(w, s, source, target, init);
      CopyOneCopies(w, mid.state, source, target, paths[n]);
      var o := CopyRun(w, s, source, target, paths);
      assert o == CopyOne(w, mid.state, source, target, paths[n]);
      var last := paths[n].value;
      ApartPaths(source, target, JoinPath(source, last));
      forall k | 0 <= k < |paths|
        ensures paths[k].Some?
        ensures JoinPath(source, paths[k].value) in s.files
        ensures JoinPath(target, paths[k].value) in o.state.files
        ensures o.state.files[JoinPath(target, paths[k].value)] == s.files[JoinPath(source, paths[k].value)]
      {
        if k < n {
          assert paths[k] == init[k];
          var p := paths[k].value;
          ApartPaths(source, target, JoinPath(source, p));
          if JoinPath(target, p) == JoinPath(target, last) {
            assert p == JoinPath(target, p)[|target| + 1..] == last;
          }
        }
      }
    }
  }

  /** When copyFiles throws, it is at some pass `i`: the passes before it all
      succeeded and the outcome is that of pass `i` alone. */
  lemma {:induction false} CopyRunFailure(w: World, s: State, source: Path, target: Path, paths: seq<Option<Path>>)
    requires CopyRun(w, s, source, target, paths).result.Err?
    ensures exists i :: 0 <= i < |paths|
              && CopyRun(w, s, source, target, paths[..i]).result.Ok?
              && CopyRun(w, s, source, target, paths)
                 == CopyOne(w, CopyRun(w, s, source, target, paths[..i]).state, source, target, paths[i])
    decreases |paths|
  {
    var n := |paths| - 1;
    var init := paths[..n];
    if CopyRun(w, s, source, target, init).result.Err? {
      CopyRunFailure(w, s, source, target, init);
      var i :| 0 <= i < |init|
              && CopyRun(w, s, source, target, init[..i]).result.Ok?
              && CopyRun(w, s, source, target, init)
                 == CopyOne(w, CopyRun(w, s, source, target, init[..i]).state, source, target, init[i]);
      assert init[..i] == paths[..i];
      assert init[i] == paths[i];
    } else {
      assert paths[..n] == init;
    }
  }

  /** A size mismatch is reported only for a truncated copy, and names a path
      that was listed. */
  lemma CopyOneMismatch(w: World, s: State, source: Path, target: Path, filePath: Option<Path>)
    ensures var r := CopyOne(w, s, source, target, filePath).result;
            r.Err? && r.error.SizeMismatch? ==>
              filePath == Some(r.error.path) && r.error.got < r.error.want
              && Copy(JoinPath(source, r.error.path), JoinPath(target, r.error.path)) in w.shortCopies
  {
  }

  /** The calls of one pass follow its plan, cut short where a call throws. */
  lemma CopyOneLog(w: World, s: State, source: Path, target: Path, filePath: Option<Path>)
    ensures var o := CopyOne(w, s, source, target, filePath);
            Traced(s.log, o.state.log, CopyOnePlan(source, target, filePath))
            && (o.result.Ok? ==> o.state.log == s.log + CopyOnePlan(source, target, filePath))
  {
    var o := CopyOne(w, s, source, target, filePath);
    var plan := CopyOnePlan(source, target, filePath);
    if filePath.Some? {
      var k := |o.state.log| - |s.log|;
      assert 1 <= k <= 4 && o.state.log == s.log + plan[..k];
      assert o.state.log[|s.log|..] == plan[..k];
    } else {
      assert o.state.log[|s.log|..] == [];
    }
  }

  /** The calls copyFiles makes are those of its plan, in order, cut short
      when a pass throws; they are the whole plan when it succeeds. */
  lemma {:induction false} CopyRunLog(w: World, s: State, source: Path, target: Path, paths: seq<Option<Path>>)
    ensures var o := CopyRun(w, s, source, target, paths);
            Traced(s.log, o.state.log, CopyPlan(source, target, paths))
            && (o.result.Ok? ==> o.state.log == s.log + CopyPlan(source, target, paths))
    decreases |paths|
  {
    if paths == [] {
      TracedAll(s.log, []);
    } else {
      var n := |paths| - 1;
      var init := paths[..n];
      CopyRunLog(w, s, source, target, init);
      var mid := CopyRun(w, s, source, target, init);
      var o := CopyRun(w, s, source, target, paths);
      var plan := CopyPlan(source, target, init);
      var one := CopyOnePlan(source, target, paths[n]);
      if mid.result.Ok? {
        CopyOneLog(w, mid.state, source, target, paths[n]);
        TracedThen(s.log, mid.state.log, o.state.log, plan, one);
        if o.result.Ok? {
          LoggedThen(s.log, mid.state.log, o.state.log, plan, one);
        }
      } else {
        TracedMore(s.log, mid.state.log, plan, one);
      }
    }
  }

  /** One pass of the loop. */
  method CopyEntry(h: Host, source: Path, target: Path, filePath: Option<Path>) returns (r: Result<()>)
    modifies h
    ensures var o := CopyOne(h.world, old(h.Snapshot()), source, target, filePath);
            h.Snapshot() == o.state && r == o.result
  {
    if filePath.None? {
      return Err(TypeError(PATH_MESSAGE));
    }
    var p := filePath.value;
    var src := JoinPath(source, p);
    var dst := JoinPath(target, p);
    h.Mkdirp(dst);
    r := h.CopyFile(src, dst);
    if r.Err? {
      return;
    }
    var want := h.Stat(src);
    if want.Err? {
      return Err(want.error);
    }
    var got := h.Stat(dst);
    if got.Err? {
      return Err(got.error);
    }
    if want.value != got.value {
      return Err(SizeMismatch(p, got.value, want.value));
    }
  }

  /** copyFiles({ source, target, filePaths }). */
  method CopyFiles(h: Host, source: Path, target: Path, filePaths: seq<Option<Path>>) returns (r: Result<()>)
    modifies h
    ensures var o := CopyRun(h.world, old(h.Snapshot()), source, target, filePaths);
            h.Snapshot() == o.state && r == o.result
  {
    ghost var s0 := h.Snapshot();
    var i := 0;
    while i < |filePaths|
      invariant 0 <= i <= |filePaths|
      invariant CopyRun(h.world, s0, source, target, filePaths[..i]) == Outcome(h.Snapshot(), Ok(()))
    {
      assert filePaths[..i + 1][..i] == filePaths[..i];
      r := CopyEntry(h, source, target, filePaths[i]);
      if r.Err? {
        CopyRunStops(h.world, s0, source, target, filePaths, i + 1);
        return;
      }
      i := i + 1;
    }
    assert filePaths[..i] == filePaths;
    r := Ok(());
  }

  // ---------------------------------------------------------------------------
  // backupFiles

  function BackupPrefix(w: World): Path
  {
    JoinPath(w.tmp, BACKUP_PREFIX)
  }

  /** backupFiles: a fresh directory under the temporary directory, then copyFiles
      into it. The directory is returned only when every copy succeeded. */
  function BackupRun(w: World, s: State, source: Path, paths: seq<Option<Path>>): Outcome<Path>
  {
    var d := MkdtempStep(w, s, BackupPrefix(w));
    if d.result.Err? then Outcome(d.state, Err(d.result.error))
    else
      var c := CopyRun(w, d.state, source, d.result.value, paths);
      if c.result.Err? then Outcome(c.state, Err(c.result.error)) else Outcome(c.state, Ok(d.result.value))
  }

  /** The directory the backup would be made in. */
  function BackupDirFor(w: World, s: State): Path
  {
    TempName(s, BackupPrefix(w))
  }

  lemma PrefixUnder(p: Path, dir: Path, x: string)
    requires Under(p, dir)
    ensures Under(p + x, dir)
  {
    assert (p + x)[..|dir| + 1] == p[..|dir| + 1];
  }

  /** A directory inside the temporary directory whose name there does not
      start like the backup's, such as a repository at `/tmp/repo`, is apart
      from the backup directory. */
  lemma ApartFromBackup(w: World, s: State, name: Path)
    requires name != "" && name[0] != BACKUP_PREFIX[0]
    ensures Apart(JoinPath(w.tmp, name), BackupDirFor(w, s))
  {
    var a := JoinPath(w.tmp, name) + "/";
    var b := BackupDirFor(w, s) + "/";
    assert a[|w.tmp| + 1] == name[0];
    assert b[|w.tmp| + 1] == BACKUP_PREFIX[0];
  }

  /** backupFiles makes its directory inside the temporary directory, with a name
      starting `git-crypt-backup-`, where no file was before; on success every
      file is copied there exactly and the source is untouched. */
  lemma BackupRunCopies(w: World, s: State, source: Path, paths: seq<Option<Path>>)
    requires Apart(source, BackupDirFor(w, s))
    requires BackupRun(w, s, source, paths).result.Ok?
    ensures var o := BackupRun(w, s, source, paths);
            var dir := o.result.value;
            dir == BackupDirFor(w, s) && Under(dir, w.tmp) && dir[|w.tmp| + 1..][..|BACKUP_PREFIX|] == BACKUP_PREFIX
            && Fresh(s.files, dir) && AllDefined(paths)
            && (forall k :: 0 <= k < |paths| ==>
                  JoinPath(source, paths[k].value) in s.files
                  && JoinPath(dir, paths[k].value) in o.state.files
                  && o.state.files[JoinPath(dir, paths[k].value)] == s.files[JoinPath(source, paths[k].value)])
            && (forall q :: q in s.files && !Under(q, dir) ==> q in o.state.files && o.state.files[q] == s.files[q])
  {
    var d := MkdtempStep(w, s, BackupPrefix(w));
    var dir := d.result.value;
    PrefixUnder(BackupPrefix(w), w.tmp, Digits(|s.log|));
    CopyRunCopies(w, d.state, source, dir, paths);
    CopyRunFrame(w, d.state, source, dir, paths);
    assert dir[|w.tmp| + 1..] == BACKUP_PREFIX + Digits(|s.log|);
  }

  /** backupFiles's calls: mkdtemp, then those of copyFiles into the new
      directory. It writes only inside that directory and keeps the
      configuration. */
  lemma BackupFrame(w: World, s: State, source: Path, paths: seq<Option<Path>>)
    ensures var o := BackupRun(w, s, source, paths);
            var dir := BackupDirFor(w, s);
            Follows(s.log, o, [MakeTemp(BackupPrefix(w))] + CopyPlan(source, dir, paths))
            && o.state.config == s.config
            && (o.result.Ok? ==> o.result.value == dir && Fresh(s.files, dir))
            && (forall q :: !Under(q, dir) ==> (q in o.state.files <==> q in s.files))
            && (forall q :: q in s.files && !Under(q, dir) ==> o.state.files[q] == s.files[q])
  {
    var d := MkdtempStep(w, s, BackupPrefix(w));
    var dir := BackupDirFor(w, s);
    var p := [MakeTemp(BackupPrefix(w))];
    TracedAll(s.log, p);
    if d.result.Ok? {
      CopyRunLog(w, d.state, source, dir, paths);
      CopyRunFrame(w, d.state, source, dir, paths);
      var c := CopyRun(w, d.state, source, dir, paths);
      TracedThen(s.log, d.state.log, c.state.log, p, CopyPlan(source, dir, paths));
    } else {
      TracedMore(s.log, d.state.log, p, CopyPlan(source, dir, paths));
    }
  }

  /** backupFiles({ source, filePaths }). */
  method BackupFiles(h: Host, source: Path, filePaths: seq<Option<Path>>) returns (r: Result<Path>)
    modifies h
    ensures var o := BackupRun(h.world, old(h.Snapshot()), source, filePaths);
            h.Snapshot() == o.state && r == o.result
  {
    var dir := h.Mkdtemp(JoinPath(h.world.tmp, BACKUP_PREFIX));
    if dir.Err? {
      return Err(dir.error);
    }
    var copied := CopyFiles(h, source, dir.value, filePaths);
    if copied.Err? {
      return Err(copied.error);
    }
    r := Ok(dir.value);
  }

  // ---------------------------------------------------------------------------
  // unlinkIfExists

  /** unlinkIfExists: unlink, treating ENOENT as success. */
  function UnlinkIfExistsRun(w: World, s: State, p: Path): Outcome<()>
  {
    var o := UnlinkStep(w, s, p);
    if o.result == Err(FsError("ENOENT")) then Outcome(o.state, Ok(())) else o
  }

  /** The file is gone afterwards unless the unlink itself was refused, which is
      the one error passed on; a missing file is a success. */
  lemma UnlinkIfExistsGone(w: World, s: State, p: Path)
    ensures var o := UnlinkIfExistsRun(w, s, p);
            (o.result.Err? <==> Remove(p) in w.fails)
            && (o.result.Ok? ==> p !in o.state.files)
            && (p !in s.files ==> o.state.files == s.files)
            && (forall q :: q != p ==> (q in o.state.files <==> q in s.files))
            && (forall q :: q != p && q in s.files ==> o.state.files[q] == s.files[q])
            && o.state.log == s.log + [Remove(p)] && o.state.config == s.config
  {
  }

  /** Deleting twice leaves the same files as deleting once. */
  lemma UnlinkIfExistsIdempotent(w: World, s: State, p: Path)
    requires UnlinkIfExistsRun(w, s, p).result.Ok?
    ensures var once := UnlinkIfExistsRun(w, s, p);
            var twice := UnlinkIfExistsRun(w, once.state, p);
            twice.result.Ok? && twice.state.files == once.state.files
  {
  }

  /** unlinkIfExists(filePath). */
  method UnlinkIfExists(h: Host, p: Path) returns (r: Result<()>)
    modifies h
    ensures var o := UnlinkIfExistsRun(h.world, old(h.Snapshot()), p);
            h.Snapshot() == o.state && r == o.result
  {
    r := h.Unlink(p);
    if r == Err(FsError("ENOENT")) {
      r := Ok(());
    }
  }

  // ---------------------------------------------------------------------------
  // which

  /** which(command): the standard output of `which <command>` run in a shell. */
  method Which(h: Host, command: string) returns (r: Result<string>)
    modifies h
    ensures var o := ShellStep(h.world, old(h.Snapshot()), "which " + command);
            h.Snapshot() == o.state && r == o.result
  {
    r := h.RunShell("which " + command);
  }
}
