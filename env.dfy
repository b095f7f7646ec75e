/** The machine the scripts run on, as far as the core observes it: a file
    system of path/content pairs, the repository's local git configuration, and
    the ordered log of every external call made. What the child processes write out
    and which calls fail are fixed in a `World` value. */
module Env {
  import opened Results
  import opened Text

  type Path = string

  /** `path.join(dir, rel)`, without the normalisation of `..` or double slashes. */
  function JoinPath(dir: Path, rel: Path): (r: Path)
    ensures Under(r, dir) && r[|dir| + 1..] == rel
  {
    dir + "/" + rel
  }

  /** `p` lies strictly inside directory `dir`. */
  predicate Under(p: Path, dir: Path)
  {
    |dir| < |p| && p[..|dir| + 1] == dir + "/"
  }

  /** What lies inside a subdirectory lies inside the directory. */
  lemma UnderJoin(q: Path, dir: Path, rel: Path)
    requires Under(q, JoinPath(dir, rel))
    ensures Under(q, dir)
  {
    assert q[..|dir| + 1] == (dir + "/" + rel + "/")[..|dir| + 1];
  }

  /** Neither directory lies inside the other (nor are they the same). */
  predicate Apart(a: Path, b: Path)
  {
    !(a + "/" <= b + "/") && !(b + "/" <= a + "/")
  }

  /** Two directories holding the same path: one lies inside the other. */
  lemma SharedPrefix(p: Path, a: Path, b: Path)
    requires Under(p, a)
    ensures Under(p, b) ==> a + "/" <= b + "/" || b + "/" <= a + "/"
    ensures p == b ==> a + "/" <= b + "/"
  {
    if Under(p, b) {
      if |a| <= |b| {
        assert a + "/" == p[..|a| + 1] == (b + "/")[..|a| + 1];
      } else {
        assert b + "/" == p[..|b| + 1] == (a + "/")[..|b| + 1];
      }
    }
    if p == b {
      assert a + "/" == (b + "/")[..|a| + 1];
    }
  }

  /** Two prefixes of one sequence are prefixes of each other, one way round. */
  lemma PrefixesComparable(x: string, y: string, z: string)
    ensures x <= z && y <= z ==> x <= y || y <= x
  {
    if x <= z && y <= z {
      if |x| <= |y| {
        assert x == z[..|x|] == y[..|x|];
      } else {
        assert y == z[..|y|] == x[..|y|];
      }
    }
  }

  /** Joining determines the directory when the directories have equal length. */
  lemma JoinPathInjective(a: Path, b: Path, p: Path, q: Path)
    ensures JoinPath(a, p) == JoinPath(b, q) && |a| == |b| ==> a == b && p == q
  {
    if JoinPath(a, p) == JoinPath(b, q) && |a| == |b| {
      assert a == JoinPath(a, p)[..|a|];
      assert b == JoinPath(b, q)[..|b|];
    }
  }

  /** Nothing inside one of two apart directories is inside the other. */
  lemma ApartPaths(a: Path, b: Path, p: Path)
    requires Apart(a, b) && Under(p, a)
    ensures !Under(p, b) && p != b
  {
    SharedPrefix(p, a, b);
  }

  /** The decimal digits of `n`, standing in for mkdtemp's random suffix. */
  function Digits(n: nat): (r: string)
    ensures |r| >= 1 && forall k :: 0 <= k < |r| ==> '0' <= r[k] <= '9'
  {
    var d := ['0' + (n % 10) as char];
    if n < 10 then d else Digits(n / 10) + d
  }

  /** One entry of the local git configuration. */
  datatype ConfigEntry = ConfigEntry(key: string, value: Value)

  function ConfigKeys(config: seq<ConfigEntry>): (r: seq<string>)
    ensures |r| == |config| && forall k :: 0 <= k < |config| ==> r[k] == config[k].key
  {
    seq(|config|, k requires 0 <= k < |config| => config[k].key)
  }

  /** A name git accepts as a configuration key: non-empty, without white space. */
  predicate ValidKey(key: string)
  {
    key != "" && NoSpace(key)
  }

  /** Every key is valid. A key may hold several values (as `git config --add`
      leaves it); each value is one entry. */
  predicate ConfigValid(config: seq<ConfigEntry>)
  {
    forall k :: 0 <= k < |config| ==> ValidKey(config[k].key)
  }

  /** An external call, as it appears in the log. */
  datatype Op =
    | Exec(file: string, args: seq<Value>, cwd: Path) // execa(file, args, { cwd })
    | Shell(command: string)                          // execa.shell(command)
    | MakeTemp(prefix: Path)                          // fs.mkdtemp(prefix)
    | MakeParents(path: Path)                         // mkdirp(dirname(path))
    | Copy(from: Path, to: Path)                      // fs.copyFile(from, to)
    | StatOf(path: Path)                              // fs.stat(path)
    | Remove(path: Path)                              // fs.unlink(path)
    | RemoveTree(tree: Option<Path>)                  // rimraf(path)
    | ListDir(path: Path)                             // fs.readdir(path)
    | Write(path: Path)                               // fs.writeFile(path, ...)

  /** What the environment answers. `fails` holds the calls that reject (a
      non-zero exit or an fs error); a copy in `shortCopies` writes a truncated
      file. The remaining fields are the collaborators' outputs. */
  datatype World = World(
    processCwd: Path,          // process.cwd()
    tmp: Path,                 // os.tmpdir()
    fails: set<Op>,
    shortCopies: set<Op>,
    cryptStatus: string,       // stdout of `git crypt status`
    treeListing: string,       // stdout of `git ls-tree -r master --name-only`
    grepCode: int,             // exit code of the `grep` for the git-crypt header
    diffIndexCode: int,        // exit code of `git diff-index --quiet HEAD --`
    keyFiles: seq<string>,     // readdir of .git-crypt/keys/default/0
    gitCryptCommand: string)   // stdout of `which git-crypt`

  datatype State = State(files: map<Path, string>, config: seq<ConfigEntry>, log: seq<Op>)

  /** The state after a call and what the call returned or threw. */
  datatype Outcome<+T> = Outcome(state: State, result: Result<T>)

  function Logged(s: State, op: Op): State
  {
    s.(log := s.log + [op])
  }

  /** The calls logged between `before` and `after` follow `plan` in order, cut
      short wherever a step threw. */
  predicate Traced(before: seq<Op>, after: seq<Op>, plan: seq<Op>)
  {
    before <= after && after[|before|..] <= plan
  }

  /** A step that ran its whole plan, followed by one that traced its own. */
  lemma TracedThen(a: seq<Op>, b: seq<Op>, c: seq<Op>, p: seq<Op>, q: seq<Op>)
    requires b == a + p && Traced(b, c, q)
    ensures Traced(a, c, p + q)
  {
    assert c == b + c[|b|..];
    assert c[|a|..] == p + c[|b|..];
  }

  /** A step that ran its whole plan traced it. */
  lemma TracedAll(a: seq<Op>, p: seq<Op>)
    ensures Traced(a, a + p, p)
  {
    assert (a + p)[|a|..] == p;
  }

  lemma TracedMore(a: seq<Op>, b: seq<Op>, p: seq<Op>, q: seq<Op>)
    requires Traced(a, b, p)
    ensures Traced(a, b, p + q)
  {
    assert (p + q)[..|p|] == p;
  }

  lemma LoggedThen(a: seq<Op>, b: seq<Op>, c: seq<Op>, p: seq<Op>, q: seq<Op>)
    requires b == a + p && c == b + q
    ensures c == a + (p + q)
  {
  }

  /** A step run from a log `before` traced `plan`, and ran all of it when it
      succeeded. */
  predicate Follows<T>(before: seq<Op>, o: Outcome<T>, plan: seq<Op>)
  {
    Traced(before, o.state.log, plan) && (o.result.Ok? ==> o.state.log == before + plan)
  }

  /** Two steps run one after the other, the second only when the first
      succeeded, follow the two plans in order. */
  lemma FollowsThen(before: seq<Op>, a: Outcome<()>, b: Outcome<()>, p: seq<Op>, q: seq<Op>)
    requires Follows(before, a, p)
    requires a.result.Ok? ==> Follows(a.state.log, b, q)
    ensures Follows(before, if a.result.Err? then a else b, p + q)
  {
    if a.result.Err? {
      TracedMore(before, a.state.log, p, q);
    } else {
      TracedThen(before, a.state.log, b.state.log, p, q);
    }
  }

  /** A step that follows its plan, after steps that ran `p` in full. */
  lemma FollowsAfter<T>(before: seq<Op>, mid: seq<Op>, o: Outcome<T>, p: seq<Op>, q: seq<Op>)
    requires mid == before + p && Follows(mid, o, q)
    ensures Follows(before, o, p + q)
  {
    TracedThen(before, mid, o.state.log, p, q);
  }

  // ---------------------------------------------------------------------------
  // The effect of each primitive call

  /** An execa call: logged, and failing when the world says so. Whatever the
      process writes to disk (git's object store, git-crypt's key files) is not
      modelled; only `git config` changes the state, through `Git.SetRun` and
      `Git.UnsetRun`. */
  function ExecStep(w: World, s: State, file: string, args: seq<Value>, cwd: Path): (o: Outcome<()>)
  {
    var op := Exec(file, args, cwd);
    Outcome(Logged(s, op), if op in w.fails then Err(ToolFailed(file)) else Ok(()))
  }

  function ShellStep(w: World, s: State, command: string): (o: Outcome<string>)
  {
    var op := Shell(command);
    Outcome(Logged(s, op), if op in w.fails then Err(ToolFailed(command)) else Ok(w.gitCryptCommand))
  }

  /** No file is the directory `dir` or lies inside it. */
  predicate Fresh(files: map<Path, string>, dir: Path)
  {
    forall q :: q in files ==> q != dir && !Under(q, dir)
  }

  function TempName(s: State, prefix: Path): Path
  {
    prefix + Digits(|s.log|)
  }

  function MkdtempStep(w: World, s: State, prefix: Path): (o: Outcome<Path>)
  {
    var op := MakeTemp(prefix);
    var dir := TempName(s, prefix);
    Outcome(Logged(s, op),
      if op in w.fails then Err(FsError("EACCES"))
      else if !Fresh(s.files, dir) then Err(FsError("EEXIST"))
      else Ok(dir))
  }

  function Truncated(content: string): string
  {
    if content == "" then content else content[..|content| - 1]
  }

  function CopyFileStep(w: World, s: State, from: Path, to: Path): (o: Outcome<()>)
  {
    var op := Copy(from, to);
    var s' := Logged(s, op);
    if op in w.fails then Outcome(s', Err(FsError("EIO")))
    else if from !in s.files then Outcome(s', Err(FsError("ENOENT")))
    else
      var content := if op in w.shortCopies then Truncated(s.files[from]) else s.files[from];
      Outcome(s'.(files := s.files[to := content]), Ok(()))
  }

  function StatStep(s: State, p: Path): (o: Outcome<nat>)
  {
    Outcome(Logged(s, StatOf(p)), if p in s.files then Ok(|s.files[p]|) else Err(FsError("ENOENT")))
  }

  function UnlinkStep(w: World, s: State, p: Path): (o: Outcome<()>)
  {
    var op := Remove(p);
    var s' := Logged(s, op);
    if op in w.fails then Outcome(s', Err(FsError("EACCES")))
    else if p !in s.files then Outcome(s', Err(FsError("ENOENT")))
    else Outcome(s'.(files := s.files - {p}), Ok(()))
  }

  /** The files left after removing `dir` and everything inside it. */
  function RemovedTree(files: map<Path, string>, dir: Path): (r: map<Path, string>)
    ensures forall q :: q in r <==> q in files && q != dir && !Under(q, dir)
    ensures forall q :: q in r ==> r[q] == files[q]
  {
    map q | q in files && q != dir && !Under(q, dir) :: files[q]
  }

  function RimrafStep(s: State, p: Option<Path>): (o: Outcome<()>)
  {
    var s' := Logged(s, RemoveTree(p));
    Outcome(if p.Some? then s'.(files := RemovedTree(s.files, p.value)) else s', Ok(()))
  }

  function ReaddirStep(w: World, s: State, p: Path): (o: Outcome<seq<string>>)
  {
    var op := ListDir(p);
    Outcome(Logged(s, op), if op in w.fails then Err(FsError("ENOENT")) else Ok(w.keyFiles))
  }

  function WriteFileStep(w: World, s: State, p: Path, content: string): (o: Outcome<()>)
  {
    var op := Write(p);
    var s' := Logged(s, op);
    if op in w.fails then Outcome(s', Err(FsError("EACCES")))
    else Outcome(s'.(files := s.files[p := content]), Ok(()))
  }

  // ---------------------------------------------------------------------------
  // The host whose state the methods change in place

  class Host {
    const world: World
    var files: map<Path, string>
    var config: seq<ConfigEntry>
    var log: seq<Op>

    function Snapshot(): State
      reads this
    {
      State(files, config, log)
    }

    constructor (world: World, files: map<Path, string>, config: seq<ConfigEntry>)
      ensures this.world == world && Snapshot() == State(files, config, [])
    {
      this.world := world;
      this.files := files;
      this.config := config;
      this.log := [];
    }

    method Set(s: State)
      modifies this
      ensures Snapshot() == s
    {
      files, config, log := s.files, s.config, s.log;
    }

    /** Run a child process (execa with `reject: true`). */
    method Run(file: string, args: seq<Value>, cwd: Path) returns (r: Result<()>)
      modifies this
      ensures var o := ExecStep(world, old(Snapshot()), file, args, cwd); Snapshot() == o.state && r == o.result
    {
      var op := Exec(file, args, cwd);
      log := log + [op];
      r := if op in world.fails then Err(ToolFailed(file)) else Ok(());
    }

    method RunShell(command: string) returns (r: Result<string>)
      modifies this
      ensures var o := ShellStep(world, old(Snapshot()), command); Snapshot() == o.state && r == o.result
    {
      var o := ShellStep(world, Snapshot(), command);
      Set(o.state);
      r := o.result;
    }

    method Mkdtemp(prefix: Path) returns (r: Result<Path>)
      modifies this
      ensures var o := MkdtempStep(world, old(Snapshot()), prefix); Snapshot() == o.state && r == o.result
    {
      var o := MkdtempStep(world, Snapshot(), prefix);
      Set(o.state);
      r := o.result;
    }

    /** mkdirp(dirname(path)): directories are implicit in the file map. */
    method Mkdirp(path: Path)
      modifies this
      ensures Snapshot() == Logged(old(Snapshot()), MakeParents(path))
    {
      log := log + [MakeParents(path)];
    }

    method CopyFile(from: Path, to: Path) returns (r: Result<()>)
      modifies this
      ensures var o := CopyFileStep(world, old(Snapshot()), from, to); Snapshot() == o.state && r == o.result
    {
      var o := CopyFileStep(world, Snapshot(), from, to);
      Set(o.state);
      r := o.result;
    }

    /** The size of the file at `p`. */
    method Stat(p: Path) returns (r: Result<nat>)
      modifies this
      ensures var o := StatStep(old(Snapshot()), p); Snapshot() == o.state && r == o.result
    {
      log := log + [StatOf(p)];
      r := if p in files then Ok(|files[p]|) else Err(FsError("ENOENT"));
    }

    method Unlink(p: Path) returns (r: Result<()>)
      modifies this
      ensures var o := UnlinkStep(world, old(Snapshot()), p); Snapshot() == o.state && r == o.result
    {
      var o := UnlinkStep(world, Snapshot(), p);
      Set(o.state);
      r := o.result;
    }

    method Rimraf(p: Option<Path>)
      modifies this
      ensures Snapshot() == RimrafStep(old(Snapshot()), p).state
    {
      var o := RimrafStep(Snapshot(), p);
      Set(o.state);
    }

    method Readdir(p: Path) returns (r: Result<seq<string>>)
      modifies this
      ensures var o := ReaddirStep(world, old(Snapshot()), p); Snapshot() == o.state && r == o.result
    {
      var o := ReaddirStep(world, Snapshot(), p);
      Set(o.state);
      r := o.result;
    }

    method WriteFile(p: Path, content: string) returns (r: Result<()>)
      modifies this
      ensures var o := WriteFileStep(world, old(Snapshot()), p, content); Snapshot() == o.state && r == o.result
    {
      var o := WriteFileStep(world, Snapshot(), p, content);
      Set(o.state);
      r := o.result;
    }
  }
}
