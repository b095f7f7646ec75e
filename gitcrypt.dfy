/** lib/git-crypt.js: git-crypt's view of the repository (which files it
    encrypts, who may decrypt, whether the work tree is locked), its filter
    hooks in the local configuration, adding a user, and the key rotation. */
module GitCrypt {
  import opened Results
  import opened Text
  import opened Env
  import opened Gpg
  import opened Fs
  import opened Git

  /** `joinPath(cwd, '.git-crypt', 'keys', 'default', '0')`, relative part. */
  const USER_KEYS_DIR: Path := ".git-crypt/keys/default/0"
  const ENCRYPTED: string := "encrypted"
  const KEY_FILE_SUFFIX: string := ".gpg"
  /** The header git-crypt writes at the start of every encrypted file. */
  const CRYPT_HEADER: string := "\\x00GITCRYPT"

  // ---------------------------------------------------------------------------
  // getStatus

  /** getStatus's result; a line without ':' contributes an `undefined` path. */
  datatype Status = Status(encrypted: seq<Option<Path>>, unencrypted: seq<Option<Path>>)

  function StatusArgs(): seq<Value>
  {
    Strs(["crypt", "status"])
  }

  /** A status line as the reduce destructures it: the trimmed first and
      second ':'-separated pieces, the second `undefined` (None) when the line
      has no ':'. */
  datatype StatusLine = StatusLine(status: string, path: Option<Path>)

  function ParseLine(line: string): StatusLine
  {
    var pieces := Split(line, ":");
    StatusLine(Trim(pieces[0]), if |pieces| > 1 then Some(Trim(pieces[1])) else None)
  }

  /** The status is the trimmed text before the first ':' (the whole line when
      there is none), and the path is missing exactly when there is no ':'. */
  lemma ParseLineMeaning(line: string)
    ensures var i := IndexOf(line, ":");
            var r := ParseLine(line);
            r.status == Trim(if i.Some? then line[..i.value] else line)
            && (r.path.None? <==> i.None?)
  {
  }

  function ParseLines(lines: seq<string>): (r: seq<StatusLine>)
    ensures |r| == |lines|
  {
    if lines == [] then [] else ParseLines(lines[..|lines| - 1]) + [ParseLine(lines[|lines| - 1])]
  }

  /** The reduce over the lines: each line pushes its path onto one list. */
  function Classify(lines: seq<StatusLine>): (r: Status)
    decreases |lines|
  {
    if lines == [] then Status([], [])
    else
      var st := Classify(lines[..|lines| - 1]);
      var line := lines[|lines| - 1];
      if line.status == ENCRYPTED then st.(encrypted := st.encrypted + [line.path])
      else st.(unencrypted := st.unencrypted + [line.path])
  }

  /** The paths of the lines whose status is `encrypted` (when `encrypted` is
      true) or anything else (when false), in line order. */
  function PathsOf(lines: seq<StatusLine>, encrypted: bool): seq<Option<Path>>
  {
    if lines == [] then []
    else (if (lines[0].status == ENCRYPTED) == encrypted then [lines[0].path] else [])
         + PathsOf(lines[1..], encrypted)
  }

  lemma {:induction false} PathsOfAppend(a: seq<StatusLine>, b: seq<StatusLine>, encrypted: bool)
    ensures PathsOf(a + b, encrypted) == PathsOf(a, encrypted) + PathsOf(b, encrypted)
  {
    if a != [] {
      assert (a + b)[1..] == a[1..] + b;
      PathsOfAppend(a[1..], b, encrypted);
    } else {
      assert a + b == b;
    }
  }

  /** Every line lands on exactly one side, in line order: the encrypted side
      holds the paths of exactly the lines whose status is `encrypted`. */
  lemma {:induction false} ClassifyPaths(lines: seq<StatusLine>)
    ensures Classify(lines) == Status(PathsOf(lines, true), PathsOf(lines, false))
    ensures |Classify(lines).encrypted| + |Classify(lines).unencrypted| == |lines|
    decreases |lines|
  {
    if lines != [] {
      var init := lines[..|lines| - 1];
      var line := lines[|lines| - 1];
      ClassifyPaths(init);
      assert lines == init + [line];
      PathsOfAppend(init, [line], true);
      PathsOfAppend(init, [line], false);
    }
  }

  /** The status lines: split at newlines, the empty ones dropped (before any
      trimming). */
  function StatusLines(w: World): seq<string>
  {
    NonEmpty(Split(w.cryptStatus, "\n"))
  }

  function GetStatusRun(w: World, s: State, cwd: Path): Outcome<Status>
  {
    var e := ExecStep(w, s, "git", StatusArgs(), cwd);
    if e.result.Err? then Outcome(e.state, Err(e.result.error))
    else Outcome(e.state, Ok(Classify(ParseLines(StatusLines(w)))))
  }

  lemma ParseLinesSnoc(lines: seq<string>, i: nat)
    requires i < |lines|
    ensures ParseLines(lines[..i + 1]) == ParseLines(lines[..i]) + [ParseLine(lines[i])]
  {
    assert lines[..i + 1][..i] == lines[..i];
  }

  lemma ClassifySnoc(lines: seq<StatusLine>, line: StatusLine)
    ensures var st := Classify(lines);
            Classify(lines + [line])
            == if line.status == ENCRYPTED then st.(encrypted := st.encrypted + [line.path])
               else st.(unencrypted := st.unencrypted + [line.path])
  {
    assert (lines + [line])[..|lines|] == lines;
  }

  /** The reduce of getStatus, pushing onto the two accumulator lists. */
  method Tally(lines: seq<string>) returns (r: Status)
    ensures r == Classify(ParseLines(lines))
  {
    var encrypted: seq<Option<Path>> := [];
    var unencrypted: seq<Option<Path>> := [];
    for i := 0 to |lines|
      invariant Status(encrypted, unencrypted) == Classify(ParseLines(lines[..i]))
    {
      var line := ParseLine(lines[i]);
      ParseLinesSnoc(lines, i);
      ClassifySnoc(ParseLines(lines[..i]), line);
      if line.status == ENCRYPTED {
        encrypted := encrypted + [line.path];
      } else {
        unencrypted := unencrypted + [line.path];
      }
    }
    assert lines[..|lines|] == lines;
    r := Status(encrypted, unencrypted);
  }

  method GetStatus(h: Host, cwd: Path) returns (r: Result<Status>)
    modifies h
    ensures var o := GetStatusRun(h.world, old(h.Snapshot()), cwd); h.Snapshot() == o.state && r == o.result
  {
    var ran := h.Run("git", StatusArgs(), cwd);
    if ran.Err? {
      return Err(ran.error);
    }
    var status := Tally(NonEmpty(Split(h.world.cryptStatus, "\n")));
    r := Ok(status);
  }

  // ---------------------------------------------------------------------------
  // getUserIds

  /** A character of the `\w` class. */
  predicate IsWordChar(c: char)
  {
    'a' <= c <= 'z' || 'A' <= c <= 'Z' || '0' <= c <= '9' || c == '_'
  }

  /** `\w+`. */
  predicate IsWord(s: string)
  {
    |s| > 0 && forall k :: 0 <= k < |s| ==> IsWordChar(s[k])
  }

  /** `/^\w+\.gpg$/.test(name)`. */
  predicate IsKeyFile(name: string)
  {
    |name| > |KEY_FILE_SUFFIX| && EndsWith(name, KEY_FILE_SUFFIX) && IsWord(name[..|name| - |KEY_FILE_SUFFIX|])
  }

  /** `basename(name, '.gpg')` of a key file name. */
  function KeyFileId(name: string): (r: string)
    requires IsKeyFile(name)
    ensures IsWord(r) && r + KEY_FILE_SUFFIX == name
  {
    name[..|name| - |KEY_FILE_SUFFIX|]
  }

  /** The filter and map of getUserIds. */
  function UserIdsOf(names: seq<string>): (r: seq<string>)
    ensures |r| <= |names|
    ensures forall k :: 0 <= k < |r| ==> IsWord(r[k]) && r[k] + KEY_FILE_SUFFIX in names
  {
    if names == [] then []
    else (if IsKeyFile(names[0]) then [KeyFileId(names[0])] else []) + UserIdsOf(names[1..])
  }

  /** The ids come in listing order. */
  lemma {:induction false} UserIdsOfAppend(a: seq<string>, b: seq<string>)
    ensures UserIdsOf(a + b) == UserIdsOf(a) + UserIdsOf(b)
  {
    if a != [] {
      assert (a + b)[1..] == a[1..] + b;
      UserIdsOfAppend(a[1..], b);
    } else {
      assert a + b == b;
    }
  }

  /** A user id is listed exactly when its `<id>.gpg` file is in the directory
      and the id is a `\w+` word. */
  lemma {:induction false} UserIdsExact(names: seq<string>, id: string)
    ensures id in UserIdsOf(names) <==> IsWord(id) && id + KEY_FILE_SUFFIX in names
  {
    if names != [] {
      UserIdsExact(names[1..], id);
      var n := names[0];
      if IsWord(id) && n == id + KEY_FILE_SUFFIX {
        assert n[..|n| - |KEY_FILE_SUFFIX|] == id;
        assert IsKeyFile(n) && KeyFileId(n) == id;
      }
      assert names == [n] + names[1..];
    }
  }

  function GetUserIdsRun(w: World, s: State, cwd: Path): Outcome<seq<string>>
  {
    var d := ReaddirStep(w, s, JoinPath(cwd, USER_KEYS_DIR));
    if d.result.Err? then Outcome(d.state, Err(d.result.error))
    else Outcome(d.state, Ok(UserIdsOf(d.result.value)))
  }

  method GetUserIds(h: Host, cwd: Path) returns (r: Result<seq<string>>)
    modifies h
    ensures var o := GetUserIdsRun(h.world, old(h.Snapshot()), cwd); h.Snapshot() == o.state && r == o.result
  {
    var keyFiles := h.Readdir(JoinPath(cwd, USER_KEYS_DIR));
    if keyFiles.Err? {
      return Err(keyFiles.error);
    }
    r := Ok(UserIdsOf(keyFiles.value));
  }

  // ---------------------------------------------------------------------------
  // isLocked

  function LsTreeArgs(): seq<Value>
  {
    Strs(["ls-tree", "-r", "master", "--name-only"])
  }

  function GrepArgs(files: seq<string>): seq<Value>
  {
    Strs(["-qsa", CRYPT_HEADER] + files)
  }

  /** List the files of `master`, then grep them for the header (`reject: false`,
      so the grep never throws). */
  function IsLockedRun(w: World, s: State, cwd: Path): Outcome<bool>
  {
    var e := ExecStep(w, s, "git", LsTreeArgs(), cwd);
    if e.result.Err? then Outcome(e.state, Err(e.result.error))
    else Outcome(Logged(e.state, Exec("grep", GrepArgs(TrimmedLines(w.treeListing)), cwd)), Ok(w.grepCode == 0))
  }

  /** Every name handed to grep is non-empty and has no white space at either end. */
  lemma TrimmedLinesClean(s: string)
    ensures forall k :: 0 <= k < |TrimmedLines(s)| ==>
              var f := TrimmedLines(s)[k]; f != "" && !IsSpace(f[0]) && !IsSpace(f[|f| - 1])
  {
    var lines := TrimAll(Split(s, "\n"));
    forall k | 0 <= k < |TrimmedLines(s)|
      ensures var f := TrimmedLines(s)[k]; f != "" && !IsSpace(f[0]) && !IsSpace(f[|f| - 1])
    {
      var f := TrimmedLines(s)[k];
      var j :| 0 <= j < |lines| && lines[j] == f;
      assert f == Trim(Split(s, "\n")[j]);
    }
  }

  /** isLocked throws only when the listing fails; otherwise it makes the grep
      over the trimmed, non-empty names and answers true exactly when the grep
      exits with 0. Nothing but the log changes. */
  lemma IsLockedDecides(w: World, s: State, cwd: Path)
    ensures var o := IsLockedRun(w, s, cwd);
            var ls := Exec("git", LsTreeArgs(), cwd);
            (o.result.Ok? <==> ls !in w.fails)
            && (o.result.Ok? ==> (o.result.value <==> w.grepCode == 0))
            && (o.result.Ok? ==> o.state.log == s.log + [ls, Exec("grep", GrepArgs(TrimmedLines(w.treeListing)), cwd)])
            && (o.result.Err? ==> o.state.log == s.log + [ls])
            && o.state.files == s.files && o.state.config == s.config
  {
    var ls := Exec("git", LsTreeArgs(), cwd);
    AppendPair(s.log, ls, Exec("grep", GrepArgs(TrimmedLines(w.treeListing)), cwd));
  }

  method IsLocked(h: Host, cwd: Path) returns (r: Result<bool>)
    modifies h
    ensures var o := IsLockedRun(h.world, old(h.Snapshot()), cwd); h.Snapshot() == o.state && r == o.result
  {
    var ran := h.Run("git", LsTreeArgs(), cwd);
    if ran.Err? {
      return Err(ran.error);
    }
    var filesInMaster := TrimmedLines(h.world.treeListing);
    h.log := h.log + [Exec("grep", GrepArgs(filesInMaster), cwd)];
    r := Ok(h.world.grepCode == 0);
  }

  // ---------------------------------------------------------------------------
  // installHooks and removeHooks

  /** The four configuration keys of git-crypt's filter and diff driver. */
  const HOOK_KEYS: seq<string> :=
    ["diff.git-crypt.textconv", "filter.git-crypt.clean", "filter.git-crypt.required", "filter.git-crypt.smudge"]

  /** What installHooks stores, given the path `which` printed. */
  function HookEntries(command: string): (r: seq<ConfigEntry>)
    ensures ConfigKeys(r) == HOOK_KEYS
    ensures r[2].value == Bool(true)
  {
    [ConfigEntry(HOOK_KEYS[0], Str("\"" + command + "\" diff")),
     ConfigEntry(HOOK_KEYS[1], Str("\"" + command + "\" clean")),
     ConfigEntry(HOOK_KEYS[2], Bool(true)),
     ConfigEntry(HOOK_KEYS[3], Str("\"" + command + "\" smudge"))]
  }

  lemma HookKeysDistinct()
    ensures forall i, j :: 0 <= i < j < |HOOK_KEYS| ==> HOOK_KEYS[i] != HOOK_KEYS[j]
  {
    assert |HOOK_KEYS[0]| == 23 && |HOOK_KEYS[1]| == 22 && |HOOK_KEYS[2]| == 25 && |HOOK_KEYS[3]| == 23;
    assert HOOK_KEYS[0][0] != HOOK_KEYS[3][0];
  }

  /** setLocalConfig for each entry in turn, stopping at the first that throws. */
  function SetEach(w: World, s: State, cwd: Path, entries: seq<ConfigEntry>): Outcome<()>
    decreases |entries|
  {
    if entries == [] then Outcome(s, Ok(()))
    else
      var o := SetEach(w, s, cwd, entries[..|entries| - 1]);
      var e := entries[|entries| - 1];
      if o.result.Err? then o else SetRun(w, o.state, cwd, e.key, e.value)
  }

  function SetPlan(cwd: Path, entries: seq<ConfigEntry>): seq<Op>
    decreases |entries|
  {
    if entries == [] then []
    else
      var e := entries[|entries| - 1];
      SetPlan(cwd, entries[..|entries| - 1]) + [Exec("git", SetArgs(e.key, e.value), cwd)]
  }

  /** The sets follow their plan, touch no file and keep the configuration valid. */
  lemma {:induction false} SetEachFrame(w: World, s: State, cwd: Path, entries: seq<ConfigEntry>)
    requires ConfigValid(s.config)
    ensures var o := SetEach(w, s, cwd, entries);
            o.state.files == s.files && ConfigValid(o.state.config)
            && Traced(s.log, o.state.log, SetPlan(cwd, entries))
            && (o.result.Ok? ==> o.state.log == s.log + SetPlan(cwd, entries))
    decreases |entries|
  {
    if entries != [] {
      var init := entries[..|entries| - 1];
      var e := entries[|entries| - 1];
      SetEachFrame(w, s, cwd, init);
      var mid := SetEach(w, s, cwd, init);
      if mid.result.Ok? {
        SetEffect(w, mid.state, cwd, e.key, e.value);
        var op := Exec("git", SetArgs(e.key, e.value), cwd);
        TracedThen(s.log, mid.state.log, mid.state.log + [op], SetPlan(cwd, init), [op]);
      } else {
        TracedMore(s.log, mid.state.log, SetPlan(cwd, init), [Exec("git", SetArgs(e.key, e.value), cwd)]);
      }
    }
  }

  /** After all sets succeed, each entry's key holds its value (the keys being
      distinct) and every other key is as before. */
  lemma {:induction false} SetEachValues(w: World, s: State, cwd: Path, entries: seq<ConfigEntry>)
    requires ConfigValid(s.config)
    requires forall i, j :: 0 <= i < j < |entries| ==> entries[i].key != entries[j].key
    requires SetEach(w, s, cwd, entries).result.Ok?
    ensures var c := SetEach(w, s, cwd, entries).state.config;
            (forall k :: 0 <= k < |entries| ==> Lookup(c, entries[k].key) == Some(entries[k].value))
            && (forall other :: other !in ConfigKeys(entries) ==> Lookup(c, other) == Lookup(s.config, other))
    decreases |entries|
  {
    if entries != [] {
      var n := |entries| - 1;
      var init := entries[..n];
      var e := entries[n];
      SetEachValues(w, s, cwd, init);
      SetEachFrame(w, s, cwd, init);
      var mid := SetEach(w, s, cwd, init);
      SetEffect(w, mid.state, cwd, e.key, e.value);
      var c := SetEach(w, s, cwd, entries).state.config;
      assert c == SetRun(w, mid.state, cwd, e.key, e.value).state.config;
      FrontLast(entries);
      SetOneMore(s.config, mid.state.config, c, init, e);
    }
  }

  /** One more entry set on top of those already stored. */
  lemma SetOneMore(orig: seq<ConfigEntry>, before: seq<ConfigEntry>, c: seq<ConfigEntry>,
                   init: seq<ConfigEntry>, e: ConfigEntry)
    requires forall k :: 0 <= k < |init| ==> init[k].key != e.key
    requires forall k :: 0 <= k < |init| ==> Lookup(before, init[k].key) == Some(init[k].value)
    requires forall other :: other !in ConfigKeys(init) ==> Lookup(before, other) == Lookup(orig, other)
    requires Lookup(c, e.key) == Some(e.value)
    requires forall other :: other != e.key ==> Lookup(c, other) == Lookup(before, other)
    ensures forall k :: 0 <= k < |init + [e]| ==> Lookup(c, (init + [e])[k].key) == Some((init + [e])[k].value)
    ensures forall other :: other !in ConfigKeys(init + [e]) ==> Lookup(c, other) == Lookup(orig, other)
  {
    var entries := init + [e];
    forall k | 0 <= k < |entries| ensures Lookup(c, entries[k].key) == Some(entries[k].value) {
      if k < |init| {
        assert entries[k] == init[k];
      }
    }
    forall other | other !in ConfigKeys(entries) ensures Lookup(c, other) == Lookup(orig, other) {
      assert other != ConfigKeys(entries)[|init|];
      forall k | 0 <= k < |init| ensures ConfigKeys(init)[k] != other {
        assert ConfigKeys(init)[k] == ConfigKeys(entries)[k];
      }
    }
  }

  /** unsetLocalConfig for each key in turn, stopping at the first that throws. */
  function UnsetEach(w: World, s: State, cwd: Path, keys: seq<string>): Outcome<()>
    decreases |keys|
  {
    if keys == [] then Outcome(s, Ok(()))
    else
      var o := UnsetEach(w, s, cwd, keys[..|keys| - 1]);
      if o.result.Err? then o else UnsetRun(w, o.state, cwd, keys[|keys| - 1])
  }

  /** The calls of the unsets when nothing fails, listed against the
      configuration before the first. */
  function UnsetEachPlan(config: seq<ConfigEntry>, cwd: Path, keys: seq<string>): seq<Op>
    decreases |keys|
  {
    if keys == [] then []
    else UnsetEachPlan(config, cwd, keys[..|keys| - 1]) + UnsetPlan(config, cwd, keys[|keys| - 1])
  }

  /** The unsets touch no file and keep the configuration valid; a failed one
      leaves the configuration as the unsets before it made it. */
  lemma {:induction false} UnsetEachFrame(w: World, s: State, cwd: Path, keys: seq<string>)
    requires ConfigValid(s.config)
    ensures var o := UnsetEach(w, s, cwd, keys);
            o.state.files == s.files && ConfigValid(o.state.config)
    decreases |keys|
  {
    if keys != [] {
      var n := |keys| - 1;
      var init := keys[..n];
      UnsetEachFrame(w, s, cwd, init);
      var mid := UnsetEach(w, s, cwd, init);
      if mid.result.Ok? {
        UnsetCalls(w, mid.state, cwd, keys[n]);
        if UnsetRun(w, mid.state, cwd, keys[n]).result.Ok? {
          UnsetConfig(w, mid.state, cwd, keys[n]);
        }
      }
    }
  }

  /** After all unsets succeed, none of the keys is set and every other key is
      as before. */
  lemma {:induction false} UnsetEachValues(w: World, s: State, cwd: Path, keys: seq<string>)
    requires ConfigValid(s.config)
    requires UnsetEach(w, s, cwd, keys).result.Ok?
    ensures var c := UnsetEach(w, s, cwd, keys).state.config;
            (forall k :: 0 <= k < |keys| ==> keys[k] !in ConfigKeys(c))
            && (forall other :: other !in keys ==> Lookup(c, other) == Lookup(s.config, other))
    decreases |keys|
  {
    if keys != [] {
      var n := |keys| - 1;
      var init := keys[..n];
      var key := keys[n];
      UnsetEachValues(w, s, cwd, init);
      UnsetEachFrame(w, s, cwd, init);
      var mid := UnsetEach(w, s, cwd, init);
      var before := mid.state.config;
      UnsetConfig(w, mid.state, cwd, key);
      var c := UnsetEach(w, s, cwd, keys).state.config;
      assert c == UnsetRun(w, mid.state, cwd, key).state.config;
      FrontLast(keys);
      UnsetOneMore(s.config, before, c, init, key);
    }
  }

  /** One more key unset on top of those already gone. */
  lemma UnsetOneMore(orig: seq<ConfigEntry>, before: seq<ConfigEntry>, c: seq<ConfigEntry>, init: seq<string>, key: string)
    requires forall k :: 0 <= k < |init| ==> init[k] !in ConfigKeys(before)
    requires forall other :: other !in init ==> Lookup(before, other) == Lookup(orig, other)
    requires key !in ConfigKeys(c)
    requires forall other :: other != key ==> Lookup(c, other) == Lookup(before, other)
    ensures forall k :: 0 <= k < |init + [key]| ==> (init + [key])[k] !in ConfigKeys(c)
    ensures forall other :: other !in init + [key] ==> Lookup(c, other) == Lookup(orig, other)
  {
    var keys := init + [key];
    forall k | 0 <= k < |keys| ensures keys[k] !in ConfigKeys(c) {
      if k < |init| {
        assert keys[k] == init[k];
        if keys[k] != key {
          assert Lookup(c, keys[k]) == Lookup(before, keys[k]);
        }
      }
    }
    forall other | other !in keys ensures Lookup(c, other) == Lookup(orig, other) {
      assert other != key && other !in init;
    }
  }

  /** With distinct keys, each unset finds its key listed exactly when it was in
      the configuration at the start: the calls follow the plan. */
  lemma {:induction false} UnsetEachLog(w: World, s: State, cwd: Path, keys: seq<string>)
    requires ConfigValid(s.config)
    requires forall i, j :: 0 <= i < j < |keys| ==> keys[i] != keys[j]
    ensures var o := UnsetEach(w, s, cwd, keys);
            Traced(s.log, o.state.log, UnsetEachPlan(s.config, cwd, keys))
            && (o.result.Ok? ==> o.state.log == s.log + UnsetEachPlan(s.config, cwd, keys))
    decreases |keys|
  {
    if keys != [] {
      var n := |keys| - 1;
      var init := keys[..n];
      var key := keys[n];
      assert forall i, j :: 0 <= i < j < |init| ==> init[i] == keys[i] && init[j] == keys[j];
      UnsetEachLog(w, s, cwd, init);
      UnsetEachFrame(w, s, cwd, init);
      var mid := UnsetEach(w, s, cwd, init);
      var plan := UnsetEachPlan(s.config, cwd, init);
      assert UnsetEachPlan(s.config, cwd, keys) == plan + UnsetPlan(s.config, cwd, key);
      if mid.result.Ok? {
        assert UnsetEach(w, s, cwd, keys) == UnsetRun(w, mid.state, cwd, key);
        UnsetEachValues(w, s, cwd, init);
        assert forall k :: 0 <= k < |init| ==> init[k] == keys[k] && key == keys[n];
        assert key !in init;
        UnsetAfter(w, mid.state, cwd, key, s.config, s.log, plan);
      } else {
        assert UnsetEach(w, s, cwd, keys) == mid;
        TracedMore(s.log, mid.state.log, plan, UnsetPlan(s.config, cwd, key));
      }
    }
  }

  /** One unset after earlier calls that ran `plan` in full, from a state whose
      configuration lists the key exactly when `orig` does. */
  lemma UnsetAfter(w: World, m: State, cwd: Path, key: string, orig: seq<ConfigEntry>, start: seq<Op>, plan: seq<Op>)
    requires ConfigValid(m.config) && m.log == start + plan
    requires Lookup(m.config, key) == Lookup(orig, key)
    ensures var o := UnsetRun(w, m, cwd, key);
            Traced(start, o.state.log, plan + UnsetPlan(orig, cwd, key))
            && (o.result.Ok? ==> o.state.log == start + (plan + UnsetPlan(orig, cwd, key)))
  {
    UnsetCalls(w, m, cwd, key);
    assert UnsetPlan(m.config, cwd, key) == UnsetPlan(orig, cwd, key);
    var o := UnsetRun(w, m, cwd, key);
    TracedThen(start, m.log, o.state.log, plan, UnsetPlan(orig, cwd, key));
    if o.result.Ok? {
      LoggedThen(start, m.log, o.state.log, plan, UnsetPlan(orig, cwd, key));
    }
  }

  /** installHooks: find git-crypt, then set the four keys. */
  function InstallRun(w: World, s: State, cwd: Path): Outcome<()>
  {
    var c := ShellStep(w, s, "which git-crypt");
    if c.result.Err? then Outcome(c.state, Err(c.result.error))
    else SetEach(w, c.state, cwd, HookEntries(c.result.value))
  }

  function InstallPlan(w: World, cwd: Path): seq<Op>
  {
    [Shell("which git-crypt")] + SetPlan(cwd, HookEntries(w.gitCryptCommand))
  }

  /** removeHooks: unset the four keys. */
  function RemoveHooksRun(w: World, s: State, cwd: Path): Outcome<()>
  {
    UnsetEach(w, s, cwd, HOOK_KEYS)
  }

  /** After installHooks the four keys hold the filter and diff commands built
      from `which`'s output, `filter.git-crypt.required` holding boolean true;
      no other key and no file changes, and the calls follow the plan. */
  lemma HooksInstalled(w: World, s: State, cwd: Path)
    requires ConfigValid(s.config)
    ensures var o := InstallRun(w, s, cwd);
            o.state.files == s.files && ConfigValid(o.state.config)
            && Traced(s.log, o.state.log, InstallPlan(w, cwd))
            && (o.result.Ok? ==>
                  o.state.log == s.log + InstallPlan(w, cwd)
                  && (forall k :: 0 <= k < 4 ==> Lookup(o.state.config, HOOK_KEYS[k]) == Some(HookEntries(w.gitCryptCommand)[k].value))
                  && Lookup(o.state.config, "filter.git-crypt.required") == Some(Bool(true))
                  && (forall other :: other !in HOOK_KEYS ==> Lookup(o.state.config, other) == Lookup(s.config, other)))
  {
    var c := ShellStep(w, s, "which git-crypt");
    if c.result.Ok? {
      var entries := HookEntries(c.result.value);
      HookKeysDistinct();
      SetEachFrame(w, c.state, cwd, entries);
      var o := SetEach(w, c.state, cwd, entries);
      TracedThen(s.log, c.state.log, o.state.log, [Shell("which git-crypt")], SetPlan(cwd, entries));
      if o.result.Ok? {
        forall i, j | 0 <= i < j < |entries| ensures entries[i].key != entries[j].key {
          assert ConfigKeys(entries)[i] == entries[i].key;
          assert ConfigKeys(entries)[j] == entries[j].key;
        }
        SetEachValues(w, c.state, cwd, entries);
        LoggedThen(s.log, c.state.log, o.state.log, [Shell("which git-crypt")], SetPlan(cwd, entries));
        assert HOOK_KEYS[2] == "filter.git-crypt.required";
      }
    } else {
      TracedMore(s.log, c.state.log, [Shell("which git-crypt")], SetPlan(cwd, HookEntries(w.gitCryptCommand)));
    }
  }

  /** After removeHooks none of the four keys is set, no other key and no file
      changes, and the calls follow the plan. */
  lemma HooksRemoved(w: World, s: State, cwd: Path)
    requires ConfigValid(s.config)
    ensures var o := RemoveHooksRun(w, s, cwd);
            o.state.files == s.files && ConfigValid(o.state.config)
            && Traced(s.log, o.state.log, UnsetEachPlan(s.config, cwd, HOOK_KEYS))
            && (o.result.Ok? ==>
                  o.state.log == s.log + UnsetEachPlan(s.config, cwd, HOOK_KEYS)
                  && (forall k :: 0 <= k < 4 ==> HOOK_KEYS[k] !in ConfigKeys(o.state.config))
                  && (forall other :: other !in HOOK_KEYS ==> Lookup(o.state.config, other) == Lookup(s.config, other)))
  {
    HookKeysDistinct();
    UnsetEachFrame(w, s, cwd, HOOK_KEYS);
    UnsetEachLog(w, s, cwd, HOOK_KEYS);
    if RemoveHooksRun(w, s, cwd).result.Ok? {
      UnsetEachValues(w, s, cwd, HOOK_KEYS);
    }
  }

  /** The hooks installHooks sets are exactly those removeHooks unsets: after
      both succeed, the configuration agrees with the original on every key but
      the four, which are gone. */
  lemma HooksRoundTrip(w: World, s: State, cwd: Path)
    requires ConfigValid(s.config)
    requires InstallRun(w, s, cwd).result.Ok?
    requires RemoveHooksRun(w, InstallRun(w, s, cwd).state, cwd).result.Ok?
    ensures var c := RemoveHooksRun(w, InstallRun(w, s, cwd).state, cwd).state.config;
            forall key :: Lookup(c, key) == if key in HOOK_KEYS then None else Lookup(s.config, key)
  {
    var mid := InstallRun(w, s, cwd);
    HooksInstalled(w, s, cwd);
    HooksRemoved(w, mid.state, cwd);
    var c := RemoveHooksRun(w, mid.state, cwd).state.config;
    forall key ensures Lookup(c, key) == if key in HOOK_KEYS then None else Lookup(s.config, key) {
      if key in HOOK_KEYS {
        var k :| 0 <= k < 4 && HOOK_KEYS[k] == key;
        assert key !in ConfigKeys(c);
      }
    }
  }

  /** Once a set has thrown, the later ones are not made. */
  lemma {:induction false} SetEachStops(w: World, s: State, cwd: Path, entries: seq<ConfigEntry>, n: nat)
    requires n <= |entries| && SetEach(w, s, cwd, entries[..n]).result.Err?
    ensures SetEach(w, s, cwd, entries) == SetEach(w, s, cwd, entries[..n])
    decreases |entries|
  {
    if n < |entries| {
      var init := entries[..|entries| - 1];
      assert init[..n] == entries[..n];
      SetEachStops(w, s, cwd, init, n);
    } else {
      assert entries[..n] == entries;
    }
  }

  /** Once an unset has thrown, the later ones are not made. */
  lemma {:induction false} UnsetEachStops(w: World, s: State, cwd: Path, keys: seq<string>, n: nat)
    requires n <= |keys| && UnsetEach(w, s, cwd, keys[..n]).result.Err?
    ensures UnsetEach(w, s, cwd, keys) == UnsetEach(w, s, cwd, keys[..n])
    decreases |keys|
  {
    if n < |keys| {
      var init := keys[..|keys| - 1];
      assert init[..n] == keys[..n];
      UnsetEachStops(w, s, cwd, init, n);
    } else {
      assert keys[..n] == keys;
    }
  }

  method InstallHooks(h: Host, cwd: Path) returns (r: Result<()>)
    modifies h
    ensures var o := InstallRun(h.world, old(h.Snapshot()), cwd); h.Snapshot() == o.state && r == o.result
  {
    assert "which " + "git-crypt" == "which git-crypt";
    var command := Which(h, "git-crypt");
    if command.Err? {
      return Err(command.error);
    }
    ghost var s1 := h.Snapshot();
    ghost var entries := HookEntries(command.value);
    assert entries[..1][..0] == [];
    assert SetEach(h.world, s1, cwd, []) == Outcome(s1, Ok(()));
    assert entries[..1][0] == ConfigEntry("diff.git-crypt.textconv", Str("\"" + command.value + "\" diff"));
    r := SetLocalConfig(h, cwd, "diff.git-crypt.textconv", Str("\"" + command.value + "\" diff"));
    ghost var o := SetEach(h.world, s1, cwd, entries[..1]);
    assert h.Snapshot() == o.state && r == o.result;
    if r.Err? {
      SetEachStops(h.world, s1, cwd, entries, 1);
      return;
    }
    assert entries[..2][..1] == entries[..1];
    r := SetLocalConfig(h, cwd, "filter.git-crypt.clean", Str("\"" + command.value + "\" clean"));
    o := SetEach(h.world, s1, cwd, entries[..2]);
    assert h.Snapshot() == o.state && r == o.result;
    if r.Err? {
      SetEachStops(h.world, s1, cwd, entries, 2);
      return;
    }
    assert entries[..3][..2] == entries[..2];
    r := SetLocalConfig(h, cwd, "filter.git-crypt.required", Bool(true));
    o := SetEach(h.world, s1, cwd, entries[..3]);
    assert h.Snapshot() == o.state && r == o.result;
    if r.Err? {
      SetEachStops(h.world, s1, cwd, entries, 3);
      return;
    }
    assert entries[..4][..3] == entries[..3];
    r := SetLocalConfig(h, cwd, "filter.git-crypt.smudge", Str("\"" + command.value + "\" smudge"));
    assert entries[..4] == entries;
  }

  /** One more unset on top of the first `n`. */
  lemma UnsetEachSnoc(w: World, s: State, cwd: Path, keys: seq<string>, n: nat)
    requires n < |keys|
    ensures var o := UnsetEach(w, s, cwd, keys[..n]);
            UnsetEach(w, s, cwd, keys[..n + 1]) == if o.result.Err? then o else UnsetRun(w, o.state, cwd, keys[n])
  {
    assert keys[..n + 1][..n] == keys[..n];
  }

  /** The first `n` unsets of removeHooks, in order, stopping at the first
      that throws. */
  function FirstUnsets(w: World, s: State, cwd: Path, n: nat): Outcome<()>
    requires n <= |HOOK_KEYS|
  {
    if n == 0 then Outcome(s, Ok(()))
    else
      var o := FirstUnsets(w, s, cwd, n - 1);
      if o.result.Err? then o else UnsetRun(w, o.state, cwd, HOOK_KEYS[n - 1])
  }

  lemma {:induction false} FirstUnsetsEach(w: World, s: State, cwd: Path, n: nat)
    requires n <= |HOOK_KEYS|
    ensures FirstUnsets(w, s, cwd, n) == UnsetEach(w, s, cwd, HOOK_KEYS[..n])
  {
    if n > 0 {
      FirstUnsetsEach(w, s, cwd, n - 1);
      UnsetEachSnoc(w, s, cwd, HOOK_KEYS, n - 1);
    }
  }

  lemma {:induction false} FirstUnsetsStop(w: World, s: State, cwd: Path, n: nat)
    requires n <= |HOOK_KEYS| && FirstUnsets(w, s, cwd, n).result.Err?
    ensures RemoveHooksRun(w, s, cwd) == FirstUnsets(w, s, cwd, n)
  {
    FirstUnsetsEach(w, s, cwd, n);
    UnsetEachStops(w, s, cwd, HOOK_KEYS, n);
  }

  lemma FirstUnsetsAll(w: World, s: State, cwd: Path)
    ensures RemoveHooksRun(w, s, cwd) == FirstUnsets(w, s, cwd, |HOOK_KEYS|)
  {
    FirstUnsetsEach(w, s, cwd, |HOOK_KEYS|);
    assert HOOK_KEYS[..|HOOK_KEYS|] == HOOK_KEYS;
  }

  /** The unset of the `n`th hook key, made only when the ones before it
      succeeded (`prev`): a throw skips the rest of removeHooks. */
  method RemoveHook(h: Host, cwd: Path, ghost s0: State, n: nat, prev: Result<()>) returns (r: Result<()>)
    requires n < |HOOK_KEYS|
    requires FirstUnsets(h.world, s0, cwd, n) == Outcome(h.Snapshot(), prev)
    modifies h
    ensures FirstUnsets(h.world, s0, cwd, n + 1) == Outcome(h.Snapshot(), r)
  {
    if prev.Err? {
      return prev;
    }
    r := UnsetLocalConfig(h, cwd, HOOK_KEYS[n]);
  }

  method RemoveHooks(h: Host, cwd: Path) returns (r: Result<()>)
    modifies h
    ensures var o := RemoveHooksRun(h.world, old(h.Snapshot()), cwd); h.Snapshot() == o.state && r == o.result
  {
    ghost var s0 := h.Snapshot();
    r := RemoveHook(h, cwd, s0, 0, Ok(()));  // diff.git-crypt.textconv
    r := RemoveHook(h, cwd, s0, 1, r);  // filter.git-crypt.clean
    r := RemoveHook(h, cwd, s0, 2, r);  // filter.git-crypt.required
    r := RemoveHook(h, cwd, s0, 3, r);  // filter.git-crypt.smudge
    FirstUnsetsAll(h.world, s0, cwd);
  }

  // ---------------------------------------------------------------------------
  // init and addUser

  function InitArgs(): seq<Value>
  {
    Strs(["crypt", "init"])
  }

  /** init: `git crypt init`, which creates a new key under `.git/git-crypt`;
      that key file is not modelled, so only the call is logged. */
  function InitRun(w: World, s: State, cwd: Path): Outcome<()>
  {
    ExecStep(w, s, "git", InitArgs(), cwd)
  }

  method Init(h: Host, cwd: Path) returns (r: Result<()>)
    modifies h
    ensures var o := InitRun(h.world, old(h.Snapshot()), cwd); h.Snapshot() == o.state && r == o.result
  {
    r := h.Run("git", InitArgs(), cwd);
  }

  const ADD_USER_MESSAGE: string := "`git crypt add-gpg-user`: "

  function AddUserArgs(userId: string): seq<Value>
  {
    Strs(["crypt", "add-gpg-user", "--no-commit", "--trusted", userId])
  }

  /** addUser: add the user's key without committing, read the names on the
      key, then commit with a message carrying them. */
  function AddUserRun(w: World, ring: Keyring, s: State, cwd: Path, userId: string): Outcome<()>
  {
    var a := ExecStep(w, s, "git", AddUserArgs(userId), cwd);
    if a.result.Err? then a
    else
      var names := GetUsernames(ring, userId);
      if names.Err? then Outcome(a.state, Err(names.error))
      else CommitRun(w, a.state, cwd, Some(ADD_USER_MESSAGE + names.value))
  }

  /** addUser makes the add call first; it commits only when that call
      succeeded and the keyring holds exactly one key for the id, and then the
      commit message names that key's users. The key file and `.gitattributes`
      that add-gpg-user writes are not modelled, so files and configuration
      stay. */
  lemma AddUserCalls(w: World, ring: Keyring, s: State, cwd: Path, userId: string)
    ensures var o := AddUserRun(w, ring, s, cwd, userId);
            var add := Exec("git", AddUserArgs(userId), cwd);
            var keys := ring.readArmored(GetLocalPublicKey(ring.exported(userId)));
            o.state.files == s.files && o.state.config == s.config
            && |s.log| < |o.state.log| <= |s.log| + 2 && o.state.log[..|s.log| + 1] == s.log + [add]
            && (|o.state.log| == |s.log| + 2 <==> add !in w.fails && |keys| == 1)
            && (|o.state.log| == |s.log| + 2 ==>
                  o.state.log[|s.log| + 1] == Exec("git", CommitArgs(ADD_USER_MESSAGE + Usernames(keys[0])), cwd))
            && (o.result.Ok? <==> |o.state.log| == |s.log| + 2 && o.state.log[|s.log| + 1] !in w.fails)
  {
    var a := ExecStep(w, s, "git", AddUserArgs(userId), cwd);
    assert a.state.log[..|s.log| + 1] == s.log + [Exec("git", AddUserArgs(userId), cwd)];
    if a.result.Ok? && GetUsernames(ring, userId).Ok? {
      var o := AddUserRun(w, ring, s, cwd, userId);
      assert o.state.log == a.state.log + [o.state.log[|s.log| + 1]];
    }
  }

  /** A call that adds a user's key: `git crypt add-gpg-user ... <id>`. */
  predicate IsAddCall(op: Op)
  {
    op.Exec? && op.file == "git" && |op.args| == 5
    && op.args[0] == Str("crypt") && op.args[1] == Str("add-gpg-user") && op.args[4].Str?
  }

  /** The ids whose keys a log tried to add, in order. */
  function AddedUsers(log: seq<Op>): seq<string>
  {
    if log == [] then []
    else (if IsAddCall(log[0]) then [log[0].args[4].s] else []) + AddedUsers(log[1..])
  }

  lemma {:induction false} AddedUsersAppend(a: seq<Op>, b: seq<Op>)
    ensures AddedUsers(a + b) == AddedUsers(a) + AddedUsers(b)
  {
    if a == [] {
      assert a + b == b;
    } else {
      assert (a + b)[0] == a[0];
      assert (a + b)[1..] == a[1..] + b;
      AddedUsersAppend(a[1..], b);
    }
  }

  /** The users added over two consecutive stretches of a log. */
  lemma AddedUsersThen(a: seq<Op>, b: seq<Op>, c: seq<Op>)
    requires a <= b <= c
    ensures a <= c && AddedUsers(c[|a|..]) == AddedUsers(b[|a|..]) + AddedUsers(c[|b|..])
  {
    assert c[|a|..] == b[|a|..] + c[|b|..];
    AddedUsersAppend(b[|a|..], c[|b|..]);
  }

  lemma {:induction false} NoAddCalls(log: seq<Op>)
    requires forall k :: 0 <= k < |log| ==> !IsAddCall(log[k])
    ensures AddedUsers(log) == []
  {
    if log != [] {
      NoAddCalls(log[1..]);
    }
  }

  /** `after` extends `before` with calls none of which adds a user. */
  predicate AddsNone(before: seq<Op>, after: seq<Op>)
  {
    before <= after && AddedUsers(after[|before|..]) == []
  }

  lemma AddsNoneStart(a: seq<Op>)
    ensures AddsNone(a, a)
  {
    assert a[|a|..] == [];
  }

  lemma AddsNoneStep(a: seq<Op>, b: seq<Op>, op: Op)
    requires AddsNone(a, b) && !IsAddCall(op)
    ensures AddsNone(a, b + [op])
  {
    assert (b + [op])[|a|..] == b[|a|..] + [op];
    AddedUsersAppend(b[|a|..], [op]);
    assert [op][1..] == [];
  }

  lemma AddsNoneThen(a: seq<Op>, b: seq<Op>, c: seq<Op>)
    requires AddsNone(a, b) && AddsNone(b, c)
    ensures AddsNone(a, c)
  {
    assert c[|a|..] == b[|a|..] + c[|b|..];
    AddedUsersAppend(b[|a|..], c[|b|..]);
  }

  /** One call that is not an add call. */
  lemma AddsNoneOne(a: seq<Op>, op: Op)
    requires !IsAddCall(op)
    ensures AddsNone(a, a + [op])
  {
    AddsNoneStart(a);
    AddsNoneStep(a, a, op);
  }

  /** One addUser makes exactly one add call, for its id, and touches neither
      files nor configuration. */
  lemma AddUserAttempts(w: World, ring: Keyring, s: State, cwd: Path, userId: string)
    ensures var o := AddUserRun(w, ring, s, cwd, userId);
            s.log <= o.state.log && AddedUsers(o.state.log[|s.log|..]) == [userId]
            && o.state.files == s.files && o.state.config == s.config
  {
    var o := AddUserRun(w, ring, s, cwd, userId);
    var add := Exec("git", AddUserArgs(userId), cwd);
    AddUserCalls(w, ring, s, cwd, userId);
    var tail := o.state.log[|s.log|..];
    assert tail[0] == add && IsAddCall(add) && add.args[4].s == userId;
    if |tail| == 2 {
      assert !IsAddCall(tail[1]);
      assert tail[1..][1..] == [];
      assert AddedUsers(tail[1..]) == [];
    } else {
      assert tail[1..] == [];
    }
  }

  method AddUser(h: Host, ring: Keyring, cwd: Path, userId: string) returns (r: Result<()>)
    modifies h
    ensures var o := AddUserRun(h.world, ring, old(h.Snapshot()), cwd, userId); h.Snapshot() == o.state && r == o.result
  {
    r := h.Run("git", AddUserArgs(userId), cwd);
    if r.Err? {
      return;
    }
    var usernames := GetUsernames(ring, userId);
    if usernames.Err? {
      return Err(usernames.error);
    }
    r := CommitChanges(h, cwd, Some(ADD_USER_MESSAGE + usernames.value));
  }

  // ---------------------------------------------------------------------------
  // rotateKey's loops over the encrypted paths

  /** One pass of the delete loop: `unlinkIfExists(joinPath(cwd, filePath))`. */
  function UnlinkOne(w: World, s: State, cwd: Path, filePath: Option<Path>): Outcome<()>
  {
    match filePath
    case None => Outcome(s, Err(TypeError(PATH_MESSAGE)))
    case Some(p) => UnlinkIfExistsRun(w, s, JoinPath(cwd, p))
  }

  function UnlinkEach(w: World, s: State, cwd: Path, paths: seq<Option<Path>>): Outcome<()>
    decreases |paths|
  {
    if paths == [] then Outcome(s, Ok(()))
    else
      var o := UnlinkEach(w, s, cwd, paths[..|paths| - 1]);
      if o.result.Err? then o else UnlinkOne(w, o.state, cwd, paths[|paths| - 1])
  }

  function UnlinkPlan(cwd: Path, paths: seq<Option<Path>>): seq<Op>
    decreases |paths|
  {
    if paths == [] then []
    else
      var last := paths[|paths| - 1];
      UnlinkPlan(cwd, paths[..|paths| - 1]) + if last.Some? then [Remove(JoinPath(cwd, last.value))] else []
  }

  /** The delete loop only removes files, only inside `cwd`, touches no
      configuration, and its calls follow the plan. */
  lemma {:induction false} UnlinkEachFrame(w: World, s: State, cwd: Path, paths: seq<Option<Path>>)
    ensures var o := UnlinkEach(w, s, cwd, paths);
            o.state.config == s.config
            && Traced(s.log, o.state.log, UnlinkPlan(cwd, paths))
            && (o.result.Ok? ==> o.state.log == s.log + UnlinkPlan(cwd, paths))
            && (forall q :: q in o.state.files ==> q in s.files && o.state.files[q] == s.files[q])
            && (forall q :: q in s.files && !Under(q, cwd) ==> q in o.state.files)
    decreases |paths|
  {
    if paths == [] {
      TracedAll(s.log, []);
    } else {
      var init := paths[..|paths| - 1];
      var last := paths[|paths| - 1];
      var step := if last.Some? then [Remove(JoinPath(cwd, last.value))] else [];
      UnlinkEachFrame(w, s, cwd, init);
      var mid := UnlinkEach(w, s, cwd, init);
      if mid.result.Err? {
        TracedMore(s.log, mid.state.log, UnlinkPlan(cwd, init), step);
      } else if last.None? {
        TracedMore(s.log, mid.state.log, UnlinkPlan(cwd, init), step);
      } else {
        var p := JoinPath(cwd, last.value);
        UnlinkIfExistsGone(w, mid.state, p);
        var o := UnlinkEach(w, s, cwd, paths);
        LoggedThen(s.log, mid.state.log, o.state.log, UnlinkPlan(cwd, init), step);
        TracedAll(s.log, UnlinkPlan(cwd, init) + step);
      }
    }
  }

  /** After the delete loop every encrypted path is gone from the work tree. */
  lemma {:induction false} UnlinkEachGone(w: World, s: State, cwd: Path, paths: seq<Option<Path>>)
    requires UnlinkEach(w, s, cwd, paths).result.Ok?
    ensures AllDefined(paths)
    ensures forall k :: 0 <= k < |paths| ==> JoinPath(cwd, paths[k].value) !in UnlinkEach(w, s, cwd, paths).state.files
    decreases |paths|
  {
    if paths != [] {
      var init := paths[..|paths| - 1];
      var last := paths[|paths| - 1];
      UnlinkEachGone(w, s, cwd, init);
      var mid := UnlinkEach(w, s, cwd, init);
      var p := JoinPath(cwd, last.value);
      UnlinkIfExistsGone(w, mid.state, p);
      var files := UnlinkEach(w, s, cwd, paths).state.files;
      forall k | 0 <= k < |paths| ensures paths[k].Some? && JoinPath(cwd, paths[k].value) !in files {
        if k < |init| {
          assert paths[k] == init[k];
        }
      }
    }
  }

  /** Once a pass has thrown, the later paths are not touched. */
  lemma {:induction false} UnlinkEachStops(w: World, s: State, cwd: Path, paths: seq<Option<Path>>, n: nat)
    requires n <= |paths| && UnlinkEach(w, s, cwd, paths[..n]).result.Err?
    ensures UnlinkEach(w, s, cwd, paths) == UnlinkEach(w, s, cwd, paths[..n])
    decreases |paths|
  {
    if n < |paths| {
      var init := paths[..|paths| - 1];
      assert init[..n] == paths[..n];
      UnlinkEachStops(w, s, cwd, init, n);
    } else {
      assert paths[..n] == paths;
    }
  }

  method UnlinkEncrypted(h: Host, cwd: Path, encrypted: seq<Option<Path>>) returns (r: Result<()>)
    modifies h
    ensures var o := UnlinkEach(h.world, old(h.Snapshot()), cwd, encrypted); h.Snapshot() == o.state && r == o.result
  {
    ghost var s0 := h.Snapshot();
    for i := 0 to |encrypted|
      invariant UnlinkEach(h.world, s0, cwd, encrypted[..i]) == Outcome(h.Snapshot(), Ok(()))
    {
      assert encrypted[..i + 1][..i] == encrypted[..i];
      var filePath := encrypted[i];
      if filePath.None? {
        r := Err(TypeError(PATH_MESSAGE));
      } else {
        r := UnlinkIfExists(h, JoinPath(cwd, filePath.value));
      }
      if r.Err? {
        UnlinkEachStops(h.world, s0, cwd, encrypted, i + 1);
        return;
      }
    }
    assert encrypted[..|encrypted|] == encrypted;
    r := Ok(());
  }

  function StageEach(w: World, s: State, cwd: Path, paths: seq<Option<Path>>): Outcome<()>
    decreases |paths|
  {
    if paths == [] then Outcome(s, Ok(()))
    else
      var o := StageEach(w, s, cwd, paths[..|paths| - 1]);
      if o.result.Err? then o else StageRun(w, o.state, cwd, paths[|paths| - 1])
  }

  function StagePlan(cwd: Path, paths: seq<Option<Path>>): seq<Op>
    decreases |paths|
  {
    if paths == [] then []
    else
      var last := paths[|paths| - 1];
      StagePlan(cwd, paths[..|paths| - 1]) + if last.Some? then [Exec("git", Strs(["add", last.value]), cwd)] else []
  }

  /** The staging loop changes no file and no configuration, and its calls
      follow the plan. */
  lemma {:induction false} StageEachFrame(w: World, s: State, cwd: Path, paths: seq<Option<Path>>)
    ensures var o := StageEach(w, s, cwd, paths);
            o.state.files == s.files && o.state.config == s.config
            && Traced(s.log, o.state.log, StagePlan(cwd, paths))
            && (o.result.Ok? ==> o.state.log == s.log + StagePlan(cwd, paths))
    decreases |paths|
  {
    if paths == [] {
      TracedAll(s.log, []);
    } else {
      var init := paths[..|paths| - 1];
      var last := paths[|paths| - 1];
      var step := if last.Some? then [Exec("git", Strs(["add", last.value]), cwd)] else [];
      StageEachFrame(w, s, cwd, init);
      var mid := StageEach(w, s, cwd, init);
      if mid.result.Err? || last.None? {
        TracedMore(s.log, mid.state.log, StagePlan(cwd, init), step);
      } else {
        var o := StageEach(w, s, cwd, paths);
        LoggedThen(s.log, mid.state.log, o.state.log, StagePlan(cwd, init), step);
        TracedAll(s.log, StagePlan(cwd, init) + step);
      }
    }
  }

  lemma {:induction false} StageEachStops(w: World, s: State, cwd: Path, paths: seq<Option<Path>>, n: nat)
    requires n <= |paths| && StageEach(w, s, cwd, paths[..n]).result.Err?
    ensures StageEach(w, s, cwd, paths) == StageEach(w, s, cwd, paths[..n])
    decreases |paths|
  {
    if n < |paths| {
      var init := paths[..|paths| - 1];
      assert init[..n] == paths[..n];
      StageEachStops(w, s, cwd, init, n);
    } else {
      assert paths[..n] == paths;
    }
  }

  method StageEncrypted(h: Host, cwd: Path, encrypted: seq<Option<Path>>) returns (r: Result<()>)
    modifies h
    ensures var o := StageEach(h.world, old(h.Snapshot()), cwd, encrypted); h.Snapshot() == o.state && r == o.result
  {
    ghost var s0 := h.Snapshot();
    for i := 0 to |encrypted|
      invariant StageEach(h.world, s0, cwd, encrypted[..i]) == Outcome(h.Snapshot(), Ok(()))
    {
      assert encrypted[..i + 1][..i] == encrypted[..i];
      r := Stage(h, cwd, encrypted[i]);
      if r.Err? {
        StageEachStops(h.world, s0, cwd, encrypted, i + 1);
        return;
      }
    }
    assert encrypted[..|encrypted|] == encrypted;
    r := Ok(());
  }

  // ---------------------------------------------------------------------------
  // rotateKey

  const DELETED_MESSAGE: string := "git-crypt: deleted encrypted files"
  const RM_MESSAGE: string := "`rm -rf .git-crypt .git/git-crypt`"
  const RESTORED_MESSAGE: string := "git-crypt: restore encrypted files"
  /** Where git-crypt keeps the repository's keys, relative to the work tree. */
  const VAULT_DIR: Path := ".git-crypt"
  const GIT_VAULT_DIR: Path := ".git/git-crypt"

  /** The deleting half of rotateKey: delete each encrypted file, commit,
      remove the hooks, delete git-crypt's two directories, commit. */
  function ClearRun(w: World, s: State, cwd: Path, encrypted: seq<Option<Path>>): Outcome<()>
  {
    var u := UnlinkEach(w, s, cwd, encrypted);
    if u.result.Err? then u
    else
      var c := CommitRun(w, u.state, cwd, Some(DELETED_MESSAGE));
      if c.result.Err? then c
      else
        var k := RemoveHooksRun(w, c.state, cwd);
        if k.result.Err? then k
        else
          var v := RimrafStep(k.state, Some(JoinPath(cwd, VAULT_DIR)));
          var g := RimrafStep(v.state, Some(JoinPath(cwd, GIT_VAULT_DIR)));
          CommitRun(w, g.state, cwd, Some(RM_MESSAGE))
  }

  /** The three calls after removeHooks. */
  function ClearTail(cwd: Path): seq<Op>
  {
    [RemoveTree(Some(JoinPath(cwd, VAULT_DIR))), RemoveTree(Some(JoinPath(cwd, GIT_VAULT_DIR))),
     Exec("git", CommitArgs(RM_MESSAGE), cwd)]
  }

  function ClearPlan(config: seq<ConfigEntry>, cwd: Path, encrypted: seq<Option<Path>>): seq<Op>
  {
    UnlinkPlan(cwd, encrypted)
    + ([Exec("git", CommitArgs(DELETED_MESSAGE), cwd)] + (UnsetEachPlan(config, cwd, HOOK_KEYS) + ClearTail(cwd)))
  }

  /** The calls of the deleting half follow its plan, and the configuration
      stays valid. */
  lemma ClearLog(w: World, s: State, cwd: Path, encrypted: seq<Option<Path>>)
    requires ConfigValid(s.config)
    ensures var o := ClearRun(w, s, cwd, encrypted);
            ConfigValid(o.state.config) && Follows(s.log, o, ClearPlan(s.config, cwd, encrypted))
  {
    var p1 := UnlinkPlan(cwd, encrypted);
    var p2 := [Exec("git", CommitArgs(DELETED_MESSAGE), cwd)];
    var p3 := UnsetEachPlan(s.config, cwd, HOOK_KEYS);
    var p4 := ClearTail(cwd);
    var u := UnlinkEach(w, s, cwd, encrypted);
    var c := CommitRun(w, u.state, cwd, Some(DELETED_MESSAGE));
    var k := RemoveHooksRun(w, c.state, cwd);
    var v := RimrafStep(k.state, Some(JoinPath(cwd, VAULT_DIR)));
    var g := RimrafStep(v.state, Some(JoinPath(cwd, GIT_VAULT_DIR)));
    var m := CommitRun(w, g.state, cwd, Some(RM_MESSAGE));
    UnlinkEachFrame(w, s, cwd, encrypted);
    HooksRemoved(w, c.state, cwd);
    TracedAll(c.state.log, p2);
    AppendThree(k.state.log, p4[0], p4[1], p4[2]);
    TracedAll(k.state.log, p4);
    FollowsThen(c.state.log, k, m, p3, p4);
    var r2 := if k.result.Err? then k else m;
    FollowsThen(u.state.log, c, r2, p2, p3 + p4);
    var r1 := if c.result.Err? then c else r2;
    FollowsThen(s.log, u, r1, p1, p2 + (p3 + p4));
  }

  /** The deleting half only removes files, all inside `cwd`; when it
      succeeds every encrypted path is gone, nothing is left of git-crypt's two
      directories, and none of the hook keys is set. */
  lemma ClearFiles(w: World, s: State, cwd: Path, encrypted: seq<Option<Path>>)
    requires ConfigValid(s.config)
    ensures var o := ClearRun(w, s, cwd, encrypted);
            (forall q :: q in o.state.files ==> q in s.files && o.state.files[q] == s.files[q])
            && (forall q :: q in s.files && !Under(q, cwd) ==> q in o.state.files)
            && (o.result.Ok? ==>
                  AllDefined(encrypted)
                  && (forall k :: 0 <= k < |encrypted| ==> JoinPath(cwd, encrypted[k].value) !in o.state.files)
                  && Fresh(o.state.files, JoinPath(cwd, VAULT_DIR))
                  && Fresh(o.state.files, JoinPath(cwd, GIT_VAULT_DIR))
                  && (forall k :: 0 <= k < |HOOK_KEYS| ==> HOOK_KEYS[k] !in ConfigKeys(o.state.config)))
  {
    UnlinkEachFrame(w, s, cwd, encrypted);
    var u := UnlinkEach(w, s, cwd, encrypted);
    if u.result.Ok? {
      var c := CommitRun(w, u.state, cwd, Some(DELETED_MESSAGE));
      HooksRemoved(w, c.state, cwd);
      var k := RemoveHooksRun(w, c.state, cwd);
      if c.result.Ok? && k.result.Ok? {
        UnlinkEachGone(w, s, cwd, encrypted);
        var o := ClearRun(w, s, cwd, encrypted);
        forall q | q in k.state.files && (q == JoinPath(cwd, VAULT_DIR) || Under(q, JoinPath(cwd, VAULT_DIR)))
          ensures Under(q, cwd)
        {
          if q != JoinPath(cwd, VAULT_DIR) {
            UnderJoin(q, cwd, VAULT_DIR);
          }
        }
        forall q | q in k.state.files && (q == JoinPath(cwd, GIT_VAULT_DIR) || Under(q, JoinPath(cwd, GIT_VAULT_DIR)))
          ensures Under(q, cwd)
        {
          if q != JoinPath(cwd, GIT_VAULT_DIR) {
            UnderJoin(q, cwd, GIT_VAULT_DIR);
          }
        }
      }
    }
  }

  /** Outside the hook keys the deleting half keeps every configured value. */
  lemma ClearConfig(w: World, s: State, cwd: Path, encrypted: seq<Option<Path>>)
    requires ConfigValid(s.config)
    requires ClearRun(w, s, cwd, encrypted).result.Ok?
    ensures var c := ClearRun(w, s, cwd, encrypted).state.config;
            forall other :: other !in HOOK_KEYS ==> Lookup(c, other) == Lookup(s.config, other)
  {
    UnlinkEachFrame(w, s, cwd, encrypted);
    var u := UnlinkEach(w, s, cwd, encrypted);
    var c := CommitRun(w, u.state, cwd, Some(DELETED_MESSAGE));
    HooksRemoved(w, c.state, cwd);
  }

  /** The restoring half of rotateKey: init a new key, copy the backup back,
      stage each file, commit, install the hooks. */
  function RestoreRun(w: World, s: State, cwd: Path, dir: Path, encrypted: seq<Option<Path>>): Outcome<()>
  {
    var i := InitRun(w, s, cwd);
    if i.result.Err? then i
    else
      var c := CopyRun(w, i.state, dir, cwd, encrypted);
      if c.result.Err? then c
      else
        var g := StageEach(w, c.state, cwd, encrypted);
        if g.result.Err? then g
        else
          var m := CommitRun(w, g.state, cwd, Some(RESTORED_MESSAGE));
          if m.result.Err? then m else InstallRun(w, m.state, cwd)
  }

  function RestorePlan(w: World, cwd: Path, dir: Path, encrypted: seq<Option<Path>>): seq<Op>
  {
    [Exec("git", InitArgs(), cwd)]
    + (CopyPlan(dir, cwd, encrypted)
       + (StagePlan(cwd, encrypted) + ([Exec("git", CommitArgs(RESTORED_MESSAGE), cwd)] + InstallPlan(w, cwd))))
  }

  lemma RestoreLog(w: World, s: State, cwd: Path, dir: Path, encrypted: seq<Option<Path>>)
    requires ConfigValid(s.config)
    ensures var o := RestoreRun(w, s, cwd, dir, encrypted);
            ConfigValid(o.state.config) && Follows(s.log, o, RestorePlan(w, cwd, dir, encrypted))
  {
    var p1 := [Exec("git", InitArgs(), cwd)];
    var p2 := CopyPlan(dir, cwd, encrypted);
    var p3 := StagePlan(cwd, encrypted);
    var p4 := [Exec("git", CommitArgs(RESTORED_MESSAGE), cwd)];
    var p5 := InstallPlan(w, cwd);
    var i := InitRun(w, s, cwd);
    var c := CopyRun(w, i.state, dir, cwd, encrypted);
    var g := StageEach(w, c.state, cwd, encrypted);
    var m := CommitRun(w, g.state, cwd, Some(RESTORED_MESSAGE));
    var n := InstallRun(w, m.state, cwd);
    TracedAll(s.log, p1);
    CopyRunLog(w, i.state, dir, cwd, encrypted);
    CopyRunFrame(w, i.state, dir, cwd, encrypted);
    StageEachFrame(w, c.state, cwd, encrypted);
    TracedAll(g.state.log, p4);
    HooksInstalled(w, m.state, cwd);
    FollowsThen(g.state.log, m, n, p4, p5);
    var r3 := if m.result.Err? then m else n;
    FollowsThen(c.state.log, g, r3, p3, p4 + p5);
    var r2 := if g.result.Err? then g else r3;
    FollowsThen(i.state.log, c, r2, p2, p3 + (p4 + p5));
    var r1 := if c.result.Err? then c else r2;
    FollowsThen(s.log, i, r1, p1, p2 + (p3 + (p4 + p5)));
  }

  /** The restoring half writes only inside `cwd`; when it succeeds each
      encrypted path holds exactly the backed-up content. */
  lemma RestoreFiles(w: World, s: State, cwd: Path, dir: Path, encrypted: seq<Option<Path>>)
    requires Apart(dir, cwd)
    ensures var o := RestoreRun(w, s, cwd, dir, encrypted);
            (forall q :: !Under(q, cwd) ==> (q in o.state.files <==> q in s.files))
            && (forall q :: q in s.files && !Under(q, cwd) ==> o.state.files[q] == s.files[q])
            && (o.result.Ok? ==>
                  AllDefined(encrypted)
                  && forall k :: 0 <= k < |encrypted| ==>
                       JoinPath(dir, encrypted[k].value) in s.files
                       && JoinPath(cwd, encrypted[k].value) in o.state.files
                       && o.state.files[JoinPath(cwd, encrypted[k].value)] == s.files[JoinPath(dir, encrypted[k].value)])
  {
    var i := InitRun(w, s, cwd);
    if i.result.Ok? {
      CopyRunFrame(w, i.state, dir, cwd, encrypted);
      var c := CopyRun(w, i.state, dir, cwd, encrypted);
      if c.result.Ok? {
        CopyRunCopies(w, i.state, dir, cwd, encrypted);
        StageEachFrame(w, c.state, cwd, encrypted);
        var g := StageEach(w, c.state, cwd, encrypted);
        var m := CommitRun(w, g.state, cwd, Some(RESTORED_MESSAGE));
        if g.result.Ok? && m.result.Ok? {
          HooksInstalledFiles(w, m.state, cwd);
        }
      }
    }
  }

  /** installHooks changes no file. */
  lemma HooksInstalledFiles(w: World, s: State, cwd: Path)
    ensures InstallRun(w, s, cwd).state.files == s.files
  {
    var c := ShellStep(w, s, "which git-crypt");
    if c.result.Ok? {
      SetEachFiles(w, c.state, cwd, HookEntries(c.result.value));
    }
  }

  lemma {:induction false} SetEachFiles(w: World, s: State, cwd: Path, entries: seq<ConfigEntry>)
    ensures SetEach(w, s, cwd, entries).state.files == s.files
    decreases |entries|
  {
    if entries != [] {
      SetEachFiles(w, s, cwd, entries[..|entries| - 1]);
    }
  }

  /** When the restoring half succeeds the hooks are installed over the
      configuration it started from. */
  lemma RestoreHooks(w: World, s: State, cwd: Path, dir: Path, encrypted: seq<Option<Path>>)
    requires ConfigValid(s.config)
    requires RestoreRun(w, s, cwd, dir, encrypted).result.Ok?
    ensures var c := RestoreRun(w, s, cwd, dir, encrypted).state.config;
            (forall k :: 0 <= k < |HOOK_KEYS| ==> Lookup(c, HOOK_KEYS[k]) == Some(HookEntries(w.gitCryptCommand)[k].value))
            && (forall other :: other !in HOOK_KEYS ==> Lookup(c, other) == Lookup(s.config, other))
  {
    var i := InitRun(w, s, cwd);
    CopyRunConfig(w, i.state, dir, cwd, encrypted);
    var c := CopyRun(w, i.state, dir, cwd, encrypted);
    StageEachFrame(w, c.state, cwd, encrypted);
    var g := StageEach(w, c.state, cwd, encrypted);
    var m := CommitRun(w, g.state, cwd, Some(RESTORED_MESSAGE));
    assert m.state.config == s.config;
    assert RestoreRun(w, s, cwd, dir, encrypted) == InstallRun(w, m.state, cwd);
    HooksInstalled(w, m.state, cwd);
  }

  /** The copy back never touches the configuration. */
  lemma CopyRunConfig(w: World, s: State, source: Path, target: Path, paths: seq<Option<Path>>)
    ensures CopyRun(w, s, source, target, paths).state.config == s.config
  {
    CopyRunFrame(w, s, source, target, paths);
  }

  /** The paths the one getStatus call reports as encrypted. */
  function StatusEncrypted(w: World): seq<Option<Path>>
  {
    Classify(ParseLines(StatusLines(w))).encrypted
  }

  /** The directory the backup goes to: mkdtemp's name right after getStatus. */
  function RotateDir(w: World, s: State, cwd: Path): Path
  {
    BackupDirFor(w, Logged(s, Exec("git", StatusArgs(), cwd)))
  }

  /** The `try` block of rotateKey, with the value `backupDir` holds when it
      ends: set only once backupFiles has returned. */
  function RotateBody(w: World, s: State, cwd: Path): (Outcome<()>, Option<Path>)
  {
    var st := GetStatusRun(w, s, cwd);
    if st.result.Err? then (Outcome(st.state, Err(st.result.error)), None)
    else
      var encrypted := st.result.value.encrypted;
      var b := BackupRun(w, st.state, cwd, encrypted);
      if b.result.Err? then (Outcome(b.state, Err(b.result.error)), None)
      else
        var c := ClearRun(w, b.state, cwd, encrypted);
        if c.result.Err? then (c, Some(b.result.value))
        else (RestoreRun(w, c.state, cwd, b.result.value, encrypted), Some(b.result.value))
  }

  /** rotateKey: the `try` block, then the `finally` removing `backupDir`;
      whatever the block threw is thrown again. */
  function RotateRun(w: World, s: State, cwd: Path): Outcome<()>
  {
    var body := RotateBody(w, s, cwd);
    Outcome(RimrafStep(body.0.state, body.1).state, body.0.result)
  }

  /** The calls of the `try` block when nothing fails, in order: status,
      backup, the deleting half, the restoring half. */
  function RotatePlan(w: World, s: State, cwd: Path): seq<Op>
  {
    var encrypted := StatusEncrypted(w);
    var dir := RotateDir(w, s, cwd);
    [Exec("git", StatusArgs(), cwd)]
    + (([MakeTemp(BackupPrefix(w))] + CopyPlan(cwd, dir, encrypted))
       + (ClearPlan(s.config, cwd, encrypted) + RestorePlan(w, cwd, dir, encrypted)))
  }

  /** rotateKey's calls follow the plan, cut short at the first that throws,
      and the removal of the backup directory is always the last call. */
  lemma RotateLog(w: World, s: State, cwd: Path)
    requires ConfigValid(s.config)
    ensures var o := RotateRun(w, s, cwd);
            var body := RotateBody(w, s, cwd);
            o.state.log == body.0.state.log + [RemoveTree(body.1)]
            && Follows(s.log, body.0, RotatePlan(w, s, cwd))
  {
    var encrypted := StatusEncrypted(w);
    var st := GetStatusRun(w, s, cwd);
    var dir := RotateDir(w, s, cwd);
    var p1 := [Exec("git", StatusArgs(), cwd)];
    var p2 := [MakeTemp(BackupPrefix(w))] + CopyPlan(cwd, dir, encrypted);
    var p3 := ClearPlan(s.config, cwd, encrypted);
    var p4 := RestorePlan(w, cwd, dir, encrypted);
    var body := RotateBody(w, s, cwd).0;
    TracedAll(s.log, p1);
    if st.result.Err? {
      TracedMore(s.log, st.state.log, p1, p2 + (p3 + p4));
      return;
    }
    var b := BackupRun(w, st.state, cwd, encrypted);
    BackupFrame(w, st.state, cwd, encrypted);
    if b.result.Err? {
      TracedMore(st.state.log, b.state.log, p2, p3 + p4);
      TracedThen(s.log, st.state.log, b.state.log, p1, p2 + (p3 + p4));
      return;
    }
    var c := ClearRun(w, b.state, cwd, encrypted);
    ClearLog(w, b.state, cwd, encrypted);
    var r := RestoreRun(w, c.state, cwd, dir, encrypted);
    if c.result.Ok? {
      RestoreLog(w, c.state, cwd, dir, encrypted);
    }
    FollowsThen(b.state.log, c, r, p3, p4);
    assert body == if c.result.Err? then c else r;
    FollowsAfter(st.state.log, b.state.log, body, p2, p3 + p4);
    FollowsAfter(s.log, st.state.log, body, p1, p2 + (p3 + p4));
  }

  /** `backupDir` is set exactly when the status and the backup succeeded; it
      is then the fresh directory inside the temporary directory, and after the
      `finally` nothing is left inside it. When it was never set the `finally`
      removes nothing, so a backup that threw part way stays behind, and the
      call throws. */
  lemma RotateCleansUp(w: World, s: State, cwd: Path)
    ensures var o := RotateRun(w, s, cwd);
            var body := RotateBody(w, s, cwd);
            var st := GetStatusRun(w, s, cwd);
            (body.1.Some? <==> st.result.Ok? && BackupRun(w, st.state, cwd, st.result.value.encrypted).result.Ok?)
            && (body.1.Some? ==>
                  body.1.value == RotateDir(w, s, cwd) && Under(body.1.value, w.tmp) && Fresh(o.state.files, body.1.value))
            && (body.1.None? ==> o.result.Err? && o.state.files == body.0.state.files)
  {
    var st := GetStatusRun(w, s, cwd);
    if st.result.Ok? {
      BackupFrame(w, st.state, cwd, st.result.value.encrypted);
      PrefixUnder(BackupPrefix(w), w.tmp, Digits(|st.state.log|));
    }
  }

  /** Whenever `backupDir` was set, rotateKey leaves everything outside the
      work tree as it found it, the backup included. */
  lemma RotateKeepsOutside(w: World, s: State, cwd: Path)
    requires ConfigValid(s.config) && Apart(cwd, RotateDir(w, s, cwd))
    requires RotateBody(w, s, cwd).1.Some?
    ensures var o := RotateRun(w, s, cwd);
            (forall q :: !Under(q, cwd) ==> (q in o.state.files <==> q in s.files))
            && (forall q :: q in s.files && !Under(q, cwd) ==> o.state.files[q] == s.files[q])
  {
    var encrypted := StatusEncrypted(w);
    var st := GetStatusRun(w, s, cwd);
    var dir := RotateDir(w, s, cwd);
    var b := BackupRun(w, st.state, cwd, encrypted);
    BackupFrame(w, st.state, cwd, encrypted);
    PrefixUnder(BackupPrefix(w), w.tmp, Digits(|st.state.log|));
    var c := ClearRun(w, b.state, cwd, encrypted);
    ClearFiles(w, b.state, cwd, encrypted);
    var r := RestoreRun(w, c.state, cwd, dir, encrypted);
    RestoreFiles(w, c.state, cwd, dir, encrypted);
    var body := RotateBody(w, s, cwd).0;
    assert body == if c.result.Err? then c else r;
    var o := RotateRun(w, s, cwd);
    assert o.state.files == RemovedTree(body.state.files, dir);
  }

  /** A rotation that succeeds puts every encrypted file back with the content
      it had before, and leaves the hooks installed over the configuration it
      started from. */
  lemma RotateRestores(w: World, s: State, cwd: Path)
    requires ConfigValid(s.config) && Apart(cwd, RotateDir(w, s, cwd))
    requires RotateRun(w, s, cwd).result.Ok?
    ensures var o := RotateRun(w, s, cwd);
            var encrypted := StatusEncrypted(w);
            AllDefined(encrypted)
            && (forall k :: 0 <= k < |encrypted| ==>
                  var p := JoinPath(cwd, encrypted[k].value);
                  p in s.files && p in o.state.files && o.state.files[p] == s.files[p])
            && (forall k :: 0 <= k < |HOOK_KEYS| ==>
                  Lookup(o.state.config, HOOK_KEYS[k]) == Some(HookEntries(w.gitCryptCommand)[k].value))
            && (forall other :: other !in HOOK_KEYS ==> Lookup(o.state.config, other) == Lookup(s.config, other))
  {
    var encrypted := StatusEncrypted(w);
    var st := GetStatusRun(w, s, cwd);
    var dir := RotateDir(w, s, cwd);
    var b := BackupRun(w, st.state, cwd, encrypted);
    BackupFrame(w, st.state, cwd, encrypted);
    BackupRunCopies(w, st.state, cwd, encrypted);
    var c := ClearRun(w, b.state, cwd, encrypted);
    ClearFiles(w, b.state, cwd, encrypted);
    ClearLog(w, b.state, cwd, encrypted);
    ClearConfig(w, b.state, cwd, encrypted);
    var r := RestoreRun(w, c.state, cwd, dir, encrypted);
    RestoreFiles(w, c.state, cwd, dir, encrypted);
    RestoreHooks(w, c.state, cwd, dir, encrypted);
    var o := RotateRun(w, s, cwd);
    assert o.state.files == RemovedTree(r.state.files, dir);
    forall k | 0 <= k < |encrypted|
      ensures var p := JoinPath(cwd, encrypted[k].value); p in o.state.files && o.state.files[p] == s.files[p]
    {
      var p := JoinPath(cwd, encrypted[k].value);
      var q := JoinPath(dir, encrypted[k].value);
      ApartPaths(dir, cwd, q);
      ApartPaths(cwd, dir, p);
    }
  }

  /** The statements of rotateKey from the delete loop to the second commit. */
  method ClearRepository(h: Host, cwd: Path, encrypted: seq<Option<Path>>) returns (r: Result<()>)
    modifies h
    ensures var o := ClearRun(h.world, old(h.Snapshot()), cwd, encrypted); h.Snapshot() == o.state && r == o.result
  {
    r := UnlinkEncrypted(h, cwd, encrypted);
    if r.Err? {
      return;
    }
    r := CommitChanges(h, cwd, Some(DELETED_MESSAGE));
    if r.Err? {
      return;
    }
    r := RemoveHooks(h, cwd);
    if r.Err? {
      return;
    }
    h.Rimraf(Some(JoinPath(cwd, VAULT_DIR)));
    h.Rimraf(Some(JoinPath(cwd, GIT_VAULT_DIR)));
    r := CommitChanges(h, cwd, Some(RM_MESSAGE));
  }

  /** The statements of rotateKey from init to installHooks. */
  method RestoreRepository(h: Host, cwd: Path, dir: Path, encrypted: seq<Option<Path>>) returns (r: Result<()>)
    modifies h
    ensures var o := RestoreRun(h.world, old(h.Snapshot()), cwd, dir, encrypted); h.Snapshot() == o.state && r == o.result
  {
    r := Init(h, cwd);
    if r.Err? {
      return;
    }
    r := CopyFiles(h, dir, cwd, encrypted);
    if r.Err? {
      return;
    }
    r := StageEncrypted(h, cwd, encrypted);
    if r.Err? {
      return;
    }
    r := CommitChanges(h, cwd, Some(RESTORED_MESSAGE));
    if r.Err? {
      return;
    }
    r := InstallHooks(h, cwd);
  }

  method RotateKey(h: Host, cwd: Path) returns (r: Result<()>)
    modifies h
    ensures var o := RotateRun(h.world, old(h.Snapshot()), cwd); h.Snapshot() == o.state && r == o.result
  {
    var backupDir: Option<Path> := None;
    var status := GetStatus(h, cwd);
    if status.Err? {
      r := Err(status.error);
    } else {
      var encrypted := status.value.encrypted;
      var backup := BackupFiles(h, cwd, encrypted);
      if backup.Err? {
        r := Err(backup.error);
      } else {
        backupDir := Some(backup.value);
        r := ClearRepository(h, cwd, encrypted);
        if r.Ok? {
          r := RestoreRepository(h, cwd, backup.value, encrypted);
        }
      }
    }
    h.Rimraf(backupDir);
  }

  // ---------------------------------------------------------------------------
  // backupEncryptedFiles

  /** backupEncryptedFiles: getStatus in `cwd`, then a backup of the encrypted
      paths, read relative to `process.cwd()` rather than `cwd`. */
  function BackupEncryptedRun(w: World, s: State, cwd: Path): Outcome<Path>
  {
    var st := GetStatusRun(w, s, cwd);
    if st.result.Err? then Outcome(st.state, Err(st.result.error))
    else BackupRun(w, st.state, w.processCwd, st.result.value.encrypted)
  }

  /** What backupEncryptedFiles copies comes from `process.cwd()`: `cwd`
      decides only where the status is asked. */
  lemma BackupEncryptedSource(w: World, s: State, cwd: Path)
    requires Apart(w.processCwd, RotateDir(w, s, cwd))
    requires BackupEncryptedRun(w, s, cwd).result.Ok?
    ensures var o := BackupEncryptedRun(w, s, cwd);
            var dir := o.result.value;
            var encrypted := StatusEncrypted(w);
            Under(dir, w.tmp) && Fresh(s.files, dir) && AllDefined(encrypted)
            && forall k :: 0 <= k < |encrypted| ==>
                 JoinPath(w.processCwd, encrypted[k].value) in s.files
                 && JoinPath(dir, encrypted[k].value) in o.state.files
                 && o.state.files[JoinPath(dir, encrypted[k].value)] == s.files[JoinPath(w.processCwd, encrypted[k].value)]
  {
    var st := GetStatusRun(w, s, cwd);
    BackupRunCopies(w, st.state, w.processCwd, StatusEncrypted(w));
    BackupFrame(w, st.state, w.processCwd, StatusEncrypted(w));
  }

  method BackupEncryptedFiles(h: Host, cwd: Path) returns (r: Result<Path>)
    modifies h
    ensures var o := BackupEncryptedRun(h.world, old(h.Snapshot()), cwd); h.Snapshot() == o.state && r == o.result
  {
    var status := GetStatus(h, cwd);
    if status.Err? {
      return Err(status.error);
    }
    r := BackupFiles(h, h.world.processCwd, status.value.encrypted);
  }
}
