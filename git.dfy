/** lib/git.js: commits, the cleanliness probe, staging, and reading and
    changing the repository's local git configuration. */
module Git {
  import opened Results
  import opened Text
  import opened Env

  const DEFAULT_MESSAGE: string := "changed files"
  /** What the process layer throws for an argument that is not a string. */
  const ARGS_MESSAGE: string := "The \"args\" argument must be of type string"

  function Strs(xs: seq<string>): (r: seq<Value>)
    ensures |r| == |xs| && forall k :: 0 <= k < |xs| ==> r[k] == Str(xs[k])
  {
    seq(|xs|, k requires 0 <= k < |xs| => Str(xs[k]))
  }

  // ---------------------------------------------------------------------------
  // commitChanges, isClean, stage

  function CommitArgs(msg: string): seq<Value>
  {
    Strs(["commit", "-a", "-m", msg])
  }

  /** `git commit -a -m <msg>`, with the message defaulting when not given. */
  function CommitRun(w: World, s: State, cwd: Path, msg: Option<string>): Outcome<()>
  {
    ExecStep(w, s, "git", CommitArgs(if msg.Some? then msg.value else DEFAULT_MESSAGE), cwd)
  }

  /** A commit records one call carrying its message (DEFAULT_MESSAGE when none is
      given) and changes neither the files nor the configuration. */
  lemma CommitRecordsMessage(w: World, s: State, cwd: Path, msg: Option<string>)
    ensures var o := CommitRun(w, s, cwd, msg);
            var m := if msg.Some? then msg.value else DEFAULT_MESSAGE;
            o.state == s.(log := s.log + [Exec("git", Strs(["commit", "-a", "-m", m]), cwd)])
            && o.state.log[|s.log|].args[3] == Str(m)
            && (o.result.Ok? <==> Exec("git", CommitArgs(m), cwd) !in w.fails)
    ensures CommitRun(w, s, cwd, None) == CommitRun(w, s, cwd, Some("changed files"))
  {
  }

  method CommitChanges(h: Host, cwd: Path, msg: Option<string>) returns (r: Result<()>)
    modifies h
    ensures var o := CommitRun(h.world, old(h.Snapshot()), cwd, msg); h.Snapshot() == o.state && r == o.result
  {
    var m := if msg.Some? then msg.value else DEFAULT_MESSAGE;
    r := h.Run("git", CommitArgs(m), cwd);
  }

  function DiffIndexArgs(): seq<Value>
  {
    Strs(["diff-index", "--quiet", "HEAD", "--"])
  }

  /** isClean: `git diff-index` with `reject: false` never throws; the tree is
      clean exactly when it exits with 0. */
  function CleanRun(w: World, s: State, cwd: Path): (o: Outcome<bool>)
    ensures o.result.Ok? && (o.result.value <==> w.diffIndexCode == 0)
    ensures o.state == Logged(s, Exec("git", DiffIndexArgs(), cwd))
  {
    Outcome(Logged(s, Exec("git", DiffIndexArgs(), cwd)), Ok(w.diffIndexCode == 0))
  }

  method IsClean(h: Host, cwd: Path) returns (clean: bool)
    modifies h
    ensures var o := CleanRun(h.world, old(h.Snapshot()), cwd); h.Snapshot() == o.state && clean == o.result.value
  {
    h.log := h.log + [Exec("git", DiffIndexArgs(), cwd)];
    clean := h.world.diffIndexCode == 0;
  }

  /** stage: `git add <filePath>`; a missing path is refused before the call. */
  function StageRun(w: World, s: State, cwd: Path, filePath: Option<Path>): Outcome<()>
  {
    match filePath
    case None => Outcome(s, Err(TypeError(ARGS_MESSAGE)))
    case Some(p) => ExecStep(w, s, "git", Strs(["add", p]), cwd)
  }

  method Stage(h: Host, cwd: Path, filePath: Option<Path>) returns (r: Result<()>)
    modifies h
    ensures var o := StageRun(h.world, old(h.Snapshot()), cwd, filePath); h.Snapshot() == o.state && r == o.result
  {
    if filePath.None? {
      return Err(TypeError(ARGS_MESSAGE));
    }
    r := h.Run("git", Strs(["add", filePath.value]), cwd);
  }

  // ---------------------------------------------------------------------------
  // The local configuration

  /** How many values `key` holds: git refuses to set or unset a key that holds
      more than one, exiting with status 5. */
  function ValueCount(config: seq<ConfigEntry>, key: string): (r: nat)
    ensures r == 0 <==> key !in ConfigKeys(config)
  {
    if config == [] then 0
    else
      assert ConfigKeys(config[1..]) == ConfigKeys(config)[1..];
      (if config[0].key == key then 1 else 0) + ValueCount(config[1..], key)
  }

  /** The first value stored under `key`. */
  function Lookup(config: seq<ConfigEntry>, key: string): (r: Option<Value>)
    ensures r.Some? <==> key in ConfigKeys(config)
  {
    if config == [] then None
    else if config[0].key == key then Some(config[0].value)
    else Lookup(config[1..], key)
  }

  /** What `git config --local --list --name-only` prints: one key per line. */
  function ConfigListing(config: seq<ConfigEntry>): string
  {
    Join(ConfigKeys(config), "\n")
  }

  function ListArgs(): seq<Value>
  {
    Strs(["config", "--local", "--list", "--name-only"])
  }

  /** The listing of a valid configuration parses back to its keys, in order. */
  lemma ListingParses(config: seq<ConfigEntry>)
    ensures ConfigValid(config) ==> TrimmedLines(ConfigListing(config)) == ConfigKeys(config)
  {
    if ConfigValid(config) {
      var keys := ConfigKeys(config);
      if keys == [] {
        TrimmedLinesEmpty();
      } else {
        TrimmedLinesOfJoin(keys);
      }
    }
  }

  /** listLocalConfigKeys: the trimmed, non-empty lines of the listing, which
      for a valid configuration are exactly its keys, in order. */
  function ListKeysRun(w: World, s: State, cwd: Path): (o: Outcome<seq<string>>)
    ensures o.state == Logged(s, Exec("git", ListArgs(), cwd))
    ensures o.result.Ok? <==> Exec("git", ListArgs(), cwd) !in w.fails
    ensures o.result.Err? ==> o.result.error == ToolFailed("git")
    ensures o.result.Ok? && ConfigValid(s.config) ==> o.result.value == ConfigKeys(s.config)
  {
    ListingParses(s.config);
    var o := ExecStep(w, s, "git", ListArgs(), cwd);
    if o.result.Err? then Outcome(o.state, Err(o.result.error))
    else Outcome(o.state, Ok(TrimmedLines(ConfigListing(s.config))))
  }

  method ListLocalConfigKeys(h: Host, cwd: Path) returns (r: Result<seq<string>>)
    modifies h
    ensures var o := ListKeysRun(h.world, old(h.Snapshot()), cwd); h.Snapshot() == o.state && r == o.result
  {
    var ran := h.Run("git", ListArgs(), cwd);
    if ran.Err? {
      return Err(ran.error);
    }
    r := Ok(TrimmedLines(ConfigListing(h.config)));
  }

  /** The configuration with every entry for `key` removed. */
  function Without(config: seq<ConfigEntry>, key: string): (r: seq<ConfigEntry>)
    ensures |r| <= |config|
    ensures forall k :: 0 <= k < |r| ==> r[k] in config && r[k].key != key
  {
    if config == [] then []
    else (if config[0].key == key then [] else [config[0]]) + Without(config[1..], key)
  }

  function UnsetArgs(key: string): seq<Value>
  {
    Strs(["config", "--local", "--unset", key])
  }

  /** unsetLocalConfig: list the keys, and unset `key` only if it is listed;
      git refuses to unset a key with several values. */
  function UnsetRun(w: World, s: State, cwd: Path, key: string): Outcome<()>
  {
    var l := ListKeysRun(w, s, cwd);
    if l.result.Err? then Outcome(l.state, Err(l.result.error))
    else if key !in l.result.value then Outcome(l.state, Ok(()))
    else
      UnsetStep(w, l.state, cwd, key)
  }

  /** The `git config --unset` call: git drops the key's one value, and exits with
      status 5 when the key holds several. */
  function UnsetStep(w: World, s: State, cwd: Path, key: string): (o: Outcome<()>)
    ensures o.state.log == s.log + [Exec("git", UnsetArgs(key), cwd)] && o.state.files == s.files
    ensures o.result.Ok? <==> Exec("git", UnsetArgs(key), cwd) !in w.fails && ValueCount(s.config, key) <= 1
    ensures o.result.Err? ==> o.result.error == ToolFailed("git") && o.state.config == s.config
    ensures o.result.Ok? ==> o.state.config == Without(s.config, key)
  {
    var e := ExecStep(w, s, "git", UnsetArgs(key), cwd);
    if e.result.Err? then e
    else if ValueCount(s.config, key) > 1 then Outcome(e.state, Err(ToolFailed("git")))
    else Outcome(e.state.(config := Without(s.config, key)), Ok(()))
  }

  /** The calls unsetLocalConfig makes when nothing fails. */
  function UnsetPlan(config: seq<ConfigEntry>, cwd: Path, key: string): seq<Op>
  {
    [Exec("git", ListArgs(), cwd)] + if key in ConfigKeys(config) then [Exec("git", UnsetArgs(key), cwd)] else []
  }

  lemma WithoutAbsent(config: seq<ConfigEntry>, key: string)
    requires key !in ConfigKeys(config)
    ensures Without(config, key) == config
  {
    if config != [] {
      assert ConfigKeys(config[1..]) == ConfigKeys(config)[1..];
      WithoutAbsent(config[1..], key);
    }
  }

  lemma {:induction false} WithoutKeeps(config: seq<ConfigEntry>, key: string, other: string)
    requires other != key
    ensures Lookup(Without(config, key), other) == Lookup(config, other)
    decreases |config|
  {
    if config != [] {
      WithoutKeeps(config[1..], key, other);
      var head := if config[0].key == key then [] else [config[0]];
      var rest := Without(config[1..], key);
      assert Without(config, key) == head + rest;
      if head != [] {
        assert (head + rest)[1..] == rest;
      } else {
        assert head + rest == rest;
      }
    } else {
      assert ConfigKeys([]) == [];
    }
  }

  lemma {:induction false} WithoutValid(config: seq<ConfigEntry>, key: string)
    requires ConfigValid(config)
    ensures ConfigValid(Without(config, key))
    decreases |config|
  {
    if config != [] {
      WithoutValid(config[1..], key);
      var rest := Without(config[1..], key);
      if config[0].key != key {
        assert Without(config, key) == [config[0]] + rest;
      }
    }
  }

  lemma AppendPair<T>(xs: seq<T>, x: T, y: T)
    ensures xs + [x] + [y] == xs + [x, y]
  {
  }

  /** The three ways unsetLocalConfig can go. */
  lemma UnsetCases(w: World, s: State, cwd: Path, key: string)
    requires ConfigValid(s.config)
    ensures var o := UnsetRun(w, s, cwd, key);
            var list := Exec("git", ListArgs(), cwd);
            var unset := Exec("git", UnsetArgs(key), cwd);
            (list in w.fails ==> o == Outcome(Logged(s, list), Err(ToolFailed("git"))))
            && (list !in w.fails && key !in ConfigKeys(s.config) ==> o == Outcome(Logged(s, list), Ok(())))
            && (list !in w.fails && key in ConfigKeys(s.config) ==>
                  o.state.log == s.log + [list, unset] && o.state.files == s.files
                  && (o.result.Ok? <==> unset !in w.fails && ValueCount(s.config, key) <= 1)
                  && (o.result.Err? ==> o.state.config == s.config))
  {
    var list := Exec("git", ListArgs(), cwd);
    var unset := Exec("git", UnsetArgs(key), cwd);
    if list !in w.fails {
      AppendPair(s.log, list, unset);
    }
  }

  /** The log of a run that makes the first call of `plan`, or all of it. */
  lemma PlanPrefix(s: State, o: State, plan: seq<Op>, failed: bool)
    requires |plan| >= 1
    requires failed ==> o.log == s.log + plan[..1]
    requires !failed ==> o.log == s.log + plan
    ensures s.log <= o.log && o.log[|s.log|..] <= plan
    ensures !failed ==> o.log == s.log + plan
  {
    if failed {
      Extended(s.log, plan[..1]);
    } else {
      Extended(s.log, plan);
    }
  }

  /** Dropping a key from a valid configuration keeps it valid, removes the
      key and keeps every other value. */
  lemma WithoutEffect(config: seq<ConfigEntry>, key: string)
    requires ConfigValid(config)
    ensures var c := Without(config, key);
            ConfigValid(c) && key !in ConfigKeys(c)
            && (forall other :: other != key ==> Lookup(c, other) == Lookup(config, other))
  {
    var c := Without(config, key);
    WithoutValid(config, key);
    forall other | other != key ensures Lookup(c, other) == Lookup(config, other) {
      WithoutKeeps(config, key, other);
    }
    assert forall k :: 0 <= k < |c| ==> ConfigKeys(c)[k] != key;
  }

  /** The unset call is made exactly when the key was listed, so an absent key
      costs one listing and nothing else; no file changes, and a failed call
      leaves the configuration as it was. */
  lemma UnsetCalls(w: World, s: State, cwd: Path, key: string)
    requires ConfigValid(s.config)
    ensures var o := UnsetRun(w, s, cwd, key);
            s.log <= o.state.log && o.state.log[|s.log|..] <= UnsetPlan(s.config, cwd, key)
            && (o.result.Ok? ==> o.state.log == s.log + UnsetPlan(s.config, cwd, key))
            && o.state.files == s.files
            && (o.result.Err? ==> o.state.config == s.config)
  {
    var o := UnsetRun(w, s, cwd, key);
    var list := Exec("git", ListArgs(), cwd);
    var unset := Exec("git", UnsetArgs(key), cwd);
    var plan := UnsetPlan(s.config, cwd, key);
    UnsetCases(w, s, cwd, key);
    if list in w.fails {
      assert o.state == Logged(s, list);
      assert plan[..1] == [list];
      PlanPrefix(s, o.state, plan, true);
    } else if key in ConfigKeys(s.config) {
      assert plan == [list, unset];
      assert o.state.log == s.log + plan;
      PlanPrefix(s, o.state, plan, false);
    } else {
      assert o.state == Logged(s, list);
      assert plan == [list];
      PlanPrefix(s, o.state, plan, false);
    }
  }

  /** After a successful unsetLocalConfig the key is gone, every other key keeps
      its value, and an absent key leaves the configuration unchanged. */
  lemma UnsetConfig(w: World, s: State, cwd: Path, key: string)
    requires ConfigValid(s.config)
    requires UnsetRun(w, s, cwd, key).result.Ok?
    ensures var c := UnsetRun(w, s, cwd, key).state.config;
            ConfigValid(c) && key !in ConfigKeys(c)
            && (forall other :: other != key ==> Lookup(c, other) == Lookup(s.config, other))
            && (key !in ConfigKeys(s.config) ==> c == s.config)
  {
    var c := UnsetRun(w, s, cwd, key).state.config;
    if key in ConfigKeys(s.config) {
      assert c == Without(s.config, key);
      WithoutEffect(s.config, key);
    }
  }

  /** Unsetting twice leaves the configuration as unsetting once. */
  lemma UnsetIdempotent(w: World, s: State, cwd: Path, key: string)
    requires ConfigValid(s.config)
    requires UnsetRun(w, s, cwd, key).result.Ok?
    ensures var once := UnsetRun(w, s, cwd, key);
            var twice := UnsetRun(w, once.state, cwd, key);
            twice.state.config == once.state.config
            && twice.state.log == once.state.log + [Exec("git", ListArgs(), cwd)]
  {
    var once := UnsetRun(w, s, cwd, key);
    UnsetConfig(w, s, cwd, key);
    UnsetCalls(w, once.state, cwd, key);
  }

  method UnsetLocalConfig(h: Host, cwd: Path, key: string) returns (r: Result<()>)
    modifies h
    ensures var o := UnsetRun(h.world, old(h.Snapshot()), cwd, key); h.Snapshot() == o.state && r == o.result
  {
    ghost var s0 := h.Snapshot();
    var keys := ListLocalConfigKeys(h, cwd);
    assert h.Snapshot() == ListKeysRun(h.world, s0, cwd).state && h.config == s0.config;
    if keys.Err? {
      return Err(keys.error);
    }
    if key in keys.value {
      r := h.Run("git", UnsetArgs(key), cwd);
      if r.Ok? {
        if ValueCount(h.config, key) > 1 {
          r := Err(ToolFailed("git"));
        } else {
          h.config := Without(h.config, key);
        }
      }
    } else {
      r := Ok(());
    }
  }

  /** setLocalConfig's argument vector: `--bool` follows `--local` exactly when the
      value is a boolean. */
  function SetArgs(key: string, value: Value): (r: seq<Value>)
    ensures |r| == (if value.Bool? then 5 else 4)
    ensures r[..2] == [Str("config"), Str("--local")] && r[|r| - 2..] == [Str(key), value]
    ensures value.Bool? ==> r[2] == Str("--bool")
  {
    [Str("config"), Str("--local")] + (if value.Bool? then [Str("--bool")] else []) + [Str(key), value]
  }

  /** How git reads such a vector back: the key and the value it stores. */
  function ParseSetArgs(args: seq<Value>): Option<(string, Value)>
  {
    if |args| == 5 && args[..3] == [Str("config"), Str("--local"), Str("--bool")] && args[3].Str? && args[4].Bool?
    then Some((args[3].s, args[4]))
    else if |args| == 4 && args[..2] == [Str("config"), Str("--local")] && args[2].Str? && args[3].Str?
    then Some((args[2].s, args[3]))
    else None
  }

  lemma SetArgsParse(key: string, value: Value)
    ensures ParseSetArgs(SetArgs(key, value)) == Some((key, value))
  {
    var args := SetArgs(key, value);
    if value.Bool? {
      assert args[..3] == [Str("config"), Str("--local"), Str("--bool")];
      assert args[3] == Str(key);
    } else {
      assert args[2] == Str(key);
    }
  }

  /** The configuration after git stores `value` under `key`: the entry is
      replaced where it is, or appended. */
  function Put(config: seq<ConfigEntry>, key: string, value: Value): (r: seq<ConfigEntry>)
    ensures |r| == |config| + (if key in ConfigKeys(config) then 0 else 1)
  {
    if config == [] then [ConfigEntry(key, value)]
    else if config[0].key == key then [ConfigEntry(key, value)] + config[1..]
    else
      assert ConfigKeys(config[1..]) == ConfigKeys(config)[1..];
      [config[0]] + Put(config[1..], key, value)
  }

  /** The stored key answers the new value. */
  lemma {:induction false} PutFinds(config: seq<ConfigEntry>, key: string, value: Value)
    ensures Lookup(Put(config, key, value), key) == Some(value)
    decreases |config|
  {
    if config != [] && config[0].key != key {
      PutFinds(config[1..], key, value);
      var rest := Put(config[1..], key, value);
      assert ([config[0]] + rest)[1..] == rest;
    }
  }

  /** Every other key keeps its value. */
  lemma {:induction false} PutKeeps(config: seq<ConfigEntry>, key: string, value: Value, other: string)
    requires other != key
    ensures Lookup(Put(config, key, value), other) == Lookup(config, other)
    decreases |config|
  {
    if config == [] {
      assert ConfigKeys([]) == [];
      assert ([ConfigEntry(key, value)])[1..] == [];
    } else if config[0].key == key {
      assert ([ConfigEntry(key, value)] + config[1..])[1..] == config[1..];
    } else {
      PutKeeps(config[1..], key, value, other);
      var rest := Put(config[1..], key, value);
      assert ([config[0]] + rest)[1..] == rest;
    }
  }

  /** Storing an absent key appends its entry. */
  lemma {:induction false} PutAbsent(config: seq<ConfigEntry>, key: string, value: Value)
    requires key !in ConfigKeys(config)
    ensures Put(config, key, value) == config + [ConfigEntry(key, value)]
    decreases |config|
  {
    if config != [] {
      assert ConfigKeys(config[1..]) == ConfigKeys(config)[1..];
      assert config[0].key == ConfigKeys(config)[0];
      PutAbsent(config[1..], key, value);
      assert [config[0]] + (config[1..] + [ConfigEntry(key, value)]) == config + [ConfigEntry(key, value)];
    }
  }

  /** Storing a present key keeps every entry's key in place. */
  lemma {:induction false} PutPresent(config: seq<ConfigEntry>, key: string, value: Value)
    requires key in ConfigKeys(config)
    ensures var r := Put(config, key, value);
            |r| == |config| && forall k :: 0 <= k < |r| ==> r[k].key == config[k].key
    decreases |config|
  {
    if config[0].key != key {
      var keys := ConfigKeys(config);
      assert ConfigKeys(config[1..]) == keys[1..];
      assert key in keys[1..];
      PutPresent(config[1..], key, value);
      var rest := Put(config[1..], key, value);
      forall k | 0 <= k < |config| ensures ([config[0]] + rest)[k].key == config[k].key {
        if k > 0 {
          assert ([config[0]] + rest)[k] == rest[k - 1];
        }
      }
    }
  }

  /** The keys stay in place; a new key goes last. */
  lemma PutKeys(config: seq<ConfigEntry>, key: string, value: Value)
    ensures ConfigKeys(Put(config, key, value)) ==
            if key in ConfigKeys(config) then ConfigKeys(config) else ConfigKeys(config) + [key]
  {
    if key in ConfigKeys(config) {
      PutPresent(config, key, value);
    } else {
      PutAbsent(config, key, value);
    }
    var r := Put(config, key, value);
    var want := if key in ConfigKeys(config) then ConfigKeys(config) else ConfigKeys(config) + [key];
    assert |ConfigKeys(r)| == |want|;
    forall k | 0 <= k < |want| ensures ConfigKeys(r)[k] == want[k] {
      if k < |config| {
        assert r[k].key == config[k].key;
      }
    }
  }

  /** Storing a valid key keeps every key valid. */
  lemma PutValid(config: seq<ConfigEntry>, key: string, value: Value)
    requires ConfigValid(config) && ValidKey(key)
    ensures ConfigValid(Put(config, key, value))
  {
    var c := Put(config, key, value);
    PutKeys(config, key, value);
    var keys := ConfigKeys(c);
    var old_keys := ConfigKeys(config);
    forall k | 0 <= k < |c| ensures ValidKey(c[k].key) {
      assert c[k].key == keys[k];
      if k < |config| {
        assert keys[k] == old_keys[k] == config[k].key;
      }
    }
  }

  /** setLocalConfig: `git config` with the vector above; git refuses a key that
      is empty or holds white space, and one that already holds several values. */
  function SetRun(w: World, s: State, cwd: Path, key: string, value: Value): Outcome<()>
  {
    var e := ExecStep(w, s, "git", SetArgs(key, value), cwd);
    if e.result.Err? then e
    else if !ValidKey(key) || ValueCount(s.config, key) > 1 then Outcome(e.state, Err(ToolFailed("git")))
    else Outcome(e.state.(config := Put(s.config, key, value)), Ok(()))
  }

  /** After setLocalConfig the key holds the value, other keys are unchanged and
      the configuration stays valid. */
  lemma SetEffect(w: World, s: State, cwd: Path, key: string, value: Value)
    requires ConfigValid(s.config)
    ensures var o := SetRun(w, s, cwd, key, value);
            o.state.log == s.log + [Exec("git", SetArgs(key, value), cwd)]
            && o.state.files == s.files
            && ConfigValid(o.state.config)
            && (o.result.Ok? <==> Exec("git", SetArgs(key, value), cwd) !in w.fails && ValidKey(key) && ValueCount(s.config, key) <= 1)
            && (o.result.Ok? ==>
                  Lookup(o.state.config, key) == Some(value)
                  && (forall other :: other != key ==> Lookup(o.state.config, other) == Lookup(s.config, other)))
            && (o.result.Err? ==> o.state.config == s.config)
  {
    var o := SetRun(w, s, cwd, key, value);
    if o.result.Ok? {
      var c := Put(s.config, key, value);
      assert o.state.config == c;
      forall other | other != key ensures Lookup(c, other) == Lookup(s.config, other) {
        PutKeeps(s.config, key, value, other);
      }
      PutFinds(s.config, key, value);
      PutValid(s.config, key, value);
    }
  }

  method SetLocalConfig(h: Host, cwd: Path, key: string, value: Value) returns (r: Result<()>)
    modifies h
    ensures var o := SetRun(h.world, old(h.Snapshot()), cwd, key, value); h.Snapshot() == o.state && r == o.result
  {
    var flags := [Str("--local")];
    if value.Bool? {
      flags := flags + [Str("--bool")];
    }
    var args := [Str("config")] + flags + [Str(key), value];
    assert args == SetArgs(key, value);
    r := h.Run("git", args, cwd);
    if r.Ok? {
      if !ValidKey(key) || ValueCount(h.config, key) > 1 {
        r := Err(ToolFailed("git"));
      } else {
        h.config := Put(h.config, key, value);
      }
    }
  }
}
