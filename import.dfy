/** bin/import.js: fetch from the keyservers the key of every git-crypt user
    that the local keyring lacks, write it into a fresh temporary directory and
    hand it to `gpg --import`; the directory is removed when everything went
    through. */
module ImportKeys {
  import opened Results
  import opened Env
  import opened Gpg
  import opened Git
  import opened GitCrypt

  const TEMP_PREFIX: string := "git-crypt-users-"
  const KEY_SUFFIX: string := ".pub.gpg"

  function GpgVersionArgs(): seq<Value>
  {
    Strs(["--version"])
  }

  function ImportArgs(keyPath: Path): seq<Value>
  {
    Strs(["--import", keyPath])
  }

  /** Where the key for `keyId` is written inside the temporary directory. */
  function KeyPath(dir: Path, keyId: string): (r: Path)
    ensures Under(r, dir)
  {
    JoinPath(dir, keyId + KEY_SUFFIX)
  }

  /** Different ids are written to different files. */
  lemma KeyPathInjective(dir: Path, a: string, b: string)
    ensures KeyPath(dir, a) == KeyPath(dir, b) ==> a == b
  {
    if KeyPath(dir, a) == KeyPath(dir, b) {
      var p := KeyPath(dir, a);
      assert a + KEY_SUFFIX == p[|dir| + 1..] == b + KEY_SUFFIX;
      assert a == (a + KEY_SUFFIX)[..|a|];
      assert b == (b + KEY_SUFFIX)[..|b|];
    }
  }

  // ---------------------------------------------------------------------------
  // one id

  /** The id is missing from the keyring and a keyserver has its key. */
  predicate Wanted(servers: Keyservers, known: seq<string>, keyId: string)
  {
    keyId !in known && LookupPublicKey(servers, keyId).Ok? && LookupPublicKey(servers, keyId).value != ""
  }

  /** A pass does not throw: the id is known, or the lookup succeeds and either
      finds nothing or is followed by a write and an import that succeed. */
  predicate Passes(w: World, servers: Keyservers, known: seq<string>, dir: Path, keyId: string)
  {
    keyId in known
    || (LookupPublicKey(servers, keyId).Ok?
        && (LookupPublicKey(servers, keyId).value == ""
            || (Write(KeyPath(dir, keyId)) !in w.fails
                && Exec("gpg", ImportArgs(KeyPath(dir, keyId)), w.processCwd) !in w.fails)))
  }

  /** One pass of the loop. A known id is skipped; a key no server has is
      skipped; otherwise the key is written and imported. */
  function ImportOne(w: World, servers: Keyservers, known: seq<string>, dir: Path, s: State, keyId: string): (o: Outcome<()>)
    ensures o.result.Ok? <==> Passes(w, servers, known, dir, keyId)
  {
    if keyId in known then Outcome(s, Ok(()))
    else
      var found := LookupPublicKey(servers, keyId);
      if found.Err? then Outcome(s, Err(found.error))
      else if found.value == "" then Outcome(s, Ok(()))
      else
        var keyPath := KeyPath(dir, keyId);
        var written := WriteFileStep(w, s, keyPath, found.value);
        if written.result.Err? then written
        else ExecStep(w, written.state, "gpg", ImportArgs(keyPath), w.processCwd)
  }

  /** The calls a pass makes when nothing fails: for a wanted id, the write and
      the import; for any other, none. */
  function OnePlan(w: World, servers: Keyservers, known: seq<string>, dir: Path, keyId: string): seq<Op>
  {
    if Wanted(servers, known, keyId)
    then [Write(KeyPath(dir, keyId)), Exec("gpg", ImportArgs(KeyPath(dir, keyId)), w.processCwd)]
    else []
  }

  /** A pass follows its plan, keeps the configuration, and changes at most the
      key file of its id, which holds the key found once the pass succeeded. */
  lemma ImportOneEffect(w: World, servers: Keyservers, known: seq<string>, dir: Path, s: State, keyId: string)
    ensures var o := ImportOne(w, servers, known, dir, s, keyId);
            var keyPath := KeyPath(dir, keyId);
            Follows(s.log, o, OnePlan(w, servers, known, dir, keyId)) && o.state.config == s.config
            && (o.state.files == s.files
                || o.state.files == s.files[keyPath := LookupPublicKey(servers, keyId).value])
            && (o.result.Ok? && Wanted(servers, known, keyId) ==>
                  o.state.files == s.files[keyPath := LookupPublicKey(servers, keyId).value])
            && (!Wanted(servers, known, keyId) ==> o.state == s)
  {
    var o := ImportOne(w, servers, known, dir, s, keyId);
    var plan := OnePlan(w, servers, known, dir, keyId);
    if Wanted(servers, known, keyId) {
      var keyPath := KeyPath(dir, keyId);
      if Write(keyPath) in w.fails {
        assert o.state.log == s.log + [Write(keyPath)];
        assert (s.log + [Write(keyPath)])[|s.log|..] == plan[..1];
      } else {
        assert o.state.log == s.log + plan;
        TracedAll(s.log, plan);
      }
    } else {
      TracedAll(s.log, []);
    }
  }

  // ---------------------------------------------------------------------------
  // the loop

  function ImportAll(w: World, servers: Keyservers, known: seq<string>, dir: Path, s: State, ids: seq<string>): Outcome<()>
  {
    if ids == [] then Outcome(s, Ok(()))
    else
      var prev := ImportAll(w, servers, known, dir, s, ids[..|ids| - 1]);
      if prev.result.Err? then prev else ImportOne(w, servers, known, dir, prev.state, ids[|ids| - 1])
  }

  /** The calls of the whole loop when nothing fails, id by id. */
  function ImportPlan(w: World, servers: Keyservers, known: seq<string>, dir: Path, ids: seq<string>): seq<Op>
  {
    if ids == [] then []
    else ImportPlan(w, servers, known, dir, ids[..|ids| - 1]) + OnePlan(w, servers, known, dir, ids[|ids| - 1])
  }

  /** The loop's calls follow the plan, and it keeps the configuration. */
  lemma {:induction false} ImportAllFollows(w: World, servers: Keyservers, known: seq<string>, dir: Path, s: State, ids: seq<string>)
    ensures var o := ImportAll(w, servers, known, dir, s, ids);
            Follows(s.log, o, ImportPlan(w, servers, known, dir, ids)) && o.state.config == s.config
  {
    if ids == [] {
      TracedAll(s.log, []);
    } else {
      var init := ids[..|ids| - 1];
      var last := ids[|ids| - 1];
      var prev := ImportAll(w, servers, known, dir, s, init);
      ImportAllFollows(w, servers, known, dir, s, init);
      var next := ImportOne(w, servers, known, dir, prev.state, last);
      ImportOneEffect(w, servers, known, dir, prev.state, last);
      FollowsThen(s.log, prev, next, ImportPlan(w, servers, known, dir, init), OnePlan(w, servers, known, dir, last));
    }
  }

  /** The loop writes only inside the temporary directory. */
  lemma {:induction false} ImportAllKeepsOutside(w: World, servers: Keyservers, known: seq<string>, dir: Path, s: State, ids: seq<string>)
    ensures var o := ImportAll(w, servers, known, dir, s, ids);
            (forall q :: !Under(q, dir) ==> (q in o.state.files <==> q in s.files))
            && (forall q :: q in s.files && !Under(q, dir) ==> o.state.files[q] == s.files[q])
  {
    if ids != [] {
      var init := ids[..|ids| - 1];
      var prev := ImportAll(w, servers, known, dir, s, init);
      ImportAllKeepsOutside(w, servers, known, dir, s, init);
      if prev.result.Ok? {
        ImportOneEffect(w, servers, known, dir, prev.state, ids[|ids| - 1]);
      }
    }
  }

  /** After a loop that went through, every wanted id's key file holds the key
      the keyservers gave for it. */
  lemma {:induction false} ImportAllWrites(w: World, servers: Keyservers, known: seq<string>, dir: Path, s: State, ids: seq<string>)
    requires ImportAll(w, servers, known, dir, s, ids).result.Ok?
    ensures var files := ImportAll(w, servers, known, dir, s, ids).state.files;
            forall k :: 0 <= k < |ids| && Wanted(servers, known, ids[k]) ==>
              KeyPath(dir, ids[k]) in files && files[KeyPath(dir, ids[k])] == LookupPublicKey(servers, ids[k]).value
  {
    if ids != [] {
      var init := ids[..|ids| - 1];
      var last := ids[|ids| - 1];
      var prev := ImportAll(w, servers, known, dir, s, init);
      ImportAllWrites(w, servers, known, dir, s, init);
      ImportOneEffect(w, servers, known, dir, prev.state, last);
      var files := ImportAll(w, servers, known, dir, s, ids).state.files;
      forall k | 0 <= k < |ids| && Wanted(servers, known, ids[k])
        ensures KeyPath(dir, ids[k]) in files && files[KeyPath(dir, ids[k])] == LookupPublicKey(servers, ids[k]).value
      {
        KeyPathInjective(dir, ids[k], last);
        if k < |init| {
          assert ids[k] == init[k];
        }
      }
    }
  }

  /** Every id's pass goes through, in order. */
  predicate AllPass(w: World, servers: Keyservers, known: seq<string>, dir: Path, ids: seq<string>)
  {
    ids == [] || (AllPass(w, servers, known, dir, ids[..|ids| - 1]) && Passes(w, servers, known, dir, ids[|ids| - 1]))
  }

  lemma {:induction false} AllPassEach(w: World, servers: Keyservers, known: seq<string>, dir: Path, ids: seq<string>)
    ensures AllPass(w, servers, known, dir, ids) <==> forall k :: 0 <= k < |ids| ==> Passes(w, servers, known, dir, ids[k])
  {
    if ids != [] {
      var init := ids[..|ids| - 1];
      AllPassEach(w, servers, known, dir, init);
      assert forall k :: 0 <= k < |init| ==> ids[k] == init[k];
    }
  }

  lemma {:induction false} ImportAllPasses(w: World, servers: Keyservers, known: seq<string>, dir: Path, s: State, ids: seq<string>)
    ensures ImportAll(w, servers, known, dir, s, ids).result.Ok? <==> AllPass(w, servers, known, dir, ids)
  {
    if ids != [] {
      ImportAllPasses(w, servers, known, dir, s, ids[..|ids| - 1]);
    }
  }

  /** The loop goes through exactly when every pass does. */
  lemma ImportAllComplete(w: World, servers: Keyservers, known: seq<string>, dir: Path, s: State, ids: seq<string>)
    ensures ImportAll(w, servers, known, dir, s, ids).result.Ok?
            <==> forall k :: 0 <= k < |ids| ==> Passes(w, servers, known, dir, ids[k])
  {
    ImportAllPasses(w, servers, known, dir, s, ids);
    AllPassEach(w, servers, known, dir, ids);
  }

  /** The loop never removes a directory. */
  lemma {:induction false} ImportPlanWrites(w: World, servers: Keyservers, known: seq<string>, dir: Path, ids: seq<string>)
    ensures forall op :: op in ImportPlan(w, servers, known, dir, ids) ==> op.Write? || op.Exec?
  {
    if ids != [] {
      ImportPlanWrites(w, servers, known, dir, ids[..|ids| - 1]);
    }
  }

  lemma {:induction false} ImportAllStops(w: World, servers: Keyservers, known: seq<string>, dir: Path, s: State,
                                          ids: seq<string>, n: nat)
    requires n <= |ids| && ImportAll(w, servers, known, dir, s, ids[..n]).result.Err?
    ensures ImportAll(w, servers, known, dir, s, ids) == ImportAll(w, servers, known, dir, s, ids[..n])
  {
    if n < |ids| {
      assert ids[..|ids| - 1][..n] == ids[..n];
      ImportAllStops(w, servers, known, dir, s, ids[..|ids| - 1], n);
    } else {
      assert ids[..n] == ids;
    }
  }

  // ---------------------------------------------------------------------------
  // the script

  function TempPrefix(w: World): Path
  {
    JoinPath(w.tmp, TEMP_PREFIX)
  }

  /** The script: `gpg --version`, mkdtemp, the keyring listing, getUserIds in
      `process.cwd()`, the loop, and rimraf of the temporary directory. Nothing
      removes the directory when a step throws. */
  function ImportScriptRun(w: World, ring: Keyring, servers: Keyservers, s: State): Outcome<()>
  {
    var v := ExecStep(w, s, "gpg", GpgVersionArgs(), w.processCwd);
    if v.result.Err? then v
    else
      var d := MkdtempStep(w, v.state, TempPrefix(w));
      if d.result.Err? then Outcome(d.state, Err(d.result.error))
      else
        var known := ListKnownPublicKeys(ring.listing);
        if known.Err? then Outcome(d.state, Err(known.error))
        else ImportRest(w, servers, known.value, d.result.value, d.state)
  }

  /** What follows the keyring listing: getUserIds, the loop, and rimraf. */
  function ImportRest(w: World, servers: Keyservers, known: seq<string>, dir: Path, s: State): Outcome<()>
  {
    var ids := GetUserIdsRun(w, s, w.processCwd);
    if ids.result.Err? then Outcome(ids.state, Err(ids.result.error))
    else
      var a := ImportAll(w, servers, known, dir, ids.state, ids.result.value);
      if a.result.Err? then a else RimrafStep(a.state, Some(dir))
  }

  /** The rest goes through exactly when the key directory can be listed and
      every id's pass goes through. */
  lemma ImportRestSucceeds(w: World, servers: Keyservers, known: seq<string>, dir: Path, s: State)
    ensures var ids := UserIdsOf(w.keyFiles);
            ImportRest(w, servers, known, dir, s).result.Ok?
            <==> ListDir(JoinPath(w.processCwd, USER_KEYS_DIR)) !in w.fails
                 && forall k :: 0 <= k < |ids| ==> Passes(w, servers, known, dir, ids[k])
  {
    var ids := GetUserIdsRun(w, s, w.processCwd);
    if ids.result.Ok? {
      ImportAllComplete(w, servers, known, dir, ids.state, ids.result.value);
    }
  }

  /** When the rest throws, none of its calls removes a directory. */
  lemma ImportRestNoRemoval(w: World, servers: Keyservers, known: seq<string>, dir: Path, s: State)
    requires ImportRest(w, servers, known, dir, s).result.Err?
    ensures var o := ImportRest(w, servers, known, dir, s);
            s.log <= o.state.log && forall op :: op in o.state.log[|s.log|..] ==> !op.RemoveTree?
  {
    var o := ImportRest(w, servers, known, dir, s);
    var ids := GetUserIdsRun(w, s, w.processCwd);
    var list := ListDir(JoinPath(w.processCwd, USER_KEYS_DIR));
    if ids.result.Ok? {
      var plan := ImportPlan(w, servers, known, dir, ids.result.value);
      ImportAllFollows(w, servers, known, dir, ids.state, ids.result.value);
      ImportPlanWrites(w, servers, known, dir, ids.result.value);
      NoRemovalAfter(s.log, ids.state.log, o.state.log, [list], plan);
    } else {
      assert o.state.log[|s.log|..] == [list];
    }
  }

  /** The directory mkdtemp hands out after the version probe. */
  function ImportDir(w: World, s: State): Path
  {
    TempName(Logged(s, Exec("gpg", GpgVersionArgs(), w.processCwd)), TempPrefix(w))
  }

  /** The steps of a run that reaches the loop and their state. */
  lemma ImportScriptSteps(w: World, ring: Keyring, servers: Keyservers, s: State)
    ensures var o := ImportScriptRun(w, ring, servers, s);
            var dir := ImportDir(w, s);
            var known := ListKnownPublicKeys(ring.listing);
            var head := [Exec("gpg", GpgVersionArgs(), w.processCwd), MakeTemp(TempPrefix(w)),
                         ListDir(JoinPath(w.processCwd, USER_KEYS_DIR))];
            var start := State(s.files, s.config, s.log + head);
            (o.result.Ok? ==>
               Fresh(s.files, dir) && known.Ok?
               && ImportAll(w, servers, known.value, dir, start, UserIdsOf(w.keyFiles)).result.Ok?
               && o.state == RimrafStep(ImportAll(w, servers, known.value, dir, start, UserIdsOf(w.keyFiles)).state, Some(dir)).state)
  {
    var v := ExecStep(w, s, "gpg", GpgVersionArgs(), w.processCwd);
    if v.result.Ok? {
      var d := MkdtempStep(w, v.state, TempPrefix(w));
      if d.result.Ok? {
        var ids := GetUserIdsRun(w, d.state, w.processCwd);
        AppendThree(s.log, Exec("gpg", GpgVersionArgs(), w.processCwd), MakeTemp(TempPrefix(w)),
                    ListDir(JoinPath(w.processCwd, USER_KEYS_DIR)));
        assert ids.state == State(s.files, s.config, s.log + [Exec("gpg", GpgVersionArgs(), w.processCwd), MakeTemp(TempPrefix(w)),
                                                              ListDir(JoinPath(w.processCwd, USER_KEYS_DIR))]);
      }
    }
  }

  /** A run that goes through leaves every file as it found it: the temporary
      directory was fresh, the loop wrote only inside it, and it is removed. */
  lemma ImportScriptRestoresFiles(w: World, ring: Keyring, servers: Keyservers, s: State)
    requires ImportScriptRun(w, ring, servers, s).result.Ok?
    ensures ImportScriptRun(w, ring, servers, s).state.files == s.files
            && ImportScriptRun(w, ring, servers, s).state.config == s.config
  {
    var o := ImportScriptRun(w, ring, servers, s);
    var dir := ImportDir(w, s);
    var known := ListKnownPublicKeys(ring.listing);
    var head := [Exec("gpg", GpgVersionArgs(), w.processCwd), MakeTemp(TempPrefix(w)),
                 ListDir(JoinPath(w.processCwd, USER_KEYS_DIR))];
    var start := State(s.files, s.config, s.log + head);
    ImportScriptSteps(w, ring, servers, s);
    var a := ImportAll(w, servers, known.value, dir, start, UserIdsOf(w.keyFiles));
    ImportAllKeepsOutside(w, servers, known.value, dir, start, UserIdsOf(w.keyFiles));
    ImportAllFollows(w, servers, known.value, dir, start, UserIdsOf(w.keyFiles));
    RemovedFresh(s.files, a.state.files, dir);
  }

  /** Removing a fresh directory after writing only inside it restores the
      files. */
  lemma RemovedFresh(before: map<Path, string>, after: map<Path, string>, dir: Path)
    requires Fresh(before, dir)
    requires forall q :: !Under(q, dir) ==> (q in after <==> q in before)
    requires forall q :: q in before && !Under(q, dir) ==> after[q] == before[q]
    ensures RemovedTree(after, dir) == before
  {
    var r := RemovedTree(after, dir);
    assert forall q :: q in r <==> q in before;
    assert forall q :: q in r ==> r[q] == before[q];
  }

  /** A run that goes through makes the version probe, mkdtemp, the listing of
      the key directory, each wanted id's write and import in order, and the
      removal of the temporary directory. */
  lemma ImportScriptCalls(w: World, ring: Keyring, servers: Keyservers, s: State)
    requires ImportScriptRun(w, ring, servers, s).result.Ok?
    ensures var dir := ImportDir(w, s);
            ImportScriptRun(w, ring, servers, s).state.log
            == s.log + [Exec("gpg", GpgVersionArgs(), w.processCwd), MakeTemp(TempPrefix(w)),
                        ListDir(JoinPath(w.processCwd, USER_KEYS_DIR))]
                     + ImportPlan(w, servers, ListKnownPublicKeys(ring.listing).value, dir, UserIdsOf(w.keyFiles))
                     + [RemoveTree(Some(dir))]
  {
    var dir := ImportDir(w, s);
    var known := ListKnownPublicKeys(ring.listing);
    var head := [Exec("gpg", GpgVersionArgs(), w.processCwd), MakeTemp(TempPrefix(w)),
                 ListDir(JoinPath(w.processCwd, USER_KEYS_DIR))];
    var start := State(s.files, s.config, s.log + head);
    ImportScriptSteps(w, ring, servers, s);
    ImportAllFollows(w, servers, known.value, dir, start, UserIdsOf(w.keyFiles));
  }

  /** A run goes through exactly when the version probe, mkdtemp, the keyring
      listing and the key directory listing succeed and every id's pass does. */
  lemma ImportScriptSucceeds(w: World, ring: Keyring, servers: Keyservers, s: State)
    ensures var dir := ImportDir(w, s);
            var known := ListKnownPublicKeys(ring.listing);
            var ids := UserIdsOf(w.keyFiles);
            ImportScriptRun(w, ring, servers, s).result.Ok?
            <==> (Exec("gpg", GpgVersionArgs(), w.processCwd) !in w.fails && MakeTemp(TempPrefix(w)) !in w.fails
                  && Fresh(s.files, dir) && known.Ok? && ListDir(JoinPath(w.processCwd, USER_KEYS_DIR)) !in w.fails
                  && forall k :: 0 <= k < |ids| ==> Passes(w, servers, known.value, dir, ids[k]))
  {
    var v := ExecStep(w, s, "gpg", GpgVersionArgs(), w.processCwd);
    if v.result.Ok? {
      var d := MkdtempStep(w, v.state, TempPrefix(w));
      var known := ListKnownPublicKeys(ring.listing);
      if d.result.Ok? && known.Ok? {
        ImportRestSucceeds(w, servers, known.value, d.result.value, d.state);
      }
    }
  }

  /** A run that throws never removes the temporary directory: its calls are a
      prefix of the plan without the final removal. */
  lemma ImportScriptKeepsTempOnError(w: World, ring: Keyring, servers: Keyservers, s: State)
    requires ImportScriptRun(w, ring, servers, s).result.Err?
    ensures var o := ImportScriptRun(w, ring, servers, s);
            s.log <= o.state.log && forall op :: op in o.state.log[|s.log|..] ==> !op.RemoveTree?
  {
    var o := ImportScriptRun(w, ring, servers, s);
    var version := Exec("gpg", GpgVersionArgs(), w.processCwd);
    var v := ExecStep(w, s, "gpg", GpgVersionArgs(), w.processCwd);
    if v.result.Ok? {
      var d := MkdtempStep(w, v.state, TempPrefix(w));
      var known := ListKnownPublicKeys(ring.listing);
      if d.result.Ok? && known.Ok? {
        var mk := MakeTemp(TempPrefix(w));
        ImportRestNoRemoval(w, servers, known.value, d.result.value, d.state);
        NoRemovalAfter(s.log, d.state.log, o.state.log, [version, mk], []);
      } else {
        assert o.state.log[|s.log|..] == [version, MakeTemp(TempPrefix(w))];
      }
    } else {
      assert o.state.log[|s.log|..] == [version];
    }
  }

  /** Steps without removals, then a stretch that traces a plan without
      removals, log no removal. */
  lemma NoRemovalAfter(a: seq<Op>, b: seq<Op>, c: seq<Op>, head: seq<Op>, plan: seq<Op>)
    requires b == a + head && b <= c
    requires forall op :: op in head ==> !op.RemoveTree?
    requires (forall op :: op in c[|b|..] ==> !op.RemoveTree?) || (c[|b|..] <= plan && forall op :: op in plan ==> op.Write? || op.Exec?)
    ensures a <= c && forall op :: op in c[|a|..] ==> !op.RemoveTree?
  {
    assert c[|a|..] == head + c[|b|..];
    if c[|b|..] <= plan {
      forall op | op in c[|b|..] ensures op in plan {
        var k :| 0 <= k < |c[|b|..]| && c[|b|..][k] == op;
        assert plan[k] == op;
      }
    }
  }

  method ImportScript(h: Host, ring: Keyring, servers: Keyservers) returns (r: Result<()>)
    modifies h
    ensures var o := ImportScriptRun(h.world, ring, servers, old(h.Snapshot())); h.Snapshot() == o.state && r == o.result
  {
    var version := h.Run("gpg", GpgVersionArgs(), h.world.processCwd);
    if version.Err? {
      return version;
    }
    var tempDir := h.Mkdtemp(TempPrefix(h.world));
    if tempDir.Err? {
      return Err(tempDir.error);
    }
    var known := ListKnownPublicKeys(ring.listing);
    if known.Err? {
      return Err(known.error);
    }
    r := ImportUsers(h, servers, known.value, tempDir.value);
  }

  /** getUserIds, the loop and rimraf. */
  method ImportUsers(h: Host, servers: Keyservers, known: seq<string>, dir: Path) returns (r: Result<()>)
    modifies h
    ensures var o := ImportRest(h.world, servers, known, dir, old(h.Snapshot())); h.Snapshot() == o.state && r == o.result
  {
    var userIds := GetUserIds(h, h.world.processCwd);
    if userIds.Err? {
      return Err(userIds.error);
    }
    var ids := userIds.value;
    ghost var s1 := h.Snapshot();
    for i := 0 to |ids|
      invariant ImportAll(h.world, servers, known, dir, s1, ids[..i]) == Outcome(h.Snapshot(), Ok(()))
    {
      assert ids[..i + 1][..i] == ids[..i];
      var passed := ImportKey(h, servers, known, dir, ids[i]);
      if passed.Err? {
        ImportAllStops(h.world, servers, known, dir, s1, ids, i + 1);
        return passed;
      }
    }
    assert ids[..|ids|] == ids;
    h.Rimraf(Some(dir));
    r := Ok(());
  }

  /** One pass of the loop. */
  method ImportKey(h: Host, servers: Keyservers, known: seq<string>, dir: Path, keyId: string) returns (r: Result<()>)
    modifies h
    ensures var o := ImportOne(h.world, servers, known, dir, old(h.Snapshot()), keyId); h.Snapshot() == o.state && r == o.result
  {
    if keyId in known {
      return Ok(());
    }
    var keyPath := KeyPath(dir, keyId);
    var found := LookupPublicKey(servers, keyId);
    if found.Err? {
      return Err(found.error);
    }
    if found.value == "" {
      return Ok(());
    }
    var written := h.WriteFile(keyPath, found.value);
    if written.Err? {
      return written;
    }
    r := h.Run("gpg", ImportArgs(keyPath), h.world.processCwd);
  }
}
