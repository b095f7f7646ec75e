/** bin/rotate.js: the checks that guard a rotation, the rotation itself, and
    re-adding every user whose key is in the local keyring. The script runs in
    the process's working directory. */
module Rotate {
  import opened Results
  import opened Text
  import opened Env
  import opened Gpg
  import opened Git
  import opened GitCrypt

  /** How a run of the script ends when nothing is thrown. Every verdict but
      `Completed` is a refusal that sets the exit code to 1. */
  datatype Verdict = Completed | Locked | Unclean | NoKnownKeys | TooFewKnownKeys

  /** process.exitCode: 1 for a refusal and for anything thrown, 0 otherwise. */
  function ExitCode(r: Result<Verdict>): int
  {
    if r == Ok(Completed) then 0 else 1
  }

  /** The checks either refuse with a verdict or clear the known users. */
  datatype Checked = Refused(verdict: Verdict) | Cleared(knownUsers: seq<string>)

  function VersionArgs(): seq<Value>
  {
    Strs(["crypt", "--version"])
  }

  /** `knownUsers.length < userIds.length / 2`, a division on doubles. */
  function TooFew(known: nat, total: nat): (r: bool)
    ensures r <==> 2 * known < total
  {
    (known as real) < (total as real) / 2.0
  }

  /** The ids with a key file under `.git-crypt/keys/default/0` whose key is in
      the local keyring, in the order of the key files. The second filter of the
      script takes an async callback, whose promise is always truthy, so it keeps
      every id. */
  function KnownUsers(userIds: seq<string>, knownKeys: seq<string>): seq<string>
  {
    Select(userIds, knownKeys, true)
  }

  /** The calls the checks make when none of them refuses or throws. */
  function PreflightPlan(w: World, cwd: Path): seq<Op>
  {
    [Exec("git", VersionArgs(), w.processCwd), Exec("git", LsTreeArgs(), cwd),
     Exec("grep", GrepArgs(TrimmedLines(w.treeListing)), cwd), Exec("git", DiffIndexArgs(), cwd),
     ListDir(JoinPath(cwd, USER_KEYS_DIR))]
  }

  /** The keyring listing, getUserIds and the two quorum checks. They never
      refuse for the repository's state, touch only the log, and list the key
      directory at most once. */
  function PreflightKeys(w: World, ring: Keyring, s: State, cwd: Path): (o: Outcome<Checked>)
    ensures o.result != Ok(Refused(Locked)) && o.result != Ok(Refused(Unclean))
    ensures o.result.Ok? && o.result.value.Refused? ==> o.result.value.verdict in {NoKnownKeys, TooFewKnownKeys}
    ensures o.state.files == s.files && o.state.config == s.config
    ensures o.state.log == s.log || o.state.log == s.log + [ListDir(JoinPath(cwd, USER_KEYS_DIR))]
    ensures o.result.Ok? && o.result.value.Cleared? ==> o.state.log == s.log + [ListDir(JoinPath(cwd, USER_KEYS_DIR))]
    ensures var ids := UserIdsOf(w.keyFiles);
            var keys := ListKnownPublicKeys(ring.listing);
            (o.result.Ok? && o.result.value.Cleared?) <==>
              (ListDir(JoinPath(cwd, USER_KEYS_DIR)) !in w.fails && keys.Ok?
               && |KnownUsers(ids, keys.value)| >= 1 && 2 * |KnownUsers(ids, keys.value)| >= |ids|)
    ensures o.result.Ok? && o.result.value.Cleared? ==>
              o.result.value.knownUsers == KnownUsers(UserIdsOf(w.keyFiles), ListKnownPublicKeys(ring.listing).value)
    ensures var ids := UserIdsOf(w.keyFiles);
            var keys := ListKnownPublicKeys(ring.listing);
            (o.result == Ok(Refused(NoKnownKeys)) <==>
               (ListDir(JoinPath(cwd, USER_KEYS_DIR)) !in w.fails && keys.Ok? && |KnownUsers(ids, keys.value)| == 0))
            && (o.result == Ok(Refused(TooFewKnownKeys)) <==>
                  (ListDir(JoinPath(cwd, USER_KEYS_DIR)) !in w.fails && keys.Ok?
                   && |KnownUsers(ids, keys.value)| >= 1 && 2 * |KnownUsers(ids, keys.value)| < |ids|))
  {
    var knownKeys := ListKnownPublicKeys(ring.listing);
    if knownKeys.Err? then Outcome(s, Err(knownKeys.error))
    else
      var ids := GetUserIdsRun(w, s, cwd);
      if ids.result.Err? then Outcome(ids.state, Err(ids.result.error))
      else
        var known := KnownUsers(ids.result.value, knownKeys.value);
        if |known| < 1 then Outcome(ids.state, Ok(Refused(NoKnownKeys)))
        else if TooFew(|known|, |ids.result.value|) then Outcome(ids.state, Ok(Refused(TooFewKnownKeys)))
        else Outcome(ids.state, Ok(Cleared(known)))
  }

  /** The version probe, isLocked and isClean, in that order, each able to stop
      the script, and then the keyring checks. */
  function PreflightRun(w: World, ring: Keyring, s: State, cwd: Path): Outcome<Checked>
  {
    var v := ExecStep(w, s, "git", VersionArgs(), w.processCwd);
    if v.result.Err? then Outcome(v.state, Err(v.result.error))
    else
      var locked := IsLockedRun(w, v.state, cwd);
      if locked.result.Err? then Outcome(locked.state, Err(locked.result.error))
      else if locked.result.value then Outcome(locked.state, Ok(Refused(Locked)))
      else
        var clean := CleanRun(w, locked.state, cwd);
        if !clean.result.value then Outcome(clean.state, Ok(Refused(Unclean)))
        else PreflightKeys(w, ring, clean.state, cwd)
  }

  lemma LockCheckAddsNone(w: World, s: State, cwd: Path)
    ensures AddsNone(s.log, IsLockedRun(w, s, cwd).state.log)
  {
    IsLockedDecides(w, s, cwd);
    var ls := Exec("git", LsTreeArgs(), cwd);
    assert |LsTreeArgs()| == 4;
    AddsNoneOne(s.log, ls);
    if IsLockedRun(w, s, cwd).result.Ok? {
      var grep := Exec("grep", GrepArgs(TrimmedLines(w.treeListing)), cwd);
      assert grep.file != "git";
      AddsNoneStep(s.log, s.log + [ls], grep);
    }
  }

  lemma KeysCheckAddsNone(w: World, ring: Keyring, s: State, cwd: Path)
    ensures AddsNone(s.log, PreflightKeys(w, ring, s, cwd).state.log)
  {
    if PreflightKeys(w, ring, s, cwd).state.log == s.log {
      AddsNoneStart(s.log);
    } else {
      AddsNoneOne(s.log, ListDir(JoinPath(cwd, USER_KEYS_DIR)));
    }
  }

  /** The checks change nothing but the log, and none of their calls adds a
      user. */
  lemma PreflightFrame(w: World, ring: Keyring, s: State, cwd: Path)
    ensures var p := PreflightRun(w, ring, s, cwd);
            p.state.files == s.files && p.state.config == s.config && AddsNone(s.log, p.state.log)
  {
    var p := PreflightRun(w, ring, s, cwd);
    var v := ExecStep(w, s, "git", VersionArgs(), w.processCwd);
    assert |VersionArgs()| == 2;
    AddsNoneOne(s.log, Exec("git", VersionArgs(), w.processCwd));
    if v.result.Ok? {
      IsLockedDecides(w, v.state, cwd);
      LockCheckAddsNone(w, v.state, cwd);
      var locked := IsLockedRun(w, v.state, cwd);
      AddsNoneThen(s.log, v.state.log, locked.state.log);
      if locked.result.Ok? && !locked.result.value {
        var clean := CleanRun(w, locked.state, cwd);
        assert |DiffIndexArgs()| == 4;
        AddsNoneOne(locked.state.log, Exec("git", DiffIndexArgs(), cwd));
        AddsNoneThen(s.log, locked.state.log, clean.state.log);
        if clean.result.value {
          KeysCheckAddsNone(w, ring, clean.state, cwd);
          AddsNoneThen(s.log, clean.state.log, p.state.log);
        }
      }
    }
  }

  /** Every refusal of the checks is one of the four refusal verdicts. */
  lemma PreflightVerdict(w: World, ring: Keyring, s: State, cwd: Path)
    ensures var p := PreflightRun(w, ring, s, cwd);
            p.result.Ok? && p.result.value.Refused? ==> p.result.value.verdict != Completed
  {
  }

  /** Checks that clear the users make exactly the five calls of the plan. */
  lemma PreflightCalls(w: World, ring: Keyring, s: State, cwd: Path)
    requires PreflightRun(w, ring, s, cwd).result.Ok? && PreflightRun(w, ring, s, cwd).result.value.Cleared?
    ensures PreflightRun(w, ring, s, cwd).state.log == s.log + PreflightPlan(w, cwd)
  {
    var version := Exec("git", VersionArgs(), w.processCwd);
    var ls := Exec("git", LsTreeArgs(), cwd);
    var grep := Exec("grep", GrepArgs(TrimmedLines(w.treeListing)), cwd);
    var diff := Exec("git", DiffIndexArgs(), cwd);
    var list := ListDir(JoinPath(cwd, USER_KEYS_DIR));
    var v := ExecStep(w, s, "git", VersionArgs(), w.processCwd);
    IsLockedDecides(w, v.state, cwd);
    var locked := IsLockedRun(w, v.state, cwd);
    var clean := CleanRun(w, locked.state, cwd);
    assert PreflightRun(w, ring, s, cwd) == PreflightKeys(w, ring, clean.state, cwd);
    AppendFive(s.log, version, ls, grep, diff, list);
  }

  /** A repository that is locked is refused as locked whatever its working
      tree holds; an unlocked one with uncommitted changes is refused as
      unclean. */
  lemma PreflightOrder(w: World, ring: Keyring, s: State, cwd: Path)
    requires Exec("git", VersionArgs(), w.processCwd) !in w.fails && Exec("git", LsTreeArgs(), cwd) !in w.fails
    ensures var p := PreflightRun(w, ring, s, cwd);
            (p.result == Ok(Refused(Locked)) <==> w.grepCode == 0)
            && (w.grepCode != 0 ==> (p.result == Ok(Refused(Unclean)) <==> w.diffIndexCode != 0))
  {
    var p := PreflightRun(w, ring, s, cwd);
    var v := ExecStep(w, s, "git", VersionArgs(), w.processCwd);
    assert v.result.Ok?;
    IsLockedDecides(w, v.state, cwd);
    var locked := IsLockedRun(w, v.state, cwd);
    assert locked.result == Ok(w.grepCode == 0);
    if w.grepCode == 0 {
      assert p.result == Ok(Refused(Locked));
    } else {
      var clean := CleanRun(w, locked.state, cwd);
      assert p == PreflightKeys(w, ring, clean.state, cwd) || p == Outcome(clean.state, Ok(Refused(Unclean)));
    }
  }

  /** The users are cleared exactly when every call succeeds, the tree is
      unlocked and clean, and at least one and at least half of the ids are in
      the keyring; the cleared users are those ids. */
  lemma PreflightClears(w: World, ring: Keyring, s: State, cwd: Path)
    ensures var p := PreflightRun(w, ring, s, cwd);
            var ids := UserIdsOf(w.keyFiles);
            var keys := ListKnownPublicKeys(ring.listing);
            (p.result.Ok? && p.result.value.Cleared?) <==>
              (Exec("git", VersionArgs(), w.processCwd) !in w.fails && Exec("git", LsTreeArgs(), cwd) !in w.fails
               && ListDir(JoinPath(cwd, USER_KEYS_DIR)) !in w.fails
               && w.grepCode != 0 && w.diffIndexCode == 0 && keys.Ok?
               && |KnownUsers(ids, keys.value)| >= 1 && 2 * |KnownUsers(ids, keys.value)| >= |ids|)
    ensures var p := PreflightRun(w, ring, s, cwd);
            p.result.Ok? && p.result.value.Cleared? ==>
              p.result.value.knownUsers == KnownUsers(UserIdsOf(w.keyFiles), ListKnownPublicKeys(ring.listing).value)
  {
    var p := PreflightRun(w, ring, s, cwd);
    var v := ExecStep(w, s, "git", VersionArgs(), w.processCwd);
    IsLockedDecides(w, v.state, cwd);
    var locked := IsLockedRun(w, v.state, cwd);
    if v.result.Ok? && locked.result.Ok? && !locked.result.value {
      var clean := CleanRun(w, locked.state, cwd);
      if clean.result.value {
        assert p == PreflightKeys(w, ring, clean.state, cwd);
      } else {
        assert p.result == Ok(Refused(Unclean));
      }
    } else {
      assert !(p.result.Ok? && p.result.value.Cleared?);
    }
  }

  // ---------------------------------------------------------------------------
  // re-adding the known users

  /** One pass of the loop: addUser, and when it throws, getUsernames for the
      message, which ends the script when it throws in turn. */
  function ReAddOne(w: World, ring: Keyring, s: State, cwd: Path, userId: string): (o: Outcome<()>)
    ensures o.result.Ok? <==> GetUsernames(ring, userId).Ok?
  {
    var a := AddUserRun(w, ring, s, cwd, userId);
    if a.result.Ok? then a
    else
      var usernames := GetUsernames(ring, userId);
      if usernames.Err? then Outcome(a.state, Err(usernames.error)) else Outcome(a.state, Ok(()))
  }

  function ReAddAll(w: World, ring: Keyring, s: State, cwd: Path, users: seq<string>): Outcome<()>
  {
    if users == [] then Outcome(s, Ok(()))
    else
      var prev := ReAddAll(w, ring, s, cwd, users[..|users| - 1]);
      if prev.result.Err? then prev else ReAddOne(w, ring, prev.state, cwd, users[|users| - 1])
  }

  /** A pass makes one add call, for its id, and makes no file or
      configuration change of its own (the key file add-gpg-user writes is not
      modelled); whether it throws is in its contract. */
  lemma ReAddOneAdds(w: World, ring: Keyring, s: State, cwd: Path, userId: string)
    ensures var o := ReAddOne(w, ring, s, cwd, userId);
            s.log <= o.state.log && AddedUsers(o.state.log[|s.log|..]) == [userId]
            && o.state.files == s.files && o.state.config == s.config
  {
    AddUserAttempts(w, ring, s, cwd, userId);
  }

  /** The loop only appends to the log: with add-gpg-user's writes not
      modelled, files and configuration stay. */
  lemma {:induction false} ReAddAllFrame(w: World, ring: Keyring, s: State, cwd: Path, users: seq<string>)
    ensures var o := ReAddAll(w, ring, s, cwd, users);
            o.state.files == s.files && o.state.config == s.config && s.log <= o.state.log
  {
    if users != [] {
      var init := users[..|users| - 1];
      var prev := ReAddAll(w, ring, s, cwd, init);
      ReAddAllFrame(w, ring, s, cwd, init);
      ReAddOneAdds(w, ring, prev.state, cwd, users[|users| - 1]);
    }
  }

  /** The loop tries the users in order, one add call each. */
  lemma {:induction false} ReAddAllAttempts(w: World, ring: Keyring, s: State, cwd: Path, users: seq<string>)
    ensures var o := ReAddAll(w, ring, s, cwd, users);
            s.log <= o.state.log
            && AddedUsers(o.state.log[|s.log|..]) <= users
            && (o.result.Ok? ==> AddedUsers(o.state.log[|s.log|..]) == users)
  {
    ReAddAllFrame(w, ring, s, cwd, users);
    if users != [] {
      var init := users[..|users| - 1];
      var last := users[|users| - 1];
      var prev := ReAddAll(w, ring, s, cwd, init);
      ReAddAllAttempts(w, ring, s, cwd, init);
      FrontLast(users);
      if prev.result.Ok? {
        var o := ReAddOne(w, ring, prev.state, cwd, last);
        ReAddOneAdds(w, ring, prev.state, cwd, last);
        AddedUsersThen(s.log, prev.state.log, o.state.log);
      } else {
        assert init <= users;
      }
    } else {
      AddsNoneStart(s.log);
    }
  }

  /** Every id, in order, has a key the keyring can name. */
  predicate AllNamed(ring: Keyring, users: seq<string>)
  {
    users == [] || (AllNamed(ring, users[..|users| - 1]) && GetUsernames(ring, users[|users| - 1]).Ok?)
  }

  lemma {:induction false} AllNamedEach(ring: Keyring, users: seq<string>)
    ensures AllNamed(ring, users) <==> forall k :: 0 <= k < |users| ==> GetUsernames(ring, users[k]).Ok?
  {
    if users != [] {
      var init := users[..|users| - 1];
      AllNamedEach(ring, init);
      assert forall k :: 0 <= k < |init| ==> users[k] == init[k];
    }
  }

  lemma {:induction false} ReAddAllNamed(w: World, ring: Keyring, s: State, cwd: Path, users: seq<string>)
    ensures ReAddAll(w, ring, s, cwd, users).result.Ok? <==> AllNamed(ring, users)
  {
    if users != [] {
      ReAddAllNamed(w, ring, s, cwd, users[..|users| - 1]);
    }
  }

  /** The loop stops only at a user whose key the keyring cannot name. */
  lemma ReAddAllBestEffort(w: World, ring: Keyring, s: State, cwd: Path, users: seq<string>)
    ensures ReAddAll(w, ring, s, cwd, users).result.Ok?
            <==> forall k :: 0 <= k < |users| ==> GetUsernames(ring, users[k]).Ok?
  {
    ReAddAllNamed(w, ring, s, cwd, users);
    AllNamedEach(ring, users);
  }

  lemma {:induction false} ReAddAllStops(w: World, ring: Keyring, s: State, cwd: Path, users: seq<string>, n: nat)
    requires n <= |users| && ReAddAll(w, ring, s, cwd, users[..n]).result.Err?
    ensures ReAddAll(w, ring, s, cwd, users) == ReAddAll(w, ring, s, cwd, users[..n])
  {
    if n < |users| {
      assert users[..|users| - 1][..n] == users[..n];
      ReAddAllStops(w, ring, s, cwd, users[..|users| - 1], n);
    } else {
      assert users[..n] == users;
    }
  }

  // ---------------------------------------------------------------------------
  // the script

  /** What follows the checks: rotateKey, then the loop over the known users. */
  function RotateAndReAdd(w: World, ring: Keyring, s: State, cwd: Path, users: seq<string>): Outcome<Verdict>
  {
    var r := RotateRun(w, s, cwd);
    if r.result.Err? then Outcome(r.state, Err(r.result.error))
    else
      var a := ReAddAll(w, ring, r.state, cwd, users);
      if a.result.Err? then Outcome(a.state, Err(a.result.error)) else Outcome(a.state, Ok(Completed))
  }

  function RotateScriptRun(w: World, ring: Keyring, s: State): Outcome<Verdict>
  {
    var p := PreflightRun(w, ring, s, w.processCwd);
    if p.result.Err? then Outcome(p.state, Err(p.result.error))
    else if p.result.value.Refused? then Outcome(p.state, Ok(p.result.value.verdict))
    else RotateAndReAdd(w, ring, p.state, w.processCwd, p.result.value.knownUsers)
  }

  /** The rotation either throws or completes; it completes exactly when the
      rotation succeeds and every user's key can be named. The add calls come
      after the whole rotation, one per user in order, and (add-gpg-user's
      writes not being modelled) keep the files and configuration the rotation
      produced. */
  lemma RotateThenReAdd(w: World, ring: Keyring, s: State, cwd: Path, users: seq<string>)
    ensures var o := RotateAndReAdd(w, ring, s, cwd, users);
            var r := RotateRun(w, s, cwd);
            (o.result.Ok? ==> o.result.value == Completed)
            && (o.result.Ok? <==> r.result.Ok? && forall k :: 0 <= k < |users| ==> GetUsernames(ring, users[k]).Ok?)
            && (o.result.Ok? ==>
                  r.state.log <= o.state.log && AddedUsers(o.state.log[|r.state.log|..]) == users
                  && o.state.files == r.state.files && o.state.config == r.state.config)
  {
    var r := RotateRun(w, s, cwd);
    if r.result.Ok? {
      ReAddAllFrame(w, ring, r.state, cwd, users);
      ReAddAllAttempts(w, ring, r.state, cwd, users);
      ReAddAllBestEffort(w, ring, r.state, cwd, users);
    }
  }

  /** A refusal leaves files and configuration as they were, tries no add and
      exits with 1. */
  lemma RotateScriptRefusals(w: World, ring: Keyring, s: State)
    requires PreflightRun(w, ring, s, w.processCwd).result.Ok?
    requires PreflightRun(w, ring, s, w.processCwd).result.value.Refused?
    ensures var o := RotateScriptRun(w, ring, s);
            o.result == Ok(PreflightRun(w, ring, s, w.processCwd).result.value.verdict)
            && ExitCode(o.result) == 1
            && o.state.files == s.files && o.state.config == s.config && AddsNone(s.log, o.state.log)
  {
    var p := PreflightRun(w, ring, s, w.processCwd);
    PreflightFrame(w, ring, s, w.processCwd);
    PreflightVerdict(w, ring, s, w.processCwd);
    assert RotateScriptRun(w, ring, s) == Outcome(p.state, Ok(p.result.value.verdict));
  }

  /** Only a completed run exits with 0, and it completes only after the checks
      cleared the users it re-adds; the rest of the run is the rotation and the
      loop over those users. */
  lemma RotateScriptCompletes(w: World, ring: Keyring, s: State)
    ensures var o := RotateScriptRun(w, ring, s);
            var p := PreflightRun(w, ring, s, w.processCwd);
            (ExitCode(o.result) == 0 <==> o.result == Ok(Completed))
            && (o.result == Ok(Completed) ==>
                  p.result.Ok? && p.result.value.Cleared?
                  && o == RotateAndReAdd(w, ring, p.state, w.processCwd, p.result.value.knownUsers))
  {
    var p := PreflightRun(w, ring, s, w.processCwd);
    if p.result.Ok? && p.result.value.Refused? {
      assert p.result.value.verdict != Completed;
    }
  }

  method Preflight(h: Host, ring: Keyring, cwd: Path) returns (r: Result<Checked>)
    modifies h
    ensures var o := PreflightRun(h.world, ring, old(h.Snapshot()), cwd); h.Snapshot() == o.state && r == o.result
  {
    var version := h.Run("git", VersionArgs(), h.world.processCwd);
    if version.Err? {
      return Err(version.error);
    }
    var locked := IsLocked(h, cwd);
    if locked.Err? {
      return Err(locked.error);
    }
    if locked.value {
      return Ok(Refused(Locked));
    }
    var clean := IsClean(h, cwd);
    if !clean {
      return Ok(Refused(Unclean));
    }
    var knownKeys := ListKnownPublicKeys(ring.listing);
    if knownKeys.Err? {
      return Err(knownKeys.error);
    }
    var userIds := GetUserIds(h, cwd);
    if userIds.Err? {
      return Err(userIds.error);
    }
    var knownUsers := KnownUsers(userIds.value, knownKeys.value);
    if |knownUsers| < 1 {
      return Ok(Refused(NoKnownKeys));
    }
    if TooFew(|knownUsers|, |userIds.value|) {
      return Ok(Refused(TooFewKnownKeys));
    }
    r := Ok(Cleared(knownUsers));
  }

  /** The `for ... of knownUsers` loop. */
  method ReAddUsers(h: Host, ring: Keyring, cwd: Path, users: seq<string>) returns (r: Result<()>)
    modifies h
    ensures var o := ReAddAll(h.world, ring, old(h.Snapshot()), cwd, users); h.Snapshot() == o.state && r == o.result
  {
    ghost var s0 := h.Snapshot();
    for i := 0 to |users|
      invariant ReAddAll(h.world, ring, s0, cwd, users[..i]) == Outcome(h.Snapshot(), Ok(()))
    {
      assert users[..i + 1][..i] == users[..i];
      var added := AddUser(h, ring, cwd, users[i]);
      if added.Err? {
        var usernames := GetUsernames(ring, users[i]);
        if usernames.Err? {
          ReAddAllStops(h.world, ring, s0, cwd, users, i + 1);
          return Err(usernames.error);
        }
      }
    }
    assert users[..|users|] == users;
    r := Ok(());
  }

  method RotateScript(h: Host, ring: Keyring) returns (r: Result<Verdict>)
    modifies h
    ensures var o := RotateScriptRun(h.world, ring, old(h.Snapshot())); h.Snapshot() == o.state && r == o.result
  {
    var cwd := h.world.processCwd;
    var checked := Preflight(h, ring, cwd);
    if checked.Err? {
      return Err(checked.error);
    }
    if checked.value.Refused? {
      return Ok(checked.value.verdict);
    }
    var rotated := RotateKey(h, cwd);
    if rotated.Err? {
      return Err(rotated.error);
    }
    var added := ReAddUsers(h, ring, cwd, checked.value.knownUsers);
    if added.Err? {
      return Err(added.error);
    }
    r := Ok(Completed);
  }
}
