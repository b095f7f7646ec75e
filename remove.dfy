/** bin/remove.js: the same checks and rotation as bin/rotate.js, but the loop
    that re-adds the known users skips every id named on the command line. */
module Remove {
  import opened Results
  import opened Env
  import opened Gpg
  import opened GitCrypt
  import opened Rotate

  /** One pass of the loop. getUsernames comes first and outside the `try`, so
      when it throws the script ends; an id found in `process.argv` is skipped;
      otherwise addUser runs and anything it throws is only reported. */
  function SkipOrAdd(w: World, ring: Keyring, s: State, cwd: Path, argv: seq<string>, userId: string): (o: Outcome<()>)
    ensures o.result.Ok? <==> GetUsernames(ring, userId).Ok?
  {
    var usernames := GetUsernames(ring, userId);
    if usernames.Err? then Outcome(s, Err(usernames.error))
    else if userId in argv then Outcome(s, Ok(()))
    else Outcome(AddUserRun(w, ring, s, cwd, userId).state, Ok(()))
  }

  function SkipOrAddAll(w: World, ring: Keyring, s: State, cwd: Path, argv: seq<string>, users: seq<string>): Outcome<()>
  {
    if users == [] then Outcome(s, Ok(()))
    else
      var prev := SkipOrAddAll(w, ring, s, cwd, argv, users[..|users| - 1]);
      if prev.result.Err? then prev else SkipOrAdd(w, ring, prev.state, cwd, argv, users[|users| - 1])
  }

  /** A pass attempts to add the id exactly when the keyring names it and the
      command line does not; it makes no file or configuration change of its
      own (add-gpg-user's writes are not modelled). */
  lemma SkipOrAddAttempts(w: World, ring: Keyring, s: State, cwd: Path, argv: seq<string>, userId: string)
    ensures var o := SkipOrAdd(w, ring, s, cwd, argv, userId);
            s.log <= o.state.log
            && AddedUsers(o.state.log[|s.log|..])
               == (if GetUsernames(ring, userId).Ok? && userId !in argv then [userId] else [])
            && o.state.files == s.files && o.state.config == s.config
  {
    var o := SkipOrAdd(w, ring, s, cwd, argv, userId);
    if GetUsernames(ring, userId).Ok? && userId !in argv {
      AddUserAttempts(w, ring, s, cwd, userId);
    } else {
      assert o.state == s;
      AddsNoneStart(s.log);
    }
  }

  /** The loop only appends to the log: with add-gpg-user's writes not
      modelled, files and configuration stay. */
  lemma {:induction false} SkipOrAddAllFrame(w: World, ring: Keyring, s: State, cwd: Path, argv: seq<string>, users: seq<string>)
    ensures var o := SkipOrAddAll(w, ring, s, cwd, argv, users);
            o.state.files == s.files && o.state.config == s.config && s.log <= o.state.log
  {
    if users != [] {
      var init := users[..|users| - 1];
      var prev := SkipOrAddAll(w, ring, s, cwd, argv, init);
      SkipOrAddAllFrame(w, ring, s, cwd, argv, init);
      SkipOrAddAttempts(w, ring, prev.state, cwd, argv, users[|users| - 1]);
    }
  }

  /** The ids the loop tries to add are, in order, a prefix of the known users
      that the command line does not name, and all of them when the loop ends
      normally. */
  lemma {:induction false} SkipOrAddAllAttempts(w: World, ring: Keyring, s: State, cwd: Path, argv: seq<string>, users: seq<string>)
    ensures var o := SkipOrAddAll(w, ring, s, cwd, argv, users);
            s.log <= o.state.log
            && AddedUsers(o.state.log[|s.log|..]) <= Select(users, argv, false)
            && (o.result.Ok? ==> AddedUsers(o.state.log[|s.log|..]) == Select(users, argv, false))
  {
    SkipOrAddAllFrame(w, ring, s, cwd, argv, users);
    if users == [] {
      AddsNoneStart(s.log);
    } else {
      var init := users[..|users| - 1];
      var last := users[|users| - 1];
      var prev := SkipOrAddAll(w, ring, s, cwd, argv, init);
      SkipOrAddAllAttempts(w, ring, s, cwd, argv, init);
      SelectSnoc(users, argv);
      if prev.result.Ok? {
        var o := SkipOrAdd(w, ring, prev.state, cwd, argv, last);
        SkipOrAddAttempts(w, ring, prev.state, cwd, argv, last);
        AddedUsersThen(s.log, prev.state.log, o.state.log);
      }
    }
  }

  lemma SelectSnoc(users: seq<string>, argv: seq<string>)
    requires users != []
    ensures var last := users[|users| - 1];
            Select(users, argv, false)
            == Select(users[..|users| - 1], argv, false) + (if last !in argv then [last] else [])
  {
  }

  lemma {:induction false} SkipOrAddAllNamed(w: World, ring: Keyring, s: State, cwd: Path, argv: seq<string>, users: seq<string>)
    ensures SkipOrAddAll(w, ring, s, cwd, argv, users).result.Ok? <==> AllNamed(ring, users)
  {
    if users != [] {
      SkipOrAddAllNamed(w, ring, s, cwd, argv, users[..|users| - 1]);
    }
  }

  /** The loop stops only at a known user whose key the keyring cannot name,
      skipped or not. */
  lemma SkipOrAddAllBestEffort(w: World, ring: Keyring, s: State, cwd: Path, argv: seq<string>, users: seq<string>)
    ensures SkipOrAddAll(w, ring, s, cwd, argv, users).result.Ok?
            <==> forall k :: 0 <= k < |users| ==> GetUsernames(ring, users[k]).Ok?
  {
    SkipOrAddAllNamed(w, ring, s, cwd, argv, users);
    AllNamedEach(ring, users);
  }

  /** No id named on the command line is ever handed to addUser, and every id
      that is was one of the known users. */
  lemma SkipOrAddAllSkips(w: World, ring: Keyring, s: State, cwd: Path, argv: seq<string>, users: seq<string>)
    ensures var o := SkipOrAddAll(w, ring, s, cwd, argv, users);
            s.log <= o.state.log
            && forall u :: u in AddedUsers(o.state.log[|s.log|..]) ==> u !in argv && u in users
  {
    var o := SkipOrAddAll(w, ring, s, cwd, argv, users);
    SkipOrAddAllAttempts(w, ring, s, cwd, argv, users);
    SelectMembers(users, argv, false);
    var added := AddedUsers(o.state.log[|s.log|..]);
    var selected := Select(users, argv, false);
    forall u | u in added ensures u in selected {
      var k :| 0 <= k < |added| && added[k] == u;
      assert selected[k] == u;
    }
  }

  lemma {:induction false} SkipOrAddAllStops(w: World, ring: Keyring, s: State, cwd: Path, argv: seq<string>,
                                             users: seq<string>, n: nat)
    requires n <= |users| && SkipOrAddAll(w, ring, s, cwd, argv, users[..n]).result.Err?
    ensures SkipOrAddAll(w, ring, s, cwd, argv, users) == SkipOrAddAll(w, ring, s, cwd, argv, users[..n])
  {
    if n < |users| {
      assert users[..|users| - 1][..n] == users[..n];
      SkipOrAddAllStops(w, ring, s, cwd, argv, users[..|users| - 1], n);
    } else {
      assert users[..n] == users;
    }
  }

  // ---------------------------------------------------------------------------
  // the script

  function RotateAndSkip(w: World, ring: Keyring, s: State, cwd: Path, argv: seq<string>, users: seq<string>): Outcome<Verdict>
  {
    var r := RotateRun(w, s, cwd);
    if r.result.Err? then Outcome(r.state, Err(r.result.error))
    else
      var a := SkipOrAddAll(w, ring, r.state, cwd, argv, users);
      if a.result.Err? then Outcome(a.state, Err(a.result.error)) else Outcome(a.state, Ok(Completed))
  }

  /** The script, with the process's arguments as `argv`. */
  function RemoveScriptRun(w: World, ring: Keyring, s: State, argv: seq<string>): Outcome<Verdict>
  {
    var p := PreflightRun(w, ring, s, w.processCwd);
    if p.result.Err? then Outcome(p.state, Err(p.result.error))
    else if p.result.value.Refused? then Outcome(p.state, Ok(p.result.value.verdict))
    else RotateAndSkip(w, ring, p.state, w.processCwd, argv, p.result.value.knownUsers)
  }

  /** After the whole rotation the known users are re-added, in order, except
      those the command line names; the run completes exactly when the rotation
      succeeds and every known user's key can be named. */
  lemma RotateThenSkip(w: World, ring: Keyring, s: State, cwd: Path, argv: seq<string>, users: seq<string>)
    ensures var o := RotateAndSkip(w, ring, s, cwd, argv, users);
            var r := RotateRun(w, s, cwd);
            (o.result.Ok? ==> o.result.value == Completed)
            && (o.result.Ok? <==> r.result.Ok? && forall k :: 0 <= k < |users| ==> GetUsernames(ring, users[k]).Ok?)
            && (o.result.Ok? ==>
                  r.state.log <= o.state.log && AddedUsers(o.state.log[|r.state.log|..]) == Select(users, argv, false)
                  && o.state.files == r.state.files && o.state.config == r.state.config)
  {
    var r := RotateRun(w, s, cwd);
    if r.result.Ok? {
      SkipOrAddAllFrame(w, ring, r.state, cwd, argv, users);
      SkipOrAddAllAttempts(w, ring, r.state, cwd, argv, users);
      SkipOrAddAllBestEffort(w, ring, r.state, cwd, argv, users);
    }
  }

  /** The checks refuse exactly as for a rotation: files and configuration
      stay, no add is tried, and the exit code is 1. */
  lemma RemoveScriptRefusals(w: World, ring: Keyring, s: State, argv: seq<string>)
    requires PreflightRun(w, ring, s, w.processCwd).result.Ok?
    requires PreflightRun(w, ring, s, w.processCwd).result.value.Refused?
    ensures var o := RemoveScriptRun(w, ring, s, argv);
            o.result == Ok(PreflightRun(w, ring, s, w.processCwd).result.value.verdict)
            && ExitCode(o.result) == 1
            && o.state.files == s.files && o.state.config == s.config && AddsNone(s.log, o.state.log)
  {
    var p := PreflightRun(w, ring, s, w.processCwd);
    PreflightFrame(w, ring, s, w.processCwd);
    PreflightVerdict(w, ring, s, w.processCwd);
    assert RemoveScriptRun(w, ring, s, argv) == Outcome(p.state, Ok(p.result.value.verdict));
  }

  /** Only a completed run exits with 0; it follows checks that cleared the
      users, and then rotates and skips over those users. */
  lemma RemoveScriptCompletes(w: World, ring: Keyring, s: State, argv: seq<string>)
    ensures var o := RemoveScriptRun(w, ring, s, argv);
            var p := PreflightRun(w, ring, s, w.processCwd);
            (ExitCode(o.result) == 0 <==> o.result == Ok(Completed))
            && (o.result == Ok(Completed) ==>
                  p.result.Ok? && p.result.value.Cleared?
                  && o == RotateAndSkip(w, ring, p.state, w.processCwd, argv, p.result.value.knownUsers))
  {
    var p := PreflightRun(w, ring, s, w.processCwd);
    if p.result.Ok? && p.result.value.Refused? {
      assert p.result.value.verdict != Completed;
    }
  }

  /** The `for ... of knownUsers` loop. */
  method SkipOrAddUsers(h: Host, ring: Keyring, cwd: Path, argv: seq<string>, users: seq<string>) returns (r: Result<()>)
    modifies h
    ensures var o := SkipOrAddAll(h.world, ring, old(h.Snapshot()), cwd, argv, users);
            h.Snapshot() == o.state && r == o.result
  {
    ghost var s0 := h.Snapshot();
    for i := 0 to |users|
      invariant SkipOrAddAll(h.world, ring, s0, cwd, argv, users[..i]) == Outcome(h.Snapshot(), Ok(()))
    {
      assert users[..i + 1][..i] == users[..i];
      var usernames := GetUsernames(ring, users[i]);
      if usernames.Err? {
        SkipOrAddAllStops(h.world, ring, s0, cwd, argv, users, i + 1);
        return Err(usernames.error);
      }
      if users[i] !in argv {
        var added := AddUser(h, ring, cwd, users[i]);
      }
    }
    assert users[..|users|] == users;
    r := Ok(());
  }

  method RemoveScript(h: Host, ring: Keyring, argv: seq<string>) returns (r: Result<Verdict>)
    modifies h
    ensures var o := RemoveScriptRun(h.world, ring, old(h.Snapshot()), argv); h.Snapshot() == o.state && r == o.result
  {
    var cwd := h.world.processCwd;
    var checked := Preflight(h, ring, cwd);
    if checked.Err? {
      return Err(checked.error);
    }
    if checked.value.Refused? {
      return Ok(checked.value.verdict);
    }
    var rotated := RotateKey(h, cwd);
    if rotated.Err? {
      return Err(rotated.error);
    }
    var skipped := SkipOrAddUsers(h, ring, cwd, argv, checked.value.knownUsers);
    if skipped.Err? {
      return Err(skipped.error);
    }
    r := Ok(Completed);
  }
}
