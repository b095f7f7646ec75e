/** bin/list.js: one line per git-crypt user, saying whether the local
    keyring holds the user's key, whose key it is, and whether it is revoked. */
module ListUsers {
  import opened Results
  import opened Text
  import opened Env
  import opened Gpg
  import opened GitCrypt

  const NOT_IN_KEYCHAIN: string := " not in local keychain :( try \"import\""
  const REVOKED_MARK: string := "REVOKED!"

  /** `Array.isArray(user.revocationCertifications) && user.revocationCertifications.length`. */
  predicate HasRevocations(u: ParsedUser)
  {
    u.revocationCertifications.Some? && |u.revocationCertifications.value| > 0
  }

  /** The key itself carries a revocation signature, or one of its users
      carries a revocation certification. */
  predicate IsRevoked(key: ParsedKey)
  {
    key.revocationSignature || exists k :: 0 <= k < |key.users| && HasRevocations(key.users[k])
  }

  /** The line one pass prints, or what it throws: getUsernames and
      parsePublicKeys both throw unless the armour holds exactly one key. */
  function Describe(ring: Keyring, keyId: string): Result<string>
  {
    var armour := GetLocalPublicKey(ring.exported(keyId));
    if armour.None? then Ok(keyId + NOT_IN_KEYCHAIN)
    else
      var usernames := GetUsernames(ring, keyId);
      if usernames.Err? then Err(usernames.error)
      else
        var parsed := ParsePublicKeys(ring.readArmored(armour));
        if parsed.Err? then Err(parsed.error)
        else Ok(Join([keyId, usernames.value] + (if IsRevoked(parsed.value) then [REVOKED_MARK] else []), " "))
  }

  /** A pass throws exactly when the keyring exports a public key block for the
      id from which the armour reader gets no key or several. Otherwise the line
      is the id and the note to import it, or the id, the key's user names and
      the revocation mark exactly when the key is revoked. */
  lemma DescribeLine(ring: Keyring, keyId: string)
    ensures var armour := GetLocalPublicKey(ring.exported(keyId));
            var keys := ring.readArmored(armour);
            var r := Describe(ring, keyId);
            (r.Err? <==> armour.Some? && |keys| != 1)
            && (r.Err? ==> r.error == TypeError(SINGLE_KEY_MESSAGE))
            && (armour.None? ==> r == Ok(keyId + NOT_IN_KEYCHAIN))
            && (armour.Some? && |keys| == 1 ==>
                  r == Ok(keyId + " " + Usernames(keys[0]) + (if IsRevoked(keys[0]) then " " + REVOKED_MARK else "")))
  {
    var armour := GetLocalPublicKey(ring.exported(keyId));
    var keys := ring.readArmored(armour);
    if armour.Some? && |keys| == 1 {
      var names := Usernames(keys[0]);
      assert GetUsernames(ring, keyId) == Ok(names);
      var mark: seq<string> := if IsRevoked(keys[0]) then [REVOKED_MARK] else [];
      assert Describe(ring, keyId) == Ok(Join([keyId, names] + mark, " "));
      JoinLine(keyId, names, mark);
    }
  }

  lemma JoinLine(keyId: string, names: string, mark: seq<string>)
    requires |mark| <= 1
    ensures Join([keyId, names] + mark, " ") == keyId + " " + names + (if mark == [] then "" else " " + mark[0])
  {
    var parts := [keyId, names] + mark;
    assert parts[1..] == [names] + mark;
    if mark == [] {
      assert parts[1..][..] == [names];
    } else {
      assert parts[1..][1..] == mark && |mark| == 1;
      assert Join(parts[1..], " ") == names + " " + Join(mark, " ");
    }
  }

  /** What the script has printed, and what ended it early, if anything. */
  datatype Printed = Printed(lines: seq<string>, failure: Option<Error>)

  /** The loop: one line per id, in order, up to the first pass that throws. */
  function DescribeAll(ring: Keyring, ids: seq<string>): Printed
  {
    if ids == [] then Printed([], None)
    else
      var prev := DescribeAll(ring, ids[..|ids| - 1]);
      if prev.failure.Some? then prev
      else
        match Describe(ring, ids[|ids| - 1])
        case Ok(line) => Printed(prev.lines + [line], None)
        case Err(e) => Printed(prev.lines, Some(e))
  }

  /** The lines are the descriptions of the first ids, in order; either every
      id got its line, or the next id is the one whose pass threw. */
  lemma {:induction false} DescribeAllLines(ring: Keyring, ids: seq<string>)
    ensures var p := DescribeAll(ring, ids);
            |p.lines| <= |ids|
            && (forall k :: 0 <= k < |p.lines| ==> Describe(ring, ids[k]) == Ok(p.lines[k]))
            && (p.failure.None? ==> |p.lines| == |ids|)
            && (p.failure.Some? ==> |p.lines| < |ids| && Describe(ring, ids[|p.lines|]) == Err(p.failure.value))
  {
    if ids != [] {
      var init := ids[..|ids| - 1];
      var prev := DescribeAll(ring, init);
      DescribeAllLines(ring, init);
      assert forall k :: 0 <= k < |init| ==> ids[k] == init[k];
    }
  }

  /** Every id gets its line exactly when no pass throws. */
  lemma DescribeAllComplete(ring: Keyring, ids: seq<string>)
    ensures DescribeAll(ring, ids).failure.None? <==> forall k :: 0 <= k < |ids| ==> Describe(ring, ids[k]).Ok?
  {
    var p := DescribeAll(ring, ids);
    DescribeAllLines(ring, ids);
    if p.failure.Some? {
      assert Describe(ring, ids[|p.lines|]).Err?;
    }
  }

  /** The script: getUserIds in `process.cwd()`, then the loop. */
  function ListScriptRun(w: World, ring: Keyring, s: State): (State, Printed)
  {
    var ids := GetUserIdsRun(w, s, w.processCwd);
    if ids.result.Err? then (ids.state, Printed([], Some(ids.result.error)))
    else (ids.state, DescribeAll(ring, ids.result.value))
  }

  /** process.exitCode is 1 exactly when something was thrown. */
  function ListExitCode(p: Printed): int
  {
    if p.failure.Some? then 1 else 0
  }

  /** Listing reads the key directory once and changes nothing else; unless
      the directory cannot be read, it prints one line per key file, in order. */
  lemma ListScriptReads(w: World, ring: Keyring, s: State)
    ensures var (s', p) := ListScriptRun(w, ring, s);
            var ids := UserIdsOf(w.keyFiles);
            s' == Logged(s, ListDir(JoinPath(w.processCwd, USER_KEYS_DIR)))
            && (ListDir(JoinPath(w.processCwd, USER_KEYS_DIR)) in w.fails ==> p.lines == [] && p.failure.Some?)
            && (ListDir(JoinPath(w.processCwd, USER_KEYS_DIR)) !in w.fails ==> p == DescribeAll(ring, ids))
            && (ListExitCode(p) == 0 <==>
                  ListDir(JoinPath(w.processCwd, USER_KEYS_DIR)) !in w.fails
                  && forall k :: 0 <= k < |ids| ==> Describe(ring, ids[k]).Ok?)
  {
    if ListDir(JoinPath(w.processCwd, USER_KEYS_DIR)) !in w.fails {
      DescribeAllComplete(ring, UserIdsOf(w.keyFiles));
    }
  }

  method ListScript(h: Host, ring: Keyring) returns (p: Printed)
    modifies h
    ensures var (s', printed) := ListScriptRun(h.world, ring, old(h.Snapshot())); h.Snapshot() == s' && p == printed
  {
    var userIds := GetUserIds(h, h.world.processCwd);
    if userIds.Err? {
      return Printed([], Some(userIds.error));
    }
    var ids := userIds.value;
    var lines: seq<string> := [];
    ghost var s1 := h.Snapshot();
    for i := 0 to |ids|
      invariant h.Snapshot() == s1
      invariant DescribeAll(ring, ids[..i]) == Printed(lines, None)
    {
      var line := Describe(ring, ids[i]);
      DescribeAllNext(ring, ids, i, lines);
      if line.Err? {
        return Printed(lines, Some(line.error));
      }
      lines := lines + [line.value];
    }
    assert ids[..|ids|] == ids;
    p := Printed(lines, None);
  }

  /** One more pass of the loop, after `i` passes that printed `lines`. */
  lemma DescribeAllNext(ring: Keyring, ids: seq<string>, i: nat, lines: seq<string>)
    requires i < |ids| && DescribeAll(ring, ids[..i]) == Printed(lines, None)
    ensures var r := Describe(ring, ids[i]);
            (r.Ok? ==> DescribeAll(ring, ids[..i + 1]) == Printed(lines + [r.value], None))
            && (r.Err? ==> DescribeAll(ring, ids) == Printed(lines, Some(r.error)))
  {
    assert ids[..i + 1][..i] == ids[..i];
    if Describe(ring, ids[i]).Err? {
      DescribeAllStops(ring, ids, i + 1);
    }
  }

  lemma {:induction false} DescribeAllStops(ring: Keyring, ids: seq<string>, n: nat)
    requires n <= |ids| && DescribeAll(ring, ids[..n]).failure.Some?
    ensures DescribeAll(ring, ids) == DescribeAll(ring, ids[..n])
  {
    if n < |ids| {
      assert ids[..|ids| - 1][..n] == ids[..n];
      DescribeAllStops(ring, ids[..|ids| - 1], n);
    } else {
      assert ids[..n] == ids;
    }
  }
}
