/** lib/gpg.js: reading the local GnuPG keyring. The `gpg` child processes and
    the openpgp armour reader are collaborators: a `Keyring` value holds what
    they answer, and every function here is a pure computation on that text. */
module Gpg {
  import opened Results
  import opened Text

  /** The dashed line under the keyring path in `gpg --list-public-keys`. */
  const LISTING_SEPARATOR: string := "---------------------------------"
  /** Entries of the listing are separated by a blank line. */
  const ENTRY_SEPARATOR: string := "\n\n"
  const PUBLIC_KEY_MARKER: string := "-----BEGIN PGP PUBLIC KEY BLOCK-----"
  const SINGLE_KEY_MESSAGE: string := "parsePublicKeys() expects argument to contain a single public key"
  const FINGERPRINT_LENGTH: nat := 40

  // ---------------------------------------------------------------------------
  // Parsed keys, shaped like the ParsedKey / ParsedUser records of types.js

  datatype Certification = Certification(issuer: string)

  datatype ParsedUserId = ParsedUserId(userid: Option<string>)

  /** `revocationCertifications` is None when the field is absent or not an array. */
  datatype ParsedUser = ParsedUser(revocationCertifications: Option<seq<Certification>>,
                                   userId: Option<ParsedUserId>)

  /** `revocationSignature` records whether that field is truthy. */
  datatype ParsedKey = ParsedKey(revocationSignature: bool, users: seq<ParsedUser>)

  /** What the GnuPG collaborators answer: the stdout of `gpg --list-public-keys
      --textmode`, the stdout of `gpg --export --armor <id>` for each id, and the
      keys that openpgp's `key.readArmored` finds in a (possibly null) armour. */
  datatype Keyring = Keyring(listing: string,
                             exported: string -> string,
                             readArmored: Option<string> -> seq<ParsedKey>)

  // ---------------------------------------------------------------------------
  // Fingerprints: FINGERPRINT_REGEXP = /[0-9A-F]{40}/m

  predicate IsFingerprintChar(c: char)
  {
    '0' <= c <= '9' || 'A' <= c <= 'F'
  }

  predicate IsFingerprint(s: string)
  {
    |s| == FINGERPRINT_LENGTH && forall k :: 0 <= k < |s| ==> IsFingerprintChar(s[k])
  }

  /** The regular expression matches at index `i` of `s`. */
  predicate RunAt(s: string, i: int)
  {
    0 <= i && i + FINGERPRINT_LENGTH <= |s| && IsFingerprint(s[i..i + FINGERPRINT_LENGTH])
  }

  /** The regular expression matches somewhere in `s`. */
  ghost predicate HasFingerprint(s: string)
  {
    exists i :: RunAt(s, i)
  }

  /** The leftmost match at or after `from`, as a regular-expression engine finds it. */
  function FindRunFrom(s: string, from: nat): (r: Option<nat>)
    requires from <= |s|
    ensures r.Some? ==> from <= r.value && RunAt(s, r.value)
    ensures r.Some? ==> forall j :: from <= j < r.value ==> !RunAt(s, j)
    ensures r.None? ==> forall j :: from <= j ==> !RunAt(s, j)
    decreases |s| - from
  {
    if from + FINGERPRINT_LENGTH > |s| then None
    else if IsFingerprint(s[from..from + FINGERPRINT_LENGTH]) then Some(from)
    else FindRunFrom(s, from + 1)
  }

  /** `const [keyId] = entry.match(FINGERPRINT_REGEXP) || []; return keyId || ''`:
      the leftmost 40-character run of `[0-9A-F]`, or "" when there is none. */
  function EntryKeyId(entry: string): (r: string)
    ensures r == "" || IsFingerprint(r)
    ensures r == "" <==> !HasFingerprint(entry)
    ensures forall i :: RunAt(entry, i) && (forall j :: 0 <= j < i ==> !RunAt(entry, j))
                        ==> r == entry[i..i + FINGERPRINT_LENGTH]
  {
    match FindRunFrom(entry, 0)
    case None => ""
    case Some(i) =>
      assert forall i' :: RunAt(entry, i') && (forall j :: 0 <= j < i' ==> !RunAt(entry, j)) ==> i' == i;
      entry[i..i + FINGERPRINT_LENGTH]
  }

  /** A space among the five characters from index `i`. */
  predicate GapAt(e: string, i: int)
  {
    0 <= i && i + 5 <= |e| && ' ' in e[i..i + 5]
  }

  /** Groups of at most four characters joined by single spaces hold a space in
      every five consecutive characters. */
  lemma {:induction false} GroupsGapped(groups: seq<string>)
    requires forall k :: 0 <= k < |groups| ==> |groups[k]| <= 4
    ensures forall i :: 0 <= i <= |Join(groups, " ")| - 5 ==> GapAt(Join(groups, " "), i)
  {
    if |groups| >= 2 {
      var g := groups[0];
      var rest := Join(groups[1..], " ");
      assert forall k :: 0 <= k < |groups[1..]| ==> groups[1..][k] == groups[k + 1];
      GroupsGapped(groups[1..]);
      var j := Join(groups, " ");
      assert j == g + " " + rest;
      forall i | 0 <= i <= |j| - 5 ensures GapAt(j, i) {
        if i <= |g| {
          assert j[i..i + 5][|g| - i] == ' ';
        } else {
          var i' := i - |g| - 1;
          assert GapAt(rest, i');
          assert j[i..i + 5] == rest[i'..i' + 5];
        }
      }
    }
  }

  /** A character outside `[0-9A-F]` stops every match that would cover it. */
  lemma NoRunOver(e: string, i: int, k: int)
    requires 0 <= i <= k < i + FINGERPRINT_LENGTH <= |e| && !IsFingerprintChar(e[k])
    ensures !RunAt(e, i)
  {
    assert e[i..i + FINGERPRINT_LENGTH][k - i] == e[k];
  }

  /** A match lying inside a piece `a` of `e` at offset `off` is a match of `a`. */
  lemma RunInside(e: string, a: string, off: nat, i: int)
    requires off + |a| <= |e| && e[off..off + |a|] == a
    requires off <= i && i + FINGERPRINT_LENGTH <= off + |a|
    ensures RunAt(e, i) <==> RunAt(a, i - off)
  {
    forall t | i <= t < i + FINGERPRINT_LENGTH ensures e[t] == a[t - off] {
      assert e[off..off + |a|][t - off] == e[t];
    }
    assert e[i..i + FINGERPRINT_LENGTH] == a[i - off..i - off + FINGERPRINT_LENGTH];
  }

  /** One start index of the entry of SpaceGroupedNeverMatches: a match there
      would lie in `pre`, in `post`, or cover a space or a boundary character. */
  lemma NoGroupedRunAt(e: string, pre: string, j: string, post: string, i: int)
    requires e == pre + j + post && 0 <= i && i + FINGERPRINT_LENGTH <= |e|
    requires i + FINGERPRINT_LENGTH <= |pre| ==> !RunAt(pre, i)
    requires i >= |pre| + |j| ==> !RunAt(post, i - |pre| - |j|)
    requires |pre| <= i && i + FINGERPRINT_LENGTH <= |pre| + |j| ==> GapAt(j, i - |pre|)
    requires pre == "" || !IsFingerprintChar(pre[|pre| - 1])
    requires post == "" || !IsFingerprintChar(post[0])
    ensures !RunAt(e, i)
  {
    var end := |pre| + |j|;
    if i + FINGERPRINT_LENGTH <= |pre| {
      assert e[0..|pre|] == pre;
      RunInside(e, pre, 0, i);
    } else if i < |pre| {
      assert e[|pre| - 1] == pre[|pre| - 1];
      NoRunOver(e, i, |pre| - 1);
    } else if i >= end {
      assert e[end..end + |post|] == post;
      RunInside(e, post, end, i);
    } else if i + FINGERPRINT_LENGTH <= end {
      var i' := i - |pre|;
      var k :| 0 <= k < 5 && j[i'..i' + 5][k] == ' ';
      assert e[i + k] == j[i' + k];
      NoRunOver(e, i, i + k);
    } else {
      assert e[end] == post[0];
      NoRunOver(e, i, end);
    }
  }

  /** Fingerprints printed in space-separated groups of at most four characters,
      as older gpg versions show them, are never matched. The entry is the text
      `pre` before the groups, the groups joined by single spaces, and the text
      `post` after them; neither text holds a match of its own, and neither meets
      the groups with a fingerprint character. */
  lemma SpaceGroupedNeverMatches(pre: string, groups: seq<string>, post: string)
    requires forall k :: 0 <= k < |groups| ==> |groups[k]| <= 4
    requires !HasFingerprint(pre) && !HasFingerprint(post)
    requires pre == "" || !IsFingerprintChar(pre[|pre| - 1])
    requires post == "" || !IsFingerprintChar(post[0])
    ensures !HasFingerprint(pre + Join(groups, " ") + post)
  {
    var j := Join(groups, " ");
    var e := pre + j + post;
    GroupsGapped(groups);
    forall i | 0 <= i && i + FINGERPRINT_LENGTH <= |e| ensures !RunAt(e, i) {
      NoGroupedRunAt(e, pre, j, post, i);
    }
  }

  /** `entries.map(EntryKeyId).filter(keyId => !!keyId)`. */
  function Fingerprints(entries: seq<string>): (r: seq<string>)
    ensures |r| <= |entries|
    ensures forall k :: 0 <= k < |r| ==> IsFingerprint(r[k])
  {
    if entries == [] then [] else KeyIdOf(entries[0]) + Fingerprints(entries[1..])
  }

  /** What one entry contributes to the listing: its key id, if it has one. */
  function KeyIdOf(entry: string): (r: seq<string>)
    ensures |r| <= 1 && forall k :: 0 <= k < |r| ==> IsFingerprint(r[k])
  {
    var id := EntryKeyId(entry);
    if id == "" then [] else [id]
  }

  /** The fingerprints of consecutive entries are concatenated: order is kept and
      nothing is de-duplicated. */
  lemma {:induction false} FingerprintsAppend(a: seq<string>, b: seq<string>)
    ensures Fingerprints(a + b) == Fingerprints(a) + Fingerprints(b)
  {
    if a != [] {
      assert (a + b)[0] == a[0];
      assert (a + b)[1..] == a[1..] + b;
      FingerprintsAppend(a[1..], b);
      var head := KeyIdOf(a[0]);
      calc {
        Fingerprints(a + b);
        head + Fingerprints(a[1..] + b);
        head + (Fingerprints(a[1..]) + Fingerprints(b));
        (head + Fingerprints(a[1..])) + Fingerprints(b);
        Fingerprints(a) + Fingerprints(b);
      }
    } else {
      assert a + b == b;
    }
  }

  /** An entry holding a fingerprint contributes exactly that fingerprint, and an
      entry holding none contributes nothing. */
  lemma FingerprintsOfEntry(e: string)
    ensures Fingerprints([e]) == if EntryKeyId(e) == "" then [] else [EntryKeyId(e)]
    ensures HasFingerprint(e) <==> |Fingerprints([e])| == 1
  {
    assert [e][1..] == [];
  }

  /** `listKnownPublicKeys`: the second piece of the listing split at the dashed
      separator, split into entries at blank lines, one fingerprint per entry that
      has one. Without a separator `output` is undefined and `.split` throws. */
  function ListKnownPublicKeys(stdout: string): (r: Result<seq<string>>)
    ensures r.Ok? <==> Contains(stdout, LISTING_SEPARATOR)
    ensures r.Err? ==> r.error.TypeError?
    ensures r.Ok? ==> forall k :: 0 <= k < |r.value| ==> IsFingerprint(r.value[k])
    ensures r.Ok? ==> |r.value| <= |Split(Split(stdout, LISTING_SEPARATOR)[1], ENTRY_SEPARATOR)|
  {
    var pieces := Split(stdout, LISTING_SEPARATOR);
    if |pieces| < 2 then Err(TypeError("Cannot read property 'split' of undefined"))
    else Ok(Fingerprints(Split(pieces[1], ENTRY_SEPARATOR)))
  }

  /** Only the text between the first dashed separator and the next one is read:
      the header before it and anything after a second separator are ignored. */
  lemma ListingIgnoresTrailer(header: string, body: string, trailer: string)
    requires SeparatesCleanly(header, LISTING_SEPARATOR)
    requires SeparatesCleanly(body, LISTING_SEPARATOR)
    ensures ListKnownPublicKeys(header + LISTING_SEPARATOR + (body + LISTING_SEPARATOR + trailer))
            == Ok(Fingerprints(Split(body, ENTRY_SEPARATOR)))
  {
    var rest := body + LISTING_SEPARATOR + trailer;
    var s := header + LISTING_SEPARATOR + rest;
    SplitCons(header, LISTING_SEPARATOR, rest);
    SplitCons(body, LISTING_SEPARATOR, trailer);
    assert Split(s, LISTING_SEPARATOR)[1] == body;
  }

  /** A listing whose body holds no further separator yields the fingerprints of
      the body's blank-line separated entries. */
  lemma ListingBody(header: string, body: string)
    requires SeparatesCleanly(header, LISTING_SEPARATOR)
    requires !Contains(body, LISTING_SEPARATOR)
    ensures ListKnownPublicKeys(header + LISTING_SEPARATOR + body)
            == Ok(Fingerprints(Split(body, ENTRY_SEPARATOR)))
  {
    SplitCons(header, LISTING_SEPARATOR, body);
  }

  /** Every entry holds a fingerprint: one id per entry, in entry order. */
  lemma {:induction false} FingerprintsAllKeyed(entries: seq<string>)
    requires forall k :: 0 <= k < |entries| ==> HasFingerprint(entries[k])
    ensures |Fingerprints(entries)| == |entries|
    ensures forall k :: 0 <= k < |entries| ==> Fingerprints(entries)[k] == EntryKeyId(entries[k])
  {
    if entries != [] {
      assert forall k :: 1 <= k < |entries| ==> entries[k] == entries[1..][k - 1];
      FingerprintsAllKeyed(entries[1..]);
      assert KeyIdOf(entries[0]) == [EntryKeyId(entries[0])];
      assert forall k :: 1 <= k < |entries| ==> entries[k] == entries[1..][k - 1];
    }
  }

  /** No entry holds a fingerprint: nothing is listed. */
  lemma {:induction false} FingerprintsNoneKeyed(entries: seq<string>)
    requires forall k :: 0 <= k < |entries| ==> !HasFingerprint(entries[k])
    ensures Fingerprints(entries) == []
  {
    if entries != [] {
      FingerprintsNoneKeyed(entries[1..]);
      assert KeyIdOf(entries[0]) == [];
    }
  }

  /** The keyring shape the tests build: a header, the dashed line, then entries
      with one fingerprint each separated by blank lines. The result lists each
      entry's fingerprint in order, so distinct keys give distinct ids. */
  lemma ListingOfKeys(header: string, entries: seq<string>)
    requires SeparatesCleanly(header, LISTING_SEPARATOR)
    requires |entries| >= 1
    requires forall k :: 0 <= k < |entries| ==> SeparatesCleanly(entries[k], ENTRY_SEPARATOR)
    requires forall k :: 0 <= k < |entries| ==> HasFingerprint(entries[k])
    requires !Contains(Join(entries, ENTRY_SEPARATOR), LISTING_SEPARATOR)
    ensures var r := ListKnownPublicKeys(header + LISTING_SEPARATOR + Join(entries, ENTRY_SEPARATOR));
            r.Ok? && |r.value| == |entries|
            && forall k :: 0 <= k < |entries| ==> r.value[k] == EntryKeyId(entries[k])
  {
    FingerprintsAllKeyed(entries);
    var body := Join(entries, ENTRY_SEPARATOR);
    ListingBody(header, body);
    SplitJoin(entries, ENTRY_SEPARATOR);
  }

  // ---------------------------------------------------------------------------
  // Exported armour and parsed keys

  /** `getLocalPublicKey`: the export's stdout when it holds a public key block,
      otherwise null. */
  function GetLocalPublicKey(stdout: string): (r: Option<string>)
    ensures r.Some? <==> Contains(stdout, PUBLIC_KEY_MARKER)
    ensures r.Some? ==> r.value == stdout
  {
    if IndexOf(stdout, PUBLIC_KEY_MARKER).Some? then Some(stdout) else None
  }

  /** `parsePublicKeys`: exactly one key is read from the armour, or a TypeError. */
  function ParsePublicKeys(keys: seq<ParsedKey>): (r: Result<ParsedKey>)
    ensures r.Ok? <==> |keys| == 1
    ensures r.Ok? ==> r.value == keys[0]
    ensures r.Err? ==> r.error == TypeError(SINGLE_KEY_MESSAGE)
  {
    if |keys| != 1 then Err(TypeError(SINGLE_KEY_MESSAGE)) else Ok(keys[0])
  }

  /** `(user && user.userId && user.userId.userid) || 'unknown'`. */
  function UserName(u: ParsedUser): (r: string)
    ensures r == "unknown" || (u.userId.Some? && u.userId.value.userid == Some(r) && r != "")
    ensures u.userId.Some? && u.userId.value.userid.Some? && u.userId.value.userid.value != ""
            ==> r == u.userId.value.userid.value
  {
    match u.userId
    case Some(ParsedUserId(Some(name))) => if name != "" then name else "unknown"
    case _ => "unknown"
  }

  function UserNames(users: seq<ParsedUser>): (r: seq<string>)
    ensures |r| == |users| && forall k :: 0 <= k < |users| ==> r[k] == UserName(users[k])
  {
    seq(|users|, k requires 0 <= k < |users| => UserName(users[k]))
  }

  /** The display string of a key: its users' names joined by ", " ("" for none). */
  function Usernames(key: ParsedKey): (r: string)
    ensures key.users == [] ==> r == ""
  {
    Join(UserNames(key.users), ", ")
  }

  /** One name per user: splitting the display string at ", " lists the users'
      names in order, provided no name itself contains ", ". */
  lemma UsernamesSplit(key: ParsedKey)
    requires |key.users| >= 1
    requires forall k :: 0 <= k < |key.users| ==> !Contains(UserName(key.users[k]), ", ")
    ensures Split(Usernames(key), ", ") == UserNames(key.users)
  {
    var names := UserNames(key.users);
    forall k | 0 <= k < |names| ensures SeparatesCleanly(names[k], ", ") {
      CommaSpaceSeparates(names[k]);
    }
    SplitJoin(names, ", ");
  }

  /** `getUsernames`: export, parse (which throws unless there is exactly one key)
      and name the users. A missing key hands null to the armour reader. */
  function GetUsernames(ring: Keyring, keyId: string): (r: Result<string>)
    ensures var keys := ring.readArmored(GetLocalPublicKey(ring.exported(keyId)));
            (r.Ok? <==> |keys| == 1)
            && (r.Ok? ==> r.value == Usernames(keys[0]))
            && (r.Err? ==> r.error == TypeError(SINGLE_KEY_MESSAGE))
  {
    var parsed := ParsePublicKeys(ring.readArmored(GetLocalPublicKey(ring.exported(keyId))));
    if parsed.Err? then Err(parsed.error) else Ok(Usernames(parsed.value))
  }

  // ---------------------------------------------------------------------------
  // Keyservers

  /** What the two HKP keyservers answer for an id: the armoured key, "" when
      the server has none (`undefined`), or an error when the request fails. */
  datatype Keyservers = Keyservers(mit: string -> Result<string>, pgp: string -> Result<string>)

  /** `lookupPublicKey`: pgp.mit.edu first, keyserver.pgp.com only when MIT has
      nothing. A key is found when either server has one, MIT's winning; the
      lookup throws when MIT's request fails, or when MIT has nothing and the
      second request fails. */
  function LookupPublicKey(servers: Keyservers, keyId: string): (r: Result<string>)
    ensures var m := servers.mit(keyId);
            var p := servers.pgp(keyId);
            (r.Ok? && r.value != "" <==> (m.Ok? && m.value != "") || (m == Ok("") && p.Ok? && p.value != ""))
            && (m.Ok? && m.value != "" ==> r == m)
            && (m == Ok("") ==> r == p)
            && (m.Err? ==> r == m)
            && (r.Err? <==> m.Err? || (m == Ok("") && p.Err?))
  {
    var fromMit := servers.mit(keyId);
    if fromMit.Err? then fromMit
    else if fromMit.value != "" then fromMit
    else servers.pgp(keyId)
  }
}
