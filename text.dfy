/** The JavaScript string built-ins the scripts lean on, with their ECMAScript
    semantics: `includes`, `split` with a non-empty string separator, `join`,
    `trim`, and the `filter(s => !!s)` idiom that drops empty strings. */
module Text {
  import opened Results

  /** `pat` occurs in `s` starting at index `i`. */
  predicate OccursAt(s: string, pat: string, i: int)
  {
    0 <= i && i + |pat| <= |s| && s[i..i + |pat|] == pat
  }

  /** `s.includes(pat)`. */
  ghost predicate Contains(s: string, pat: string)
  {
    exists i :: OccursAt(s, pat, i)
  }

  function StartsWith(s: string, prefix: string): bool
  {
    |prefix| <= |s| && s[..|prefix|] == prefix
  }

  function EndsWith(s: string, suffix: string): bool
  {
    |suffix| <= |s| && s[|s| - |suffix|..] == suffix
  }

  /** The first occurrence of `pat` in `s` at or after `from`. */
  function IndexFrom(s: string, pat: string, from: nat): (r: Option<nat>)
    requires from <= |s|
    ensures r.Some? ==> from <= r.value && OccursAt(s, pat, r.value)
    ensures r.Some? ==> forall j :: from <= j < r.value ==> !OccursAt(s, pat, j)
    ensures r.None? ==> forall j :: from <= j ==> !OccursAt(s, pat, j)
    decreases |s| - from
  {
    if from + |pat| > |s| then None
    else if s[from..from + |pat|] == pat then Some(from)
    else if from == |s| then None
    else IndexFrom(s, pat, from + 1)
  }

  /** `s.indexOf(pat)`, with "not found" as None. */
  function IndexOf(s: string, pat: string): (r: Option<nat>)
    ensures r.Some? <==> Contains(s, pat)
    ensures r.Some? ==> OccursAt(s, pat, r.value)
    ensures r.Some? ==> forall j :: 0 <= j < r.value ==> !OccursAt(s, pat, j)
  {
    IndexFrom(s, pat, 0)
  }

  /** An occurrence inside a prefix is an occurrence in the whole string. */
  lemma OccursInPrefix(s: string, n: nat, pat: string, j: int)
    requires n <= |s| && OccursAt(s[..n], pat, j)
    ensures OccursAt(s, pat, j) && j + |pat| <= n
  {
    assert s[..n][j..j + |pat|] == s[j..j + |pat|];
  }

  /** Appending text after the first occurrence does not move it. */
  lemma IndexOfExtend(x: string, y: string, pat: string)
    requires IndexOf(x, pat).Some?
    ensures IndexOf(x + y, pat) == IndexOf(x, pat)
  {
    var i := IndexOf(x, pat).value;
    assert (x + y)[i..i + |pat|] == x[i..i + |pat|];
    assert OccursAt(x + y, pat, i);
    var k := IndexOf(x + y, pat).value;
    if k < i {
      assert (x + y)[k..k + |pat|] == x[k..k + |pat|];
      assert OccursAt(x, pat, k);
      assert false;
    }
  }

  /** `s.split(sep)` for a non-empty separator: the pieces between non-overlapping
      occurrences, scanning from the left; there is always at least one piece. */
  function Split(s: string, sep: string): (r: seq<string>)
    requires |sep| > 0
    ensures |r| >= 1
    ensures |r| == 1 <==> !Contains(s, sep)
    ensures |r| == 1 ==> r[0] == s
    ensures forall k :: 0 <= k < |r| ==> !Contains(r[k], sep)
    decreases |s|
  {
    match IndexOf(s, sep)
    case None => [s]
    case Some(i) =>
      var head := s[..i];
      assert !Contains(head, sep) by {
        forall j | OccursAt(head, sep, j) ensures false {
          OccursInPrefix(s, i, sep, j);
        }
      }
      [head] + Split(s[i + |sep|..], sep)
  }

  /** `parts.join(sep)`. */
  function Join(parts: seq<string>, sep: string): string
  {
    if |parts| == 0 then ""
    else if |parts| == 1 then parts[0]
    else parts[0] + sep + Join(parts[1..], sep)
  }

  /** Joining the pieces with the separator gives the original string back. */
  lemma {:induction false} JoinSplit(s: string, sep: string)
    requires |sep| > 0
    ensures Join(Split(s, sep), sep) == s
    decreases |s|, 1
  {
    if IndexOf(s, sep).Some? {
      JoinSplitAtFirst(s, sep);
    } else {
      assert Split(s, sep) == [s];
    }
  }

  lemma {:induction false} JoinSplitAtFirst(s: string, sep: string)
    requires |sep| > 0 && IndexOf(s, sep).Some?
    ensures Join(Split(s, sep), sep) == s
    decreases |s|, 0
  {
    var i := IndexOf(s, sep).value;
    var rest := s[i + |sep|..];
    var head := s[..i];
    assert s == head + sep + rest by {
      assert s[i..i + |sep|] == sep;
    }
    var tail := Split(rest, sep);
    assert Split(s, sep) == [head] + tail;
    JoinSplit(rest, sep);
    JoinCons(head, tail, sep);
  }

  lemma JoinCons(head: string, tail: seq<string>, sep: string)
    requires |tail| >= 1
    ensures Join([head] + tail, sep) == head + sep + Join(tail, sep)
  {
    assert ([head] + tail)[1..] == tail;
  }

  /** The first occurrence of `sep` in `p + sep` is the appended one: `p` can be
      recovered from a join by splitting. */
  predicate SeparatesCleanly(p: string, sep: string)
  {
    IndexOf(p + sep, sep) == Some(|p|)
  }

  /** Splitting a join gives the parts back when every part separates cleanly. */
  lemma {:induction false} SplitJoin(parts: seq<string>, sep: string)
    requires |sep| > 0 && |parts| >= 1
    requires forall k :: 0 <= k < |parts| ==> SeparatesCleanly(parts[k], sep)
    ensures Split(Join(parts, sep), sep) == parts
  {
    var p := parts[0];
    if |parts| == 1 {
      if Contains(p, sep) {
        IndexOfExtend(p, sep, sep);
        assert false;
      }
    } else {
      var rest := Join(parts[1..], sep);
      assert p + sep + rest == Join(parts, sep);
      SplitCons(p, sep, rest);
      SplitJoin(parts[1..], sep);
    }
  }

  /** A cleanly separating first piece is split off on its own. */
  lemma SplitCons(p: string, sep: string, rest: string)
    requires |sep| > 0 && SeparatesCleanly(p, sep)
    ensures Split(p + sep + rest, sep) == [p] + Split(rest, sep)
  {
    IndexOfExtend(p + sep, rest, sep);
    var s := p + sep + rest;
    assert s[..|p|] == p;
    assert s[|p| + |sep|..] == rest;
  }

  /** A part without the one-character separator separates cleanly. */
  lemma SingleCharSeparates(p: string, sep: string)
    requires |sep| == 1 && !Contains(p, sep)
    ensures SeparatesCleanly(p, sep)
  {
    var s := p + sep;
    assert OccursAt(s, sep, |p|);
    var k := IndexOf(s, sep).value;
    if k < |p| {
      assert s[k..k + 1] == p[k..k + 1];
      assert OccursAt(p, sep, k);
    }
  }

  /** A part without ", " separates cleanly from ", " (the straddling case would
      need a comma to equal a space). */
  lemma CommaSpaceSeparates(p: string)
    requires !Contains(p, ", ")
    ensures SeparatesCleanly(p, ", ")
  {
    var s := p + ", ";
    assert OccursAt(s, ", ", |p|);
    var k := IndexOf(s, ", ").value;
    if k < |p| {
      assert s[k..k + 2][1] == s[k + 1];
      if k + 2 <= |p| {
        assert s[k..k + 2] == p[k..k + 2];
        assert OccursAt(p, ", ", k);
      }
      assert false;
    }
  }

  /** The characters `String.prototype.trim` removes: ECMAScript WhiteSpace and
      LineTerminator code points. */
  predicate IsSpace(c: char)
  {
    c == ' ' || c == '\t' || c == '\n' || c == '\r' || c == '\U{B}' || c == '\U{C}'
    || c == '\U{A0}' || c == '\U{FEFF}' || c == '\U{1680}' || ('\U{2000}' <= c <= '\U{200A}')
    || c == '\U{2028}' || c == '\U{2029}' || c == '\U{202F}' || c == '\U{205F}' || c == '\U{3000}'
  }

  function TrimStart(s: string): (r: string)
    ensures |r| <= |s| && r == s[|s| - |r|..]
    ensures forall k :: 0 <= k < |s| - |r| ==> IsSpace(s[k])
    ensures r != [] ==> !IsSpace(r[0])
  {
    if |s| > 0 && IsSpace(s[0]) then TrimStart(s[1..]) else s
  }

  function TrimEnd(s: string): (r: string)
    ensures |r| <= |s| && r == s[..|r|]
    ensures forall k :: |r| <= k < |s| ==> IsSpace(s[k])
    ensures r != [] ==> !IsSpace(r[|r| - 1])
  {
    if |s| > 0 && IsSpace(s[|s| - 1]) then TrimEnd(s[..|s| - 1]) else s
  }

  /** `s.trim()`: the slice of `s` left after dropping white space at both ends. */
  function Trim(s: string): (r: string)
    ensures var i := |s| - |TrimStart(s)|;
            0 <= i <= |s| - |r| && r == s[i..i + |r|]
            && (forall k :: 0 <= k < i ==> IsSpace(s[k]))
            && (forall k :: i + |r| <= k < |s| ==> IsSpace(s[k]))
    ensures r != [] ==> !IsSpace(r[0]) && !IsSpace(r[|r| - 1])
  {
    TrimEnd(TrimStart(s))
  }

  /** No white space at all. */
  predicate NoSpace(s: string)
  {
    forall k :: 0 <= k < |s| ==> !IsSpace(s[k])
  }

  lemma TrimNoSpace(s: string)
    requires NoSpace(s)
    ensures Trim(s) == s
  {
  }

  /** `xs.filter(x => !!x)`: drop the empty strings, keep the order. */
  function NonEmpty(xs: seq<string>): (r: seq<string>)
    ensures |r| <= |xs|
    ensures forall k :: 0 <= k < |r| ==> r[k] != "" && r[k] in xs
  {
    if xs == [] then []
    else if xs[0] == "" then NonEmpty(xs[1..])
    else [xs[0]] + NonEmpty(xs[1..])
  }

  lemma {:induction false} NonEmptyKeepsAll(xs: seq<string>)
    requires forall k :: 0 <= k < |xs| ==> xs[k] != ""
    ensures NonEmpty(xs) == xs
  {
    if xs != [] { NonEmptyKeepsAll(xs[1..]); }
  }

  /** `xs.map(x => x.trim())`. */
  function TrimAll(xs: seq<string>): (r: seq<string>)
    ensures |r| == |xs| && forall k :: 0 <= k < |xs| ==> r[k] == Trim(xs[k])
  {
    if xs == [] then [] else [Trim(xs[0])] + TrimAll(xs[1..])
  }

  /** `s.split('\n').map(l => l.trim()).filter(l => !!l)`: the idiom both
      `git config --list` and `git ls-tree` output go through. */
  function TrimmedLines(s: string): seq<string>
  {
    NonEmpty(TrimAll(Split(s, "\n")))
  }

  lemma TrimAllNoSpace(xs: seq<string>)
    requires forall k :: 0 <= k < |xs| ==> NoSpace(xs[k])
    ensures TrimAll(xs) == xs
  {
    forall k | 0 <= k < |xs| ensures Trim(xs[k]) == xs[k] {
      TrimNoSpace(xs[k]);
    }
  }

  lemma OccursCharAt(p: string, c: char, j: int)
    requires OccursAt(p, [c], j)
    ensures 0 <= j < |p| && p[j] == c
  {
    assert p[j..j + 1][0] == p[j];
  }

  /** A string without white space has no newline to split at. */
  lemma NoSpaceSeparatesLines(p: string)
    requires NoSpace(p)
    ensures SeparatesCleanly(p, "\n")
  {
    if Contains(p, "\n") {
      var j :| OccursAt(p, "\n", j);
      OccursCharAt(p, '\n', j);
      assert false;
    }
    SingleCharSeparates(p, "\n");
  }

  /** The empty string has no lines. */
  lemma TrimmedLinesEmpty()
    ensures TrimmedLines("") == []
  {
    assert Split("", "\n") == [""];
    assert TrimAll([""]) == [""];
  }

  /** Names without white space, one per line, come back unchanged and in order. */
  lemma TrimmedLinesOfJoin(names: seq<string>)
    requires |names| >= 1
    requires forall k :: 0 <= k < |names| ==> names[k] != "" && NoSpace(names[k])
    ensures TrimmedLines(Join(names, "\n")) == names
  {
    forall k | 0 <= k < |names| ensures SeparatesCleanly(names[k], "\n") {
      NoSpaceSeparatesLines(names[k]);
    }
    SplitJoin(names, "\n");
    TrimAllNoSpace(names);
    NonEmptyKeepsAll(names);
  }
}
