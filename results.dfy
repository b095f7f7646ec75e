/** Shared value types: optional values, results carrying the error a JavaScript
    function would throw, and the loosely typed values handed to child processes. */
module Results {

  datatype Option<+T> = None | Some(value: T)

  /** What a JavaScript call throws, reduced to the distinctions the code relies on. */
  datatype Error =
    | TypeError(message: string)                      // a thrown TypeError
    | SizeMismatch(path: string, got: nat, want: nat) // the copy check in lib/fs.js
    | FsError(code: string)                           // an fs call rejected with this code
    | ToolFailed(command: string)                     // a child process exited non-zero
    | Unreachable(keyId: string)                      // a keyserver lookup threw

  datatype Result<+T> = Ok(value: T) | Err(error: Error) {
    predicate IsFailure() { Err? }
    function PropagateFailure<U>(): Result<U>
      requires Err?
    {
      Err(error)
    }
    function Extract(): T
      requires Ok?
    {
      value
    }
  }

  /** A JavaScript value passed as an argument: a string or a boolean. */
  datatype Value = Str(s: string) | Bool(b: bool)

  /** All optional entries are present (no `undefined` in the array). */
  predicate AllDefined<T>(xs: seq<Option<T>>)
  {
    forall i :: 0 <= i < |xs| ==> xs[i].Some?
  }

  /** Three elements appended one at a time. */
  lemma AppendThree<T>(xs: seq<T>, a: T, b: T, c: T)
    ensures xs + [a] + [b] + [c] == xs + [a, b, c]
  {
  }

  /** Five elements appended in four groups. */
  lemma AppendFive<T>(xs: seq<T>, a: T, b: T, c: T, d: T, e: T)
    ensures xs + [a] + [b, c] + [d] + [e] == xs + [a, b, c, d, e]
  {
  }

  /** What was appended to a sequence is what follows its old length. */
  lemma Extended<T>(xs: seq<T>, tail: seq<T>)
    ensures xs <= xs + tail && (xs + tail)[|xs|..] == tail
  {
  }

  /** A non-empty sequence is its front followed by its last element. */
  lemma FrontLast<T>(xs: seq<T>)
    requires |xs| > 0
    ensures xs == xs[..|xs| - 1] + [xs[|xs| - 1]]
  {
  }

  /** Array.prototype.filter over a membership test: the elements of `xs`, in
      order, whose membership in `ys` equals `inside`. */
  function Select<T(==)>(xs: seq<T>, ys: seq<T>, inside: bool): seq<T>
  {
    if xs == [] then []
    else Select(xs[..|xs| - 1], ys, inside) + (if (xs[|xs| - 1] in ys) == inside then [xs[|xs| - 1]] else [])
  }

  lemma {:induction false} SelectMembers<T>(xs: seq<T>, ys: seq<T>, inside: bool)
    ensures forall x :: x in Select(xs, ys, inside) <==> x in xs && (x in ys) == inside
    ensures |Select(xs, ys, inside)| <= |xs|
  {
    if xs != [] {
      SelectMembers(xs[..|xs| - 1], ys, inside);
      FrontLast(xs);
    }
  }

  /** Filtering keeps the order: it distributes over concatenation. */
  lemma {:induction false} SelectAppend<T>(a: seq<T>, b: seq<T>, ys: seq<T>, inside: bool)
    ensures Select(a + b, ys, inside) == Select(a, ys, inside) + Select(b, ys, inside)
  {
    if b == [] {
      assert a + b == a;
    } else {
      var b' := b[..|b| - 1];
      assert (a + b)[..|a + b| - 1] == a + b';
      assert (a + b)[|a + b| - 1] == b[|b| - 1];
      SelectAppend(a, b', ys, inside);
    }
  }

  /** When every element passes, filtering changes nothing. */
  lemma {:induction false} SelectAll<T>(xs: seq<T>, ys: seq<T>, inside: bool)
    requires forall k :: 0 <= k < |xs| ==> (xs[k] in ys) == inside
    ensures Select(xs, ys, inside) == xs
  {
    if xs != [] {
      SelectAll(xs[..|xs| - 1], ys, inside);
      FrontLast(xs);
    }
  }
}
