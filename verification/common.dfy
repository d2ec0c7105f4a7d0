/** Shared vocabulary of the model: optional values, store replies, thrown
    errors, JavaScript string search and order-preserving filters. */
module Common {

  /** A value that may be absent (`null` / `undefined` in the source). */
  datatype Option<+T> = None | Some(value: T) {
    /** `x ?? default` */
    function GetOr(default: T): T {
      match this
      case Some(v) => v
      case None => default
    }
  }

  /** What a `catch` block receives: an `Error` instance with its message,
      or some other thrown value that has no message. */
  datatype Thrown = ErrorObj(message: string) | NonError

  /** The outcome of an awaited call: the value it resolved to, or what it threw. */
  datatype Result<+T> = Ok(value: T) | Threw(thrown: Thrown)

  /** The reply of one store query: its data, or the store's error object. */
  datatype Query<+T> = Rows(data: T) | QueryError(message: string)

  /** `err instanceof Error ? err.message : fallback` */
  function MessageOr(t: Thrown, fallback: string): (m: string)
    ensures t.ErrorObj? ==> m == t.message
    ensures t.NonError? ==> m == fallback
  {
    match t
    case ErrorObj(m) => m
    case NonError => fallback
  }

  /** `err.message || fallback`: an absent or empty message falls back. */
  function MessageOrIfEmpty(t: Thrown, fallback: string): (m: string)
    ensures m != "" || fallback == ""
    ensures t.ErrorObj? && t.message != "" ==> m == t.message
    ensures !(t.ErrorObj? && t.message != "") ==> m == fallback
  {
    match t
    case ErrorObj(m) => if m == "" then fallback else m
    case NonError => fallback
  }

  /** `Math.max(0, x)` */
  function Max0(x: real): (r: real)
    ensures r >= 0.0 && r >= x
    ensures r == 0.0 || r == x
  {
    if x > 0.0 then x else 0.0
  }

  // ---------------------------------------------------------------------
  // Text
  // ---------------------------------------------------------------------

  /** Lower-casing of one character, on the ASCII letters. */
  function LowerChar(c: char): char {
    if 'A' <= c <= 'Z' then (c as int + 32) as char else c
  }

  /** `String.prototype.toLowerCase`, on the ASCII letters. */
  function Lower(s: string): (r: string)
    ensures |r| == |s|
    ensures forall i :: 0 <= i < |s| ==> r[i] == LowerChar(s[i])
  {
    if s == [] then [] else [LowerChar(s[0])] + Lower(s[1..])
  }

  /** `s.includes(t)`: `t` occurs in `s` as a contiguous run. */
  predicate Includes(s: string, t: string)
    decreases |s|
  {
    if |t| > |s| then false
    else s[..|t|] == t || (s != [] && Includes(s[1..], t))
  }

  /** `t` occurs in `s` starting at position `i`. */
  ghost predicate OccursAt(s: string, t: string, i: int) {
    0 <= i <= |s| - |t| && s[i..i + |t|] == t
  }

  /** An occurrence at any position is found by `Includes`. */
  lemma {:induction false} OccurrenceIncluded(s: string, t: string, i: int)
    requires OccursAt(s, t, i)
    ensures Includes(s, t)
    decreases i
  {
    if i > 0 {
      assert s[1..][i - 1..i - 1 + |t|] == s[i..i + |t|];
      OccurrenceIncluded(s[1..], t, i - 1);
    }
  }

  /** `Includes` agrees with the textbook definition of a substring. */
  lemma {:induction false} IncludesIffOccurrence(s: string, t: string)
    ensures Includes(s, t) <==> exists i :: OccursAt(s, t, i)
    decreases |s|
  {
    if exists i :: OccursAt(s, t, i) {
      var i :| OccursAt(s, t, i);
      OccurrenceIncluded(s, t, i);
    }
    if Includes(s, t) {
      if s[..|t|] == t {
        assert OccursAt(s, t, 0);
      } else {
        IncludesIffOccurrence(s[1..], t);
        var i :| OccursAt(s[1..], t, i);
        assert s[i + 1..i + 1 + |t|] == s[1..][i..i + |t|];
        assert OccursAt(s, t, i + 1);
      }
    }
  }

  /** The empty term is included in every string, as in JavaScript. */
  lemma IncludesEmpty(s: string)
    ensures Includes(s, "")
  {
  }

  // ---------------------------------------------------------------------
  // Sequences
  // ---------------------------------------------------------------------

  /** `a` is `b` with some elements dropped and the rest kept in order. */
  ghost predicate IsSubsequence<T>(a: seq<T>, b: seq<T>)
    decreases |b|
  {
    if a == [] then true
    else if b == [] then false
    else (a[0] == b[0] && IsSubsequence(a[1..], b[1..])) || IsSubsequence(a, b[1..])
  }

  /** `xs.filter(keep)`: exactly the elements that pass, each as often as in
      `xs`, in their original order. */
  function Filter<T(==,!new)>(xs: seq<T>, keep: T -> bool): (r: seq<T>)
    ensures |r| <= |xs|
    ensures forall x :: x in r <==> x in xs && keep(x)
    ensures forall x :: keep(x) ==> multiset(r)[x] == multiset(xs)[x]
    ensures IsSubsequence(r, xs)
  {
    if xs == [] then []
    else
      assert xs == [xs[0]] + xs[1..];
      var rest := Filter(xs[1..], keep);
      if keep(xs[0]) then [xs[0]] + rest else rest
  }

  /** Filtering distributes over concatenation. */
  lemma {:induction false} FilterAppend<T(!new)>(xs: seq<T>, ys: seq<T>, keep: T -> bool)
    ensures Filter(xs + ys, keep) == Filter(xs, keep) + Filter(ys, keep)
  {
    if xs == [] {
      assert xs + ys == ys;
    } else {
      assert (xs + ys)[1..] == xs[1..] + ys;
      FilterAppend(xs[1..], ys, keep);
    }
  }

  /** A filter that keeps every element of the list keeps the list. */
  lemma {:induction false} FilterKeepsAll<T(!new)>(xs: seq<T>, keep: T -> bool)
    requires forall i :: 0 <= i < |xs| ==> keep(xs[i])
    ensures Filter(xs, keep) == xs
  {
    if xs != [] {
      assert forall i :: 0 <= i < |xs[1..]| ==> xs[1..][i] == xs[i + 1];
      FilterKeepsAll(xs[1..], keep);
    }
  }

  /** Two filters that agree on every element give the same list. */
  lemma {:induction false} FilterSamePredicate<T(!new)>(xs: seq<T>, p: T -> bool, q: T -> bool)
    requires forall x :: p(x) == q(x)
    ensures Filter(xs, p) == Filter(xs, q)
  {
    if xs != [] {
      FilterSamePredicate(xs[1..], p, q);
    }
  }

  /** `xs.slice(0, n)` */
  function Take<T>(xs: seq<T>, n: nat): (r: seq<T>)
    ensures |r| == if |xs| <= n then |xs| else n
    ensures |xs| <= n ==> r == xs
    ensures forall i :: 0 <= i < |r| ==> r[i] == xs[i]
  {
    if |xs| <= n then xs else xs[..n]
  }

  /** A prefix is a subsequence. */
  lemma {:induction false} PrefixIsSubsequence<T>(xs: seq<T>, n: nat)
    requires n <= |xs|
    ensures IsSubsequence(xs[..n], xs)
    decreases |xs|
  {
    if n == 0 {
    } else {
      assert xs[..n][1..] == xs[1..][..n - 1];
      PrefixIsSubsequence(xs[1..], n - 1);
    }
  }

  /** Subsequences compose. */
  lemma {:induction false} SubsequenceTransitive<T>(a: seq<T>, b: seq<T>, c: seq<T>)
    requires IsSubsequence(a, b) && IsSubsequence(b, c)
    ensures IsSubsequence(a, c)
    decreases |c|
  {
    if a == [] {
    } else if c == [] {
    } else if b[0] == c[0] && IsSubsequence(b[1..], c[1..]) {
      if a[0] == b[0] && IsSubsequence(a[1..], b[1..]) {
        SubsequenceTransitive(a[1..], b[1..], c[1..]);
      } else {
        SubsequenceTransitive(a, b[1..], c[1..]);
      }
    } else {
      SubsequenceTransitive(a, b, c[1..]);
    }
  }
}
