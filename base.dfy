// Shared vocabulary: optional values and results, the few string operations
// the two services rely on (substring test, lower-casing, code-point order)
// and the sorted listing of a set of names.

module Base {

  datatype Option<T> = None | Some(value: T)

  datatype Result<T, E> = Ok(value: T) | Err(error: E)
  {
    predicate IsFailure() { Err? }
  }

  /** `float(b)`: a 0/1 indicator, used for features and health gauges alike. */
  function Flag(b: bool): (r: real)
    ensures r == 1.0 <==> b
    ensures r == 0.0 <==> !b
  {
    if b then 1.0 else 0.0
  }

  /** Concatenation is associative. */
  lemma ConcatAssoc<T>(a: seq<T>, b: seq<T>, c: seq<T>)
    ensures (a + b) + c == a + (b + c)
  {
  }

  /** `sub` occurs in `s` starting at index `i`. */
  predicate OccursAt(s: string, sub: string, i: nat)
  {
    i + |sub| <= |s| && s[i..i + |sub|] == sub
  }

  /** Python's `sub in s` on strings. */
  ghost predicate Contains(s: string, sub: string)
  {
    exists i: nat :: OccursAt(s, sub, i)
  }

  /** Search for an occurrence of `sub` at index `from` or later. */
  function FindFrom(s: string, sub: string, from: nat): (r: Option<nat>)
    ensures r.Some? ==> from <= r.value && OccursAt(s, sub, r.value)
    ensures r.None? ==> forall i: nat :: from <= i ==> !OccursAt(s, sub, i)
    decreases |s| - from
  {
    if from + |sub| > |s| then None
    else if s[from..from + |sub|] == sub then Some(from)
    else FindFrom(s, sub, from + 1)
  }

  /** Executable substring test, equal to `Contains`. */
  function ContainsText(s: string, sub: string): (r: bool)
    ensures r <==> Contains(s, sub)
  {
    FindFrom(s, sub, 0).Some?
  }

  /**
   * Python's `str.lower()` on one character, as far as the Basic Latin and
   * Latin-1 capitals go: A-Z and the accented capitals U+00C0..U+00DE
   * (except the multiplication sign U+00D7) move down by 32. Every other
   * character is left as it is, which is where Python's full Unicode
   * mapping differs.
   */
  function LowerChar(c: char): (r: char)
    ensures 'A' <= c <= 'Z' ==> r as int == c as int + 32
    ensures !('A' <= c <= 'Z') && !('\U{c0}' <= c <= '\U{de}') ==> r == c
  {
    if 'A' <= c <= 'Z' || ('\U{c0}' <= c <= '\U{de}' && c != '\U{d7}') then
      (c as int + 32) as char
    else c
  }

  function Lower(s: string): (r: string)
    ensures |r| == |s|
    ensures forall i :: 0 <= i < |s| ==> r[i] == LowerChar(s[i])
  {
    seq(|s|, i requires 0 <= i < |s| => LowerChar(s[i]))
  }

  // ---------------------------------------------------------------------
  // Code-point order on strings (Python's `<` on str, JavaScript's default
  // comparison is not used here).

  predicate StrLe(a: string, b: string)
  {
    if |a| == 0 then true
    else if |b| == 0 then false
    else if a[0] < b[0] then true
    else if a[0] > b[0] then false
    else StrLe(a[1..], b[1..])
  }

  lemma {:induction false} StrLeRefl(a: string)
    ensures StrLe(a, a)
  {
    if |a| > 0 { StrLeRefl(a[1..]); }
  }

  lemma {:induction false} StrLeAntisym(a: string, b: string)
    requires StrLe(a, b) && StrLe(b, a)
    ensures a == b
  {
    if |a| > 0 && |b| > 0 {
      StrLeAntisym(a[1..], b[1..]);
      assert a == [a[0]] + a[1..];
      assert b == [b[0]] + b[1..];
    }
  }

  lemma {:induction false} StrLeTotal(a: string, b: string)
    ensures StrLe(a, b) || StrLe(b, a)
  {
    if |a| > 0 && |b| > 0 && a[0] == b[0] { StrLeTotal(a[1..], b[1..]); }
  }

  lemma {:induction false} StrLeTrans(a: string, b: string, c: string)
    requires StrLe(a, b) && StrLe(b, c)
    ensures StrLe(a, c)
  {
    if |a| > 0 && |b| > 0 && |c| > 0 && a[0] == b[0] && b[0] == c[0] {
      StrLeTrans(a[1..], b[1..], c[1..]);
    }
  }

  predicate IsLeast(m: string, s: set<string>)
  {
    m in s && forall x :: x in s ==> StrLe(m, x)
  }

  lemma LeastExists(s: set<string>)
    requires s != {}
    ensures exists m :: IsLeast(m, s)
    decreases |s|
  {
    var x :| x in s;
    if s == {x} {
      StrLeRefl(x);
      assert IsLeast(x, s);
    } else {
      LeastExists(s - {x});
      var m :| IsLeast(m, s - {x});
      StrLeTotal(m, x);
      if StrLe(m, x) {
        assert IsLeast(m, s);
      } else {
        forall y | y in s ensures StrLe(x, y) {
          if y != x { StrLeTrans(x, m, y); } else { StrLeRefl(x); }
        }
        assert IsLeast(x, s);
      }
    }
  }

  lemma LeastUnique(s: set<string>)
    ensures forall a, b :: IsLeast(a, s) && IsLeast(b, s) ==> a == b
  {
    forall a, b | IsLeast(a, s) && IsLeast(b, s) ensures a == b {
      StrLeAntisym(a, b);
    }
  }

  /** Strictly ascending in code-point order. */
  predicate StrictlyAscending(r: seq<string>)
  {
    forall i, j :: 0 <= i < j < |r| ==> StrLe(r[i], r[j]) && r[i] != r[j]
  }

  /** Python's `sorted(names)` on a set of distinct names. */
  function SortedKeys(s: set<string>): (r: seq<string>)
    ensures |r| == |s|
    ensures forall x :: x in s <==> x in r
    ensures StrictlyAscending(r)
    decreases |s|
  {
    if s == {} then []
    else
      LeastExists(s);
      LeastUnique(s);
      var m :| m in s && IsLeast(m, s);
      var rest := SortedKeys(s - {m});
      PrependLeast(m, s, rest);
      [m] + rest
  }

  /** The least name in front of the sorted rest sorts the whole set. */
  lemma PrependLeast(m: string, s: set<string>, rest: seq<string>)
    requires IsLeast(m, s)
    requires |rest| == |s - {m}| && StrictlyAscending(rest)
    requires forall x :: x in s - {m} <==> x in rest
    ensures |[m] + rest| == |s|
    ensures forall x :: x in s <==> x in [m] + rest
    ensures StrictlyAscending([m] + rest)
  {
    var r := [m] + rest;
    forall i, j | 0 <= i < j < |r| ensures StrLe(r[i], r[j]) && r[i] != r[j] {
      if i == 0 {
        assert r[j] == rest[j - 1] && rest[j - 1] in rest;
      } else {
        assert r[i] == rest[i - 1] && r[j] == rest[j - 1];
      }
    }
  }

  // ---------------------------------------------------------------------
  // Applying a fallible step to each element in turn

  /** `f` applied to each element, left to right; the first failure ends it. */
  function Traverse<T, U, E>(xs: seq<T>, f: T -> Result<U, E>): (r: Result<seq<U>, E>)
    ensures r.Ok? ==> |r.value| == |xs|
    decreases |xs|
  {
    if |xs| == 0 then Ok([])
    else
      match Traverse(xs[..|xs| - 1], f)
      case Err(e) => Err(e)
      case Ok(us) =>
        match f(xs[|xs| - 1])
        case Err(e) => Err(e)
        case Ok(u) => Ok(us + [u])
  }

  /** A successful traversal holds each element's own result, in order. */
  lemma {:induction false} TraversePointwise<T, U, E>(xs: seq<T>, f: T -> Result<U, E>)
    requires Traverse(xs, f).Ok?
    ensures forall i :: 0 <= i < |xs| ==> f(xs[i]) == Ok(Traverse(xs, f).value[i])
    decreases |xs|
  {
    if |xs| > 0 {
      var prefix := xs[..|xs| - 1];
      TraversePointwise(prefix, f);
      forall i | 0 <= i < |xs| - 1 ensures xs[i] == prefix[i] { }
    }
  }

  /** A traversal fails when, and only when, some element fails. */
  lemma {:induction false} TraverseFails<T, U, E>(xs: seq<T>, f: T -> Result<U, E>)
    ensures Traverse(xs, f).Err? <==> exists i :: 0 <= i < |xs| && f(xs[i]).Err?
    decreases |xs|
  {
    if |xs| > 0 {
      var prefix := xs[..|xs| - 1];
      TraverseFails(prefix, f);
      if exists i :: 0 <= i < |prefix| && f(prefix[i]).Err? {
        var i :| 0 <= i < |prefix| && f(prefix[i]).Err?;
        assert f(xs[i]).Err?;
      }
      if exists i :: 0 <= i < |xs| && f(xs[i]).Err? {
        var i :| 0 <= i < |xs| && f(xs[i]).Err?;
        if i < |xs| - 1 { assert f(prefix[i]).Err?; }
      }
    }
  }

  /** Traversals with functions that agree on every element agree. */
  lemma {:induction false} TraverseAgree<T, U, E>(xs: seq<T>, f: T -> Result<U, E>, g: T -> Result<U, E>)
    requires forall i :: 0 <= i < |xs| ==> f(xs[i]) == g(xs[i])
    ensures Traverse(xs, f) == Traverse(xs, g)
    decreases |xs|
  {
    if |xs| > 0 {
      var prefix := xs[..|xs| - 1];
      forall i | 0 <= i < |prefix| ensures f(prefix[i]) == g(prefix[i]) {
        assert prefix[i] == xs[i];
      }
      TraverseAgree(prefix, f, g);
    }
  }

  /** Extending a successful prefix by one element. */
  lemma TraverseStep<T, U, E>(xs: seq<T>, k: nat, f: T -> Result<U, E>)
    requires k < |xs|
    ensures Traverse(xs[..k + 1], f) ==
      match Traverse(xs[..k], f)
      case Err(e) => Err(e)
      case Ok(us) => (match f(xs[k]) case Err(e) => Err(e) case Ok(u) => Ok(us + [u]))
  {
    assert xs[..k + 1][..k] == xs[..k];
  }

  /** A failure right after a successful prefix is the failure of the whole traversal. */
  lemma {:induction false} TraverseStops<T, U, E>(xs: seq<T>, k: nat, f: T -> Result<U, E>)
    requires k < |xs|
    requires Traverse(xs[..k], f).Ok? && f(xs[k]).Err?
    ensures Traverse(xs, f) == Err(f(xs[k]).error)
    decreases |xs|
  {
    if k + 1 == |xs| {
      assert xs[..|xs| - 1] == xs[..k];
    } else {
      var prefix := xs[..|xs| - 1];
      assert prefix[..k] == xs[..k] && prefix[k] == xs[k];
      TraverseStops(prefix, k, f);
    }
  }
}
