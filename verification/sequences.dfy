/** Options and the two folds over sequences that the protocol models share. */
module Sequences {

  datatype Option<+T> = None | Some(value: T)

  /** The elements of `s` that satisfy `p`, in order. */
  function Filter<T>(p: T -> bool, s: seq<T>): seq<T> {
    if s == [] then []
    else (if p(s[0]) then [s[0]] else []) + Filter(p, s[1..])
  }

  /** The sum of `f` over `s`. */
  function Sum<T>(f: T -> nat, s: seq<T>): nat {
    if s == [] then 0 else f(s[0]) + Sum(f, s[1..])
  }

  /** Concatenation associates. */
  lemma Assoc<T>(a: seq<T>, b: seq<T>, c: seq<T>)
    ensures (a + b) + c == a + (b + c)
  {
  }

  lemma {:induction false} FilterConcat<T>(p: T -> bool, a: seq<T>, b: seq<T>)
    ensures Filter(p, a + b) == Filter(p, a) + Filter(p, b)
  {
    if a == [] {
      assert a + b == b;
    } else {
      assert (a + b)[0] == a[0] && (a + b)[1..] == a[1..] + b;
      FilterConcat(p, a[1..], b);
      var head := if p(a[0]) then [a[0]] else [];
      assert Filter(p, a + b) == head + Filter(p, a[1..] + b);
      assert head + (Filter(p, a[1..]) + Filter(p, b)) == (head + Filter(p, a[1..])) + Filter(p, b);
    }
  }

  lemma {:induction false} SumConcat<T>(f: T -> nat, a: seq<T>, b: seq<T>)
    ensures Sum(f, a + b) == Sum(f, a) + Sum(f, b)
  {
    if a == [] {
      assert a + b == b;
    } else {
      assert (a + b)[0] == a[0] && (a + b)[1..] == a[1..] + b;
      SumConcat(f, a[1..], b);
    }
  }

  lemma FilterAppend<T>(p: T -> bool, s: seq<T>, x: T)
    ensures Filter(p, s + [x]) == Filter(p, s) + (if p(x) then [x] else [])
  {
    FilterConcat(p, s, [x]);
    assert [x][1..] == [];
  }

  lemma SumAppend<T>(f: T -> nat, s: seq<T>, x: T)
    ensures Sum(f, s + [x]) == Sum(f, s) + f(x)
  {
    SumConcat(f, s, [x]);
    assert [x][1..] == [];
  }

  /** Updating one element changes only that element's share of a filter. */
  lemma FilterUpdate<T>(p: T -> bool, s: seq<T>, i: nat, x: T)
    requires i < |s|
    ensures Filter(p, s) ==
            Filter(p, s[..i]) + (if p(s[i]) then [s[i]] else []) + Filter(p, s[i + 1..])
    ensures Filter(p, s[i := x]) ==
            Filter(p, s[..i]) + (if p(x) then [x] else []) + Filter(p, s[i + 1..])
  {
    FilterSplit(p, s, i);
    var t := s[i := x];
    FilterSplit(p, t, i);
    assert t[..i] == s[..i] && t[i + 1..] == s[i + 1..];
  }

  lemma FilterSplit<T>(p: T -> bool, s: seq<T>, i: nat)
    requires i < |s|
    ensures Filter(p, s) ==
            Filter(p, s[..i]) + (if p(s[i]) then [s[i]] else []) + Filter(p, s[i + 1..])
  {
    assert s == s[..i] + s[i..];
    FilterConcat(p, s[..i], s[i..]);
    assert s[i..][1..] == s[i + 1..];
  }

  /** Updating one element changes a sum by that element's share. */
  lemma SumUpdate<T>(f: T -> nat, s: seq<T>, i: nat, x: T)
    requires i < |s|
    ensures Sum(f, s) >= f(s[i])
    ensures Sum(f, s[i := x]) == Sum(f, s) - f(s[i]) + f(x)
  {
    assert s == s[..i] + [s[i]] + s[i + 1..];
    SumConcat(f, s[..i] + [s[i]], s[i + 1..]);
    SumAppend(f, s[..i], s[i]);
    assert s[i := x] == s[..i] + [x] + s[i + 1..];
    SumConcat(f, s[..i] + [x], s[i + 1..]);
    SumAppend(f, s[..i], x);
  }

  /** A positive sum has a positive term. */
  lemma {:induction false} PositiveTerm<T>(f: T -> nat, s: seq<T>) returns (i: nat)
    requires Sum(f, s) > 0
    ensures i < |s| && f(s[i]) > 0
  {
    if f(s[0]) > 0 {
      i := 0;
    } else {
      var j := PositiveTerm(f, s[1..]);
      i := j + 1;
    }
  }

  /** If nothing is filtered out of `s`, no element satisfies the predicate. */
  lemma {:induction false} FilterEmpty<T>(p: T -> bool, s: seq<T>)
    ensures Filter(p, s) == [] <==> forall i :: 0 <= i < |s| ==> !p(s[i])
  {
    if s != [] {
      FilterEmpty(p, s[1..]);
      assert forall i :: 1 <= i < |s| ==> s[i] == s[1..][i - 1];
      if !p(s[0]) && Filter(p, s[1..]) == [] {
        forall i | 0 <= i < |s| ensures !p(s[i]) {
          if i > 0 { assert s[i] == s[1..][i - 1]; }
        }
      }
      if forall i :: 0 <= i < |s| ==> !p(s[i]) {
        assert forall i :: 0 <= i < |s[1..]| ==> s[1..][i] == s[i + 1];
      }
    }
  }
}
