/** The text operations of Go's strings package that the header code uses. */
module Text {
  import opened Sequences

  predicate All(p: char -> bool, s: string) { forall k :: 0 <= k < |s| ==> p(s[k]) }

  /** Unicode white space. */
  predicate IsSpace(c: char) {
    var n := c as int;
    || 0x09 <= n <= 0x0D || n == 0x20 || n == 0x85 || n == 0xA0 || n == 0x1680
    || 0x2000 <= n <= 0x200A || n == 0x2028 || n == 0x2029 || n == 0x202F || n == 0x205F || n == 0x3000
  }

  predicate IsAsciiSpace(c: char) { c == ' ' || c == '\t' || c == '\n' || c == '\r' }

  function TrimLeft(p: char -> bool, s: string): string {
    if s != [] && p(s[0]) then TrimLeft(p, s[1..]) else s
  }

  function TrimRight(p: char -> bool, s: string): string {
    if s != [] && p(s[|s| - 1]) then TrimRight(p, s[..|s| - 1]) else s
  }

  function Trim(p: char -> bool, s: string): string { TrimRight(p, TrimLeft(p, s)) }

  /** strings.TrimSpace */
  function TrimSpace(s: string): string { Trim(IsSpace, s) }

  /** Nothing to trim at either end. */
  predicate Tight(p: char -> bool, s: string) { s == [] || (!p(s[0]) && !p(s[|s| - 1])) }

  lemma {:induction false} TrimLeftSplit(p: char -> bool, s: string) returns (a: string)
    ensures s == a + TrimLeft(p, s) && All(p, a)
    ensures TrimLeft(p, s) != [] ==> !p(TrimLeft(p, s)[0])
  {
    if s != [] && p(s[0]) {
      var rest := TrimLeftSplit(p, s[1..]);
      a := [s[0]] + rest;
    } else {
      a := [];
    }
  }

  lemma {:induction false} TrimRightSplit(p: char -> bool, s: string) returns (b: string)
    ensures s == TrimRight(p, s) + b && All(p, b)
    ensures TrimRight(p, s) != [] ==> !p(TrimRight(p, s)[|TrimRight(p, s)| - 1])
  {
    if s != [] && p(s[|s| - 1]) {
      var rest := TrimRightSplit(p, s[..|s| - 1]);
      b := rest + [s[|s| - 1]];
    } else {
      b := [];
    }
  }

  /** Trimming cuts white space off both ends and leaves a tight text. */
  lemma TrimSplit(p: char -> bool, s: string) returns (a: string, b: string)
    ensures s == a + Trim(p, s) + b && All(p, a) && All(p, b) && Tight(p, Trim(p, s))
  {
    a := TrimLeftSplit(p, s);
    var t := TrimLeft(p, s);
    b := TrimRightSplit(p, t);
    var r := TrimRight(p, t);
    assert t == r + b;
    if r != [] { assert r[0] == t[0]; }
  }

  lemma {:induction false} TrimLeftOf(p: char -> bool, a: string, t: string)
    requires All(p, a) && (t != [] ==> !p(t[0]))
    ensures TrimLeft(p, a + t) == t
  {
    if a == [] {
      assert a + t == t;
    } else {
      var s, rest := a + t, a[1..];
      assert s[0] == a[0] && s[1..] == rest + t && All(p, rest);
      TrimLeftOf(p, rest, t);
      assert TrimLeft(p, s) == TrimLeft(p, rest + t);
    }
  }

  lemma {:induction false} TrimRightOf(p: char -> bool, t: string, b: string)
    requires All(p, b) && (t != [] ==> !p(t[|t| - 1]))
    ensures TrimRight(p, t + b) == t
  {
    if b == [] {
      assert t + b == t;
    } else {
      var s, init := t + b, b[..|b| - 1];
      assert s[|s| - 1] == b[|b| - 1] && s[..|s| - 1] == t + init && All(p, init);
      TrimRightOf(p, t, init);
      assert TrimRight(p, s) == TrimRight(p, t + init);
    }
  }

  /** The only way to cut a text like that. */
  lemma TrimOf(p: char -> bool, a: string, t: string, b: string)
    requires All(p, a) && All(p, b) && Tight(p, t)
    ensures Trim(p, a + t + b) == t
  {
    if t == [] {
      assert a + t + b == (a + b) + [];
      TrimLeftOf(p, a + b, []);
    } else {
      assert a + t + b == a + (t + b);
      TrimLeftOf(p, a, t + b);
      TrimRightOf(p, t, b);
    }
  }

  /** Trimming less first makes no difference. */
  lemma TrimTwice(p: char -> bool, q: char -> bool, s: string)
    requires forall c :: q(c) ==> p(c)
    ensures Trim(p, Trim(q, s)) == Trim(p, s)
  {
    var a, b := TrimSplit(q, s);
    var c, d := TrimSplit(p, Trim(q, s));
    var t := Trim(p, Trim(q, s));
    assert s == (a + c) + t + (d + b);
    TrimOf(p, a + c, t, d + b);
  }

  lemma TightTrims(p: char -> bool, s: string)
    ensures Trim(p, s) == s <==> Tight(p, s)
  {
    if Tight(p, s) {
      TrimOf(p, [], s, []);
      assert [] + s + [] == s;
    } else {
      var a, b := TrimSplit(p, s);
    }
  }

  function Index(s: string, c: char): (r: Option<nat>)
    ensures r.Some? ==> r.value < |s| && s[r.value] == c && c !in s[..r.value]
    ensures r.None? ==> c !in s
  {
    if s == [] then None
    else if s[0] == c then Some(0)
    else
      match Index(s[1..], c)
      case None => None
      case Some(i) =>
        assert s[..i + 1] == [s[0]] + s[1..][..i];
        Some(i + 1)
  }

  lemma {:induction false} IndexOf(a: string, c: char, b: string)
    requires c !in a
    ensures Index(a + [c] + b, c) == Some(|a|)
  {
    var s := a + [c] + b;
    if a != [] {
      assert s[0] == a[0] && s[1..] == a[1..] + [c] + b;
      IndexOf(a[1..], c, b);
    }
  }

  /** strings.Split(text, "\n") */
  function Lines(text: string): seq<string>
    decreases |text|
  {
    match Index(text, '\n')
    case None => [text]
    case Some(i) => [text[..i]] + Lines(text[i + 1..])
  }

  /** A text without line breaks is one line. */
  lemma LinesSingle(t: string)
    requires '\n' !in t
    ensures Lines(t) == [t]
  {
  }

  lemma LinesCons(line: string, rest: string)
    requires '\n' !in line
    ensures Lines(line + ['\n'] + rest) == [line] + Lines(rest)
  {
    var text := line + ['\n'] + rest;
    IndexOf(line, '\n', rest);
    assert text[..|line|] == line && text[|line| + 1..] == rest;
  }

  lemma {:induction false} LinesConcat(a: string, b: string)
    ensures Lines(a + ['\n'] + b) == Lines(a) + Lines(b)
    decreases |a|
  {
    match Index(a, '\n') {
      case None => LinesCons(a, b);
      case Some(i) =>
        LinesConcat(a[i + 1..], b);
        LinesJoined(a[..i], a[i + 1..], b);
        LineCut(a, i);
    }
  }

  lemma LineCut(a: string, i: nat)
    requires i < |a| && a[i] == '\n'
    ensures a[..i] + ['\n'] + a[i + 1..] == a
  {
  }

  lemma LinesJoined(line: string, rest: string, b: string)
    requires '\n' !in line && Lines(rest + ['\n'] + b) == Lines(rest) + Lines(b)
    ensures Lines(line + ['\n'] + rest + ['\n'] + b) == Lines(line + ['\n'] + rest) + Lines(b)
  {
    var start, tail := line + ['\n'], rest + ['\n'] + b;
    Assoc(start, rest, ['\n']);
    Assoc(start, rest + ['\n'], b);
    LinesCons(line, tail);
    LinesCons(line, rest);
    Assoc([line], Lines(rest), Lines(b));
  }
}
