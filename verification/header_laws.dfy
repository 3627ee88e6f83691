/** What header texts mean, line by line and character by character, without the parser's own
    functions; with `HeaderText.ParseHomomorphism` the laws of single lines determine every result. */
module HeaderLaws {
  import opened Sequences
  import opened Text
  import opened HeaderText

  // ---- single lines ----

  /** A line that is neither blank nor a field. */
  predicate Broken(line: string) { !All(IsSpace, line) && ':' !in line }

  lemma TrimmedEmpty(t: string)
    ensures TrimSpace(t) == [] <==> All(IsSpace, t)
  {
    if All(IsSpace, t) {
      assert t == t + [] + [];
      TrimOf(IsSpace, t, [], []);
    }
    if TrimSpace(t) == [] {
      var a, b := TrimSplit(IsSpace, t);
      assert t == a + b;
    }
  }

  /** Trimming keeps every character that is no white space. */
  lemma TrimKeeps(t: string, c: char)
    requires !IsSpace(c)
    ensures c in TrimSpace(t) <==> c in t
  {
    var a, b := TrimSplit(IsSpace, t);
    assert c !in a && c !in b;
  }

  lemma OneLine(t: string)
    requires '\n' !in t
    ensures Parse(t) == match ReadLine(t)
                        case Blank => Ok(map[])
                        case Bad(line) => Err(line)
                        case Field(key, value) => Ok(map[Canonical(key) := [value]])
  {
    assert Lines(t) == [t] && [t][1..] == [];
    match ReadLine(t) {
      case Blank => assert ParseInto(map[], []) == Ok(map[]);
      case Bad(line) =>
      case Field(key, value) =>
        AddIsMerge(map[], key, value);
        assert ParseInto(Add(map[], key, value), []) == Ok(Add(map[], key, value));
    }
  }

  /** A line without a colon is skipped if it is blank, and is an error otherwise. */
  lemma LineWithoutColon(t: string)
    requires '\n' !in t && ':' !in t
    ensures Parse(t) == if All(IsSpace, t) then Ok(map[]) else Err(TrimSpace(t))
  {
    OneLine(t);
    TrimmedEmpty(t);
    TrimKeeps(t, ':');
  }

  /** A trimmed line is read as what is before and after its first colon. */
  lemma CutAtColon(raw: string, k: string, v: string)
    requires TrimSpace(raw) == k + [':'] + v && ':' !in k
    ensures ReadLine(raw) == Field(TrimSpace(k), TrimSpace(v))
  {
    var t := k + [':'] + v;
    IndexOf(k, ':', v);
    assert t[..|k|] == k && t[|k| + 1..] == v;
  }

  lemma LeftHalf(key: string)
    ensures TrimSpace(TrimLeft(IsSpace, key)) == TrimSpace(key)
  {
    var k := TrimLeft(IsSpace, key);
    var a := TrimLeftSplit(IsSpace, key);
    OuterSpace(a, k, []);
    assert a + k + [] == key;
  }

  lemma RightHalf(value: string)
    ensures TrimSpace(TrimRight(IsSpace, value)) == TrimSpace(value)
  {
    var v := TrimRight(IsSpace, value);
    var b := TrimRightSplit(IsSpace, value);
    OuterSpace([], v, b);
    assert [] + v + b == value;
  }

  lemma TrimHalves(key: string, value: string)
    ensures TrimSpace(key + [':'] + value) == TrimLeft(IsSpace, key) + [':'] + TrimRight(IsSpace, value)
  {
    var k, v := TrimLeft(IsSpace, key), TrimRight(IsSpace, value);
    var a := TrimLeftSplit(IsSpace, key);
    var b := TrimRightSplit(IsSpace, value);
    var t := k + [':'] + v;
    assert t[0] == if k == [] then ':' else k[0];
    assert t[|t| - 1] == if v == [] then ':' else v[|v| - 1];
    TrimOf(IsSpace, a, t, b);
    Regroup(a, k, v, b);
  }

  lemma Regroup(a: string, k: string, v: string, b: string)
    ensures (a + k) + [':'] + (v + b) == a + (k + [':'] + v) + b
  {
  }

  lemma {:induction false} TrimLeftFrom(p: char -> bool, s: string, c: char)
    requires c !in s
    ensures c !in TrimLeft(p, s)
  {
    var a := TrimLeftSplit(p, s);
  }

  /** A line is cut at its first colon, and both parts are trimmed. */
  lemma LineWithColon(key: string, value: string)
    requires '\n' !in key && '\n' !in value && ':' !in key
    ensures Parse(key + [':'] + value) == Ok(map[Canonical(TrimSpace(key)) := [TrimSpace(value)]])
  {
    var line := key + [':'] + value;
    TrimHalves(key, value);
    LeftHalf(key);
    RightHalf(value);
    TrimLeftFrom(IsSpace, key, ':');
    CutAtColon(line, TrimLeft(IsSpace, key), TrimRight(IsSpace, value));
    OneLine(line);
  }

  /** White space around a text makes no difference to its trimmed form. */
  lemma OuterSpace(a: string, t: string, b: string)
    requires All(IsSpace, a) && All(IsSpace, b)
    ensures TrimSpace(a + t + b) == TrimSpace(t)
  {
    var c, d := TrimSplit(IsSpace, t);
    assert a + t + b == (a + c) + TrimSpace(t) + (d + b);
    TrimOf(IsSpace, a + c, TrimSpace(t), d + b);
  }

  // ---- whole texts ----

  lemma BadIffBroken(raw: string)
    ensures ReadLine(raw).Bad? <==> Broken(raw)
    ensures ReadLine(raw).Bad? ==> ReadLine(raw).line == TrimSpace(raw)
  {
    TrimmedEmpty(raw);
    TrimKeeps(raw, ':');
  }

  predicate NoneBroken(lines: seq<string>) { forall i :: 0 <= i < |lines| ==> !Broken(lines[i]) }

  lemma {:induction false} AcceptsUnbroken(h: Header, lines: seq<string>)
    requires NoneBroken(lines)
    ensures ParseInto(h, lines).Ok?
    decreases |lines|
  {
    if lines != [] {
      BadIffBroken(lines[0]);
      assert NoneBroken(lines[1..]);
      match ReadLine(lines[0]) {
        case Blank => AcceptsUnbroken(h, lines[1..]);
        case Field(key, value) => AcceptsUnbroken(Add(h, key, value), lines[1..]);
      }
    }
  }

  /** The first broken line is the error. */
  lemma {:induction false} RejectsBroken(h: Header, before: seq<string>, line: string, after: seq<string>)
    requires NoneBroken(before) && Broken(line)
    ensures ParseInto(h, before + [line] + after) == Err(TrimSpace(line))
    decreases |before|
  {
    var lines := before + [line] + after;
    if before == [] {
      assert lines[0] == line;
      BadIffBroken(line);
    } else {
      assert lines[0] == before[0] && lines[1..] == before[1..] + [line] + after;
      BadIffBroken(before[0]);
      assert NoneBroken(before[1..]);
      match ReadLine(before[0]) {
        case Blank => RejectsBroken(h, before[1..], line, after);
        case Field(key, value) => RejectsBroken(Add(h, key, value), before[1..], line, after);
      }
    }
  }

  lemma {:induction false} FirstBroken(lines: seq<string>) returns (i: nat)
    requires !NoneBroken(lines)
    ensures i < |lines| && Broken(lines[i]) && NoneBroken(lines[..i])
  {
    if Broken(lines[0]) {
      i := 0;
    } else {
      var j: nat :| j < |lines| && Broken(lines[j]);
      assert lines[1..][j - 1] == lines[j];
      i := FirstBroken(lines[1..]);
      assert lines[..i + 1] == [lines[0]] + lines[1..][..i];
      i := i + 1;
    }
  }

  /** A text is accepted exactly if none of its lines is broken; otherwise the error is the first
      broken line, trimmed. */
  lemma FailsIffBroken(text: string)
    ensures match Parse(text)
            case Ok(_) => NoneBroken(Lines(text))
            case Err(e) =>
              exists i :: 0 <= i < |Lines(text)| && Broken(Lines(text)[i]) &&
                          e == TrimSpace(Lines(text)[i]) && NoneBroken(Lines(text)[..i])
  {
    var lines := Lines(text);
    if NoneBroken(lines) {
      AcceptsUnbroken(map[], lines);
    } else {
      var i := FirstBroken(lines);
      assert lines == lines[..i] + [lines[i]] + lines[i + 1..];
      RejectsBroken(map[], lines[..i], lines[i], lines[i + 1..]);
    }
  }

  // ---- names ----

  function Lower(c: char): char { if 'A' <= c <= 'Z' then c + ' ' else c }

  function Upper(c: char): char { if 'a' <= c <= 'z' then c - ' ' else c }

  /** The delimiters of section 5.6.2 of RFC 9110, from the double quote to the closing brace. */
  const DELIMITERS: set<int> :=
    {0x22, 0x28, 0x29, 0x2C, 0x2F, 0x3A, 0x3B, 0x3C, 0x3D, 0x3E, 0x3F, 0x40, 0x5B, 0x5C, 0x5D, 0x7B, 0x7D}

  /** The characters of names are visible ASCII except the delimiters. */
  lemma TokenChars(c: char)
    ensures IsToken(c) <==> 0x21 <= c as int <= 0x7E && c as int !in DELIMITERS
  {
  }

  /** The characters with the Unicode property White_Space. */
  lemma SpaceChars(c: char)
    ensures IsSpace(c) <==>
            c as int in {0x20, 0x09, 0x0A, 0x0B, 0x0C, 0x0D, 0x85, 0xA0, 0x1680, 0x2028, 0x2029, 0x202F, 0x205F, 0x3000}
            || 0x2000 <= c as int <= 0x200A
  {
  }

  lemma {:induction false} CanonAt(s: string, upper: bool, i: nat)
    requires i < |s|
    ensures CanonFrom(s, upper)[i] ==
            if (if i == 0 then upper else s[i - 1] == '-') then Upper(s[i]) else Lower(s[i])
  {
    if i > 0 { CanonAt(s[1..], CanonChar(s[0], upper) == '-', i - 1); }
  }

  /** The canonical form: capital letters at the start and after each hyphen, small ones elsewhere. */
  lemma CanonicalForm(key: string, i: nat)
    requires ValidName(key) && i < |key|
    ensures |Canonical(key)| == |key|
    ensures Canonical(key)[i] == if i == 0 || key[i - 1] == '-' then Upper(key[i]) else Lower(key[i])
  {
    CanonAt(key, true, i);
  }

  predicate SameIgnoringCase(a: string, b: string) {
    |a| == |b| && forall i: nat :: i < |a| ==> Lower(a[i]) == Lower(b[i])
  }

  /** Two names share one key exactly if they differ in the case of letters only. */
  lemma SameKeyIff(a: string, b: string)
    requires ValidName(a) && ValidName(b)
    ensures Canonical(a) == Canonical(b) <==> SameIgnoringCase(a, b)
  {
    if Canonical(a) == Canonical(b) {
      forall i: nat | i < |a| ensures Lower(a[i]) == Lower(b[i]) {
        CanonicalForm(a, i);
        CanonicalForm(b, i);
      }
    }
    if SameIgnoringCase(a, b) {
      forall i: nat | i < |a| ensures Canonical(a)[i] == Canonical(b)[i] {
        CanonicalForm(a, i);
        CanonicalForm(b, i);
        if i > 0 { assert Lower(a[i - 1]) == Lower(b[i - 1]); }
      }
    }
  }

  // ---- written values ----

  function WithoutBreaks(t: string): string {
    seq(|t|, i requires 0 <= i < |t| => if t[i] == '\n' || t[i] == '\r' then ' ' else t[i])
  }

  lemma BreaksToSpaces(v: string)
    ensures NewlineToSpace(v) == WithoutBreaks(v)
  {
  }

  lemma BreaksConcat(a: string, t: string, b: string)
    ensures WithoutBreaks(a + t + b) == WithoutBreaks(a) + WithoutBreaks(t) + WithoutBreaks(b)
  {
  }

  /** A value comes back without its outer white space and with line breaks as spaces. */
  lemma CleanIs(a: string, t: string, b: string)
    requires All(IsSpace, a) && All(IsSpace, b) && Tight(IsSpace, t)
    ensures Clean(a + t + b) == WithoutBreaks(t)
  {
    BreaksToSpaces(a + t + b);
    BreaksConcat(a, t, b);
    TrimOf(IsSpace, WithoutBreaks(a), WithoutBreaks(t), WithoutBreaks(b));
  }

  /** Every value of a name made of token characters is written, and comes back under its key. */
  lemma {:induction false} NamesAreWritten(h: Header, keys: seq<string>, key: string, i: nat)
    requires key in keys && key in h && ValidName(key) && i < |h[key]|
    ensures Clean(h[key][i]) in Values(Echo(h, keys), Canonical(key))
  {
    var first, rest := EchoKey(keys[0], Values(h, keys[0])), Echo(h, keys[1..]);
    ValuesMerge(first, rest, Canonical(key));
    if key == keys[0] {
      assert CleanAll(h[key])[i] == Clean(h[key][i]);
    } else {
      NamesAreWritten(h, keys[1..], key, i);
    }
  }

  lemma HyphenatedIsValid(key: string)
    requires key != [] && forall i :: 0 <= i < |key| ==>
               'a' <= key[i] <= 'z' || 'A' <= key[i] <= 'Z' || '0' <= key[i] <= '9' || key[i] == '-'
    ensures ValidName(key)
  {
  }

  lemma TidyWritten(value: string)
    requires Tidy(value)
    ensures Written(value) == value
  {
    TightTrims(IsSpace, value);
    BreaksToSpaces(value);
    assert WithoutBreaks(value) == value;
    TightTrims(IsAsciiSpace, value);
  }

  lemma FieldForm(key: string, value: string)
    requires ValidName(key) && Tidy(value)
    ensures WriteHeader(map[key := [value]], [key]) == key + ": " + value + "\r\n"
  {
    TidyWritten(value);
    assert [value][1..] == [] && [key][1..] == [];
    assert WriteValues(key, []) == [] && WriteHeader(map[key := [value]], []) == [];
    assert FieldLine(key, value) + ['\n'] == key + ": " + value + "\r\n";
    assert WriteValues(key, [value]) == FieldLine(key, value) + ['\n'];
  }

  /** The shape of a response, for one field with a value that needs no cleaning. */
  lemma ResponseForm(status: string, key: string, value: string, body: string)
    requires ValidName(key) && Tidy(value)
    ensures FormatResponse(status, map[key := [value]], [key], body) ==
            status + "\n" + (key + ": " + value + "\r\n") + "\n" + body
  {
    FieldForm(key, value);
  }
}
