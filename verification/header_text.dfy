/** Header lines typed by the user and the text of a response (clientcore/vtun_client.go,
    web/wasm/main.go; sections 5.1, 5.3 and 5.5 of RFC 9110). */
module HeaderText {
  import opened Sequences
  import opened Text

  type Header = map<string, seq<string>>

  function Values(h: Header, key: string): seq<string> { if key in h then h[key] else [] }

  /** The token characters of section 5.6.2 of RFC 9110. */
  predicate IsToken(c: char) {
    || '0' <= c <= '9' || 'a' <= c <= 'z' || 'A' <= c <= 'Z'
    || c == '!' || c == '#' || c == '$' || c == '%' || c == '&' || c == '\'' || c == '*' || c == '+'
    || c == '-' || c == '.' || c == '^' || c == '_' || c == '`' || c == '|' || c == '~'
  }

  predicate ValidName(key: string) { key != [] && All(IsToken, key) }

  function CanonChar(c: char, upper: bool): char {
    if upper && 'a' <= c <= 'z' then (c as int - 32) as char
    else if !upper && 'A' <= c <= 'Z' then (c as int + 32) as char
    else c
  }

  function CanonFrom(s: string, upper: bool): (r: string)
    ensures |r| == |s|
  {
    if s == [] then [] else [CanonChar(s[0], upper)] + CanonFrom(s[1..], CanonChar(s[0], upper) == '-')
  }

  /** textproto.CanonicalMIMEHeaderKey: names with other characters are left as they are. */
  function Canonical(key: string): string { if ValidName(key) then CanonFrom(key, true) else key }

  /** http.Header.Add */
  function Add(h: Header, key: string, value: string): Header {
    var k := Canonical(key);
    h[k := Values(h, k) + [value]]
  }

  datatype LineResult = Blank | Field(key: string, value: string) | Bad(line: string)

  function ReadLine(raw: string): LineResult {
    var line := TrimSpace(raw);
    if line == [] then Blank
    else match Index(line, ':')
      case None => Bad(line)
      case Some(i) => Field(TrimSpace(line[..i]), TrimSpace(line[i + 1..]))
  }

  datatype Result = Ok(header: Header) | Err(line: string)

  function ParseInto(h: Header, lines: seq<string>): Result
    decreases |lines|
  {
    if lines == [] then Ok(h)
    else match ReadLine(lines[0])
      case Blank => ParseInto(h, lines[1..])
      case Bad(line) => Err(line)
      case Field(key, value) => ParseInto(Add(h, key, value), lines[1..])
  }

  function Parse(text: string): Result { ParseInto(map[], Lines(text)) }

  method ParseHeaderLines(text: string) returns (r: Result)
    ensures r == Parse(text)
  {
    var headers: Header := map[];
    var lines := Lines(text);
    for i := 0 to |lines|
      invariant ParseInto(headers, lines[i..]) == Parse(text)
    {
      var line := TrimSpace(lines[i]);
      assert lines[i..][1..] == lines[i + 1..];
      if line == [] {
        continue;
      }
      var colon := Index(line, ':');
      if colon.None? {
        return Err(line);
      }
      headers := Add(headers, TrimSpace(line[..colon.value]), TrimSpace(line[colon.value + 1..]));
    }
    return Ok(headers);
  }

  /** Per key, the values of both in order. */
  function Merge(a: Header, b: Header): Header {
    map k | k in a.Keys + b.Keys :: Values(a, k) + Values(b, k)
  }

  lemma ValuesMerge(a: Header, b: Header, k: string)
    ensures Values(Merge(a, b), k) == Values(a, k) + Values(b, k)
  {
  }

  lemma SameHeader(a: Header, b: Header)
    requires a.Keys == b.Keys
    requires forall k <- a.Keys :: Values(a, k) == Values(b, k)
    ensures a == b
  {
    forall k | k in a ensures a[k] == b[k] {
      assert Values(a, k) == Values(b, k);
    }
  }

  lemma MergeEmpty(h: Header)
    ensures Merge(h, map[]) == h && Merge(map[], h) == h
  {
    forall k: string
      ensures Values(Merge(h, map[]), k) == Values(h, k)
      ensures Values(Merge(map[], h), k) == Values(h, k)
    {
      ValuesMerge(h, map[], k);
      ValuesMerge(map[], h, k);
      assert Values(h, k) + [] == Values(h, k) == [] + Values(h, k);
    }
    SameHeader(Merge(h, map[]), h);
    SameHeader(Merge(map[], h), h);
  }

  lemma MergeAssociatesAt(a: Header, b: Header, c: Header, k: string)
    ensures Values(Merge(Merge(a, b), c), k) == Values(Merge(a, Merge(b, c)), k)
  {
    ValuesMerge(Merge(a, b), c, k);
    ValuesMerge(a, b, k);
    ValuesMerge(a, Merge(b, c), k);
    ValuesMerge(b, c, k);
    Assoc(Values(a, k), Values(b, k), Values(c, k));
  }

  lemma MergeAssociates(a: Header, b: Header, c: Header)
    ensures Merge(Merge(a, b), c) == Merge(a, Merge(b, c))
  {
    var left, right := Merge(Merge(a, b), c), Merge(a, Merge(b, c));
    forall k: string ensures Values(left, k) == Values(right, k) {
      MergeAssociatesAt(a, b, c, k);
    }
    SameHeader(left, right);
  }

  /** Adding a value is merging a header of that value alone. */
  lemma AddIsMerge(h: Header, key: string, value: string)
    ensures Add(h, key, value) == Merge(h, map[Canonical(key) := [value]])
    ensures Add(map[], key, value) == map[Canonical(key) := [value]]
  {
    var one: Header := map[Canonical(key) := [value]];
    assert [] + [value] == [value];
    var left, right := Add(h, key, value), Merge(h, one);
    assert left.Keys == right.Keys;
    forall k: string ensures Values(left, k) == Values(right, k) {
      ValuesMerge(h, one, k);
      if k != Canonical(key) { assert Values(h, k) + [] == Values(h, k); }
    }
    SameHeader(left, right);
  }

  lemma MergeAdd(h: Header, key: string, value: string, g: Header)
    ensures Merge(Add(h, key, value), g) == Merge(h, Merge(Add(map[], key, value), g))
  {
    AddIsMerge(h, key, value);
    MergeAssociates(h, map[Canonical(key) := [value]], g);
  }

  /** Parsing into a header merges what the lines alone give. */
  lemma {:induction false} ParseIntoMerges(h: Header, lines: seq<string>)
    ensures match ParseInto(map[], lines)
            case Ok(g) => ParseInto(h, lines) == Ok(Merge(h, g))
            case Err(line) => ParseInto(h, lines) == Err(line)
    decreases |lines|
  {
    if lines == [] {
      MergeEmpty(h);
    } else {
      match ReadLine(lines[0]) {
        case Blank => ParseIntoMerges(h, lines[1..]);
        case Bad(_) =>
        case Field(key, value) =>
          ParseIntoMerges(Add(h, key, value), lines[1..]);
          ParseIntoMerges(Add(map[], key, value), lines[1..]);
          match ParseInto(map[], lines[1..]) {
            case Ok(g) => MergeAdd(h, key, value, g);
            case Err(_) =>
          }
      }
    }
  }

  lemma {:induction false} ParseIntoConcat(h: Header, a: seq<string>, b: seq<string>)
    ensures ParseInto(h, a + b) ==
            match ParseInto(h, a)
            case Ok(g) => ParseInto(g, b)
            case Err(line) => Err(line)
    decreases |a|
  {
    if a == [] {
      assert a + b == b;
    } else {
      assert (a + b)[0] == a[0] && (a + b)[1..] == a[1..] + b;
      match ReadLine(a[0]) {
        case Blank => ParseIntoConcat(h, a[1..], b);
        case Bad(_) =>
        case Field(key, value) => ParseIntoConcat(Add(h, key, value), a[1..], b);
      }
    }
  }

  /** Parsing two texts joined by a newline fails with the first bad line of either, or gives per
      key the values of the first followed by those of the second. */
  lemma ParseHomomorphism(a: string, b: string)
    ensures Parse(a + ['\n'] + b) ==
            match (Parse(a), Parse(b))
            case (Err(line), _) => Err(line)
            case (Ok(_), Err(line)) => Err(line)
            case (Ok(g), Ok(h)) => Ok(Merge(g, h))
  {
    LinesConcat(a, b);
    ParseIntoConcat(map[], Lines(a), Lines(b));
    if Parse(a).Ok? { ParseIntoMerges(Parse(a).header, Lines(b)); }
  }

  /** The request of the web client, whose header the loop extends in place. */
  class Request {
    var header: Header

    constructor ()
      ensures header == map[]
    {
      header := map[];
    }

    method AddHeaders(text: string) returns (bad: Option<string>)
      modifies this
      ensures match Parse(text)
              case Ok(g) => bad == None && header == Merge(old(header), g)
              case Err(line) => bad == Some(line)
    {
      var lines := Lines(text);
      ghost var start := header;
      for i := 0 to |lines|
        invariant ParseInto(header, lines[i..]) == ParseInto(start, lines)
      {
        var line := TrimSpace(lines[i]);
        assert lines[i..][1..] == lines[i + 1..];
        if line == [] {
          continue;
        }
        var colon := Index(line, ':');
        if colon.None? {
          ParseIntoMerges(start, lines);
          return Some(line);
        }
        header := Add(header, TrimSpace(line[..colon.value]), TrimSpace(line[colon.value + 1..]));
      }
      ParseIntoMerges(start, lines);
      return None;
    }
  }

  /** On the empty header of a new request the web client's loop accepts the same texts as
      `ParseHeaderLines`, with the same result. */
  method WebRequestHeader(text: string) returns (r: Result)
    ensures r == Parse(text)
  {
    var request := new Request();
    var bad := request.AddHeaders(text);
    if bad.Some? {
      return Err(bad.value);
    }
    MergeEmpty(Parse(text).header);
    return Ok(request.header);
  }

  // ---- writing a header ----

  function NewlineToSpace(v: string): (r: string)
    ensures |r| == |v|
    ensures forall k :: 0 <= k < |v| ==> r[k] == if v[k] == '\n' || v[k] == '\r' then ' ' else v[k]
  {
    if v == [] then [] else [if v[0] == '\n' || v[0] == '\r' then ' ' else v[0]] + NewlineToSpace(v[1..])
  }

  /** A value as http.Header.Write writes it. */
  function Written(v: string): string { Trim(IsAsciiSpace, NewlineToSpace(v)) }

  function FieldLine(key: string, v: string): string { key + [':', ' '] + Written(v) + ['\r'] }

  function WriteValues(key: string, values: seq<string>): string {
    if values == [] then [] else FieldLine(key, values[0]) + ['\n'] + WriteValues(key, values[1..])
  }

  /** http.Header.Write for the header's keys in the order in which it visits them. */
  function WriteHeader(h: Header, keys: seq<string>): string {
    if keys == [] then []
    else (if ValidName(keys[0]) then WriteValues(keys[0], Values(h, keys[0])) else []) + WriteHeader(h, keys[1..])
  }

  /** A value as it comes back. */
  function Clean(v: string): string { TrimSpace(NewlineToSpace(v)) }

  function CleanAll(values: seq<string>): (r: seq<string>)
    ensures |r| == |values|
    ensures forall k :: 0 <= k < |values| ==> r[k] == Clean(values[k])
  {
    seq(|values|, k requires 0 <= k < |values| => Clean(values[k]))
  }

  lemma WrittenIsClean(v: string)
    ensures TrimSpace(Written(v)) == Clean(v)
    ensures '\n' !in Written(v)
  {
    TrimTwice(IsSpace, IsAsciiSpace, NewlineToSpace(v));
    var a, b := TrimSplit(IsAsciiSpace, NewlineToSpace(v));
    forall k | 0 <= k < |Written(v)| ensures Written(v)[k] != '\n' {
      assert NewlineToSpace(v)[|a| + k] == Written(v)[k];
    }
  }

  lemma NameFacts(key: string)
    requires ValidName(key)
    ensures ':' !in key && '\n' !in key && TrimSpace(key) == key && !IsSpace(key[0])
  {
    assert forall k :: 0 <= k < |key| ==> IsToken(key[k]);
    assert IsToken(key[0]) && IsToken(key[|key| - 1]);
    TightTrims(IsSpace, key);
  }

  /** A name, a colon and a text that ends tightly, with white space after them. */
  lemma HeadTrimmed(key: string, after: string, tail: string)
    requires ValidName(key) && All(IsSpace, tail)
    requires after != [] ==> !IsSpace(after[|after| - 1])
    ensures TrimSpace(key + [':'] + after + tail) == key + [':'] + after
  {
    NameFacts(key);
    var head := key + [':'] + after;
    assert head[0] == key[0] && head[|head| - 1] == if after == [] then ':' else after[|after| - 1];
    TrimOf(IsSpace, [], head, tail);
    assert [] + head == head;
  }

  lemma LineText(key: string, v: string)
    ensures FieldLine(key, v) == key + [':'] + ([' '] + Written(v) + ['\r'])
  {
  }

  /** A value with something in it: its outer white space goes. */
  lemma FullValue(a: string, t: string, b: string)
    requires All(IsSpace, a) && All(IsSpace, b) && Tight(IsSpace, t) && t != []
    ensures var after, tail := [' '] + a + t, b + ['\r'];
            && [' '] + (a + t + b) + ['\r'] == after + tail
            && All(IsSpace, tail) && after[|after| - 1] == t[|t| - 1] && TrimSpace(after) == t
  {
    TrimOf(IsSpace, [' '] + a, t, []);
    assert [' '] + a + t + [] == [' '] + a + t;
  }

  /** The text after the colon: what is kept, and the white space that is trimmed. */
  lemma ValueText(w: string) returns (after: string, tail: string)
    ensures [' '] + w + ['\r'] == after + tail && All(IsSpace, tail)
    ensures after != [] ==> !IsSpace(after[|after| - 1])
    ensures TrimSpace(after) == TrimSpace(w)
  {
    var a, b := TrimSplit(IsSpace, w);
    if TrimSpace(w) == [] {
      after, tail := [], [' '] + w + ['\r'];
      TightTrims(IsSpace, []);
      assert w == a + b && after + tail == tail;
    } else {
      FullValue(a, TrimSpace(w), b);
      after, tail := [' '] + a + TrimSpace(w), b + ['\r'];
    }
  }

  /** What remains of a field line after the name and the colon, once the line is trimmed. */
  lemma LineTrimmed(key: string, v: string) returns (after: string)
    requires ValidName(key)
    ensures TrimSpace(FieldLine(key, v)) == key + [':'] + after && TrimSpace(after) == Clean(v)
  {
    WrittenIsClean(v);
    var tail;
    after, tail := ValueText(Written(v));
    LineText(key, v);
    HeadTrimmed(key, after, tail);
    Assoc(key + [':'], after, tail);
  }

  /** A written field line is read as its key and its cleaned value. */
  lemma FieldLineRead(key: string, v: string)
    requires ValidName(key)
    ensures '\n' !in FieldLine(key, v)
    ensures ReadLine(FieldLine(key, v)) == Field(key, Clean(v))
  {
    NameFacts(key);
    WrittenIsClean(v);
    var after := LineTrimmed(key, v);
    var line := key + [':'] + after;
    IndexOf(key, ':', after);
    assert line[..|key|] == key && line[|key| + 1..] == after;
  }

  /** What a header becomes when it is written and parsed again. */
  function EchoKey(key: string, values: seq<string>): Header {
    if !ValidName(key) || values == [] then map[] else map[Canonical(key) := CleanAll(values)]
  }

  function Echo(h: Header, keys: seq<string>): Header {
    if keys == [] then map[] else Merge(EchoKey(keys[0], Values(h, keys[0])), Echo(h, keys[1..]))
  }

  lemma LineParsed(g: Header, key: string, v: string, rest: string)
    requires ValidName(key)
    ensures ParseInto(g, Lines(FieldLine(key, v) + ['\n'] + rest)) == ParseInto(Add(g, key, Clean(v)), Lines(rest))
  {
    FieldLineRead(key, v);
    LinesCons(FieldLine(key, v), rest);
    var lines := Lines(FieldLine(key, v) + ['\n'] + rest);
    assert lines[0] == FieldLine(key, v) && lines[1..] == Lines(rest);
  }

  lemma {:induction false} ValuesRead(g: Header, key: string, values: seq<string>, rest: string)
    requires ValidName(key)
    ensures ParseInto(g, Lines(WriteValues(key, values) + rest)) ==
            ParseInto(Merge(g, EchoKey(key, values)), Lines(rest))
    decreases |values|
  {
    if values == [] {
      assert WriteValues(key, values) + rest == rest;
      MergeEmpty(g);
    } else {
      var line, more := FieldLine(key, values[0]), WriteValues(key, values[1..]);
      assert WriteValues(key, values) + rest == line + ['\n'] + (more + rest);
      LineParsed(g, key, values[0], more + rest);
      ValuesRead(Add(g, key, Clean(values[0])), key, values[1..], rest);
      EchoMore(g, key, values);
    }
  }

  lemma EchoCons(key: string, values: seq<string>)
    requires ValidName(key) && values != []
    ensures Merge(map[Canonical(key) := [Clean(values[0])]], EchoKey(key, values[1..])) == EchoKey(key, values)
  {
    var k := Canonical(key);
    var first, rest := map[k := [Clean(values[0])]], EchoKey(key, values[1..]);
    assert CleanAll(values) == [Clean(values[0])] + CleanAll(values[1..]);
    ValuesMerge(first, rest, k);
    assert Merge(first, rest).Keys == {k} == EchoKey(key, values).Keys;
    if values[1..] == [] { assert CleanAll(values[1..]) == []; }
    SameHeader(Merge(first, rest), EchoKey(key, values));
  }

  lemma EchoMore(g: Header, key: string, values: seq<string>)
    requires ValidName(key) && values != []
    ensures Merge(Add(g, key, Clean(values[0])), EchoKey(key, values[1..])) == Merge(g, EchoKey(key, values))
  {
    AddIsMerge(g, key, Clean(values[0]));
    MergeAssociates(g, map[Canonical(key) := [Clean(values[0])]], EchoKey(key, values[1..]));
    EchoCons(key, values);
  }

  lemma {:induction false} HeaderRead(g: Header, h: Header, keys: seq<string>)
    ensures ParseInto(g, Lines(WriteHeader(h, keys))) == Ok(Merge(g, Echo(h, keys)))
    decreases |keys|
  {
    if keys == [] {
      MergeEmpty(g);
      TightTrims(IsSpace, []);
      assert Lines([]) == [[]] && ReadLine([]) == Blank;
    } else {
      var key, values, rest := keys[0], Values(h, keys[0]), WriteHeader(h, keys[1..]);
      var one := EchoKey(key, values);
      if ValidName(key) {
        ValuesRead(g, key, values, rest);
      } else {
        assert WriteHeader(h, keys) == rest;
        MergeEmpty(g);
      }
      HeaderRead(Merge(g, one), h, keys[1..]);
      MergeAssociates(g, one, Echo(h, keys[1..]));
    }
  }

  /** Written text always parses, and gives back the header with invalid names and empty lists
      dropped, names canonical and values cleaned. */
  lemma WriteThenParse(h: Header, keys: seq<string>)
    ensures Parse(WriteHeader(h, keys)) == Ok(Echo(h, keys))
  {
    HeaderRead(map[], h, keys);
    MergeEmpty(Echo(h, keys));
  }

  // ---- when the round trip is exact ----

  predicate Tidy(v: string) { TrimSpace(v) == v && '\n' !in v && '\r' !in v }

  predicate TidyKey(key: string, values: seq<string>) {
    ValidName(key) && Canonical(key) == key && values != [] && forall k :: 0 <= k < |values| ==> Tidy(values[k])
  }

  /** Canonical valid names, each with at least one value, and values without line breaks or outer
      white space. */
  predicate WellFormed(h: Header) { forall key :: key in h ==> TidyKey(key, h[key]) }

  predicate Distinct(keys: seq<string>) { forall j, k :: 0 <= j < k < |keys| ==> keys[j] != keys[k] }

  /** `keys` lists the header's keys, each once. */
  ghost predicate Lists(keys: seq<string>, h: Header) {
    Distinct(keys) && forall key :: key in keys <==> key in h
  }

  lemma DistinctTail(keys: seq<string>)
    requires Distinct(keys) && keys != []
    ensures Distinct(keys[1..]) && keys[0] !in keys[1..]
    ensures forall key :: key in keys <==> key == keys[0] || key in keys[1..]
  {
  }

  lemma CleanIsTidy(v: string)
    ensures Tidy(Clean(v))
    ensures Tidy(v) ==> Clean(v) == v
  {
    var n := NewlineToSpace(v);
    TrimTwice(IsSpace, IsSpace, n);
    var a, b := TrimSplit(IsSpace, n);
    forall k | 0 <= k < |Clean(v)| ensures Clean(v)[k] != '\n' && Clean(v)[k] != '\r' {
      assert n[|a| + k] == Clean(v)[k];
    }
    if Tidy(v) {
      assert forall k :: 0 <= k < |v| ==> v[k] in v;
      assert n == v;
    }
  }

  lemma {:induction false} CanonTwice(s: string, upper: bool)
    requires All(IsToken, s)
    ensures All(IsToken, CanonFrom(s, upper)) && CanonFrom(CanonFrom(s, upper), upper) == CanonFrom(s, upper)
  {
    if s != [] {
      assert IsToken(s[0]) && All(IsToken, s[1..]);
      var c := CanonChar(s[0], upper);
      CanonTwice(s[1..], c == '-');
      assert CanonFrom(s, upper)[1..] == CanonFrom(s[1..], c == '-');
    }
  }

  lemma EchoKeyTidy(key: string, values: seq<string>)
    ensures WellFormed(EchoKey(key, values))
    ensures TidyKey(key, values) ==> EchoKey(key, values) == map[key := values]
  {
    if ValidName(key) { CanonTwice(key, true); }
    forall k | 0 <= k < |values| ensures Tidy(Clean(values[k])) && (Tidy(values[k]) ==> Clean(values[k]) == values[k]) {
      CleanIsTidy(values[k]);
    }
    if TidyKey(key, values) { assert CleanAll(values) == values; }
  }

  lemma MergeTidy(a: Header, b: Header)
    requires WellFormed(a) && WellFormed(b)
    ensures WellFormed(Merge(a, b))
  {
    forall key | key in Merge(a, b) ensures TidyKey(key, Merge(a, b)[key]) {
      assert key in a || key in b;
    }
  }

  lemma {:induction false} EchoTidy(h: Header, keys: seq<string>)
    ensures WellFormed(Echo(h, keys))
  {
    if keys != [] {
      EchoKeyTidy(keys[0], Values(h, keys[0]));
      EchoTidy(h, keys[1..]);
      MergeTidy(EchoKey(keys[0], Values(h, keys[0])), Echo(h, keys[1..]));
    }
  }

  lemma {:induction false} EchoValues(h: Header, keys: seq<string>, key: string)
    requires WellFormed(h) && Distinct(keys) && forall k <- keys :: k in h
    ensures key in Echo(h, keys) <==> key in keys
    ensures Values(Echo(h, keys), key) == if key in keys then h[key] else []
  {
    if keys != [] {
      var first, rest := EchoKey(keys[0], h[keys[0]]), Echo(h, keys[1..]);
      EchoKeyTidy(keys[0], h[keys[0]]);
      DistinctTail(keys);
      EchoValues(h, keys[1..], key);
      ValuesMerge(first, rest, key);
      if key == keys[0] { assert h[key] + [] == h[key]; }
    }
  }

  lemma EchoOf(h: Header, keys: seq<string>, key: string)
    requires Lists(keys, h) && WellFormed(h)
    ensures key in Echo(h, keys) <==> key in h
    ensures Values(Echo(h, keys), key) == Values(h, key)
  {
    EchoValues(h, keys, key);
  }

  lemma EchoExact(h: Header, keys: seq<string>)
    requires Lists(keys, h) && WellFormed(h)
    ensures Echo(h, keys) == h
  {
    forall key: string
      ensures key in Echo(h, keys) <==> key in h
      ensures Values(Echo(h, keys), key) == Values(h, key)
    {
      EchoOf(h, keys, key);
    }
    SameHeader(Echo(h, keys), h);
  }

  /** Writing and parsing gives back the same header, order of values included, exactly when the
      header is well formed. */
  lemma RoundTripIffWellFormed(h: Header, keys: seq<string>)
    requires Lists(keys, h)
    ensures Parse(WriteHeader(h, keys)) == Ok(h) <==> WellFormed(h)
  {
    WriteThenParse(h, keys);
    EchoTidy(h, keys);
    if WellFormed(h) { EchoExact(h, keys); }
  }

  // ---- the response text ----

  function FormatResponse(status: string, h: Header, keys: seq<string>, body: string): string {
    status + ['\n'] + WriteHeader(h, keys) + ['\n'] + body
  }

  /** The lines before the first empty one, and what follows it. */
  function SplitBlock(s: string): Option<(string, string)>
    decreases |s|
  {
    match Index(s, '\n')
    case None => None
    case Some(i) =>
      if i == 0 then Some(([], s[1..]))
      else match SplitBlock(s[i + 1..])
        case None => None
        case Some(parts) => Some((s[..i + 1] + parts.0, parts.1))
  }

  datatype Response = Response(status: string, block: string, body: string)

  function Decode(text: string): Option<Response> {
    match Index(text, '\n')
    case None => None
    case Some(i) =>
      match SplitBlock(text[i + 1..])
      case None => None
      case Some(parts) => Some(Response(text[..i], parts.0, parts.1))
  }

  lemma SplitCons(line: string, rest: string)
    requires line != [] && '\n' !in line
    ensures SplitBlock(line + ['\n'] + rest) ==
            match SplitBlock(rest)
            case None => None
            case Some(parts) => Some((line + ['\n'] + parts.0, parts.1))
  {
    var s := line + ['\n'] + rest;
    IndexOf(line, '\n', rest);
    assert s[..|line| + 1] == line + ['\n'] && s[|line| + 1..] == rest;
  }

  lemma {:induction false} SplitValues(key: string, values: seq<string>, rest: string, block: string, body: string)
    requires ValidName(key) && SplitBlock(rest) == Some((block, body))
    ensures SplitBlock(WriteValues(key, values) + rest) == Some((WriteValues(key, values) + block, body))
    decreases |values|
  {
    if values == [] {
      assert WriteValues(key, values) + rest == rest && WriteValues(key, values) + block == block;
    } else {
      var line, more := FieldLine(key, values[0]), WriteValues(key, values[1..]);
      FieldLineRead(key, values[0]);
      SplitValues(key, values[1..], rest, block, body);
      Assoc(line + ['\n'], more, rest);
      Assoc(line + ['\n'], more, block);
      SplitCons(line, more + rest);
    }
  }

  lemma {:induction false} SplitHeader(h: Header, keys: seq<string>, body: string)
    ensures SplitBlock(WriteHeader(h, keys) + (['\n'] + body)) == Some((WriteHeader(h, keys), body))
    decreases |keys|
  {
    var tail := ['\n'] + body;
    if keys == [] {
      assert WriteHeader(h, keys) + tail == tail;
      assert tail[1..] == body;
    } else {
      var rest := WriteHeader(h, keys[1..]);
      SplitHeader(h, keys[1..], body);
      if ValidName(keys[0]) {
        var first := WriteValues(keys[0], Values(h, keys[0]));
        SplitValues(keys[0], Values(h, keys[0]), rest + tail, rest, body);
        Assoc(first, rest, tail);
      } else {
        assert WriteHeader(h, keys) == rest;
      }
    }
  }

  lemma DecodeCons(status: string, rest: string)
    requires '\n' !in status
    ensures Decode(status + ['\n'] + rest) ==
            match SplitBlock(rest)
            case None => None
            case Some(parts) => Some(Response(status, parts.0, parts.1))
  {
    var text := status + ['\n'] + rest;
    IndexOf(status, '\n', rest);
    assert text[..|status|] == status && text[|status| + 1..] == rest;
  }

  lemma DecodedStatus(text: string)
    requires Decode(text).Some?
    ensures '\n' !in Decode(text).value.status
  {
  }

  /** Whatever the header and the body, the parts of a response text can be told apart exactly when
      the status has no line break, and its header block parses to the echoed header. */
  lemma ResponseDecodes(status: string, h: Header, keys: seq<string>, body: string)
    ensures Decode(FormatResponse(status, h, keys, body)) == Some(Response(status, WriteHeader(h, keys), body))
            <==> '\n' !in status
    ensures Parse(WriteHeader(h, keys)) == Ok(Echo(h, keys))
  {
    WriteThenParse(h, keys);
    var text, block := FormatResponse(status, h, keys, body), WriteHeader(h, keys);
    if Decode(text).Some? { DecodedStatus(text); }
    if '\n' !in status {
      SplitHeader(h, keys, body);
      DecodeCons(status, block + (['\n'] + body));
      Assoc(status + ['\n'], block, ['\n']);
      Assoc(status + ['\n'], block + ['\n'], body);
      Assoc(block, ['\n'], body);
    }
  }
}
