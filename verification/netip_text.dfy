/** Address and prefix texts as Go's net/netip reads and prints them. */
module NetipText {
  import opened Sequences
  import opened Cidr

  predicate IsDigit(c: char) { '0' <= c <= '9' }

  function DigitValue(c: char): nat
    requires IsDigit(c)
  {
    c as int - '0' as int
  }

  function Digit(d: nat): (c: char)
    requires d < 10
    ensures IsDigit(c) && DigitValue(c) == d
  {
    (d + '0' as int) as char
  }

  function Decimal(n: nat): (t: string)
    ensures t != [] && forall k :: 0 <= k < |t| ==> IsDigit(t[k])
  {
    if n < 10 then [Digit(n)] else Decimal(n / 10) + [Digit(n % 10)]
  }

  /** The first `dots` fields of a dotted quad, each followed by its dot. */
  function Fields(dots: nat, acc: nat): string {
    if dots == 0 then [] else Fields(dots - 1, acc / 256) + Decimal(acc % 256) + ['.']
  }

  function PrintQuad(a: nat): string { Fields(3, a / 256) + Decimal(a % 256) }

  /** The scan of an IPv4 text: `dots` fields are complete and make up `acc`, the current one has
      `digits` digits and value `val`. */
  datatype Scan = Scan(dots: nat, val: nat, digits: nat, acc: nat)

  /** One character, or rejection. */
  function Next(s: string, i: nat, st: Scan): Option<Scan>
    requires i < |s|
  {
    if IsDigit(s[i]) then
      if st.digits == 1 && st.val == 0 then None
      else if st.val * 10 + DigitValue(s[i]) > 255 then None
      else Some(st.(val := st.val * 10 + DigitValue(s[i]), digits := st.digits + 1))
    else if s[i] == '.' then
      if i == 0 || i == |s| - 1 || s[i - 1] == '.' then None
      else if st.dots == 3 then None
      else Some(Scan(st.dots + 1, 0, 0, st.acc * 256 + st.val))
    else None
  }

  function ParseQuadFrom(s: string, i: nat, st: Scan): Option<nat>
    requires i <= |s|
    decreases |s| - i
  {
    if i == |s| then
      if st.dots < 3 then None else Some(st.acc * 256 + st.val)
    else match Next(s, i, st)
      case None => None
      case Some(st') => ParseQuadFrom(s, i + 1, st')
  }

  function ParseQuad(s: string): Option<nat> { ParseQuadFrom(s, 0, Scan(0, 0, 0, 0)) }

  /** Reading one more digit of a number below 256. */
  lemma DigitRead(s: string, i: nat, st: Scan, d: nat)
    requires i < |s| && d < 10 && s[i] == Digit(d) && st.val * 10 + d < 256
    requires st.digits == 1 ==> st.val > 0
    ensures ParseQuadFrom(s, i, st) ==
            ParseQuadFrom(s, i + 1, Scan(st.dots, st.val * 10 + d, st.digits + 1, st.acc))
  {
  }

  /** Numbers below 1000 by their digits. */
  lemma DecimalDigits(n: nat)
    requires n < 1000
    ensures Decimal(n) ==
            if n < 10 then [Digit(n)]
            else if n < 100 then [Digit(n / 10), Digit(n % 10)]
            else [Digit(n / 100), Digit(n / 10 % 10), Digit(n % 10)]
  {
    if n >= 100 { assert Decimal(n / 10) == [Digit(n / 100), Digit(n / 10 % 10)]; }
  }

  /** A whole number printed at position `i` is read up to what follows it. */
  lemma NumberRead(s: string, i: nat, dots: nat, acc: nat, n: nat)
    requires n < 256 && i + |Decimal(n)| <= |s|
    requires s[i..i + |Decimal(n)|] == Decimal(n)
    ensures ParseQuadFrom(s, i, Scan(dots, 0, 0, acc)) ==
            ParseQuadFrom(s, i + |Decimal(n)|, Scan(dots, n, |Decimal(n)|, acc))
  {
    var t := Decimal(n);
    DecimalDigits(n);
    forall k | 0 <= k < |t| ensures s[i + k] == t[k] {
      assert s[i..i + |t|][k] == t[k];
    }
    var st := Scan(dots, 0, 0, acc);
    if n < 10 {
      assert s[i + 0] == t[0];
      DigitRead(s, i, st, n);
    } else if n < 100 {
      assert s[i + 0] == t[0] && s[i + 1] == t[1];
      DigitRead(s, i, st, n / 10);
      DigitRead(s, i + 1, Scan(dots, n / 10, 1, acc), n % 10);
    } else {
      assert s[i + 0] == t[0] && s[i + 1] == t[1] && s[i + 2] == t[2];
      DigitRead(s, i, st, n / 100);
      DigitRead(s, i + 1, Scan(dots, n / 100, 1, acc), n / 10 % 10);
      DigitRead(s, i + 2, Scan(dots, n / 10, 2, acc), n % 10);
    }
  }

  /** Reading one more number and the dot after it. */
  lemma FieldRead(s: string, i: nat, dots: nat, acc: nat, n: nat)
    requires n < 256 && dots < 3 && i + |Decimal(n)| + 1 < |s|
    requires s[i..i + |Decimal(n)| + 1] == Decimal(n) + ['.']
    ensures ParseQuadFrom(s, i, Scan(dots, 0, 0, acc)) ==
            ParseQuadFrom(s, i + |Decimal(n)| + 1, Scan(dots + 1, 0, 0, acc * 256 + n))
  {
    var t := Decimal(n);
    var j := i + |t|;
    var part := s[i..j + 1];
    assert s[i..j] == part[..|t|] == t;
    NumberRead(s, i, dots, acc, n);
    assert s[j] == part[|t|] == '.';
    assert s[j - 1] == part[|t| - 1] == t[|t| - 1];
  }

  lemma FieldsSplit(s: string, dots: nat, acc: nat)
    requires dots > 0
    requires |Fields(dots, acc)| < |s| && s[..|Fields(dots, acc)|] == Fields(dots, acc)
    ensures var i, t := |Fields(dots - 1, acc / 256)|, Decimal(acc % 256);
            && |Fields(dots, acc)| == i + |t| + 1
            && s[..i] == Fields(dots - 1, acc / 256)
            && s[i..i + |t| + 1] == t + ['.']
  {
    var before, number, all := Fields(dots - 1, acc / 256), Decimal(acc % 256), Fields(dots, acc);
    assert all == before + (number + ['.']);
    assert s[..|before|] == all[..|before|];
    assert s[|before|..|all|] == all[|before|..];
  }

  /** Reading the first `dots` fields of a text that starts with them. */
  lemma {:induction false} FieldsRead(s: string, dots: nat, acc: nat)
    requires dots <= 3 && |Fields(dots, acc)| < |s| && s[..|Fields(dots, acc)|] == Fields(dots, acc)
    requires acc < Pow2(8 * dots)
    ensures ParseQuad(s) == ParseQuadFrom(s, |Fields(dots, acc)|, Scan(dots, 0, 0, acc))
  {
    if dots > 0 {
      FieldsSplit(s, dots, acc);
      Pow2Bytes(dots, acc);
      var high, low := acc / 256, acc % 256;
      assert high * 256 + low == acc;
      FieldsRead(s, dots - 1, high);
      FieldRead(s, |Fields(dots - 1, high)|, dots - 1, high, low);
    }
  }

  lemma Pow2Bytes(dots: nat, acc: nat)
    requires 0 < dots && acc < Pow2(8 * dots)
    ensures acc / 256 < Pow2(8 * (dots - 1))
  {
    Pow2Sum(8, 8 * (dots - 1));
    assert Pow2(8) == 256;
  }

  /** The last number of a text is its value's last byte. */
  lemma LastRead(s: string, i: nat, acc: nat, n: nat)
    requires n < 256 && i + |Decimal(n)| == |s| && s[i..] == Decimal(n)
    ensures ParseQuadFrom(s, i, Scan(3, 0, 0, acc)) == Some(acc * 256 + n)
  {
    assert s[i..i + |Decimal(n)|] == s[i..];
    NumberRead(s, i, 3, acc, n);
  }

  lemma ParsePrint(a: nat)
    requires a < Pow2(32)
    ensures ParseQuad(PrintQuad(a)) == Some(a)
  {
    var high, low := a / 256, a % 256;
    var s, before := PrintQuad(a), Fields(3, high);
    var n := |before|;
    Pow2Bytes(4, a);
    assert s[..n] == before && s[n..] == Decimal(low);
    FieldsRead(s, 3, high);
    LastRead(s, n, high, low);
  }

  /** Appending a digit to a number's text. */
  lemma DecimalAppend(val: nat, d: nat)
    requires d < 10 && val > 0
    ensures Decimal(val * 10 + d) == Decimal(val) + [Digit(d)]
  {
  }

  /** What has been scanned is what would be printed. */
  predicate Scanned(s: string, i: nat, st: Scan)
    requires i <= |s|
  {
    && st.dots <= 3 && st.val < 256 && st.acc < Pow2(8 * st.dots)
    && s[..i] == Fields(st.dots, st.acc) + (if st.digits == 0 then [] else Decimal(st.val))
    && (st.digits == 0 ==> st.val == 0)
    && (st.digits == 0 && i > 0 ==> i < |s|)
    && (st.val == 0 ==> st.digits <= 1)
  }

  lemma ScanDigit(s: string, i: nat, st: Scan)
    requires i < |s| && Scanned(s, i, st) && IsDigit(s[i]) && Next(s, i, st).Some?
    ensures Scanned(s, i + 1, Next(s, i, st).value)
  {
    var d := DigitValue(s[i]);
    assert s[..i + 1] == s[..i] + [Digit(d)];
    if st.digits > 0 { DecimalAppend(st.val, d); }
  }

  lemma ScanDot(s: string, i: nat, st: Scan)
    requires i < |s| && Scanned(s, i, st) && !IsDigit(s[i]) && Next(s, i, st).Some?
    ensures Scanned(s, i + 1, Next(s, i, st).value)
  {
    if st.digits == 0 { DotBefore(s, i, st.dots, st.acc); }
    assert s[..i + 1] == s[..i] + ['.'];
    BytesFit(st.dots, st.acc, st.val);
  }

  /** One more byte behind `dots` bytes. */
  lemma BytesFit(dots: nat, acc: nat, val: nat)
    requires acc < Pow2(8 * dots) && val < 256
    ensures acc * 256 + val < Pow2(8 * (dots + 1))
    ensures (acc * 256 + val) / 256 == acc && (acc * 256 + val) % 256 == val
  {
    Pow2Sum(8 * dots, 8);
    assert Pow2(8) == 256;
  }

  lemma ScanStep(s: string, i: nat, st: Scan)
    requires i < |s| && Scanned(s, i, st) && Next(s, i, st).Some?
    ensures Scanned(s, i + 1, Next(s, i, st).value)
  {
    if IsDigit(s[i]) { ScanDigit(s, i, st); } else { ScanDot(s, i, st); }
  }

  /** An empty field is preceded by a dot or by nothing. */
  lemma DotBefore(s: string, i: nat, dots: nat, acc: nat)
    requires i <= |s| && s[..i] == Fields(dots, acc)
    ensures i == 0 || s[i - 1] == '.'
  {
    if i > 0 { assert s[i - 1] == s[..i][i - 1]; }
  }

  lemma ScanEnd(s: string, st: Scan)
    requires st.dots == 3 && Scanned(s, |s|, st)
    ensures st.acc * 256 + st.val < Pow2(32) && s == PrintQuad(st.acc * 256 + st.val)
  {
    assert s[..|s|] == s;
    assert Fields(st.dots, st.acc) != [];
    BytesFit(3, st.acc, st.val);
  }

  /** The whole of an accepted text has been scanned in the end. */
  lemma {:induction false} ScanAll(s: string, i: nat, st: Scan) returns (last: Scan)
    requires i <= |s| && Scanned(s, i, st) && ParseQuadFrom(s, i, st).Some?
    ensures last.dots == 3 && Scanned(s, |s|, last)
    ensures ParseQuadFrom(s, i, st) == Some(last.acc * 256 + last.val)
    decreases |s| - i
  {
    if i == |s| {
      last := st;
    } else {
      ScanStep(s, i, st);
      last := ScanAll(s, i + 1, Next(s, i, st).value);
    }
  }

  /** The accepted IPv4 texts are exactly the printed addresses. */
  lemma PrintParse(s: string)
    requires ParseQuad(s).Some?
    ensures ParseQuad(s).value < Pow2(32) && s == PrintQuad(ParseQuad(s).value)
  {
    var last := ScanAll(s, 0, Scan(0, 0, 0, 0));
    ScanEnd(s, last);
  }

  // ---- prefixes ----

  type V6Addr = x: nat | x < Pow2(128) witness 0

  /** The reader of IPv6 texts without a zone, which is not part of this model. */
  type V6Reader = string -> Option<V6Addr>

  datatype Addr = Addr(family: Family, value: nat)

  /** The first of '.', ':' and '%' tells the family apart. */
  function ParseAddrFrom(s: string, i: nat, readV6: V6Reader): Option<Addr>
    requires i <= |s|
    decreases |s| - i
  {
    if i == |s| then None
    else if s[i] == '.' then
      (match ParseQuad(s) case Some(a) => Some(Addr(V4, a)) case None => None)
    else if s[i] == ':' then
      (match readV6(s) case Some(a) => Some(Addr(V6, a)) case None => None)
    else if s[i] == '%' then None
    else ParseAddrFrom(s, i + 1, readV6)
  }

  function LastIndex(s: string, c: char): (r: Option<nat>)
    ensures r.Some? ==> r.value < |s| && s[r.value] == c
    ensures forall k :: 0 <= k < |s| && (r.Some? ==> k > r.value) ==> s[k] != c
  {
    if s == [] then None
    else if s[|s| - 1] == c then Some(|s| - 1)
    else LastIndex(s[..|s| - 1], c)
  }

  /** The value of a text of digits. */
  function NumberOf(t: string): Option<nat> {
    if t == [] then Some(0)
    else if !IsDigit(t[|t| - 1]) then None
    else match NumberOf(t[..|t| - 1])
      case None => None
      case Some(n) => Some(n * 10 + DigitValue(t[|t| - 1]))
  }

  /** The length of a prefix: no sign and no leading zero. */
  function ParseBits(t: string): Option<nat> {
    if t == [] || (|t| > 1 && !('1' <= t[0] <= '9')) then None else NumberOf(t)
  }

  function ParsePrefix(s: string, readV6: V6Reader): Option<Prefix> {
    match LastIndex(s, '/')
    case None => None
    case Some(i) =>
      match (ParseAddrFrom(s[..i], 0, readV6), ParseBits(s[i + 1..]))
        case (Some(a), Some(bits)) => if bits > Width(a.family) then None else Some(Prefix(a.family, a.value, bits))
        case _ => None
  }

  lemma {:induction false} AddrValid(s: string, i: nat, readV6: V6Reader)
    requires i <= |s| && ParseAddrFrom(s, i, readV6).Some?
    ensures var a := ParseAddrFrom(s, i, readV6).value; a.value < Pow2(Width(a.family))
    decreases |s| - i
  {
    if s[i] == '.' { PrintParse(s); }
    else if s[i] != ':' { AddrValid(s, i + 1, readV6); }
  }

  /** Every parsed prefix is a valid one. */
  lemma ParsedIsValid(s: string, readV6: V6Reader)
    requires ParsePrefix(s, readV6).Some?
    ensures ParsePrefix(s, readV6).value.Valid()
  {
    AddrValid(s[..LastIndex(s, '/').value], 0, readV6);
  }

  lemma {:induction false} NumberOfDecimal(n: nat)
    ensures NumberOf(Decimal(n)) == Some(n)
    ensures n > 0 ==> Decimal(n)[0] != '0'
    ensures |Decimal(n)| == 1 <==> n < 10
  {
    var t := Decimal(n);
    assert t[..|t| - 1] == if n < 10 then [] else Decimal(n / 10);
    if n >= 10 { NumberOfDecimal(n / 10); }
  }

  function PrintPrefix(addr: nat, bits: nat): string { PrintQuad(addr) + ['/'] + Decimal(bits) }

  /** A text without '/' and one of digits, joined by a '/', are split there. */
  lemma {:induction false} SlashFound(a: string, t: string)
    requires forall k :: 0 <= k < |t| ==> IsDigit(t[k])
    ensures LastIndex(a + ['/'] + t, '/') == Some(|a|)
  {
    var s := a + ['/'] + t;
    if t != [] {
      assert s[..|s| - 1] == a + ['/'] + t[..|t| - 1];
      SlashFound(a, t[..|t| - 1]);
    }
  }

  /** The first character of a dotted quad that is no digit is a dot. */
  lemma {:induction false} DotFirst(s: string, i: nat, readV6: V6Reader)
    requires i <= |s| && (exists k :: i <= k < |s| && s[k] == '.')
    requires forall k :: 0 <= k < |s| ==> IsDigit(s[k]) || s[k] == '.'
    ensures ParseAddrFrom(s, i, readV6) == match ParseQuad(s) case Some(a) => Some(Addr(V4, a)) case None => None
    decreases |s| - i
  {
    if s[i] != '.' { DotFirst(s, i + 1, readV6); }
  }

  lemma {:induction false} FieldsChars(dots: nat, acc: nat)
    ensures forall k :: 0 <= k < |Fields(dots, acc)| ==> IsDigit(Fields(dots, acc)[k]) || Fields(dots, acc)[k] == '.'
    ensures dots > 0 ==> Fields(dots, acc) != [] && Fields(dots, acc)[|Fields(dots, acc)| - 1] == '.'
  {
    if dots > 0 { FieldsChars(dots - 1, acc / 256); }
  }

  lemma QuadRead(addr: nat, readV6: V6Reader)
    requires addr < Pow2(32)
    ensures ParseAddrFrom(PrintQuad(addr), 0, readV6) == Some(Addr(V4, addr))
  {
    var quad, n := PrintQuad(addr), |Fields(3, addr / 256)|;
    FieldsChars(3, addr / 256);
    assert quad[n - 1] == '.';
    DotFirst(quad, 0, readV6);
    ParsePrint(addr);
  }

  lemma BitsRead(n: nat)
    ensures ParseBits(Decimal(n)) == Some(n)
  {
    NumberOfDecimal(n);
  }

  /** Every IPv4 prefix reads back from its text. */
  lemma PrefixRoundTrip(addr: nat, bits: nat, readV6: V6Reader)
    requires addr < Pow2(32) && bits <= 32
    ensures ParsePrefix(PrintPrefix(addr, bits), readV6) == Some(Prefix(V4, addr, bits))
  {
    var quad, s := PrintQuad(addr), PrintPrefix(addr, bits);
    SlashFound(quad, Decimal(bits));
    assert s[..|quad|] == quad && s[|quad| + 1..] == Decimal(bits);
    QuadRead(addr, readV6);
    BitsRead(bits);
  }

  // ---- addresses with a port ----

  datatype AddrPort = AddrPort(addr: Addr, port: nat)

  /** The address and the port of a text, and whether the address is in square brackets. */
  function SplitAddrPort(s: string): Option<(string, string, bool)> {
    match LastIndex(s, ':')
    case None => None
    case Some(i) =>
      var ip, port := s[..i], s[i + 1..];
      if ip == [] || port == [] then None
      else if ip[0] != '[' then Some((ip, port, false))
      else if |ip| < 2 || ip[|ip| - 1] != ']' then None
      else Some((ip[1..|ip| - 1], port, true))
  }

  function ParseAddrPort(s: string, readV6: V6Reader): Option<AddrPort> {
    match SplitAddrPort(s)
    case None => None
    case Some((ip, port, bracketed)) =>
      match (NumberOf(port), ParseAddrFrom(ip, 0, readV6))
        case (Some(n), Some(a)) =>
          if n > 65535 || bracketed != (a.family == V6) then None else Some(AddrPort(a, n))
        case _ => None
  }

  /** A host name without dots and colons is neither an address nor one with a port. */
  lemma NameUnreadable(s: string, readV6: V6Reader)
    requires '.' !in s && ':' !in s
    ensures ParseAddrPort(s, readV6) == None && ParseAddrFrom(s, 0, readV6) == None
  {
    NoAddress(s, 0, readV6);
  }

  lemma {:induction false} NoAddress(s: string, i: nat, readV6: V6Reader)
    requires i <= |s| && '.' !in s && ':' !in s
    ensures ParseAddrFrom(s, i, readV6) == None
    decreases |s| - i
  {
    if i < |s| && s[i] != '%' { NoAddress(s, i + 1, readV6); }
  }
}
