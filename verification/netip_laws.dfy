/** Which texts are prefixes and addresses with a port, without the steps by which they are read. */
module NetipLaws {
  import opened Sequences
  import opened Cidr
  import opened NetipText

  // ---- numbers ----

  /** A digit text without a leading zero is the decimal text of its number. */
  lemma {:induction false} NumberExact(t: string)
    requires t != [] && NumberOf(t).Some? && (|t| == 1 || t[0] != '0')
    ensures t == Decimal(NumberOf(t).value)
    ensures t[0] != '0' ==> NumberOf(t).value > 0
  {
    var init, last := t[..|t| - 1], t[|t| - 1];
    if |t| > 1 {
      NumberExact(init);
      DecimalAppend(NumberOf(init).value, DigitValue(last));
      assert t == init + [last];
    } else {
      assert init == [];
    }
  }

  /** A prefix length is written without sign and leading zero. */
  lemma BitsExact(t: string)
    requires ParseBits(t).Some?
    ensures t == Decimal(ParseBits(t).value)
  {
    NumberExact(t);
  }

  // ---- prefixes ----

  /** A text, a separator and digits are split at that separator. */
  lemma {:induction false} SeparatorFound(a: string, c: char, t: string)
    requires !IsDigit(c) && forall k :: 0 <= k < |t| ==> IsDigit(t[k])
    ensures LastIndex(a + [c] + t, c) == Some(|a|)
  {
    var s := a + [c] + t;
    if t != [] {
      var init := t[..|t| - 1];
      assert s[..|s| - 1] == a + [c] + init && s[|s| - 1] == t[|t| - 1];
      SeparatorFound(a, c, init);
    }
  }

  /** An address text with a length is a prefix exactly if the address reads and the length fits: at
      most 32 for IPv4, at most 128 for IPv6. */
  lemma PrefixOfAddr(t: string, n: nat, readV6: V6Reader)
    ensures ParsePrefix(t + ['/'] + Decimal(n), readV6) ==
            match ParseAddrFrom(t, 0, readV6)
            case None => None
            case Some(a) => if n > (if a.family == V4 then 32 else 128) then None else Some(Prefix(a.family, a.value, n))
  {
    var s := t + ['/'] + Decimal(n);
    SeparatorFound(t, '/', Decimal(n));
    assert s[..|t|] == t && s[|t| + 1..] == Decimal(n);
    BitsRead(n);
  }

  lemma {:induction false} QuadOrOther(s: string, i: nat, readV6: V6Reader)
    requires i <= |s| && ParseAddrFrom(s, i, readV6).Some? && ParseAddrFrom(s, i, readV6).value.family == V4
    ensures ParseQuad(s) == Some(ParseAddrFrom(s, i, readV6).value.value)
    decreases |s| - i
  {
    if s[i] != '.' { QuadOrOther(s, i + 1, readV6); }
  }

  lemma PrefixParts(s: string, readV6: V6Reader) returns (ip: string, bits: string)
    requires ParsePrefix(s, readV6).Some?
    ensures s == ip + ['/'] + bits
    ensures var p := ParsePrefix(s, readV6).value;
            && ParseAddrFrom(ip, 0, readV6) == Some(Addr(p.family, p.addr)) && ParseBits(bits) == Some(p.bits)
            && p.bits <= Width(p.family)
  {
    var i := LastIndex(s, '/').value;
    ip, bits := s[..i], s[i + 1..];
  }

  /** The texts that read as IPv4 prefixes are exactly the printed ones. */
  lemma PrefixExact(s: string, readV6: V6Reader)
    requires ParsePrefix(s, readV6).Some? && ParsePrefix(s, readV6).value.family == V4
    ensures var p := ParsePrefix(s, readV6).value;
            p.bits <= 32 && p.addr < Pow2(32) && s == PrintPrefix(p.addr, p.bits)
  {
    var ip, bits := PrefixParts(s, readV6);
    QuadOrOther(ip, 0, readV6);
    PrintParse(ip);
    BitsExact(bits);
  }

  // ---- addresses with a port ----

  function PrintPort(ip: string, port: nat): string { ip + [':'] + Decimal(port) }

  lemma PortSplit(ip: string, port: nat)
    requires ip != []
    ensures SplitAddrPort(PrintPort(ip, port)) ==
            if ip[0] != '[' then Some((ip, Decimal(port), false))
            else if |ip| < 2 || ip[|ip| - 1] != ']' then None
            else Some((ip[1..|ip| - 1], Decimal(port), true))
  {
    var s := PrintPort(ip, port);
    SeparatorFound(ip, ':', Decimal(port));
    assert s[..|ip|] == ip && s[|ip| + 1..] == Decimal(port);
  }

  /** Without brackets an address with a port is an IPv4 address and a port below 65536. */
  lemma PlainAddrPort(ip: string, port: nat, readV6: V6Reader)
    requires ip != [] && ip[0] != '['
    ensures ParseAddrPort(PrintPort(ip, port), readV6) ==
            match ParseAddrFrom(ip, 0, readV6)
            case None => None
            case Some(a) => if a.family == V4 && port < 65536 then Some(AddrPort(a, port)) else None
  {
    PortSplit(ip, port);
    NumberOfDecimal(port);
  }

  /** In brackets it is an IPv6 address and such a port. */
  lemma BracketedAddrPort(ip: string, port: nat, readV6: V6Reader)
    ensures ParseAddrPort(PrintPort(['['] + ip + [']'], port), readV6) ==
            match ParseAddrFrom(ip, 0, readV6)
            case None => None
            case Some(a) => if a.family == V6 && port < 65536 then Some(AddrPort(a, port)) else None
  {
    var b := ['['] + ip + [']'];
    assert b[1..|b| - 1] == ip;
    PortSplit(b, port);
    NumberOfDecimal(port);
  }

  /** Every IPv4 address and port read back from their text, and the address alone does not read as
      one with a port. */
  lemma AddrPortRoundTrip(a: nat, port: nat, readV6: V6Reader)
    requires a < Pow2(32) && port < 65536
    ensures ParseAddrPort(PrintPort(PrintQuad(a), port), readV6) == Some(AddrPort(Addr(V4, a), port))
    ensures ParseAddrPort(PrintQuad(a), readV6) == None
    ensures ParseAddrFrom(PrintQuad(a), 0, readV6) == Some(Addr(V4, a))
  {
    QuadRead(a, readV6);
    var quad := PrintQuad(a);
    QuadChars(a);
    PlainAddrPort(quad, port, readV6);
    NotFound(quad, ':');
  }

  lemma QuadChars(a: nat)
    ensures PrintQuad(a) != [] && PrintQuad(a)[0] != '[' && ':' !in PrintQuad(a)
  {
    FieldsChars(3, a / 256);
    var f, d := Fields(3, a / 256), Decimal(a % 256);
    assert PrintQuad(a) == f + d;
    assert ':' !in f && ':' !in d;
    assert PrintQuad(a)[0] == f[0];
  }

  lemma {:induction false} NotFound(s: string, c: char)
    requires c !in s
    ensures LastIndex(s, c) == None
  {
    if s != [] { NotFound(s[..|s| - 1], c); }
  }
}
