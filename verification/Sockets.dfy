/** internal/cli/sockets.go: the Linux socket tables.

    A table is given as its lines, each cut into its white-space separated fields. */
module Sockets {
  import opened Domain

  type Byte = b: int | 0 <= b < 256

  // ---- hexadecimal ---------------------------------------------------------------

  predicate IsHex(c: char) {
    '0' <= c <= '9' || 'A' <= c <= 'F' || 'a' <= c <= 'f'
  }

  function HexValue(c: char): (v: int)
    requires IsHex(c)
    ensures 0 <= v < 16
  {
    if c <= '9' then c as int - '0' as int
    else if c <= 'F' then c as int - 'A' as int + 10
    else c as int - 'a' as int + 10
  }

  function HexDigit(v: int): (c: char)
    requires 0 <= v < 16
    ensures IsHex(c) && HexValue(c) == v
  {
    if v < 10 then ('0' as int + v) as char else ('A' as int + v - 10) as char
  }

  /** The upper-case form of a hex digit. */
  function UpperHex(c: char): char {
    if IsHex(c) then HexDigit(HexValue(c)) else c
  }

  function Upper(s: string): string {
    seq(|s|, i requires 0 <= i < |s| => UpperHex(s[i]))
  }

  predicate AllHex(s: string) {
    forall i | 0 <= i < |s| :: IsHex(s[i])
  }

  function ByteAt(s: string, i: nat): Byte
    requires AllHex(s) && 2 * i + 1 < |s|
  {
    16 * HexValue(s[2 * i]) + HexValue(s[2 * i + 1])
  }

  function Bytes(s: string): seq<Byte>
    requires AllHex(s) && |s| % 2 == 0
  {
    seq(|s| / 2, i requires 0 <= i < |s| / 2 => ByteAt(s, i))
  }

  function Printed(b: seq<Byte>): (s: string)
    ensures |s| == 2 * |b|
  {
    seq(2 * |b|, i requires 0 <= i < 2 * |b| => HexDigit(if i % 2 == 0 then b[i / 2] / 16 else b[i / 2] % 16))
  }

  lemma PrintedIsHex(b: seq<Byte>)
    ensures AllHex(Printed(b)) && Bytes(Printed(b)) == b
  {
    var s := Printed(b);
    assert AllHex(s);
    forall i | 0 <= i < |b| ensures ByteAt(s, i) == b[i] {
      assert (2 * i) / 2 == i && (2 * i + 1) / 2 == i && (2 * i) % 2 == 0 && (2 * i + 1) % 2 == 1;
    }
    assert forall i | 0 <= i < |b| :: Bytes(s)[i] == ByteAt(s, i);
  }

  lemma DigitsOfByte(x: int, y: int)
    requires 0 <= x < 16 && 0 <= y < 16
    ensures (16 * x + y) / 16 == x && (16 * x + y) % 16 == y
  {
  }

  lemma DigitPrinted(s: string, i: nat)
    requires AllHex(s) && |s| % 2 == 0 && i < |s|
    ensures Printed(Bytes(s))[i] == UpperHex(s[i])
  {
    var k := i / 2;
    assert Bytes(s)[k] == ByteAt(s, k);
    DigitsOfByte(HexValue(s[2 * k]), HexValue(s[2 * k + 1]));
    assert i == if i % 2 == 0 then 2 * k else 2 * k + 1;
  }

  lemma BytesPrinted(s: string)
    requires AllHex(s) && |s| % 2 == 0
    ensures Printed(Bytes(s)) == Upper(s)
  {
    forall i | 0 <= i < |s| ensures Printed(Bytes(s))[i] == UpperHex(s[i]) { DigitPrinted(s, i); }
  }

  // ---- words ------------------------------------------------------------------------

  /** Every complete 4-byte word with its bytes in the opposite order. */
  function SwappedIndex(n: nat, k: nat): (j: nat)
    requires k < n
    ensures j < n
  {
    if 4 * (k / 4) + 4 <= n then 4 * (k / 4) + 3 - k % 4 else k
  }

  function Swapped(b: seq<Byte>): (r: seq<Byte>)
    ensures |r| == |b|
  {
    seq(|b|, k requires 0 <= k < |b| => b[SwappedIndex(|b|, k)])
  }

  lemma SwapTwice(b: seq<Byte>)
    ensures Swapped(Swapped(b)) == b
  {
    var n := |b|;
    forall k | 0 <= k < n ensures Swapped(Swapped(b))[k] == b[k] {
      SwappedIndexTwice(n, k);
    }
  }

  lemma SwappedIndexTwice(n: nat, k: nat)
    requires k < n
    ensures SwappedIndex(n, SwappedIndex(n, k)) == k
  {
    if 4 * (k / 4) + 4 <= n {
      var j := 4 * (k / 4) + 3 - k % 4;
      assert j / 4 == k / 4 && j % 4 == 3 - k % 4;
    }
  }

  lemma SwapsWithin(n: nat, w: nat, k: nat)
    requires w % 4 == 0 && w + 4 <= n && w <= k < w + 4
    ensures SwappedIndex(n, k) == w + 3 - (k - w)
  {
    assert k / 4 == w / 4 && k % 4 == k - w;
  }

  lemma KeepsRest(n: nat, w: nat, k: nat)
    requires w % 4 == 0 && w + 4 > n && w <= k < n
    ensures SwappedIndex(n, k) == k
  {
    assert k / 4 == w / 4;
  }

  /** The in-place byte swap of decodeProcAddr. */
  method SwapWords(raw: array<Byte>)
    modifies raw
    ensures raw[..] == Swapped(old(raw[..]))
  {
    var w, n := 0, raw.Length;
    while w + 4 <= n
      invariant w % 4 == 0 && w <= n
      invariant forall k | 0 <= k < w :: raw[k] == old(raw[SwappedIndex(n, k)])
      invariant forall k | w <= k < n :: raw[k] == old(raw[k])
    {
      raw[w], raw[w + 1], raw[w + 2], raw[w + 3] := raw[w + 3], raw[w + 2], raw[w + 1], raw[w];
      forall k | w <= k < w + 4 ensures SwappedIndex(n, k) == w + 3 - (k - w) { SwapsWithin(n, w, k); }
      w := w + 4;
    }
    forall k | w <= k < n ensures SwappedIndex(n, k) == k { KeepsRest(n, w, k); }
    forall k | 0 <= k < n ensures raw[..][k] == Swapped(old(raw[..]))[k] {}
  }

  // ---- one address column ------------------------------------------------------------

  function HexNumber(s: string): nat
    requires AllHex(s)
  {
    if s == [] then 0 else 16 * HexNumber(s[..|s| - 1]) + HexValue(s[|s| - 1])
  }

  datatype Endpoint = Endpoint(addr: seq<Byte>, port: int)

  predicate Decodable(s: string, addrLen: nat) {
    |s| == addrLen + 5 && s[addrLen] == ':' && AllHex(s[..addrLen]) && AllHex(s[addrLen + 1..])
  }

  /** What an address column says, None when it is not one. */
  function Decode(s: string, addrLen: nat): Option<Endpoint>
    requires addrLen % 2 == 0
  {
    if Decodable(s, addrLen) then Some(Endpoint(Swapped(Bytes(s[..addrLen])), HexNumber(s[addrLen + 1..]))) else None
  }

  /** What a little-endian kernel prints for a network-order address and a port. */
  function PrintAddr(e: Endpoint): string
    requires 0 <= e.port < 0x1_0000
  {
    Printed(Swapped(e.addr)) + ":" + Printed([e.port / 256, e.port % 256])
  }

  lemma FourDigits(s: string)
    requires |s| == 4 && AllHex(s)
    ensures HexNumber(s) == 256 * (Bytes(s)[0] as int) + Bytes(s)[1]
  {
    assert s[..3][..2] == s[..2] && s[..2][..1] == s[..1] && s[..1][..0] == [];
    assert HexNumber(s[..1]) == HexValue(s[0]);
    assert HexNumber(s[..2]) == 16 * HexNumber(s[..1]) + HexValue(s[1]);
    assert HexNumber(s[..3]) == 16 * HexNumber(s[..2]) + HexValue(s[2]);
    assert Bytes(s)[0] == ByteAt(s, 0) && Bytes(s)[1] == ByteAt(s, 1);
  }

  lemma UpperIsHex(s: string)
    ensures AllHex(Upper(s)) <==> AllHex(s)
    ensures AllHex(s) && |s| % 2 == 0 ==> Bytes(Upper(s)) == Bytes(s)
  {
    forall i | 0 <= i < |s| ensures IsHex(Upper(s)[i]) <==> IsHex(s[i]) {}
    if AllHex(s) && |s| % 2 == 0 {
      forall i | 0 <= i < |s| / 2 ensures Bytes(Upper(s))[i] == Bytes(s)[i] {}
    }
  }

  lemma UpperParts(s: string, n: nat)
    requires n < |s|
    ensures Upper(s)[..n] == Upper(s[..n]) && Upper(s)[n + 1..] == Upper(s[n + 1..]) && Upper(s)[n] == UpperHex(s[n])
  {
  }

  /** decodeProcAddr inverts the kernel's printing: it accepts exactly the columns
      that, in either letter case, are the print of some address and port, and
      returns that address and port. */
  lemma DecodeInvertsPrint(s: string, addrLen: nat, e: Endpoint)
    requires addrLen % 2 == 0
    ensures Decode(s, addrLen) == Some(e) <==>
      2 * |e.addr| == addrLen && 0 <= e.port < 0x1_0000 && Upper(s) == PrintAddr(e)
  {
    if Decode(s, addrLen) == Some(e) {
      DecodedIsPrint(s, addrLen, e);
    }
    if 2 * |e.addr| == addrLen && 0 <= e.port < 0x1_0000 && Upper(s) == PrintAddr(e) {
      PrintIsDecoded(s, addrLen, e);
    }
  }

  lemma DecodedIsPrint(s: string, addrLen: nat, e: Endpoint)
    requires addrLen % 2 == 0 && Decode(s, addrLen) == Some(e)
    ensures 2 * |e.addr| == addrLen && 0 <= e.port < 0x1_0000 && Upper(s) == PrintAddr(e)
  {
    var a, d := s[..addrLen], s[addrLen + 1..];
    FourDigits(d);
    assert Bytes(d) == [e.port / 256, e.port % 256];
    BytesPrinted(d);
    BytesPrinted(a);
    SwapTwice(Bytes(a));
    UpperParts(s, addrLen);
    assert Upper(s) == Upper(s)[..addrLen] + [Upper(s)[addrLen]] + Upper(s)[addrLen + 1..];
  }

  lemma PartIsPrint(a: string, b: seq<Byte>)
    requires Upper(a) == Printed(b)
    ensures AllHex(a) && |a| == 2 * |b| && Bytes(a) == b
  {
    PrintedIsHex(b);
    UpperIsHex(a);
  }

  lemma PrintParts(e: Endpoint, addrLen: nat)
    requires 2 * |e.addr| == addrLen && 0 <= e.port < 0x1_0000
    ensures
      var p := PrintAddr(e);
      && |p| == addrLen + 5 && p[..addrLen] == Printed(Swapped(e.addr)) && p[addrLen] == ':'
      && p[addrLen + 1..] == Printed([e.port / 256, e.port % 256])
  {
  }

  lemma PrintIsDecoded(s: string, addrLen: nat, e: Endpoint)
    requires addrLen % 2 == 0 && 2 * |e.addr| == addrLen && 0 <= e.port < 0x1_0000 && Upper(s) == PrintAddr(e)
    ensures Decode(s, addrLen) == Some(e)
  {
    var a, d := s[..addrLen], s[addrLen + 1..];
    UpperParts(s, addrLen);
    PrintParts(e, addrLen);
    PartIsPrint(a, Swapped(e.addr));
    PartIsPrint(d, [e.port / 256, e.port % 256]);
    ColonStays(s[addrLen]);
    SwapTwice(e.addr);
    FourDigits(d);
  }

  lemma ColonStays(c: char)
    requires UpperHex(c) == ':'
    ensures c == ':'
  {
  }

  // ---- decodeProcAddr as the program runs it --------------------------------------------

  method IndexByte(s: string, c: char) returns (i: int)
    ensures -1 <= i < |s|
    ensures i == -1 ==> c !in s
    ensures i >= 0 ==> s[i] == c && c !in s[..i]
  {
    for k := 0 to |s|
      invariant c !in s[..k]
    {
      if s[k] == c {
        return k;
      }
      assert s[..k + 1] == s[..k] + [s[k]];
    }
    assert s[..|s|] == s;
    i := -1;
  }

  method DecodeHex(s: string) returns (ok: bool, raw: array<Byte>)
    ensures ok <==> |s| % 2 == 0 && AllHex(s)
    ensures ok ==> raw[..] == Bytes(s) && fresh(raw)
  {
    raw := new Byte[|s| / 2](_ => 0);
    if |s| % 2 != 0 {
      return false, raw;
    }
    for i := 0 to |s| / 2
      invariant AllHex(s[..2 * i])
      invariant forall k | 0 <= k < i :: raw[k] == 16 * HexValue(s[..2 * i][2 * k]) + HexValue(s[..2 * i][2 * k + 1])
    {
      if !IsHex(s[2 * i]) || !IsHex(s[2 * i + 1]) {
        return false, raw;
      }
      raw[i] := 16 * HexValue(s[2 * i]) + HexValue(s[2 * i + 1]);
    }
    assert s[..2 * (|s| / 2)] == s;
    ok := true;
  }

  method ParseHex(s: string) returns (ok: bool, n: nat)
    ensures ok <==> AllHex(s)
    ensures ok ==> n == HexNumber(s)
  {
    n := 0;
    for i := 0 to |s|
      invariant AllHex(s[..i]) && n == HexNumber(s[..i])
    {
      if !IsHex(s[i]) {
        return false, 0;
      }
      assert s[..i + 1][..i] == s[..i];
      n := 16 * n + HexValue(s[i]);
    }
    assert s[..|s|] == s;
    ok := true;
  }

  method DecodeProcAddr(s: string, addrLen: nat) returns (r: Option<Endpoint>)
    requires addrLen % 2 == 0
    ensures r == Decode(s, addrLen)
  {
    var i := IndexByte(s, ':');
    if i < 0 || i != addrLen || |s| - i - 1 != 4 {
      NoColonNoDecode(s, addrLen, i);
      return None;
    }
    var ok, raw := DecodeHex(s[..i]);
    if !ok {
      return None;
    }
    var good, port := ParseHex(s[i + 1..]);
    if !good {
      return None;
    }
    SwapWords(raw);
    r := Some(Endpoint(raw[..], port));
  }

  lemma NoColonNoDecode(s: string, addrLen: nat, i: int)
    requires i >= -1 && (i == -1 ==> ':' !in s)
    requires i >= 0 ==> i < |s| && s[i] == ':' && ':' !in s[..i]
    requires i < 0 || i != addrLen || |s| - i - 1 != 4
    requires addrLen % 2 == 0
    ensures Decode(s, addrLen) == None
  {
    if |s| == addrLen + 5 {
      var c := s[addrLen];
      assert c in s;
      if 0 <= i < addrLen {
        assert s[..addrLen][i] == ':';
      } else if addrLen < i {
        assert s[..i][addrLen] == c;
        assert c in s[..i];
      }
    }
  }

  // ---- a whole table ------------------------------------------------------------------------

  datatype SockEntry = SockEntry(protocol: Protocol, addr: seq<Byte>, port: int, listening: bool)

  datatype TableError = NoFile | UnsupportedProtocol | EmptyTable | NoneParsed(rows: nat)

  datatype TableResult = Parsed(entries: seq<SockEntry>) | Unreadable(error: TableError)

  const HEADER: string := "local_address"

  predicate TextAt(s: string, t: string, i: nat) {
    i + |t| <= |s| && s[i..i + |t|] == t
  }

  predicate ContainsText(s: string, t: string) {
    exists i :: 0 <= i <= |s| && TextAt(s, t, i)
  }

  /** The line mentions the header's name; the name has no spaces, so some field does. */
  predicate IsHeader(f: seq<string>) {
    exists i :: 0 <= i < |f| && ContainsText(f[i], HEADER)
  }

  predicate EndsWithColon(s: string) {
    s != "" && s[|s| - 1] == ':'
  }

  predicate IsListen(state: string) {
    state == "0A" || state == "0a"
  }

  /** The entry of one table row, None when it is malformed. */
  function EntryOf(f: seq<string>, protocol: Protocol, addrLen: nat): Option<SockEntry>
    requires addrLen % 2 == 0
  {
    if |f| < 4 || !EndsWithColon(f[0]) then None
    else
      match Decode(f[1], addrLen)
      case None => None
      case Some(e) =>
        if e.port < 1 || (protocol == Tcp && !(|f[3]| == 2 && AllHex(f[3]))) then None
        else Some(SockEntry(protocol, e.addr, e.port, protocol != Tcp || IsListen(f[3])))
  }

  predicate IsCandidate(f: seq<string>) {
    f != [] && !IsHeader(f)
  }

  function Entries(rows: seq<seq<string>>, n: nat, protocol: Protocol, addrLen: nat): seq<SockEntry>
    requires n <= |rows| && addrLen % 2 == 0
  {
    if n == 0 then [] else
      Entries(rows, n - 1, protocol, addrLen) +
      if IsCandidate(rows[n - 1]) && EntryOf(rows[n - 1], protocol, addrLen).Some?
      then [EntryOf(rows[n - 1], protocol, addrLen).value] else []
  }

  function Candidates(rows: seq<seq<string>>, n: nat): nat
    requires n <= |rows|
  {
    if n == 0 then 0 else Candidates(rows, n - 1) + if IsCandidate(rows[n - 1]) then 1 else 0
  }

  function AddrLen(v6: bool): nat {
    if v6 then 32 else 8
  }

  predicate AllBlank(rows: seq<seq<string>>, n: nat)
    requires n <= |rows|
  {
    forall k | 0 <= k < n :: rows[k] == []
  }

  function ParseTable(rows: seq<seq<string>>, protocol: Protocol, v6: bool): TableResult {
    var es, cs := Entries(rows, |rows|, protocol, AddrLen(v6)), Candidates(rows, |rows|);
    if protocol != Tcp && protocol != Udp then Unreadable(UnsupportedProtocol)
    else if AllBlank(rows, |rows|) then Unreadable(EmptyTable)
    else if cs > 0 && es == [] then Unreadable(NoneParsed(cs))
    else Parsed(es)
  }

  method ContainsHeader(s: string) returns (found: bool)
    ensures found <==> ContainsText(s, HEADER)
  {
    for i := 0 to |s|
      invariant forall k | 0 <= k < i :: !TextAt(s, HEADER, k)
    {
      if TextAt(s, HEADER, i) {
        return true;
      }
    }
    found := false;
  }

  method LineIsHeader(f: seq<string>) returns (found: bool)
    ensures found <==> IsHeader(f)
  {
    for i := 0 to |f|
      invariant forall k | 0 <= k < i :: !ContainsText(f[k], HEADER)
    {
      var here := ContainsHeader(f[i]);
      if here {
        return true;
      }
    }
    found := false;
  }

  method ParseRow(f: seq<string>, protocol: Protocol, addrLen: nat) returns (e: Option<SockEntry>)
    requires addrLen % 2 == 0
    ensures e == EntryOf(f, protocol, addrLen)
  {
    if |f| < 4 || !EndsWithColon(f[0]) {
      return None;
    }
    var local := DecodeProcAddr(f[1], addrLen);
    if local.None? || local.value.port < 1 {
      return None;
    }
    var listening := true;
    if protocol == Tcp {
      if |f[3]| != 2 || !IsHex(f[3][0]) || !IsHex(f[3][1]) {
        return None;
      }
      listening := IsListen(f[3]);
    }
    e := Some(SockEntry(protocol, local.value.addr, local.value.port, listening));
  }

  /** parseProcNet: blank lines and headers are skipped, malformed rows too, but a
      table without any line or without any usable row is an error. */
  method ParseProcNet(rows: seq<seq<string>>, protocol: Protocol, v6: bool) returns (r: TableResult)
    ensures r == ParseTable(rows, protocol, v6)
  {
    if protocol != Tcp && protocol != Udp {
      return Unreadable(UnsupportedProtocol);
    }
    var entries: seq<SockEntry>, nonBlank: nat, candidates: nat := [], 0, 0;
    var addrLen := AddrLen(v6);
    for n := 0 to |rows|
      invariant entries == Entries(rows, n, protocol, addrLen) && candidates == Candidates(rows, n)
      invariant nonBlank == 0 <==> AllBlank(rows, n)
    {
      var f := rows[n];
      if f != [] {
        nonBlank := nonBlank + 1;
        var header := LineIsHeader(f);
        if !header {
          candidates := candidates + 1;
          var e := ParseRow(f, protocol, addrLen);
          if e.Some? {
            entries := entries + [e.value];
          }
        }
      }
    }
    if nonBlank == 0 {
      return Unreadable(EmptyTable);
    }
    if candidates > 0 && |entries| == 0 {
      return Unreadable(NoneParsed(candidates));
    }
    r := Parsed(entries);
  }

  ghost predicate Occupies(entries: seq<SockEntry>, n: nat, protocol: Protocol, port: int)
    requires n <= |entries|
  {
    exists i :: 0 <= i < n && entries[i].protocol == protocol && entries[i].listening && entries[i].port == port
  }

  method OccupiedPorts(entries: seq<SockEntry>, protocol: Protocol) returns (m: set<int>)
    ensures forall p :: p in m <==> Occupies(entries, |entries|, protocol, p)
  {
    m := {};
    for n := 0 to |entries|
      invariant forall p :: p in m <==> Occupies(entries, n, protocol, p)
    {
      var e := entries[n];
      if e.protocol == protocol && e.listening {
        m := m + {e.port};
      }
    }
  }

  // ---- what a table says -------------------------------------------------------------------

  lemma {:induction false} EntriesMeans(rows: seq<seq<string>>, n: nat, protocol: Protocol, addrLen: nat)
    requires n <= |rows| && addrLen % 2 == 0
    ensures forall e :: e in Entries(rows, n, protocol, addrLen) <==>
      exists i :: 0 <= i < n && IsCandidate(rows[i]) && EntryOf(rows[i], protocol, addrLen) == Some(e)
  {
    if n > 0 { EntriesMeans(rows, n - 1, protocol, addrLen); }
  }

  lemma {:induction false} CandidatesMeans(rows: seq<seq<string>>, n: nat)
    requires n <= |rows|
    ensures Candidates(rows, n) == 0 <==> forall i | 0 <= i < n :: !IsCandidate(rows[i])
  {
    if n > 0 { CandidatesMeans(rows, n - 1); }
  }

  /** An unreadable table is never taken for one without sockets: no entries is the
      answer exactly when there are lines and every line is a header or blank. */
  lemma NoSocketsMeansNoRows(rows: seq<seq<string>>, protocol: Protocol, v6: bool)
    requires protocol == Tcp || protocol == Udp
    ensures ParseTable(rows, protocol, v6) == Parsed([]) <==>
      !AllBlank(rows, |rows|) && forall i | 0 <= i < |rows| :: !IsCandidate(rows[i])
  {
    CandidatesMeans(rows, |rows|);
    EntriesMeans(rows, |rows|, protocol, AddrLen(v6));
    var es := Entries(rows, |rows|, protocol, AddrLen(v6));
    if es != [] {
      var e := es[0];
      assert e in es;
    }
  }

  /** Nothing but hex digits and colons: every hex address and port looks so. */
  predicate IsAddressColumn(s: string) {
    forall i | 0 <= i < |s| :: IsHex(s[i]) || s[i] == ':'
  }

  /** The same line, or one that differs only in its remote column, where both have
      some hex address and port. */
  predicate SameButRemote(f: seq<string>, g: seq<string>) {
    f == g || (|f| == |g| && |f| >= 3 && IsAddressColumn(f[2]) && IsAddressColumn(g[2])
               && forall i | 0 <= i < |f| && i != 2 :: f[i] == g[i])
  }

  lemma AddressIsNotHeader(s: string)
    requires IsAddressColumn(s)
    ensures !ContainsText(s, HEADER)
  {
    forall i | 0 <= i <= |s| ensures !TextAt(s, HEADER, i) {
      if i + |HEADER| <= |s| {
        assert s[i..i + |HEADER|][0] == s[i];
      }
    }
  }

  lemma RemoteIsNotRead(f: seq<string>, g: seq<string>, protocol: Protocol, addrLen: nat)
    requires SameButRemote(f, g) && addrLen % 2 == 0
    ensures IsCandidate(f) == IsCandidate(g) && EntryOf(f, protocol, addrLen) == EntryOf(g, protocol, addrLen)
    ensures f == [] <==> g == []
  {
    if f != g {
      AddressIsNotHeader(f[2]);
      AddressIsNotHeader(g[2]);
      forall i | 0 <= i < |f| ensures ContainsText(f[i], HEADER) <==> ContainsText(g[i], HEADER) {}
    }
  }

  lemma {:induction false} RemotesAreNotRead(rows: seq<seq<string>>, other: seq<seq<string>>, n: nat,
                                             protocol: Protocol, addrLen: nat)
    requires n <= |rows| == |other| && addrLen % 2 == 0
    requires forall i | 0 <= i < |rows| :: SameButRemote(rows[i], other[i])
    ensures Entries(rows, n, protocol, addrLen) == Entries(other, n, protocol, addrLen)
    ensures Candidates(rows, n) == Candidates(other, n)
  {
    if n > 0 {
      RemotesAreNotRead(rows, other, n - 1, protocol, addrLen);
      RemoteIsNotRead(rows[n - 1], other[n - 1], protocol, addrLen);
    }
  }

  /** Remote addresses and ports never matter: replacing any of them by any other
      hex address and port leaves the whole result as it was. */
  lemma RemotesNeverMatter(rows: seq<seq<string>>, other: seq<seq<string>>, protocol: Protocol, v6: bool)
    requires |rows| == |other| && forall i | 0 <= i < |rows| :: SameButRemote(rows[i], other[i])
    ensures ParseTable(rows, protocol, v6) == ParseTable(other, protocol, v6)
  {
    RemotesAreNotRead(rows, other, |rows|, protocol, AddrLen(v6));
    forall i | 0 <= i < |rows| ensures rows[i] == [] <==> other[i] == [] {
      RemoteIsNotRead(rows[i], other[i], protocol, AddrLen(v6));
    }
  }

  // ---- a table the kernel prints --------------------------------------------------------------

  /** A socket as the kernel lists it: slot, both ends, state, further columns. */
  datatype Socket = Socket(slot: string, local: Endpoint, remote: Endpoint, state: Byte, rest: seq<string>)

  predicate IsSocket(s: Socket, v6: bool) {
    && |s.local.addr| == |s.remote.addr| == AddrLen(v6) / 2
    && 0 < s.local.port < 0x1_0000 && 0 <= s.remote.port < 0x1_0000
    && !ContainsText(s.slot + ":", HEADER)
    && forall i | 0 <= i < |s.rest| :: !ContainsText(s.rest[i], HEADER)
  }

  function PrintRow(s: Socket): seq<string>
    requires 0 <= s.local.port < 0x1_0000 && 0 <= s.remote.port < 0x1_0000
  {
    [s.slot + ":", PrintAddr(s.local), PrintAddr(s.remote), Printed([s.state])] + s.rest
  }

  const LISTEN: Byte := 0x0A

  function EntryFor(s: Socket, protocol: Protocol): SockEntry {
    SockEntry(protocol, s.local.addr, s.local.port, protocol != Tcp || s.state == LISTEN)
  }

  lemma UpperOfPrint(e: Endpoint)
    requires 0 <= e.port < 0x1_0000
    ensures Upper(PrintAddr(e)) == PrintAddr(e)
  {
    PrintedIsHex(Swapped(e.addr));
    PrintedIsHex([e.port / 256, e.port % 256]);
  }

  lemma PrintedDecodes(e: Endpoint, addrLen: nat)
    requires addrLen % 2 == 0 && 2 * |e.addr| == addrLen && 0 <= e.port < 0x1_0000
    ensures Decode(PrintAddr(e), addrLen) == Some(e) && IsAddressColumn(PrintAddr(e))
  {
    UpperOfPrint(e);
    DecodeInvertsPrint(PrintAddr(e), addrLen, e);
    PrintedIsHex(Swapped(e.addr));
    PrintedIsHex([e.port / 256, e.port % 256]);
  }

  lemma StatePrinted(state: Byte)
    ensures |Printed([state])| == 2 && AllHex(Printed([state]))
    ensures IsListen(Printed([state])) <==> state == LISTEN
    ensures !ContainsText(Printed([state]), HEADER)
  {
    PrintedIsHex([state]);
    var s := Printed([state]);
    assert s[0] == HexDigit(state / 16) && s[1] == HexDigit(state % 16);
    assert Bytes(s)[0] == ByteAt(s, 0);
    if state == LISTEN { assert s == "0A"; }
  }

  lemma FourPlus(a: string, b: string, c: string, d: string, rest: seq<string>)
    requires !ContainsText(a, HEADER) && !ContainsText(b, HEADER) && !ContainsText(c, HEADER) &&
      !ContainsText(d, HEADER)
    requires forall i | 0 <= i < |rest| :: !ContainsText(rest[i], HEADER)
    ensures IsCandidate([a, b, c, d] + rest)
  {
    var f := [a, b, c, d] + rest;
    forall i | 0 <= i < |f| ensures !ContainsText(f[i], HEADER) {
      if i >= 4 { assert f[i] == rest[i - 4]; }
    }
  }

  lemma RowIsCandidate(s: Socket, v6: bool)
    requires IsSocket(s, v6)
    ensures IsCandidate(PrintRow(s))
  {
    var local, remote, state := PrintAddr(s.local), PrintAddr(s.remote), Printed([s.state]);
    PrintedDecodes(s.local, AddrLen(v6));
    PrintedDecodes(s.remote, AddrLen(v6));
    AddressIsNotHeader(local);
    AddressIsNotHeader(remote);
    StatePrinted(s.state);
    FourPlus(s.slot + ":", local, remote, state, s.rest);
  }

  lemma RowEntry(s: Socket, protocol: Protocol, v6: bool)
    requires (protocol == Tcp || protocol == Udp) && IsSocket(s, v6)
    ensures EntryOf(PrintRow(s), protocol, AddrLen(v6)) == Some(EntryFor(s, protocol))
  {
    var f := PrintRow(s);
    assert |f| >= 4 && f[0] == s.slot + ":" && f[1] == PrintAddr(s.local) && f[3] == Printed([s.state]);
    PrintedDecodes(s.local, AddrLen(v6));
    StatePrinted(s.state);
    EntryOfRow(f, protocol, AddrLen(v6), s.local);
  }

  lemma EntryOfRow(f: seq<string>, protocol: Protocol, addrLen: nat, e: Endpoint)
    requires |f| >= 4 && EndsWithColon(f[0]) && addrLen % 2 == 0 && Decode(f[1], addrLen) == Some(e) && e.port >= 1
    requires |f[3]| == 2 && AllHex(f[3])
    ensures EntryOf(f, protocol, addrLen) ==
      Some(SockEntry(protocol, e.addr, e.port, protocol != Tcp || IsListen(f[3])))
  {
  }

  /** A header line and one row for each socket. */
  predicate IsPrintOf(rows: seq<seq<string>>, sockets: seq<Socket>, v6: bool) {
    && |rows| == |sockets| + 1 && IsHeader(rows[0])
    && (forall i | 0 <= i < |sockets| :: IsSocket(sockets[i], v6))
    && (forall i | 0 <= i < |sockets| :: rows[i + 1] == PrintRow(sockets[i]))
  }

  function EntriesFor(sockets: seq<Socket>, n: nat, protocol: Protocol): (es: seq<SockEntry>)
    requires n <= |sockets|
    ensures |es| == n
  {
    if n == 0 then [] else EntriesFor(sockets, n - 1, protocol) + [EntryFor(sockets[n - 1], protocol)]
  }

  lemma EntriesSkip(rows: seq<seq<string>>, n: nat, protocol: Protocol, addrLen: nat)
    requires n < |rows| && addrLen % 2 == 0 && !IsCandidate(rows[n])
    ensures Entries(rows, n + 1, protocol, addrLen) == Entries(rows, n, protocol, addrLen)
  {
  }

  lemma EntriesOneMore(rows: seq<seq<string>>, n: nat, protocol: Protocol, addrLen: nat, e: SockEntry)
    requires n < |rows| && addrLen % 2 == 0 && IsCandidate(rows[n]) && EntryOf(rows[n], protocol, addrLen) == Some(e)
    ensures Entries(rows, n + 1, protocol, addrLen) == Entries(rows, n, protocol, addrLen) + [e]
  {
  }

  lemma {:induction false} PrintedEntries(rows: seq<seq<string>>, sockets: seq<Socket>, n: nat, protocol: Protocol,
                                          v6: bool)
    requires (protocol == Tcp || protocol == Udp) && n <= |sockets| && IsPrintOf(rows, sockets, v6)
    ensures Entries(rows, n + 1, protocol, AddrLen(v6)) == EntriesFor(sockets, n, protocol)
  {
    if n == 0 {
      EntriesSkip(rows, 0, protocol, AddrLen(v6));
    } else {
      PrintedEntries(rows, sockets, n - 1, protocol, v6);
      var s := sockets[n - 1];
      assert rows[n - 1 + 1] == PrintRow(s);
      RowIsCandidate(s, v6);
      RowEntry(s, protocol, v6);
      EntriesOneMore(rows, n, protocol, AddrLen(v6), EntryFor(s, protocol));
    }
  }

  lemma {:induction false} EntriesForAt(sockets: seq<Socket>, n: nat, protocol: Protocol, i: nat)
    requires i < n <= |sockets|
    ensures EntriesFor(sockets, n, protocol)[i] == EntryFor(sockets[i], protocol)
  {
    if i < n - 1 { EntriesForAt(sockets, n - 1, protocol, i); }
  }

  lemma EntriesForMeans(sockets: seq<Socket>, n: nat, protocol: Protocol, port: int)
    requires n <= |sockets|
    ensures Occupies(EntriesFor(sockets, n, protocol), n, protocol, port) <==>
      exists i :: 0 <= i < n && sockets[i].local.port == port && (protocol == Tcp ==> sockets[i].state == LISTEN)
  {
    var es := EntriesFor(sockets, n, protocol);
    forall i | 0 <= i < n ensures es[i] == EntryFor(sockets[i], protocol) { EntriesForAt(sockets, n, protocol, i); }
    if i :| 0 <= i < n && es[i].protocol == protocol && es[i].listening && es[i].port == port {
      assert sockets[i].local.port == port;
    }
    if i :| 0 <= i < n && sockets[i].local.port == port && (protocol == Tcp ==> sockets[i].state == LISTEN) {
      assert es[i].port == port && es[i].listening;
    }
  }

  /** The whole path: whatever sockets the kernel lists, the table it prints parses
      to exactly those sockets, in order, and the occupied ports are the local ports
      of its listening TCP sockets, or of all its UDP sockets. */
  lemma TableRoundTrip(rows: seq<seq<string>>, sockets: seq<Socket>, protocol: Protocol, v6: bool, port: int)
    requires (protocol == Tcp || protocol == Udp) && IsPrintOf(rows, sockets, v6)
    ensures
      var es := EntriesFor(sockets, |sockets|, protocol);
      && ParseTable(rows, protocol, v6) == Parsed(es)
      && (Occupies(es, |es|, protocol, port) <==>
            exists i :: 0 <= i < |sockets| && sockets[i].local.port == port &&
              (protocol == Tcp ==> sockets[i].state == LISTEN))
  {
    PrintedEntries(rows, sockets, |sockets|, protocol, v6);
    EntriesForMeans(sockets, |sockets|, protocol, port);
    CandidatesMeans(rows, |rows|);
    assert rows[0] != [];
    forall i | 0 <= i < |rows| && IsCandidate(rows[i]) ensures |sockets| > 0 {}
  }

  // ---- both tables ---------------------------------------------------------------------------------

  /** What reading one of the two files gives. */
  datatype File = Missing | Broken | Rows(rows: seq<seq<string>>)

  function Joined(a: TableResult, b: TableResult): TableResult {
    if a.Unreadable? then a else if b.Unreadable? then b else Parsed(a.entries + b.entries)
  }

  function FromFile(f: File, protocol: Protocol, v6: bool): TableResult {
    match f
    case Rows(rows) => ParseTable(rows, protocol, v6)
    case Missing => if v6 then Parsed([]) else Unreadable(NoFile)
    case Broken => Unreadable(NoFile)
  }

  method ReadTable(f: File, protocol: Protocol, v6: bool) returns (r: TableResult)
    ensures r == FromFile(f, protocol, v6)
  {
    match f
    case Missing => r := if v6 then Parsed([]) else Unreadable(NoFile);
    case Broken => r := Unreadable(NoFile);
    case Rows(rows) => r := ParseProcNet(rows, protocol, v6);
  }

  /** readProcTables: the first table is required, the IPv6 one may be missing. */
  method ReadProcTables(file: bool -> File, protocol: Protocol) returns (r: TableResult)
    ensures r == Joined(FromFile(file(false), protocol, false), FromFile(file(true), protocol, true))
  {
    var all: seq<SockEntry> := [];
    for n := 0 to 2
      invariant n == 0 ==> all == []
      invariant n == 1 ==> FromFile(file(false), protocol, false) == Parsed(all)
      invariant n == 2 ==>
        Joined(FromFile(file(false), protocol, false), FromFile(file(true), protocol, true)) == Parsed(all)
    {
      var v6 := n == 1;
      var t := ReadTable(file(v6), protocol, v6);
      if t.Unreadable? {
        return t;
      }
      all := all + t.entries;
    }
    r := Parsed(all);
  }

  predicate UsesPort(sockets: seq<Socket>, protocol: Protocol, port: int) {
    exists i :: 0 <= i < |sockets| && sockets[i].local.port == port && (protocol == Tcp ==> sockets[i].state == LISTEN)
  }

  lemma OccupiesJoined(a: seq<SockEntry>, b: seq<SockEntry>, protocol: Protocol, port: int)
    ensures Occupies(a + b, |a + b|, protocol, port) <==>
      Occupies(a, |a|, protocol, port) || Occupies(b, |b|, protocol, port)
  {
    var c := a + b;
    assert forall i | 0 <= i < |a| :: c[i] == a[i];
    assert forall i | 0 <= i < |b| :: c[|a| + i] == b[i];
    if i :| 0 <= i < |c| && c[i].protocol == protocol && c[i].listening && c[i].port == port {
      assert i >= |a| ==> b[i - |a|] == c[i];
    }
  }

  /** A Linux host: what the program takes for occupied is exactly what the kernel's
      two tables list, and a host without IPv6 simply has no second table. */
  lemma HostRoundTrip(file: bool -> File, four: seq<Socket>, six: seq<Socket>, protocol: Protocol, port: int)
    requires protocol == Tcp || protocol == Udp
    requires file(false).Rows? && IsPrintOf(file(false).rows, four, false)
    requires if file(true).Rows? then IsPrintOf(file(true).rows, six, true) else file(true).Missing? && six == []
    ensures
      var r := Joined(FromFile(file(false), protocol, false), FromFile(file(true), protocol, true));
      r.Parsed? && (Occupies(r.entries, |r.entries|, protocol, port) <==>
        UsesPort(four, protocol, port) || UsesPort(six, protocol, port))
  {
    TableRoundTrip(file(false).rows, four, protocol, false, port);
    var a, b := FromFile(file(false), protocol, false), FromFile(file(true), protocol, true);
    if file(true).Rows? {
      TableRoundTrip(file(true).rows, six, protocol, true, port);
    }
    OccupiesJoined(a.entries, b.entries, protocol, port);
  }
}
