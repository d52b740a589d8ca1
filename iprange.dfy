/**
 * IP address ranges (controllers/iprange/iprange.go).
 *
 * A range is written as one address, as "addr-addr", or as a CIDR block
 * "addr/len". It is parsed into a [start, end] pair of byte strings and
 * enumerated by big-endian increment with carry. Addresses are byte strings;
 * the textual address parsers of the Go standard library (net.ParseIP and the
 * text part of net.ParseCIDR) are parameters of the model.
 */
module IpRange {
  import opened Wrappers

  type Bytes = seq<bv8>

  // ---------------------------------------------------------------------
  // Numeric view of a byte string
  // ---------------------------------------------------------------------

  function Pow2(n: nat): (r: nat)
    ensures r >= 1
  {
    if n == 0 then 1 else 2 * Pow2(n - 1)
  }

  function Pow256(n: nat): (r: nat)
    ensures r >= 1
  {
    if n == 0 then 1 else 256 * Pow256(n - 1)
  }

  /** The big-endian value of a byte string. */
  function Value(s: Bytes): nat
  {
    if s == [] then 0 else Value(s[..|s| - 1]) * 256 + s[|s| - 1] as nat
  }

  lemma {:induction false} Pow2Add(a: nat, b: nat)
    ensures Pow2(a + b) == Pow2(a) * Pow2(b)
  {
    if a > 0 {
      Pow2Add(a - 1, b);
    }
  }

  lemma MulLe(x: nat, y: nat, p: nat)
    requires x <= y
    ensures x * p <= y * p
  {
  }

  /** Appending one byte shifts the value by one byte position. */
  lemma ValueSnoc(p: Bytes, x: bv8)
    ensures Value(p + [x]) == Value(p) * 256 + x as nat
  {
    assert (p + [x])[..|p|] == p;
  }

  /** A byte string of length n has a value below 256^n. */
  lemma {:induction false} ValueBound(s: Bytes)
    ensures Value(s) < Pow256(|s|)
  {
    if s != [] {
      var p := s[..|s| - 1];
      ValueBound(p);
      MulLe(Value(p) + 1, Pow256(|p|), 256);
    }
  }

  lemma ShiftBytes(v: int, p: int, w: int, x: int)
    ensures (v * p + w) * 256 + x == v * (p * 256) + (w * 256 + x)
  {
  }

  /** Concatenation: the prefix is worth 256^|x| times its own value. */
  lemma {:induction false} ValueConcat(p: Bytes, x: Bytes)
    ensures Value(p + x) == Value(p) * Pow256(|x|) + Value(x)
  {
    if x == [] {
      assert p + x == p;
    } else {
      var y, c := x[..|x| - 1], x[|x| - 1];
      assert p + x == (p + y) + [c] && x == y + [c];
      ValueSnoc(p + y, c);
      ValueSnoc(y, c);
      ValueConcat(p, y);
      ShiftBytes(Value(p), Pow256(|y|), Value(y), c as nat);
    }
  }

  /** The value read from the front: the first byte weighs 256^(n-1). */
  lemma ValueFront(s: Bytes)
    requires s != []
    ensures Value(s) == s[0] as nat * Pow256(|s| - 1) + Value(s[1..])
  {
    var x, t := s[0], s[1..];
    assert [x] + t == s;
    ValueConcat([x], t);
    assert [x][..0] == [];
    assert Value([x]) == x as nat;
  }

  // ---------------------------------------------------------------------
  // bytes.Compare and its agreement with the numeric order
  // ---------------------------------------------------------------------

  /** bytes.Compare: lexicographic order in which a proper prefix sorts first. */
  function Compare(a: Bytes, b: Bytes): (r: int)
    ensures -1 <= r <= 1
    ensures r == 0 <==> a == b
  {
    if a == [] && b == [] then 0
    else if a == [] then -1
    else if b == [] then 1
    else if a[0] < b[0] then -1
    else if a[0] > b[0] then 1
    else
      assert a == [a[0]] + a[1..] && b == [b[0]] + b[1..];
      Compare(a[1..], b[1..])
  }

  /** A higher leading digit outweighs everything after it. */
  lemma DigitOrder(a: nat, b: nat, p: nat, u: nat, v: nat)
    requires a < b && u < p && v < p
    ensures a * p + u < b * p + v
  {
    MulLe(a + 1, b, p);
    assert (a + 1) * p == a * p + p;
  }

  /** The sign of x - y. */
  function Sign(x: int, y: int): int
  {
    if x < y then -1 else if x > y then 1 else 0
  }

  /** On byte strings of one length, lexicographic order is numeric order. */
  lemma {:induction false} CompareByValue(a: Bytes, b: Bytes)
    requires |a| == |b|
    ensures Compare(a, b) == Sign(Value(a), Value(b))
  {
    if a != [] {
      if a[0] < b[0] {
        FirstByteOrder(a, b);
      } else if a[0] > b[0] {
        FirstByteOrder(b, a);
      } else {
        CompareByValue(a[1..], b[1..]);
        ValueFront(a);
        ValueFront(b);
      }
    }
  }

  /** A smaller first byte makes a smaller value. */
  lemma FirstByteOrder(a: Bytes, b: Bytes)
    requires |a| == |b| > 0 && a[0] < b[0]
    ensures Value(a) < Value(b)
  {
    ValueBound(a[1..]);
    ValueBound(b[1..]);
    ValueFront(a);
    ValueFront(b);
    DigitOrder(a[0] as nat, b[0] as nat, Pow256(|a| - 1), Value(a[1..]), Value(b[1..]));
  }

  /** Two byte strings of one length with the same value are equal. */
  lemma ValueInjective(a: Bytes, b: Bytes)
    requires |a| == |b| && Value(a) == Value(b)
    ensures a == b
  {
    CompareByValue(a, b);
  }

  predicate AllOnes(s: Bytes)
  {
    forall i :: 0 <= i < |s| ==> s[i] == 0xff
  }

  /** Only the all-0xff string reaches the top value 256^n - 1. */
  lemma {:induction false} NotAllOnesBound(s: Bytes)
    requires !AllOnes(s)
    ensures Value(s) + 1 < Pow256(|s|)
  {
    var p, x := s[..|s| - 1], s[|s| - 1];
    if x == 0xff {
      var i :| 0 <= i < |s| && s[i] != 0xff;
      assert p[i] != 0xff;
      NotAllOnesBound(p);
      MulLe(Value(p) + 2, Pow256(|p|), 256);
    } else {
      ValueBound(p);
      MulLe(Value(p) + 1, Pow256(|p|), 256);
    }
  }

  // ---------------------------------------------------------------------
  // nextIP
  // ---------------------------------------------------------------------

  /** Increment with carry from the last byte; every byte wraps like a Go byte. */
  function Succ(s: Bytes): (r: Bytes)
    ensures |r| == |s|
  {
    if s == [] then []
    else if s[|s| - 1] == 0xff then Succ(s[..|s| - 1]) + [0]
    else s[..|s| - 1] + [s[|s| - 1] + 1]
  }

  lemma NoCarry(v: nat, x: nat, m: nat)
    requires v < m && x < 256
    ensures v * 256 + x < 256 * m
  {
    MulLe(v + 1, m, 256);
  }

  /** The successor is the value plus one, wrapping to zero past 256^n - 1. */
  lemma {:induction false} SuccValue(s: Bytes)
    ensures Value(Succ(s)) == if Value(s) + 1 < Pow256(|s|) then Value(s) + 1 else 0
  {
    if s != [] {
      var p, x := s[..|s| - 1], s[|s| - 1];
      ValueBound(p);
      if x == 0xff {
        SuccValue(p);
        ValueSnoc(Succ(p), 0);
        CarryStep(Value(p), Value(Succ(p)), Pow256(|p|));
      } else {
        ValueSnoc(p, x + 1);
        NoCarry(Value(p), x as nat + 1, Pow256(|p|));
      }
    }
  }

  /** A carry out of the last byte: the rest is incremented, the last byte is 0. */
  lemma CarryStep(v: nat, w: nat, m: nat)
    requires v < m
    requires w == if v + 1 < m then v + 1 else 0
    ensures w * 256 == if v * 256 + 256 < 256 * m then v * 256 + 256 else 0
  {
  }

  /**
   * nextIP: a fresh copy of the address, incremented in place from the last
   * byte down, stopping at the first byte that does not wrap to zero.
   */
  method NextIP(ip: Bytes) returns (next: Bytes)
    ensures next == Succ(ip)
    ensures Value(next) == if Value(ip) + 1 < Pow256(|ip|) then Value(ip) + 1 else 0
  {
    var buf := new bv8[|ip|](i requires 0 <= i < |ip| => ip[i]);
    var j := |ip| - 1;
    ghost var stop := -1;
    while j >= 0
      invariant -1 <= j < |ip|
      invariant forall k :: 0 <= k <= j ==> buf[k] == ip[k]
      invariant forall k :: j < k < |ip| ==> buf[k] == 0 && ip[k] == 0xff
      decreases j
    {
      buf[j] := buf[j] + 1;
      if buf[j] > 0 {
        stop := j;
        break;
      }
      j := j - 1;
    }
    next := buf[..];
    CarryResult(ip, next, stop);
    SuccValue(ip);
  }

  /** The bytes the carry loop leaves behind, stopped at position `stop`, are Succ(ip). */
  lemma CarryResult(ip: Bytes, t: Bytes, stop: int)
    requires |t| == |ip| && -1 <= stop < |ip|
    requires forall k :: 0 <= k < stop ==> t[k] == ip[k]
    requires stop >= 0 ==> ip[stop] != 0xff && t[stop] == ip[stop] + 1
    requires forall k :: stop < k < |ip| ==> t[k] == 0 && ip[k] == 0xff
    ensures t == Succ(ip)
  {
    SuccShape(ip, stop);
  }

  function Zeros(n: nat): (z: Bytes)
    ensures |z| == n && forall i :: 0 <= i < n ==> z[i] == 0
  {
    seq(n, _ => 0)
  }

  /**
   * Succ in closed form: the trailing 0xff bytes after position j become 0
   * and the byte at j goes up by one; with no such byte, all become 0.
   */
  lemma {:induction false} SuccShape(s: Bytes, j: int)
    requires -1 <= j < |s|
    requires forall k :: j < k < |s| ==> s[k] == 0xff
    requires j >= 0 ==> s[j] != 0xff
    ensures j >= 0 ==> Succ(s) == s[..j] + [s[j] + 1] + Zeros(|s| - j - 1)
    ensures j < 0 ==> Succ(s) == Zeros(|s|)
  {
    if s != [] && j < |s| - 1 {
      var p := s[..|s| - 1];
      SuccShape(p, j);
      if j >= 0 {
        assert p[..j] == s[..j];
        assert Zeros(|s| - j - 1) == Zeros(|p| - j - 1) + [0];
      } else {
        assert Zeros(|s|) == Zeros(|p|) + [0];
      }
    }
  }

  // ---------------------------------------------------------------------
  // The range and its enumeration
  // ---------------------------------------------------------------------

  datatype IpRange = IpRange(start: Bytes, end: Bytes)

  /** ipRange.contains: start <= ip <= end in bytes.Compare order. */
  predicate Contains(r: IpRange, ip: Bytes)
  {
    Compare(ip, r.start) >= 0 && Compare(ip, r.end) <= 0
  }

  /** On addresses of one length, containment is a numeric interval test. */
  lemma ContainsByValue(r: IpRange, ip: Bytes)
    requires |ip| == |r.start| == |r.end|
    ensures Contains(r, ip) <==> Value(r.start) <= Value(ip) <= Value(r.end)
  {
    CompareByValue(ip, r.start);
    CompareByValue(ip, r.end);
  }

  /** The number of addresses from start to end, both included. */
  function Span(r: IpRange): nat
  {
    if Value(r.start) <= Value(r.end) then Value(r.end) - Value(r.start) + 1 else 0
  }

  /**
   * ipRange.List: every address from start to end in increasing order.
   * The source loops forever when the addresses are empty or when the end is
   * the all-0xff address; those inputs are excluded.
   */
  method List(r: IpRange) returns (ips: seq<Bytes>)
    requires |r.start| == |r.end| && !AllOnes(r.end)
    ensures |ips| == Span(r) && Counts(r, ips)
    ensures forall k :: 0 <= k < |ips| ==> Contains(r, ips[k])
    ensures forall i, j :: 0 <= i < j < |ips| ==> Compare(ips[i], ips[j]) < 0
    ensures |ips| > 0 ==> ips[0] == r.start && ips[|ips| - 1] == r.end
  {
    NotAllOnesBound(r.end);
    ips := [];
    var ip := r.start;
    while Contains(r, ip)
      invariant |ip| == |r.start|
      invariant Value(ip) == Value(r.start) + |ips|
      invariant Counts(r, ips)
      invariant |ips| > 0 ==> Value(ip) <= Value(r.end) + 1
      decreases Value(r.end) + 1 - Value(ip)
    {
      ips := ips + [ip];
      var prev := ip;
      ip := NextIP(ip);
      ListStep(r, prev, ip);
    }
    ListExit(r, ip, |ips|);
    EnumerationFacts(r, ips);
  }

  /** Inside the range, and below the top address, the successor adds one. */
  lemma ListStep(r: IpRange, ip: Bytes, next: Bytes)
    requires |ip| == |r.start| == |r.end| && Contains(r, ip)
    requires Value(r.end) + 1 < Pow256(|r.end|)
    requires Value(next) == if Value(ip) + 1 < Pow256(|ip|) then Value(ip) + 1 else 0
    ensures Value(r.start) <= Value(ip) <= Value(r.end) && Value(next) == Value(ip) + 1
  {
    ContainsByValue(r, ip);
  }

  /** Leaving the range after n steps from start means n is its span. */
  lemma ListExit(r: IpRange, ip: Bytes, n: nat)
    requires |ip| == |r.start| == |r.end| && !Contains(r, ip)
    requires Value(ip) == Value(r.start) + n && (n > 0 ==> Value(ip) <= Value(r.end) + 1)
    ensures n == Span(r)
  {
    ContainsByValue(r, ip);
  }

  /** Position k of the listing holds the address start + k. */
  ghost predicate Counts(r: IpRange, ips: seq<Bytes>)
  {
    forall k :: 0 <= k < |ips| ==> |ips[k]| == |r.start| && Value(ips[k]) == Value(r.start) + k
  }

  /**
   * A listing that counts up from start through Span(r) positions lies in
   * the range, is strictly increasing and runs from start to end.
   */
  lemma EnumerationFacts(r: IpRange, ips: seq<Bytes>)
    requires |r.start| == |r.end| && |ips| == Span(r) && Counts(r, ips)
    ensures forall k :: 0 <= k < |ips| ==> Contains(r, ips[k])
    ensures forall i, j :: 0 <= i < j < |ips| ==> Compare(ips[i], ips[j]) < 0
    ensures |ips| > 0 ==> ips[0] == r.start && ips[|ips| - 1] == r.end
  {
    forall k | 0 <= k < |ips|
      ensures Contains(r, ips[k])
    {
      ContainsByValue(r, ips[k]);
    }
    forall i, j | 0 <= i < j < |ips|
      ensures Compare(ips[i], ips[j]) < 0
    {
      CompareByValue(ips[i], ips[j]);
    }
    if |ips| > 0 {
      ValueInjective(ips[0], r.start);
      ValueInjective(ips[|ips| - 1], r.end);
    }
  }

  // ---------------------------------------------------------------------
  // Parsing
  // ---------------------------------------------------------------------

  const RangeChars := "0123456789abcdef.:-"
  const AddressChars := "0123456789abcdef.:"
  const Digits := "0123456789"

  predicate AllIn(s: string, cs: string)
  {
    forall i :: 0 <= i < |s| ==> s[i] in cs
  }

  /** reRange, ^[0-9a-f.:-]+$: an address or addr-addr. */
  predicate RangeSyntax(s: string)
  {
    |s| > 0 && AllIn(s, RangeChars)
  }

  /** The first position of c in s (strings.IndexByte). */
  function IndexOf(s: string, c: char): (r: Option<nat>)
    ensures r.Some? ==> r.value < |s| && s[r.value] == c && c !in s[..r.value]
    ensures r.None? ==> c !in s
  {
    if s == [] then None
    else if s[0] == c then Some(0)
    else
      match IndexOf(s[1..], c)
      case None => None
      case Some(k) =>
        assert s[..k + 1] == [s[0]] + s[1..][..k];
        Some(k + 1)
  }

  /**
   * reCIDR, ^[0-9a-f.:]+/[0-9]{1,3}$. The address class has no '/', so the
   * slash of any match is the first one in the string.
   */
  predicate CidrSyntax(s: string)
  {
    match IndexOf(s, '/')
    case None => false
    case Some(k) =>
      k > 0 && AllIn(s[..k], AddressChars) && 1 <= |s| - (k + 1) <= 3 && AllIn(s[k + 1..], Digits)
  }

  /**
   * parseRange: split at the first '-' and parse both halves with net.ParseIP
   * (a parameter: it yields the 16-byte form, or the empty string on bad
   * text). It never fails.
   */
  function ParseRange(s: string, parseIP: string -> Bytes): (r: IpRange)
    ensures '-' !in s ==> r.start == r.end == parseIP(s)
    ensures '-' in s ==>
      exists k :: (0 <= k < |s| && s[k] == '-' && '-' !in s[..k] &&
        r == IpRange(parseIP(s[..k]), parseIP(s[k + 1..])))
  {
    match IndexOf(s, '-')
    case Some(idx) => IpRange(parseIP(s[..idx]), parseIP(s[idx + 1..]))
    case None => IpRange(parseIP(s), parseIP(s))
  }

  /**
   * As written, parseRange keeps a half that net.ParseIP rejects as the empty
   * address, and Parse returns that range, since a struct value is never nil.
   * "abc" matches the range pattern and is no address: its range starts at
   * the empty address, which every range contains and whose successor is
   * itself, so the listing loop never ends.
   */
  lemma UnparsableRangeNeverEnds(parseIP: string -> Bytes)
    requires parseIP("abc") == []
    ensures RangeSyntax("abc")
    ensures var r := ParseRange("abc", parseIP);
      r.start == [] && Contains(r, r.start) && Succ(r.start) == r.start
  {
    assert IndexOf("abc", '-') == None;
    assert forall i :: 0 <= i < |"abc"| ==> "abc"[i] in RangeChars;
  }

  /**
   * parseRange as evidently intended: a half that net.ParseIP rejects makes
   * the text invalid, as a bad CIDR block already does.
   */
  function ParseRangeChecked(s: string, parseIP: string -> Bytes): (r: Option<IpRange>)
    ensures r.None? <==> ParseRange(s, parseIP).start == [] || ParseRange(s, parseIP).end == []
    ensures r.Some? ==> r.value == ParseRange(s, parseIP) && r.value.start != [] && r.value.end != []
  {
    var range := ParseRange(s, parseIP);
    if range.start == [] || range.end == [] then None else Some(range)
  }

  /**
   * With net.ParseIP giving the 16-byte form or nothing, a checked range
   * has two non-empty addresses of one length, so its listing loop runs from
   * a real address.
   */
  lemma CheckedRangeListable(s: string, parseIP: string -> Bytes)
    requires forall t :: |parseIP(t)| == 0 || |parseIP(t)| == 16
    requires ParseRangeChecked(s, parseIP).Some?
    ensures var r := ParseRangeChecked(s, parseIP).value;
      |r.start| == |r.end| == 16 && !Contains(r, [])
  {
    var r := ParseRangeChecked(s, parseIP).value;
    assert |parseIP(s)| == 0 || |parseIP(s)| == 16;
    if '-' in s {
      var k :| 0 <= k < |s| && s[k] == '-' && '-' !in s[..k] &&
        r == IpRange(parseIP(s[..k]), parseIP(s[k + 1..]));
      assert |parseIP(s[..k])| == 0 || |parseIP(s[..k])| == 16;
      assert |parseIP(s[k + 1..])| == 0 || |parseIP(s[k + 1..])| == 16;
    }
  }

  /**
   * The text of "addr/len" as net.ParseCIDR reads it: the address bytes (4
   * for IPv4, 16 for IPv6) and the prefix length.
   */
  datatype CidrText = CidrText(addr: Bytes, prefixLen: nat)

  /**
   * One byte of net.CIDRMask when `ones` mask bits remain: all ones from 8
   * on, none from 0 down, ^(0xff >> ones) in between (written out).
   */
  function MaskByte(ones: int): bv8
  {
    if ones >= 8 then 0xff
    else if ones <= 0 then 0
    else if ones == 1 then 0x80
    else if ones == 2 then 0xc0
    else if ones == 3 then 0xe0
    else if ones == 4 then 0xf0
    else if ones == 5 then 0xf8
    else if ones == 6 then 0xfc
    else 0xfe
  }

  /** net.CIDRMask(ones, 8 * len). */
  function CidrMask(ones: nat, len: nat): (m: Bytes)
    ensures |m| == len
  {
    seq(len, i => MaskByte(ones - 8 * i))
  }

  /** One byte of IP.Mask: the host bits cleared. */
  function MaskedByte(b: bv8, m: bv8): bv8
  {
    b & m
  }

  /** One byte of a block's last address: the host bits set. */
  function HostFilled(b: bv8, m: bv8): bv8
  {
    b | !m
  }

  /** IP.Mask: the network address, host bits cleared. */
  function Network(addr: Bytes, mask: Bytes): (n: Bytes)
    requires |mask| == |addr|
    ensures |n| == |addr|
  {
    seq(|addr|, i requires 0 <= i < |addr| => MaskedByte(addr[i], mask[i]))
  }

  /** The last address of a block: network | ^mask, byte by byte. */
  function BlockEnd(network: Bytes, mask: Bytes): (e: Bytes)
    requires |mask| == |network|
    ensures |e| == |network|
  {
    seq(|network|, i requires 0 <= i < |network| => HostFilled(network[i], mask[i]))
  }

  const V4InV6Prefix: Bytes := [0, 0, 0, 0, 0, 0, 0, 0, 0, 0, 0xff, 0xff]

  /** net.ParseIP(ip.String()): the 16-byte form of a 4- or 16-byte address. */
  function To16(ip: Bytes): (r: Bytes)
    ensures |ip| == 4 ==> |r| == 16
    ensures |ip| != 4 ==> r == ip
  {
    if |ip| == 4 then V4InV6Prefix + ip else ip
  }

  lemma To16Span(a: Bytes, b: Bytes)
    requires |a| == |b|
    ensures |To16(a)| == |To16(b)|
    ensures Value(To16(b)) - Value(To16(a)) == Value(b) - Value(a)
  {
    if |a| == 4 {
      ValueConcat(V4InV6Prefix, a);
      ValueConcat(V4InV6Prefix, b);
    }
  }

  /** Setting the bits of ^k in a byte whose ^k bits are clear adds ^k. */
  lemma HostBits(a: bv8, k: bv8)
    ensures HostFilled(MaskedByte(a, k), k) as int == MaskedByte(a, k) as int + (!k) as int
  {
  }

  /** The host part of one mask byte: 2^(8 - ones) - 1, or 0 once 8 bits remain. */
  lemma HostCount(ones: int)
    ensures (!MaskByte(ones)) as int == if ones >= 8 then 0 else if ones <= 0 then 255 else Pow2(8 - ones) - 1
  {
    if ones >= 8 {
    } else if ones <= 0 {
    } else if ones == 1 {
      assert Pow2(7) == 128;
    } else if ones == 2 {
      assert Pow2(6) == 64;
    } else if ones == 3 {
      assert Pow2(5) == 32;
    } else if ones == 4 {
      assert Pow2(4) == 16;
    } else if ones == 5 {
      assert Pow2(3) == 8;
    } else if ones == 6 {
      assert Pow2(2) == 4;
    } else {
      assert Pow2(1) == 2;
    }
  }

  /** The host bits of a mask: ^mask, byte by byte. */
  function HostMask(ones: nat, len: nat): (h: Bytes)
    ensures |h| == len
  {
    seq(len, i => !MaskByte(ones - 8 * i))
  }

  /** The host bits of a mask, read as a number, are 2^(host bits) - 1. */
  lemma {:induction false} HostMaskValue(ones: nat, len: nat)
    ensures Value(HostMask(ones, len)) == Pow2(HostBitCount(ones, len)) - 1
  {
    if len > 0 {
      var h := HostMask(ones, len);
      assert h[..len - 1] == HostMask(ones, len - 1);
      HostMaskValue(ones, len - 1);
      var k := ones - 8 * (len - 1);
      HostCount(k);
      HostStep(ones, len, Value(HostMask(ones, len - 1)), h[len - 1] as int);
    }
  }

  /** The number of host bits of a mask of len bytes with `ones` prefix bits. */
  function HostBitCount(ones: nat, len: nat): nat
  {
    if ones >= 8 * len then 0 else 8 * len - ones
  }

  /** One more mask byte: the host bits so far shift left by 8 and take in its host bits. */
  lemma HostStep(ones: nat, len: nat, prev: int, last: int)
    requires len > 0
    requires prev == Pow2(HostBitCount(ones, len - 1)) - 1
    requires var k := ones - 8 * (len - 1);
      last == if k >= 8 then 0 else if k <= 0 then 255 else Pow2(8 - k) - 1
    ensures prev * 256 + last == Pow2(HostBitCount(ones, len)) - 1
  {
    assert Pow2(8) == 256;
    if ones >= 8 * len {
    } else if ones >= 8 * (len - 1) {
      assert HostBitCount(ones, len) == 8 - (ones - 8 * (len - 1));
    } else {
      Pow2Add(8 * (len - 1) - ones, 8);
      assert HostBitCount(ones, len) == (8 * (len - 1) - ones) + 8;
    }
  }

  /** Values add up when the bytes add up without carries. */
  lemma {:induction false} ValueAdd(n: Bytes, d: Bytes, e: Bytes)
    requires |n| == |d| == |e|
    requires forall i :: 0 <= i < |e| ==> e[i] as int == n[i] as int + d[i] as int
    ensures Value(e) == Value(n) + Value(d)
  {
    if e != [] {
      var k := |e| - 1;
      ValueAdd(n[..k], d[..k], e[..k]);
    }
  }

  /** A block with `ones` prefix bits spans 2^(host bits) addresses. */
  lemma BlockSpan(addr: Bytes, ones: nat)
    requires ones <= 8 * |addr|
    ensures var m := CidrMask(ones, |addr|);
      Value(BlockEnd(Network(addr, m), m)) == Value(Network(addr, m)) + Pow2(8 * |addr| - ones) - 1
  {
    var m := CidrMask(ones, |addr|);
    var n := Network(addr, m);
    var e := BlockEnd(n, m);
    var h := HostMask(ones, |addr|);
    forall i | 0 <= i < |addr|
      ensures e[i] as int == n[i] as int + h[i] as int
    {
      HostBits(addr[i], m[i]);
    }
    ValueAdd(n, h, e);
    HostMaskValue(ones, |addr|);
    assert HostBitCount(ones, |addr|) == 8 * |addr| - ones;
  }

  /**
   * The range of a CIDR block: its network address and the address with
   * every host bit set, both in 16-byte form.
   */
  function CidrRange(c: CidrText): IpRange
  {
    var mask := CidrMask(c.prefixLen, |c.addr|);
    IpRange(To16(Network(c.addr, mask)), To16(BlockEnd(Network(c.addr, mask), mask)))
  }

  /**
   * parseCIDR: the block's network address and its last address, built by a
   * loop over the mask bytes, both given back in 16-byte form (the source
   * formats them as text and parses them again with net.ParseIP). The text
   * parse and its prefix-length check are those of net.ParseCIDR.
   */
  method ParseCIDR(s: string, parseCidr: string -> Option<CidrText>) returns (r: Option<IpRange>)
    ensures r.None? <==> parseCidr(s).None? || parseCidr(s).value.prefixLen > 8 * |parseCidr(s).value.addr|
    ensures r.Some? ==> r.value == CidrRange(parseCidr(s).value)
    ensures r.Some? ==>
      var c := parseCidr(s).value;
      var m := CidrMask(c.prefixLen, |c.addr|);
      r.value == IpRange(To16(Network(c.addr, m)), To16(BlockEnd(Network(c.addr, m), m)))
    ensures r.Some? ==>
      var c := parseCidr(s).value;
      |r.value.start| == |r.value.end| &&
      Value(r.value.end) == Value(r.value.start) + Pow2(8 * |c.addr| - c.prefixLen) - 1
  {
    var parsed := parseCidr(s);
    if parsed.None? || parsed.value.prefixLen > 8 * |parsed.value.addr| {
      return None;
    }
    var c := parsed.value;
    var mask := CidrMask(c.prefixLen, |c.addr|);
    var network := Network(c.addr, mask);
    var lastIP: Bytes := [];
    var i := 0;
    while i < |network|
      invariant 0 <= i <= |network|
      invariant |lastIP| == i
      invariant forall k :: 0 <= k < i ==> lastIP[k] == HostFilled(network[k], mask[k])
    {
      lastIP := lastIP + [HostFilled(network[i], mask[i])];
      i := i + 1;
    }
    assert lastIP == BlockEnd(network, mask);
    BlockSpan(c.addr, c.prefixLen);
    To16Span(network, lastIP);
    r := Some(IpRange(To16(network), To16(lastIP)));
  }

  /**
   * Parse: "addr" and "addr-addr" go to parseRange, "addr/len" to parseCIDR;
   * anything else is invalid syntax. A range-syntax string is never invalid,
   * even when its addresses do not parse (see UnparsableRangeNeverEnds).
   */
  method Parse(s: string, parseIP: string -> Bytes, parseCidr: string -> Option<CidrText>)
    returns (r: Option<IpRange>)
    ensures RangeSyntax(s) ==> r == Some(ParseRange(s, parseIP))
    ensures r.None? <==>
      !RangeSyntax(s) &&
      (!CidrSyntax(s) || parseCidr(s).None? || parseCidr(s).value.prefixLen > 8 * |parseCidr(s).value.addr|)
    ensures !RangeSyntax(s) && r.Some? ==> r.value == CidrRange(parseCidr(s).value)
    ensures !RangeSyntax(s) && r.Some? ==>
      var c := parseCidr(s).value;
      Value(r.value.end) == Value(r.value.start) + Pow2(8 * |c.addr| - c.prefixLen) - 1
  {
    if RangeSyntax(s) {
      r := Some(ParseRange(s, parseIP));
    } else if CidrSyntax(s) {
      r := ParseCIDR(s, parseCidr);
    } else {
      r := None;
    }
  }

  /**
   * Parse as evidently intended: a range-syntax string whose addresses do
   * not parse is invalid syntax too; CIDR blocks are handled as before.
   */
  method ParseChecked(s: string, parseIP: string -> Bytes, parseCidr: string -> Option<CidrText>)
    returns (r: Option<IpRange>)
    ensures RangeSyntax(s) ==> r == ParseRangeChecked(s, parseIP)
    ensures RangeSyntax(s) && r.Some? ==> r.value.start != [] && r.value.end != []
    ensures r.None? <==>
      if RangeSyntax(s) then ParseRange(s, parseIP).start == [] || ParseRange(s, parseIP).end == []
      else !CidrSyntax(s) || parseCidr(s).None? || parseCidr(s).value.prefixLen > 8 * |parseCidr(s).value.addr|
    ensures !RangeSyntax(s) && r.Some? ==> r.value == CidrRange(parseCidr(s).value)
    ensures !RangeSyntax(s) && r.Some? ==>
      var c := parseCidr(s).value;
      Value(r.value.end) == Value(r.value.start) + Pow2(8 * |c.addr| - c.prefixLen) - 1
  {
    if RangeSyntax(s) {
      r := ParseRangeChecked(s, parseIP);
    } else {
      r := Parse(s, parseIP, parseCidr);
    }
  }

  /** The two patterns never both match: the range class has no '/'. */
  lemma SyntaxesDisjoint(s: string)
    ensures !(RangeSyntax(s) && CidrSyntax(s))
  {
    if CidrSyntax(s) {
      var k := IndexOf(s, '/').value;
      assert s[k] == '/' && s[k] !in RangeChars;
    }
  }

  /** "192.168.240.249/29": host bits are ignored, the block is .248 to .255. */
  lemma CidrExample()
    ensures var m := CidrMask(29, 4);
      Network([192, 168, 240, 249], m) == [192, 168, 240, 248] &&
      BlockEnd(Network([192, 168, 240, 249], m), m) == [192, 168, 240, 255]
    ensures CidrRange(CidrText([192, 168, 240, 249], 29))
              == IpRange(To16([192, 168, 240, 248]), To16([192, 168, 240, 255]))
  {
    var m := CidrMask(29, 4);
    assert m == [0xff, 0xff, 0xff, 0xf8];
  }
}
