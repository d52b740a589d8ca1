/**
 * Text helpers used by the VirtinkMachine controller: standard base64 (section 4
 * of RFC 4648, with '=' padding) for cloud-init user data, the colon-separated
 * hexadecimal form of a MAC address, and the "$IP_ADDRESS" / "$MAC_ADDRESS"
 * placeholder replacer applied to machine annotations.
 */
module Text {
  import opened Wrappers

  newtype Byte = x: int | 0 <= x < 256

  // ---------------------------------------------------------------------------
  // Base64, standard alphabet with padding

  /** The base64 symbol for a six-bit group. */
  function Symbol(i: int): (c: char)
    requires 0 <= i < 64
  {
    if i < 26 then ('A' as int + i) as char
    else if i < 52 then ('a' as int + (i - 26)) as char
    else if i < 62 then ('0' as int + (i - 52)) as char
    else if i == 62 then '+'
    else '/'
  }

  /** The six-bit group a base64 symbol stands for; -1 for any other character. */
  function SymbolIndex(c: char): (i: int)
    ensures -1 <= i < 64
  {
    if 'A' <= c <= 'Z' then c as int - 'A' as int
    else if 'a' <= c <= 'z' then c as int - 'a' as int + 26
    else if '0' <= c <= '9' then c as int - '0' as int + 52
    else if c == '+' then 62
    else if c == '/' then 63
    else -1
  }

  lemma SymbolInverse(i: int)
    requires 0 <= i < 64
    ensures SymbolIndex(Symbol(i)) == i && Symbol(i) != '='
  {
  }

  /** Three bytes as four symbols. */
  function EncodeBlock(a: Byte, b: Byte, c: Byte): string
  {
    var x, y, z := a as int, b as int, c as int;
    [Symbol(x / 4), Symbol((x % 4) * 16 + y / 16), Symbol((y % 16) * 4 + z / 64), Symbol(z % 64)]
  }

  /** The last, padded group for one or two remaining bytes. */
  function EncodeTail(d: seq<Byte>): string
    requires |d| < 3
  {
    if |d| == 0 then ""
    else if |d| == 1 then
      var x := d[0] as int;
      [Symbol(x / 4), Symbol((x % 4) * 16), '=', '=']
    else
      var x, y := d[0] as int, d[1] as int;
      [Symbol(x / 4), Symbol((x % 4) * 16 + y / 16), Symbol((y % 16) * 4), '=']
  }

  /** Base64 text of a byte string: whole blocks, then a padded final group. */
  function Encode(d: seq<Byte>): string
    decreases |d|
  {
    if |d| < 3 then EncodeTail(d)
    else EncodeBlock(d[0], d[1], d[2]) + Encode(d[3..])
  }

  /** One group of four characters; padding yields one or two bytes. */
  function DecodeQuad(q: string): (r: Option<seq<Byte>>)
    requires |q| == 4
    ensures r.Some? ==> 1 <= |r.value| <= 3
  {
    var i0, i1, i2, i3 := SymbolIndex(q[0]), SymbolIndex(q[1]), SymbolIndex(q[2]), SymbolIndex(q[3]);
    if i0 < 0 || i1 < 0 then None
    else if q[2] == '=' && q[3] == '=' then
      if i1 % 16 != 0 then None
      else Some([(i0 * 4 + i1 / 16) as Byte])
    else if i2 < 0 then None
    else if q[3] == '=' then
      if i2 % 4 != 0 then None
      else Some([(i0 * 4 + i1 / 16) as Byte, ((i1 % 16) * 16 + i2 / 4) as Byte])
    else if i3 < 0 then None
    else Some([(i0 * 4 + i1 / 16) as Byte, ((i1 % 16) * 16 + i2 / 4) as Byte, ((i2 % 4) * 64 + i3) as Byte])
  }

  /** Inverse of Encode: None for text that is not canonical padded base64. */
  function Decode(s: string): Option<seq<Byte>>
    decreases |s|
  {
    if s == [] then Some([])
    else if |s| < 4 then None
    else match DecodeQuad(s[..4])
      case None => None
      case Some(h) =>
        if |s| > 4 && |h| < 3 then None
        else match Decode(s[4..])
          case None => None
          case Some(t) => Some(h + t)
  }

  /** The four six-bit groups of three bytes put back together. */
  lemma BlockArith(x: int, y: int, z: int)
    requires 0 <= x < 256 && 0 <= y < 256 && 0 <= z < 256
    ensures var c1, c2 := (x % 4) * 16 + y / 16, (y % 16) * 4 + z / 64;
      0 <= c1 < 64 && 0 <= c2 < 64 &&
      (x / 4) * 4 + c1 / 16 == x && (c1 % 16) * 16 + c2 / 4 == y && (c2 % 4) * 64 + z % 64 == z
  {
  }

  lemma BlockRoundTrip(a: Byte, b: Byte, c: Byte)
    ensures DecodeQuad(EncodeBlock(a, b, c)) == Some([a, b, c])
  {
    var x, y, z := a as int, b as int, c as int;
    var c0, c1, c2, c3 := x / 4, (x % 4) * 16 + y / 16, (y % 16) * 4 + z / 64, z % 64;
    BlockArith(x, y, z);
    SymbolInverse(c0);
    SymbolInverse(c1);
    SymbolInverse(c2);
    SymbolInverse(c3);
    var q := EncodeBlock(a, b, c);
    assert q == [Symbol(c0), Symbol(c1), Symbol(c2), Symbol(c3)];
    assert DecodeQuad(q) == Some([(c0 * 4 + c1 / 16) as Byte, ((c1 % 16) * 16 + c2 / 4) as Byte, ((c2 % 4) * 64 + c3) as Byte]);
  }

  /** A final block of one byte: two symbols and two '=' signs. */
  lemma TailOneRoundTrip(d: seq<Byte>)
    requires |d| == 1
    ensures Decode(Encode(d)) == Some(d) && |Encode(d)| == 4
  {
    var x := d[0] as int;
    var s := Encode(d);
    SymbolInverse(x / 4);
    SymbolInverse((x % 4) * 16);
    assert s[..4] == s && s[4..] == [];
    assert ((x % 4) * 16) % 16 == 0 && ((x % 4) * 16) / 16 == x % 4;
    assert DecodeQuad(s) == Some([x as Byte]);
    assert Decode(s) == Some([x as Byte] + []);
    assert [x as Byte] + [] == d;
  }

  /** A final block of two bytes: three symbols and one '=' sign. */
  lemma TailTwoRoundTrip(d: seq<Byte>)
    requires |d| == 2
    ensures Decode(Encode(d)) == Some(d) && |Encode(d)| == 4
  {
    var x, y := d[0] as int, d[1] as int;
    var s := Encode(d);
    SymbolInverse(x / 4);
    SymbolInverse((x % 4) * 16 + y / 16);
    SymbolInverse((y % 16) * 4);
    assert s[..4] == s && s[4..] == [];
    assert ((y % 16) * 4) % 4 == 0 && ((y % 16) * 4) / 4 == y % 16;
    assert DecodeQuad(s) == Some([x as Byte, y as Byte]);
    assert Decode(s) == Some([x as Byte, y as Byte] + []);
    assert [x as Byte, y as Byte] + [] == d;
  }

  /** A full group in front of decodable text decodes to its three bytes in front. */
  lemma DecodeFullGroup(s: string, q: string, t: string, h: seq<Byte>, u: seq<Byte>)
    requires s == q + t
    requires |q| == 4 && DecodeQuad(q) == Some(h) && |h| == 3 && Decode(t) == Some(u)
    ensures Decode(s) == Some(h + u)
  {
    assert s[..4] == q && s[4..] == t;
  }

  lemma SplitBlock(d: seq<Byte>)
    requires |d| >= 3
    ensures [d[0], d[1], d[2]] + d[3..] == d
  {
  }

  /** A block of three bytes in front of encodable data. */
  lemma BlockStep(d: seq<Byte>)
    requires |d| >= 3 && Decode(Encode(d[3..])) == Some(d[3..])
    ensures Decode(Encode(d)) == Some(d)
  {
    var q, t := EncodeBlock(d[0], d[1], d[2]), Encode(d[3..]);
    var h := [d[0], d[1], d[2]];
    SplitBlock(d);
    BlockRoundTrip(d[0], d[1], d[2]);
    DecodeFullGroup(Encode(d), q, t, h, d[3..]);
  }

  /** Decoding the encoding gives back the bytes. */
  lemma {:induction false} EncodeRoundTrip(d: seq<Byte>)
    ensures Decode(Encode(d)) == Some(d)
    decreases |d|
  {
    if |d| == 1 {
      TailOneRoundTrip(d);
    } else if |d| == 2 {
      TailTwoRoundTrip(d);
    } else if |d| >= 3 {
      EncodeRoundTrip(d[3..]);
      BlockStep(d);
    }
  }

  /** Four characters per started block of three bytes. */
  lemma {:induction false} EncodeLength(d: seq<Byte>)
    ensures |Encode(d)| == 4 * ((|d| + 2) / 3)
    decreases |d|
  {
    if |d| >= 3 {
      EncodeLength(d[3..]);
      var n := |d[3..]|;
      assert |d| + 2 == (n + 2) + 3;
      assert (|d| + 2) / 3 == (n + 2) / 3 + 1;
    }
  }

  /** Encoding is injective: different user data never share a base64 text. */
  lemma EncodeInjective(d: seq<Byte>, e: seq<Byte>)
    requires Encode(d) == Encode(e)
    ensures d == e
  {
    EncodeRoundTrip(d);
    EncodeRoundTrip(e);
  }

  // ---------------------------------------------------------------------------
  // MAC addresses

  const HexDigits: string := "0123456789abcdef"

  /** The locally administered prefix every generated MAC address starts with. */
  const MacPrefix: seq<Byte> := [0x52, 0x54, 0x00]

  function HexByte(b: Byte): string
  {
    [HexDigits[b as int / 16], HexDigits[b as int % 16]]
  }

  /** Two lower-case hexadecimal digits per byte, separated by ':'. */
  function MacText(a: seq<Byte>): string
  {
    if a == [] then ""
    else if |a| == 1 then HexByte(a[0])
    else HexByte(a[0]) + ":" + MacText(a[1..])
  }

  /**
   * A MAC address made of the fixed prefix and three random bytes; `random`
   * is the outcome of reading three random bytes, None when that read fails.
   */
  function GenerateMac(random: Option<seq<Byte>>): (r: Result<seq<Byte>, string>)
    requires random.Some? ==> |random.value| == 3
    ensures r.Ok? <==> random.Some?
    ensures r.Ok? ==> |r.value| == 6 && r.value[..3] == MacPrefix && r.value[3..] == random.value
    ensures r.Err? ==> r.error == "rand"
  {
    match random
      case None => Err("rand")
      case Some(suffix) => Ok(MacPrefix + suffix)
  }

  predicate MacChar(c: char)
  {
    '0' <= c <= '9' || 'a' <= c <= 'f' || c == ':'
  }

  /** Every character of a MAC text is a lower-case hexadecimal digit or ':'. */
  lemma {:induction false} MacTextChars(a: seq<Byte>)
    ensures forall i :: 0 <= i < |MacText(a)| ==> MacChar(MacText(a)[i])
  {
    if a != [] {
      var h := HexByte(a[0]);
      assert MacChar(h[0]) && MacChar(h[1]);
      if |a| > 1 {
        MacTextChars(a[1..]);
        var t := MacText(a[1..]);
        assert MacText(a) == h + ":" + t;
        forall i | 0 <= i < |MacText(a)|
          ensures MacChar(MacText(a)[i])
        {
          if i >= 3 { assert MacText(a)[i] == t[i - 3]; }
        }
      }
    }
  }

  /** Three characters per byte, less the one separator not written. */
  lemma {:induction false} MacTextLength(a: seq<Byte>)
    requires a != []
    ensures |MacText(a)| == 3 * |a| - 1
  {
    if |a| > 1 {
      MacTextLength(a[1..]);
    }
  }

  /** The printed form of an address behind the fixed prefix. */
  lemma MacTextCons(b: Byte, rest: seq<Byte>)
    requires rest != []
    ensures MacText([b] + rest) == HexByte(b) + ":" + MacText(rest)
  {
    assert ([b] + rest)[1..] == rest;
  }

  lemma PrefixDigits()
    ensures HexByte(0x52) == "52" && HexByte(0x54) == "54" && HexByte(0x00) == "00"
  {
  }

  lemma MacTextPrefix(r: seq<Byte>)
    requires r != []
    ensures MacText(MacPrefix + r) == "52:54:00:" + MacText(r)
  {
    assert MacPrefix + r == [0x52] + ([0x54] + ([0x00] + r));
    PrefixDigits();
    MacTextCons(0x00, r);
    MacTextCons(0x54, [0x00] + r);
    MacTextCons(0x52, [0x54] + ([0x00] + r));
  }

  /** Text made only of MAC characters is inert. */
  lemma MacCharsInert(t: string)
    requires t != [] && forall i :: 0 <= i < |t| ==> MacChar(t[i])
    ensures Inert(t)
  {
    forall i | 0 <= i < |t| ensures t[i] !in TokenChars {
      assert MacChar(t[i]);
    }
  }

  /** A generated address is printed as "52:54:00:" and three more hex pairs: 17 characters, none of them a placeholder character. */
  lemma GeneratedMacText(random: seq<Byte>)
    requires |random| == 3
    ensures GenerateMac(Some(random)).Ok?
    ensures var t := MacText(GenerateMac(Some(random)).value);
      |t| == 17 && t[..9] == "52:54:00:" && Inert(t)
  {
    var a := GenerateMac(Some(random)).value;
    var t := MacText(a);
    MacTextPrefix(random);
    MacTextLength(a);
    MacTextChars(a);
    MacCharsInert(t);
  }

  // ---------------------------------------------------------------------------
  // Placeholder replacement

  const IpToken: string := "$IP_ADDRESS"
  const MacToken: string := "$MAC_ADDRESS"

  /** Every character that occurs in a placeholder. */
  const TokenChars: string := "$IP_ADRESMC"

  predicate StartsWith(s: string, p: string)
  {
    |p| <= |s| && s[..|p|] == p
  }

  predicate AtToken(s: string)
  {
    StartsWith(s, IpToken) || StartsWith(s, MacToken)
  }

  /**
   * One left-to-right pass that replaces each placeholder occurrence by its
   * value; the text of a replacement is never rescanned.
   */
  function Replace(s: string, ip: string, mac: string): string
    decreases |s|
  {
    if s == [] then []
    else if StartsWith(s, IpToken) then ip + Replace(s[|IpToken|..], ip, mac)
    else if StartsWith(s, MacToken) then mac + Replace(s[|MacToken|..], ip, mac)
    else [s[0]] + Replace(s[1..], ip, mac)
  }

  /** No placeholder starts anywhere in the text. */
  predicate Clean(t: string)
  {
    forall i :: 0 <= i <= |t| ==> !AtToken(t[i..])
  }

  /** A replacement value that cannot form a placeholder: non-empty and none of its characters occurs in one. */
  predicate Inert(v: string)
  {
    v != [] && forall i :: 0 <= i < |v| ==> v[i] !in TokenChars
  }

  /** A text without placeholders is left as it is, whatever the values. */
  lemma {:induction false} ReplaceClean(t: string, ip: string, mac: string)
    requires Clean(t)
    ensures Replace(t, ip, mac) == t
    decreases |t|
  {
    if t != [] {
      assert t[0..] == t;
      forall i | 0 <= i <= |t[1..]| ensures !AtToken(t[1..][i..]) {
        assert t[1..][i..] == t[i + 1..];
      }
      ReplaceClean(t[1..], ip, mac);
      assert [t[0]] + t[1..] == t;
    }
  }

  /**
   * How a pass starts: a placeholder at the head is replaced by its value,
   * anything else is copied one character at a time.
   */
  lemma ReplaceHead(u: string, ip: string, mac: string) returns (v: string, n: nat)
    requires u != []
    ensures 1 <= n <= |u| && Replace(u, ip, mac) == v + Replace(u[n..], ip, mac)
    ensures StartsWith(u, IpToken) ==> v == ip
    ensures !StartsWith(u, IpToken) && StartsWith(u, MacToken) ==> v == mac
    ensures !AtToken(u) ==> v == [u[0]] && n == 1
  {
    if StartsWith(u, IpToken) {
      v, n := ip, |IpToken|;
    } else if StartsWith(u, MacToken) {
      v, n := mac, |MacToken|;
    } else {
      v, n := [u[0]], 1;
    }
  }

  /**
   * If the output of a pass begins with k placeholder characters, the input
   * began with the same k characters: inert values never start with one.
   */
  lemma {:induction false} TokenCharPrefix(u: string, ip: string, mac: string, k: nat)
    requires Inert(ip) && Inert(mac)
    requires k <= |Replace(u, ip, mac)|
    requires forall i :: 0 <= i < k ==> Replace(u, ip, mac)[i] in TokenChars
    ensures k <= |u| && u[..k] == Replace(u, ip, mac)[..k]
    decreases |u|
  {
    var o := Replace(u, ip, mac);
    if k > 0 && u != [] {
      var v, n := ReplaceHead(u, ip, mac);
      assert o[0] == v[0] && o[0] in TokenChars;
      assert !AtToken(u);
      var rest := Replace(u[1..], ip, mac);
      forall i | 0 <= i < k - 1 ensures rest[i] in TokenChars {
        assert rest[i] == o[i + 1];
      }
      TokenCharPrefix(u[1..], ip, mac, k - 1);
      assert u[..k] == [u[0]] + u[1..][..k - 1];
      assert o[..k] == [o[0]] + rest[..k - 1];
    }
  }

  /** A pass never outputs a placeholder at its very start. */
  lemma NoTokenAtStart(s: string, ip: string, mac: string)
    requires Inert(ip) && Inert(mac)
    ensures !AtToken(Replace(s, ip, mac))
  {
    var o := Replace(s, ip, mac);
    if AtToken(o) {
      var p := if StartsWith(o, IpToken) then IpToken else MacToken;
      forall j | 0 <= j < |p| ensures o[j] in TokenChars {
        assert o[j] == p[j];
      }
      TokenCharPrefix(s, ip, mac, |p|);
      var v, n := ReplaceHead(s, ip, mac);
      assert false;
    }
  }

  /** No placeholder starts inside an inert value. */
  lemma InertNoToken(v: string, rest: string, i: nat)
    requires Inert(v) && i < |v|
    ensures !AtToken((v + rest)[i..])
  {
    assert (v + rest)[i..][0] == v[i];
  }

  lemma SuffixOfConcat(v: string, rest: string, i: nat)
    requires |v| <= i <= |v| + |rest|
    ensures (v + rest)[i..] == rest[i - |v|..]
  {
  }

  /** No placeholder starts anywhere in a pass's output. */
  lemma {:induction false} NoTokenAfterReplace(s: string, ip: string, mac: string, i: nat)
    requires Inert(ip) && Inert(mac)
    requires i <= |Replace(s, ip, mac)|
    ensures !AtToken(Replace(s, ip, mac)[i..])
    decreases |s|
  {
    var o := Replace(s, ip, mac);
    if s == [] || i == 0 {
      NoTokenAtStart(s, ip, mac);
      assert o[i..] == o;
    } else {
      var v, n := ReplaceHead(s, ip, mac);
      var rest := Replace(s[n..], ip, mac);
      if i < |v| {
        InertNoToken(v, rest, i);
      } else {
        SuffixOfConcat(v, rest, i);
        NoTokenAfterReplace(s[n..], ip, mac, i - |v|);
      }
    }
  }

  /** After one pass with inert values no placeholder is left. */
  lemma ReplaceLeavesClean(s: string, ip: string, mac: string)
    requires Inert(ip) && Inert(mac)
    ensures Clean(Replace(s, ip, mac))
  {
    var o := Replace(s, ip, mac);
    forall i | 0 <= i <= |o| ensures !AtToken(o[i..]) {
      NoTokenAfterReplace(s, ip, mac, i);
    }
  }

  /** A second pass, with any values at all, changes nothing. */
  lemma ReplaceIdempotent(s: string, ip: string, mac: string, ip2: string, mac2: string)
    requires Inert(ip) && Inert(mac)
    ensures Replace(Replace(s, ip, mac), ip2, mac2) == Replace(s, ip, mac)
  {
    ReplaceLeavesClean(s, ip, mac);
    ReplaceClean(Replace(s, ip, mac), ip2, mac2);
  }

  /** Every annotation value with its placeholders replaced; the keys stay. */
  function ReplaceAll(m: map<string, string>, ip: string, mac: string): map<string, string>
  {
    map k | k in m :: Replace(m[k], ip, mac)
  }

  /** The annotation rewrite: one pass over the keys, each value rewritten once. */
  method ReplaceAnnotations(m: map<string, string>, ip: string, mac: string) returns (r: map<string, string>)
    ensures r.Keys == m.Keys
    ensures forall k :: k in m ==> r[k] == Replace(m[k], ip, mac)
    ensures r == ReplaceAll(m, ip, mac)
  {
    r := m;
    var todo := m.Keys;
    while todo != {}
      invariant todo <= m.Keys && r.Keys == m.Keys
      invariant forall k :: k in m && k !in todo ==> r[k] == Replace(m[k], ip, mac)
      invariant forall k :: k in todo ==> r[k] == m[k]
      decreases todo
    {
      var k :| k in todo;
      r := r[k := Replace(r[k], ip, mac)];
      todo := todo - {k};
    }
  }

  /** Running the annotation rewrite twice gives what one run gives. */
  lemma ReplaceAllIdempotent(m: map<string, string>, ip: string, mac: string, ip2: string, mac2: string)
    requires Inert(ip) && Inert(mac)
    ensures ReplaceAll(ReplaceAll(m, ip, mac), ip2, mac2) == ReplaceAll(m, ip, mac)
  {
    forall k | k in m ensures Replace(Replace(m[k], ip, mac), ip2, mac2) == Replace(m[k], ip, mac) {
      ReplaceIdempotent(m[k], ip, mac, ip2, mac2);
    }
  }
}
