/**
 * `mac_ntoa`: the textual form of an Ethernet address, six upper-case
 * two-digit hexadecimal octets separated by colons, and a parser for that
 * form which undoes it.
 */
module Mac {
  import opened Util

  /** `ETH_ALEN` bytes, read through the `unsigned char *` argument. */
  type MacAddr = s: seq<Byte> | |s| == 6 witness [0, 0, 0, 0, 0, 0]

  /** The characters `%X` writes. */
  predicate IsHexDigit(c: char) {
    '0' <= c <= '9' || 'A' <= c <= 'F'
  }

  /** One digit of `%X`. */
  function HexDigit(n: nat): (c: char)
    requires n < 16
    ensures IsHexDigit(c)
    ensures if n < 10 then c as int == '0' as int + n else c as int == 'A' as int + n - 10
  {
    if n < 10 then ('0' as int + n) as char else ('A' as int + n - 10) as char
  }

  /** `%02X` of one byte: high nibble first. */
  function Hex2(b: Byte): (s: string)
    ensures |s| == 2 && IsHexDigit(s[0]) && IsHexDigit(s[1])
  {
    [HexDigit(b / 16), HexDigit(b % 16)]
  }

  /** `sprintf("%02X:%02X:%02X:%02X:%02X:%02X", ...)` over the six bytes. */
  function MacNtoa(mac: MacAddr): (s: string)
    ensures |s| == 17
    ensures s[0..2] == Hex2(mac[0]) && s[3..5] == Hex2(mac[1]) && s[6..8] == Hex2(mac[2])
    ensures s[9..11] == Hex2(mac[3]) && s[12..14] == Hex2(mac[4]) && s[15..17] == Hex2(mac[5])
    ensures s[2] == s[5] == s[8] == s[11] == s[14] == ':'
  {
    Hex2(mac[0]) + ":" + Hex2(mac[1]) + ":" + Hex2(mac[2]) + ":" +
    Hex2(mac[3]) + ":" + Hex2(mac[4]) + ":" + Hex2(mac[5])
  }

  /** Value of an upper-case hexadecimal digit. */
  function ParseHexDigit(c: char): (r: Option<nat>)
    ensures r.Some? <==> IsHexDigit(c)
    ensures r.Some? ==> r.value < 16 && HexDigit(r.value) == c
  {
    if '0' <= c <= '9' then Some(c as int - '0' as int)
    else if 'A' <= c <= 'F' then Some(c as int - 'A' as int + 10)
    else None
  }

  /** Value of a two-digit hexadecimal octet. */
  function ParseHex2(s: string): (r: Option<Byte>)
    requires |s| == 2
  {
    match (ParseHexDigit(s[0]), ParseHexDigit(s[1]))
    case (Some(hi), Some(lo)) => Some(hi * 16 + lo)
    case _ => None
  }

  /** Reads back the form `MacNtoa` writes; anything else is `None`. */
  function ParseMac(s: string): (r: Option<MacAddr>)
  {
    if |s| != 17 || s[2] != ':' || s[5] != ':' || s[8] != ':' || s[11] != ':' || s[14] != ':' then None
    else
      match (ParseHex2(s[0..2]), ParseHex2(s[3..5]), ParseHex2(s[6..8]),
             ParseHex2(s[9..11]), ParseHex2(s[12..14]), ParseHex2(s[15..17]))
      case (Some(a), Some(b), Some(c), Some(d), Some(e), Some(f)) => Some([a, b, c, d, e, f])
      case _ => None
  }

  lemma Hex2RoundTrip(b: Byte)
    ensures ParseHex2(Hex2(b)) == Some(b)
  {
    var s := Hex2(b);
    assert ParseHexDigit(s[0]) == Some(b / 16);
    assert ParseHexDigit(s[1]) == Some(b % 16);
  }

  lemma DivMod16(hi: nat, lo: nat)
    requires hi < 16 && lo < 16
    ensures (hi * 16 + lo) / 16 == hi && (hi * 16 + lo) % 16 == lo
  {
  }

  lemma Hex2Canonical(s: string)
    requires |s| == 2 && ParseHex2(s).Some?
    ensures Hex2(ParseHex2(s).value) == s
  {
    var hi, lo := ParseHexDigit(s[0]).value, ParseHexDigit(s[1]).value;
    assert ParseHex2(s).value == hi * 16 + lo;
    DivMod16(hi, lo);
    assert HexDigit(hi) == s[0] && HexDigit(lo) == s[1];
  }

  /** Parsing every pair of the formatted address gives back the original bytes. */
  lemma MacRoundTrip(mac: MacAddr)
    ensures ParseMac(MacNtoa(mac)) == Some(mac)
  {
    var s := MacNtoa(mac);
    Hex2RoundTrip(mac[0]);
    Hex2RoundTrip(mac[1]);
    Hex2RoundTrip(mac[2]);
    Hex2RoundTrip(mac[3]);
    Hex2RoundTrip(mac[4]);
    Hex2RoundTrip(mac[5]);
    assert [mac[0], mac[1], mac[2], mac[3], mac[4], mac[5]] == mac;
  }

  /** Every string the parser accepts is exactly what `MacNtoa` writes for its result. */
  lemma MacCanonical(s: string)
    requires ParseMac(s).Some?
    ensures MacNtoa(ParseMac(s).value) == s
  {
    var mac := ParseMac(s).value;
    Hex2Canonical(s[0..2]);
    Hex2Canonical(s[3..5]);
    Hex2Canonical(s[6..8]);
    Hex2Canonical(s[9..11]);
    Hex2Canonical(s[12..14]);
    Hex2Canonical(s[15..17]);
    var t := MacNtoa(mac);
    assert s == s[0..2] + [s[2]] + s[3..5] + [s[5]] + s[6..8] + [s[8]] + s[9..11] + [s[11]]
              + s[12..14] + [s[14]] + s[15..17];
    assert t == t[0..2] + [t[2]] + t[3..5] + [t[5]] + t[6..8] + [t[8]] + t[9..11] + [t[11]]
              + t[12..14] + [t[14]] + t[15..17];
  }

  /** Distinct addresses have distinct text. */
  lemma MacNtoaInjective(a: MacAddr, b: MacAddr)
    requires MacNtoa(a) == MacNtoa(b)
    ensures a == b
  {
    MacRoundTrip(a);
    MacRoundTrip(b);
  }

  /** The text holds only upper-case hexadecimal digits and colons. */
  lemma MacAlphabet(mac: MacAddr)
    ensures forall k :: 0 <= k < 17 ==> IsHexDigit(MacNtoa(mac)[k]) || MacNtoa(mac)[k] == ':'
  {
    var s := MacNtoa(mac);
    assert s == Hex2(mac[0]) + ":" + Hex2(mac[1]) + ":" + Hex2(mac[2]) + ":" +
                Hex2(mac[3]) + ":" + Hex2(mac[4]) + ":" + Hex2(mac[5]);
  }
}
