/**
 * _create_tunnel_port_name: a tunnel port is named after its type and the
 * remote IPv4 address written as eight lower-case hex digits
 * ('gre-0a000001' for 10.0.0.1), or has no name when the address is not
 * valid.
 */
module TunnelNames {
  import opened Wrappers
  import opened Constants

  // ------------------------------------------------ decimal octets

  predicate IsDigit(c: char)
  {
    '0' <= c <= '9'
  }

  function DigitValue(c: char): nat
    requires IsDigit(c)
  {
    (c as int) - ('0' as int)
  }

  function DigitChar(d: nat): char
    requires d < 10
  {
    ((d + '0' as int) as char)
  }

  /** The value of a string of decimal digits. */
  function DecimalValue(s: string): nat
    requires forall i :: 0 <= i < |s| ==> IsDigit(s[i])
  {
    if s == [] then 0 else DecimalValue(s[..|s| - 1]) * 10 + DigitValue(s[|s| - 1])
  }

  /** The decimal writing of n, without leading zeros. */
  function Decimal(n: nat): (r: string)
    ensures r != []
    ensures forall i :: 0 <= i < |r| ==> IsDigit(r[i])
  {
    if n < 10 then [DigitChar(n)] else Decimal(n / 10) + [DigitChar(n % 10)]
  }

  /** Reading back the decimal writing of n gives n. */
  lemma {:induction false} DecimalRoundTrip(n: nat)
    ensures DecimalValue(Decimal(n)) == n
  {
    if n >= 10 {
      DecimalRoundTrip(n / 10);
      assert Decimal(n)[..|Decimal(n)| - 1] == Decimal(n / 10);
    }
  }

  /** The decimal writing of n starts with 0 only when n is 0, and an octet takes at most three digits. */
  lemma {:induction false} DecimalShape(n: nat)
    ensures Decimal(n)[0] == '0' ==> n == 0
    ensures n <= 255 ==> |Decimal(n)| <= 3
  {
    if n >= 10 {
      DecimalShape(n / 10);
    }
  }

  /**
   * One field of a dotted quad: one to three decimal digits, no leading
   * zero (which some readers take as octal), value at most 255.
   */
  function ParseOctet(s: string): (r: Option<nat>)
    ensures r.Some? ==> r.value <= 255
  {
    if 1 <= |s| <= 3 && (forall i :: 0 <= i < |s| ==> IsDigit(s[i])) && (s[0] != '0' || |s| == 1)
       && DecimalValue(s) <= 255
    then Some(DecimalValue(s))
    else None
  }

  /** Every octet value is written in a way ParseOctet reads back. */
  lemma OctetRoundTrip(n: nat)
    requires n <= 255
    ensures ParseOctet(Decimal(n)) == Some(n)
  {
    DecimalRoundTrip(n);
    DecimalShape(n);
  }

  // ------------------------------------------------ dotted quads

  /** The fields of s between dots. */
  function Fields(s: string): (r: seq<string>)
    ensures |r| >= 1
  {
    if s == [] then [""]
    else if s[0] == '.' then [""] + Fields(s[1..])
    else var rest := Fields(s[1..]); [[s[0]] + rest[0]] + rest[1..]
  }

  /** A field without a dot is the first field of what it starts. */
  lemma {:induction false} FieldsAppend(x: string, y: string)
    requires NoDot(x)
    ensures Fields(x + "." + y) == [x] + Fields(y)
  {
    if x == [] {
      assert x + "." + y == ['.'] + y;
      assert (['.'] + y)[1..] == y;
    } else {
      assert (x + "." + y)[1..] == x[1..] + "." + y;
      FieldsAppend(x[1..], y);
      assert [x[0]] + x[1..] == x;
    }
  }

  /** A remote address as the 32-bit number IPAddress makes of it. */
  function AddressOf(a: nat, b: nat, c: nat, d: nat): nat
  {
    ((a * 256 + b) * 256 + c) * 256 + d
  }

  /**
   * IPAddress(s, version=4) on the canonical dotted-quad form: four
   * decimal octets without leading zeros, read as one 32-bit number. The
   * other spellings IPAddress accepts (inet_aton forms such as "10.1", hex
   * or zero-padded octets) are not modelled and give None here.
   */
  function ParseIpv4(s: string): (r: Option<nat>)
    ensures r.Some? ==> r.value < 0x1_0000_0000
  {
    var f := Fields(s);
    if |f| != 4 then None
    else
      var a, b, c, d := ParseOctet(f[0]), ParseOctet(f[1]), ParseOctet(f[2]), ParseOctet(f[3]);
      if a.Some? && b.Some? && c.Some? && d.Some? then Some(AddressOf(a.value, b.value, c.value, d.value))
      else None
  }

  /** The dotted-quad writing of four octets. */
  function FormatIpv4(a: nat, b: nat, c: nat, d: nat): string
  {
    Decimal(a) + "." + Decimal(b) + "." + Decimal(c) + "." + Decimal(d)
  }

  lemma DecimalHasNoDot(n: nat)
    ensures NoDot(Decimal(n))
  {
  }

  /** A string without a dot in it. */
  predicate NoDot(s: string)
  {
    forall i :: 0 <= i < |s| ==> s[i] != '.'
  }

  /** The dotted writing groups to the right: a.b.c.d is a . (b . (c . d)). */
  lemma FormatGroupsRight(sa: string, sb: string, sc: string, sd: string)
    ensures sa + "." + sb + "." + sc + "." + sd == sa + "." + (sb + "." + (sc + "." + sd))
  {
  }

  /** The fields of a written address are the four writings of its octets. */
  lemma FieldsOfFormat(a: nat, b: nat, c: nat, d: nat)
    ensures Fields(FormatIpv4(a, b, c, d)) == [Decimal(a), Decimal(b), Decimal(c), Decimal(d)]
  {
    var sa, sb, sc, sd := Decimal(a), Decimal(b), Decimal(c), Decimal(d);
    DecimalHasNoDot(a);
    DecimalHasNoDot(b);
    DecimalHasNoDot(c);
    DecimalHasNoDot(d);
    var y2 := sc + "." + sd;
    var y1 := sb + "." + y2;
    var y0 := sa + "." + y1;
    FieldsNoDot(sd);
    FieldsAppend(sc, sd);
    assert Fields(y2) == [sc, sd];
    FieldsAppend(sb, y2);
    assert Fields(y1) == [sb, sc, sd];
    FieldsAppend(sa, y1);
    assert Fields(y0) == [sa, sb, sc, sd];
    FormatGroupsRight(sa, sb, sc, sd);
  }

  /** A written address reads back as the same 32-bit number. */
  lemma Ipv4RoundTrip(a: nat, b: nat, c: nat, d: nat)
    requires a <= 255 && b <= 255 && c <= 255 && d <= 255
    ensures ParseIpv4(FormatIpv4(a, b, c, d)) == Some(AddressOf(a, b, c, d))
  {
    FieldsOfFormat(a, b, c, d);
    OctetRoundTrip(a);
    OctetRoundTrip(b);
    OctetRoundTrip(c);
    OctetRoundTrip(d);
  }

  /** A string without a dot is a single field. */
  lemma {:induction false} FieldsNoDot(s: string)
    requires NoDot(s)
    ensures Fields(s) == [s]
  {
    if s != [] {
      FieldsNoDot(s[1..]);
      assert [s[0]] + s[1..] == s;
    }
  }

  // ------------------------------------------------ hex digits

  function HexChar(d: nat): char
    requires d < 16
  {
    if d < 10 then DigitChar(d) else ((d - 10 + 'a' as int) as char)
  }

  predicate IsHexChar(c: char)
  {
    IsDigit(c) || 'a' <= c <= 'f'
  }

  function HexCharValue(c: char): nat
    requires IsHexChar(c)
  {
    if IsDigit(c) then (c as int) - ('0' as int) else (c as int) - ('a' as int) + 10
  }

  function Pow16(k: nat): (r: nat)
    ensures r > 0
  {
    if k == 0 then 1 else 16 * Pow16(k - 1)
  }

  /** The last k hex digits of n, lower case, zero-padded: '%0kx' for n < 16^k. */
  function HexDigits(n: nat, k: nat): (r: string)
    ensures |r| == k
    ensures forall i :: 0 <= i < |r| ==> IsHexChar(r[i])
  {
    if k == 0 then "" else HexDigits(n / 16, k - 1) + [HexChar(n % 16)]
  }

  /** The value of a string of hex digits. */
  function HexValue(s: string): nat
    requires forall i :: 0 <= i < |s| ==> IsHexChar(s[i])
  {
    if s == [] then 0 else HexValue(s[..|s| - 1]) * 16 + HexCharValue(s[|s| - 1])
  }

  /** Reading back k hex digits of a number below 16^k gives the number. */
  lemma {:induction false} HexRoundTrip(n: nat, k: nat)
    requires n < Pow16(k)
    ensures HexValue(HexDigits(n, k)) == n
  {
    if k > 0 {
      HexRoundTrip(n / 16, k - 1);
      var s := HexDigits(n, k);
      assert s[..|s| - 1] == HexDigits(n / 16, k - 1);
      assert HexCharValue(HexChar(n % 16)) == n % 16;
    }
  }

  lemma Pow16Eight()
    ensures Pow16(8) == 0x1_0000_0000
  {
    assert Pow16(2) == 256;
    assert Pow16(4) == 256 * Pow16(2);
    assert Pow16(8) == 256 * 256 * Pow16(4);
  }

  // ------------------------------------------------ port names

  /** '%s-%08x' % (tunnel_type, IPAddress(remote_ip, version=4)), or None when the address is not a canonical dotted quad. */
  function TunnelPortName(tunnelType: TunnelType, ipAddress: string): (r: Option<string>)
    ensures r.Some? <==> ParseIpv4(ipAddress).Some?
    ensures r.Some? ==> r.value == TunnelTypeName(tunnelType) + "-" + HexDigits(ParseIpv4(ipAddress).value, 8)
  {
    var address := ParseIpv4(ipAddress);
    if address.Some? then Some(TunnelTypeName(tunnelType) + "-" + HexDigits(address.value, 8)) else None
  }

  /** The address a tunnel port name was made from; None for a name not of that shape. */
  function AddressOfPortName(tunnelType: TunnelType, name: string): Option<nat>
  {
    var prefix := TunnelTypeName(tunnelType) + "-";
    if |name| == |prefix| + 8 && name[..|prefix|] == prefix
       && (forall i :: |prefix| <= i < |name| ==> IsHexChar(name[i]))
    then Some(HexValue(name[|prefix|..]))
    else None
  }

  /**
   * The name gives back the address it was made from, so two remote hosts
   * never share a tunnel port name; and it fits a Linux interface name
   * (at most 15 characters).
   */
  lemma PortNameRoundTrip(tunnelType: TunnelType, ipAddress: string)
    requires ParseIpv4(ipAddress).Some?
    ensures AddressOfPortName(tunnelType, TunnelPortName(tunnelType, ipAddress).value) == ParseIpv4(ipAddress)
    ensures |TunnelPortName(tunnelType, ipAddress).value| <= 15
  {
    var n := ParseIpv4(ipAddress).value;
    var prefix := TunnelTypeName(tunnelType) + "-";
    var name := TunnelPortName(tunnelType, ipAddress).value;
    assert name == prefix + HexDigits(n, 8);
    assert name[..|prefix|] == prefix;
    assert name[|prefix|..] == HexDigits(n, 8);
    Pow16Eight();
    HexRoundTrip(n, 8);
  }

  /** Two addresses with the same port name are the same address. */
  lemma PortNameInjective(tunnelType: TunnelType, ip1: string, ip2: string)
    requires TunnelPortName(tunnelType, ip1).Some?
    requires TunnelPortName(tunnelType, ip1) == TunnelPortName(tunnelType, ip2)
    ensures ParseIpv4(ip1) == ParseIpv4(ip2)
  {
    PortNameRoundTrip(tunnelType, ip1);
    PortNameRoundTrip(tunnelType, ip2);
  }
}
