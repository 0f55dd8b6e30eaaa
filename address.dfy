/**
 * The driver's stand-ins for Go's `net` address types: an IP address is only the
 * buffer holding its text, and an endpoint is an IP with a port. The pure half of
 * `ResolveTCPAddr`/`ResolveUDPAddr` lives here: how a `host[:port]` string is cut into
 * the host that is looked up and the port that is parsed.
 */
module Address {
  import opened Wrappers
  import Strings
  import Strconv

  /**
   * `IP` is a byte slice holding the textual form of the address. A Go string and the
   * byte slice converted from it hold the same bytes, so the buffer is modelled by the
   * same character sequence.
   */
  datatype IP = IP(buf: string) {
    /** `IP.String`: the text the buffer holds. */
    function String(): (s: string)
      ensures |s| == |buf| && forall i | 0 <= i < |s| :: s[i] == buf[i]
    {
      buf
    }
  }

  /** `ParseIP` wraps any text, with no validation; it never fails. */
  function ParseIP(s: string): (ip: IP)
    ensures ip.String() == s
  {
    IP(s)
  }

  /** Every address is the parse of its own text. */
  lemma ParseIPOfString(ip: IP)
    ensures ParseIP(ip.String()) == ip
  {
  }

  datatype UDPAddr = UDPAddr(ip: IP, port: int)

  datatype TCPAddr = TCPAddr(ip: IP, port: int)

  /** The host handed to the DNS lookup: the first ':'-separated segment. */
  function HostOf(address: string): (host: string)
    ensures ':' !in host
    ensures host <= address
    ensures |host| < |address| ==> address[|host|] == ':'
  {
    Strings.Split(address, ':')[0]
  }

  /**
   * The port: `Atoi` of the second ':'-separated segment when there is one, 0 when there
   * is none. Further segments are never looked at, and no range check is made.
   */
  function PortOf(address: string): (port: Result<int>)
    ensures ':' !in address ==> port == Ok(0)
    ensures port.Err? ==> ':' in address && port.error.NumSyntax?
  {
    var parts := Strings.Split(address, ':');
    if |parts| > 1 then Strconv.Atoi(parts[1]) else Ok(0)
  }

  /** `host:p` splits into the host and `Atoi(p)`, whatever `p` is. */
  lemma HostAndPort(host: string, p: string)
    requires ':' !in host && ':' !in p
    ensures HostOf(host + ":" + p) == host
    ensures PortOf(host + ":" + p) == Strconv.Atoi(p)
  {
    Strings.SplitAtSeparator(host, p, ':');
  }

  /** `host:n`, with `n` written by `Itoa`, resolves to port `n` exactly. */
  lemma HostAndItoaPort(host: string, n: int)
    requires ':' !in host
    ensures HostOf(host + ":" + Strconv.Itoa(n)) == host
    ensures PortOf(host + ":" + Strconv.Itoa(n)) == Ok(n)
  {
    var p := Strconv.Itoa(n);
    HostAndPort(host, p);
    Strconv.AtoiItoa(n);
  }

  /** A host with no ':' is looked up as it is, with port 0. */
  lemma HostWithoutPort(address: string)
    requires ':' !in address
    ensures HostOf(address) == address && PortOf(address) == Ok(0)
  {
  }

  /** Segments after the second are ignored: `host:p:rest` resolves like `host:p`. */
  lemma ExtraSegmentsIgnored(host: string, p: string, rest: string)
    requires ':' !in host && ':' !in p
    ensures HostOf(host + ":" + p + ":" + rest) == host
    ensures PortOf(host + ":" + p + ":" + rest) == PortOf(host + ":" + p) == Strconv.Atoi(p)
  {
    var address := host + ":" + p + ":" + rest;
    assert address == host + [':'] + (p + [':'] + rest);
    Strings.SplitAtSeparator(p, rest, ':');
    Strings.SplitAtSeparator(host, p + [':'] + rest, ':');
    var parts := Strings.Split(address, ':');
    assert parts[0] == host && parts[1] == p;
    HostAndPort(host, p);
  }

  /** A port segment with a character that is not a digit (or a leading sign) is an error. */
  lemma NonNumericPort(host: string, p: string, i: nat)
    requires ':' !in host && ':' !in p
    requires i < |p| && !Strconv.IsDigit(p[i])
    requires i == 0 ==> p[0] != '-' && p[0] != '+'
    ensures PortOf(host + ":" + p) == Err(NumSyntax("Atoi", p))
  {
    HostAndPort(host, p);
    Strconv.AtoiRejects(p, i);
  }

  /** An empty port segment (`host:`) is an error, not port 0. */
  lemma EmptyPort(host: string)
    requires ':' !in host
    ensures PortOf(host + ":") == Err(NumSyntax("Atoi", ""))
  {
    HostAndPort(host, "");
    assert host + ":" + "" == host + ":";
  }
}
