/**
 * The socket layer of the ESP8266/ESP32 AT-command WiFi driver: dial, listen,
 * resolve, and the read/write/close of a connection, each turned into an ordered run
 * of calls on the device's transport. The device's only state here is the record of
 * those calls; what the co-processor answers is supplied to each call as a reply.
 */
module Net {
  import opened Wrappers
  import opened Protocol
  import opened Address
  import Strings
  import Strconv

  /** The `(n int, err error)` a raw write or a socket read returns. */
  datatype IoResult = IoResult(n: int, err: Option<Error>)

  /** A `time.Time`; deadlines are accepted and never enforced. */
  datatype Time = Time(unixNano: int)

  /** The serial link to the WiFi co-processor, with its one socket slot. */
  class Device {
    var log: seq<Cmd>

    constructor ()
      ensures log == []
    {
      log := [];
    }

    // The transport primitives. How each is carried out over the serial line is not
    // part of this model: each records its call and hands back the given reply.

    method DisconnectSocket(reply: Option<Error>) returns (err: Option<Error>)
      modifies this
      ensures log == old(log) + [Disconnect] && err == reply
    {
      log := log + [Disconnect];
      err := reply;
    }

    method ConnectUDPSocket(addr: string, sendport: string, listenport: string, reply: Option<Error>)
      returns (err: Option<Error>)
      modifies this
      ensures log == old(log) + [ConnectUDP(addr, sendport, listenport)] && err == reply
    {
      log := log + [ConnectUDP(addr, sendport, listenport)];
      err := reply;
    }

    method ConnectTCPSocket(addr: string, sendport: string, reply: Option<Error>) returns (err: Option<Error>)
      modifies this
      ensures log == old(log) + [ConnectTCP(addr, sendport)] && err == reply
    {
      log := log + [ConnectTCP(addr, sendport)];
      err := reply;
    }

    method StartSocketSend(size: nat, reply: Option<Error>) returns (err: Option<Error>)
      modifies this
      ensures log == old(log) + [StartSend(size)] && err == reply
    {
      log := log + [StartSend(size)];
      err := reply;
    }

    method Write(b: seq<byte>, reply: IoResult) returns (r: IoResult)
      modifies this
      ensures log == old(log) + [RawWrite(b)] && r == reply
    {
      log := log + [RawWrite(b)];
      r := reply;
    }

    /** Copies already-received payload into `b`; which bytes it copies is the transport's business. */
    method ReadSocket(b: array<byte>, reply: IoResult) returns (r: IoResult)
      modifies this, b
      ensures log == old(log) + [ReadSock(b.Length)] && r == reply
    {
      log := log + [ReadSock(b.Length)];
      r := reply;
    }

    method GetDNS(host: string, reply: Result<IP>) returns (r: Result<IP>)
      modifies this
      ensures log == old(log) + [DNS(host)] && r == reply
    {
      log := log + [DNS(host)];
      r := reply;
    }

    // The socket layer proper.

    /**
     * Tears down any open socket, then opens a UDP socket sending to `raddr` and
     * listening on `laddr`'s port. The transport's replies are discarded: the error
     * returned is always nil.
     */
    method DialUDP(network: string, laddr: UDPAddr, raddr: UDPAddr,
                   disconnectReply: Option<Error>, connectReply: Option<Error>)
      returns (conn: UDPSerialConn, err: Option<Error>)
      modifies this
      ensures log == old(log) + [Disconnect,
        ConnectUDP(raddr.ip.String(), Strconv.Itoa(raddr.port), Strconv.Itoa(laddr.port))]
      ensures OpenSocket(log) == Some(log[|log| - 1])
      ensures Framed(old(log)) ==> Framed(log)
      ensures fresh(conn) && conn.serial.adaptor == this
      ensures conn.laddr == laddr && conn.raddr == Some(raddr)
      ensures conn.LocalAddr() == laddr == conn.RemoteAddr()
      ensures err == None
    {
      var addr := raddr.ip.String();
      var sendport := Strconv.Itoa(raddr.port);
      var listenport := Strconv.Itoa(laddr.port);
      ghost var before := log;
      var _ := DisconnectSocket(disconnectReply);
      var _ := ConnectUDPSocket(addr, sendport, listenport, connectReply);
      FramedConcat(before, [Disconnect, ConnectUDP(addr, sendport, listenport)]);
      var serial := new SerialConn(this);
      conn := new UDPSerialConn(serial, laddr, Some(raddr));
      err := None;
    }

    /**
     * Tears down any open socket, then opens a UDP socket bound to no peer (address
     * "0", port "0") listening on `laddr`'s port. The error returned is always nil.
     */
    method ListenUDP(network: string, laddr: UDPAddr,
                     disconnectReply: Option<Error>, connectReply: Option<Error>)
      returns (conn: UDPSerialConn, err: Option<Error>)
      modifies this
      ensures log == old(log) + [Disconnect, ConnectUDP("0", "0", Strconv.Itoa(laddr.port))]
      ensures OpenSocket(log) == Some(log[|log| - 1])
      ensures Framed(old(log)) ==> Framed(log)
      ensures fresh(conn) && conn.serial.adaptor == this
      ensures conn.laddr == laddr && conn.raddr == None
      ensures conn.LocalAddr() == laddr == conn.RemoteAddr()
      ensures err == None
    {
      var addr := "0";
      var sendport := "0";
      var listenport := Strconv.Itoa(laddr.port);
      ghost var before := log;
      var _ := DisconnectSocket(disconnectReply);
      var _ := ConnectUDPSocket(addr, sendport, listenport, connectReply);
      FramedConcat(before, [Disconnect, ConnectUDP(addr, sendport, listenport)]);
      var serial := new SerialConn(this);
      conn := new UDPSerialConn(serial, laddr, None);
      err := None;
    }

    /**
     * Tears down any open socket, then opens a TCP socket to `raddr`. `laddr` is kept on
     * the connection but never sent to the transport. The error returned is always nil.
     */
    method DialTCP(network: string, laddr: Option<TCPAddr>, raddr: TCPAddr,
                   disconnectReply: Option<Error>, connectReply: Option<Error>)
      returns (conn: TCPSerialConn, err: Option<Error>)
      modifies this
      ensures log == old(log) + [Disconnect, ConnectTCP(raddr.ip.String(), Strconv.Itoa(raddr.port))]
      ensures OpenSocket(log) == Some(log[|log| - 1])
      ensures Framed(old(log)) ==> Framed(log)
      ensures fresh(conn) && conn.serial.adaptor == this
      ensures conn.laddr == laddr && conn.raddr == raddr
      ensures laddr.Some? ==> conn.LocalAddr() == laddr.value == conn.RemoteAddr()
      ensures err == None
    {
      var addr := raddr.ip.String();
      var sendport := Strconv.Itoa(raddr.port);
      ghost var before := log;
      var _ := DisconnectSocket(disconnectReply);
      var _ := ConnectTCPSocket(addr, sendport, connectReply);
      FramedConcat(before, [Disconnect, ConnectTCP(addr, sendport)]);
      var serial := new SerialConn(this);
      conn := new TCPSerialConn(serial, laddr, raddr);
      err := None;
    }

    /**
     * Looks up the host (the text before the first ':') and, when the lookup succeeds,
     * parses the port segment. A lookup error comes back as it is, before any port is
     * parsed; nothing but the lookup is issued to the transport.
     */
    method ResolveTCPAddr(network: string, address: string, dnsReply: Result<IP>)
      returns (r: Result<TCPAddr>)
      modifies this
      ensures log == old(log) + [DNS(HostOf(address))]
      ensures Framed(old(log)) ==> Framed(log)
      ensures OpenSocket(log) == OpenSocket(old(log))
      ensures dnsReply.Err? ==> r == Err(dnsReply.error)
      ensures dnsReply.Ok? && PortOf(address).Err? ==> r == Err(PortOf(address).error)
      ensures dnsReply.Ok? && PortOf(address).Ok? ==> r == Ok(TCPAddr(dnsReply.value, PortOf(address).value))
    {
      ghost var before := log;
      var parts := Strings.Split(address, ':');
      var ip := GetDNS(parts[0], dnsReply);
      FramedConcat(before, [DNS(parts[0])]);
      OpenSocketKept(before, [DNS(parts[0])]);
      if ip.Err? {
        return Err(ip.error);
      }
      if |parts| > 1 {
        var port := Strconv.Atoi(parts[1]);
        if port.Err? {
          return Err(port.error);
        }
        return Ok(TCPAddr(ip.value, port.value));
      }
      return Ok(TCPAddr(ip.value, 0));
    }

    /** The same lookup and parse as `ResolveTCPAddr`, giving a UDP endpoint. */
    method ResolveUDPAddr(network: string, address: string, dnsReply: Result<IP>)
      returns (r: Result<UDPAddr>)
      modifies this
      ensures log == old(log) + [DNS(HostOf(address))]
      ensures Framed(old(log)) ==> Framed(log)
      ensures OpenSocket(log) == OpenSocket(old(log))
      ensures dnsReply.Err? ==> r == Err(dnsReply.error)
      ensures dnsReply.Ok? && PortOf(address).Err? ==> r == Err(PortOf(address).error)
      ensures dnsReply.Ok? && PortOf(address).Ok? ==> r == Ok(UDPAddr(dnsReply.value, PortOf(address).value))
    {
      ghost var before := log;
      var parts := Strings.Split(address, ':');
      var ip := GetDNS(parts[0], dnsReply);
      FramedConcat(before, [DNS(parts[0])]);
      OpenSocketKept(before, [DNS(parts[0])]);
      if ip.Err? {
        return Err(ip.error);
      }
      if |parts| > 1 {
        var port := Strconv.Atoi(parts[1]);
        if port.Err? {
          return Err(port.error);
        }
        return Ok(UDPAddr(ip.value, port.value));
      }
      return Ok(UDPAddr(ip.value, 0));
    }
  }

  /** The part of a connection shared by UDP and TCP: the device it talks through. */
  class SerialConn {
    const adaptor: Device

    constructor (d: Device)
      ensures adaptor == d
    {
      adaptor := d;
    }

    /** Drains payload the transport has already received; its reply is returned unchanged. */
    method Read(b: array<byte>, reply: IoResult) returns (r: IoResult)
      modifies adaptor, b
      ensures adaptor.log == old(adaptor.log) + [ReadSock(b.Length)]
      ensures OpenSocket(adaptor.log) == OpenSocket(old(adaptor.log))
      ensures Framed(old(adaptor.log)) ==> Framed(adaptor.log)
      ensures r == reply
    {
      ghost var before := adaptor.log;
      r := adaptor.ReadSocket(b, reply);
      FramedConcat(before, [ReadSock(b.Length)]);
      OpenSocketKept(before, [ReadSock(b.Length)]);
    }

    /**
     * Announces a payload of exactly `|b|` bytes, then pushes `b`. The announcement's
     * reply is discarded; the raw write's reply is returned unchanged.
     */
    method Write(b: seq<byte>, announceReply: Option<Error>, writeReply: IoResult) returns (r: IoResult)
      modifies adaptor
      ensures adaptor.log == old(adaptor.log) + [StartSend(|b|), RawWrite(b)]
      ensures OpenSocket(adaptor.log) == OpenSocket(old(adaptor.log))
      ensures Framed(old(adaptor.log)) ==> Framed(adaptor.log)
      ensures r == writeReply
    {
      ghost var before := adaptor.log;
      var _ := adaptor.StartSocketSend(|b|, announceReply);
      r := adaptor.Write(b, writeReply);
      FramedConcat(before, [StartSend(|b|), RawWrite(b)]);
      OpenSocketKept(before, [StartSend(|b|), RawWrite(b)]);
    }

    /** Tears down the device's socket; the disconnect's reply is discarded and nil returned. */
    method Close(disconnectReply: Option<Error>) returns (err: Option<Error>)
      modifies adaptor
      ensures adaptor.log == old(adaptor.log) + [Disconnect]
      ensures OpenSocket(adaptor.log) == None
      ensures Framed(old(adaptor.log)) ==> Framed(adaptor.log)
      ensures err == None
    {
      ghost var before := adaptor.log;
      var _ := adaptor.DisconnectSocket(disconnectReply);
      FramedConcat(before, [Disconnect]);
      err := None;
    }

    /** Accepted and ignored: always nil, and nothing is issued. */
    function SetDeadline(t: Time): (err: Option<Error>)
      ensures err == None
    {
      None
    }

    function SetReadDeadline(t: Time): (err: Option<Error>)
      ensures err == None
    {
      None
    }

    function SetWriteDeadline(t: Time): (err: Option<Error>)
      ensures err == None
    {
      None
    }
  }

  /** A UDP connection: a listening one has no remote address. */
  class UDPSerialConn {
    const serial: SerialConn
    const laddr: UDPAddr
    const raddr: Option<UDPAddr>

    constructor (serial: SerialConn, laddr: UDPAddr, raddr: Option<UDPAddr>)
      ensures this.serial == serial && this.laddr == laddr && this.raddr == raddr
    {
      this.serial := serial;
      this.laddr := laddr;
      this.raddr := raddr;
    }

    /** The local address the connection was created with. */
    function LocalAddr(): (a: UDPAddr)
      ensures a == laddr
    {
      laddr
    }

    /** Answers the local address, not the remote one, as the driver does. */
    function RemoteAddr(): (a: UDPAddr)
      ensures a == LocalAddr()
    {
      laddr
    }
  }

  /** A TCP connection; its local address may be nil, as `DialTCP` never reads it. */
  class TCPSerialConn {
    const serial: SerialConn
    const laddr: Option<TCPAddr>
    const raddr: TCPAddr

    constructor (serial: SerialConn, laddr: Option<TCPAddr>, raddr: TCPAddr)
      ensures this.serial == serial && this.laddr == laddr && this.raddr == raddr
    {
      this.serial := serial;
      this.laddr := laddr;
      this.raddr := raddr;
    }

    /** The local address the connection was created with; it dereferences it, so it needs one. */
    function LocalAddr(): (a: TCPAddr)
      requires laddr.Some?
      ensures laddr == Some(a)
    {
      laddr.value
    }

    /** Answers the local address, not the remote one, as the driver does. */
    function RemoteAddr(): (a: TCPAddr)
      requires laddr.Some?
      ensures a == LocalAddr()
    {
      laddr.value
    }
  }

  /**
   * Dialing 10.0.0.5:80 over TCP with no local address on a fresh device: one
   * disconnect, then one connect with the address and port as text, whatever the
   * transport answers. The connection keeps the remote address; it has no local one,
   * so its RemoteAddr, which dereferences the local address, has nothing to answer.
   */
  method DialTCPExample(disconnectReply: Option<Error>, connectReply: Option<Error>)
    returns (log: seq<Cmd>, err: Option<Error>, local: Option<TCPAddr>, remote: TCPAddr)
    ensures log == [Disconnect, ConnectTCP("10.0.0.5", "80")]
    ensures err == None && local == None && remote == TCPAddr(ParseIP("10.0.0.5"), 80)
  {
    var d := new Device();
    var raddr := TCPAddr(ParseIP("10.0.0.5"), 80);
    var conn;
    conn, err := d.DialTCP("tcp", None, raddr, disconnectReply, connectReply);
    assert Strconv.Itoa(80) == "80" by {
      assert Strconv.Digits(8) == "8";
    }
    log, local, remote := d.log, conn.laddr, conn.raddr;
  }

  /**
   * Listening on UDP port 9000 on a fresh device: one disconnect, then a UDP connect
   * to address "0", port "0", listening on "9000". The connection answers port 9000 as
   * its local address, and the same address as its remote one.
   */
  method ListenUDPExample(disconnectReply: Option<Error>, connectReply: Option<Error>)
    returns (log: seq<Cmd>, err: Option<Error>, local: UDPAddr, remote: UDPAddr)
    ensures log == [Disconnect, ConnectUDP("0", "0", "9000")]
    ensures err == None && local.port == 9000 && remote == local
  {
    var d := new Device();
    var laddr := UDPAddr(ParseIP(""), 9000);
    var conn;
    conn, err := d.ListenUDP("udp", laddr, disconnectReply, connectReply);
    assert Strconv.Itoa(9000) == "9000" by {
      assert Strconv.Digits(9) == "9";
      assert Strconv.Digits(90) == "90";
      assert Strconv.Digits(900) == "900";
    }
    log, local, remote := d.log, conn.LocalAddr(), conn.RemoteAddr();
  }
}
