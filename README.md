# espat socket layer — a Dafny model

This project models the socket layer of the ESP8266/ESP32 AT-command WiFi driver
(`espat/net.go`). The co-processor supports one socket at a time, and commands and
payload bytes share one serial byte stream. The layer turns `DialUDP`, `ListenUDP`,
`DialTCP`, `ResolveTCPAddr`/`ResolveUDPAddr`, and a connection's `Read`, `Write` and
`Close` into an ordered run of calls on the device's transport.

The device is a class whose only state is `log`, the record of transport calls in
issue order (`Protocol.Cmd`). The transport primitives (`DisconnectSocket`,
`ConnectUDPSocket`, `ConnectTCPSocket`, `StartSocketSend`, `Write`, `ReadSocket`,
`GetDNS`) are methods on `Net.Device`. Each one appends its call to `log` and returns
the reply it is given as a parameter. So every operation is specified by exactly what
it appends and what it returns, whatever the co-processor answers.

Two readings of the log state the layer's protocol:
- `Protocol.Framed`: each raw payload write comes right after the announcement of its
  length, and each announcement right before its payload.
- `Protocol.OpenSocket`: the last connect requested since the last requested
  disconnect, if any, whatever the transport answered. It is the socket the driver
  means to have in the device's one socket slot.

Every state-changing operation keeps `Framed` and says what `OpenSocket` becomes.

Files, one module each:
- `wrappers.dfy`: `Option`, `Result`, and the `Error` values.
- `strconv.dfy`: `Atoi` and `Itoa`, with round trips both ways.
- `strings.dfy`: `Split` and its inverse `Join`.
- `address.dfy`: `IP`, `ParseIP`, the endpoint types, and the host/port cut used by
  resolve.
- `protocol.dfy`: the command log and its predicates.
- `net.dfy`: the device, the connections, and two end-to-end scenarios.

Behaviour a reader might not expect, which the model keeps:
- Dial/Listen discard the transport's replies to the disconnect and the connect, and
  always return a nil error.
- Both `RemoteAddr` methods, UDP and TCP, return the local address. A TCP connection
  dialled with a nil local address, as in `Net.DialTCPExample`, therefore has no
  remote address to answer: `RemoteAddr` dereferences nil there.
- Resolve splits on every ':' and reads only the first two segments.
- Ports are plain integers: nothing checks the range 0–65535.

## Model

| member | source | states |
|---|---|---|
| `Net.Device.DialUDP` | espat/net.go:12-24 | appends exactly `[Disconnect, ConnectUDP(raddr IP text, Itoa(raddr port), Itoa(laddr port))]`; that connect becomes the requested open socket; framing is kept; the new connection holds both addresses on this device, and its `LocalAddr` and `RemoteAddr` both answer `laddr`; the error is nil whatever the transport replied |
| `Net.Device.ListenUDP` | espat/net.go:27-39 | appends exactly `[Disconnect, ConnectUDP("0", "0", Itoa(laddr port))]`; that connect becomes the requested open socket; the connection holds `laddr` and no remote address, and its `LocalAddr` and `RemoteAddr` both answer `laddr`; the error is always nil |
| `Net.Device.DialTCP` | espat/net.go:44-55 | appends exactly `[Disconnect, ConnectTCP(raddr IP text, Itoa(raddr port))]`, so `laddr` never reaches the transport; that connect becomes the requested open socket; `laddr` is only stored on the connection, and when it is non-nil `LocalAddr` and `RemoteAddr` both answer it; the error is always nil |
| `Net.Device.ResolveTCPAddr` | espat/net.go:164-180 | issues only `DNS(host before the first ':')`; a DNS error is returned as is; otherwise the port parse error, or the endpoint with the resolved IP and `PortOf(address)` (0 with no ':'); the socket requested open and framing are unchanged |
| `Net.Device.ResolveUDPAddr` | espat/net.go:186-203 | the same lookup-then-parse as the TCP variant, giving a UDP endpoint |
| `Net.SerialConn.Read` | espat/net.go:82-85 | appends only `ReadSock` and returns the transport's reply unchanged; the socket requested open and framing are unchanged |
| `Net.SerialConn.Write` | espat/net.go:91-96 | appends exactly `[StartSend(|b|), RawWrite(b)]`, so the announced count equals the bytes written; returns the raw write's reply and discards the announcement's; framing is kept |
| `Net.SerialConn.Close` | espat/net.go:100-103 | appends exactly one `Disconnect`, so no socket is requested open any more, and returns nil whatever the transport replied |
| `Net.SerialConn.SetDeadline` | espat/net.go:140-142 | always nil; as a function it can issue nothing |
| `Net.SerialConn.SetReadDeadline` | espat/net.go:147-149 | always nil; issues nothing |
| `Net.SerialConn.SetWriteDeadline` | espat/net.go:156-158 | always nil; issues nothing |
| `Net.UDPSerialConn.LocalAddr` | espat/net.go:105-108 | the local address the connection was created with |
| `Net.UDPSerialConn.RemoteAddr` | espat/net.go:110-113 | equals `LocalAddr()`, not the remote address |
| `Net.TCPSerialConn.LocalAddr` | espat/net.go:115-118 | the local address the connection was created with; needs it to be non-nil, as it dereferences it |
| `Net.TCPSerialConn.RemoteAddr` | espat/net.go:120-123 | equals `LocalAddr()`; like it, needs a non-nil local address |
| `Net.DialTCPExample` | espat/net.go:44-55 | dialing 10.0.0.5:80 with no local address on a fresh device issues `[Disconnect, ConnectTCP("10.0.0.5", "80")]`, returns nil, and keeps the remote address and no local one |
| `Net.ListenUDPExample` | espat/net.go:27-39 | listening on 9000 on a fresh device issues `[Disconnect, ConnectUDP("0", "0", "9000")]`; the local address has port 9000 and the remote address answered is the same |
| `Protocol.FramedConcat` | espat/net.go:91-96 | appending a framed run of calls to a framed log keeps it framed: every payload write stays right after its length announcement |
| `Protocol.OpenSocket` | espat/net.go:17-21 | the socket requested open, when there is one, is a UDP or TCP connect that was issued; a log with no disconnect or connect has none |
| `Protocol.OpenSocketKept` | espat/net.go:82-96 | appending calls that are neither disconnects nor connects (reads, writes, lookups) leaves the socket requested open unchanged |
| `Address.ParseIP` | espat/net.go:227-230 | never fails, and `ParseIP(s).String() == s` for every text `s` |
| `Address.IP.String` | espat/net.go:232-235 | gives back exactly the text the buffer holds, character for character |
| `Address.ParseIPOfString` | espat/net.go:227-235 | `ParseIP(ip.String()) == ip`: the other direction of the round trip |
| `Address.HostOf` | espat/net.go:167-168 | the looked-up host holds no ':', is a prefix of the address, and ends at the first ':' when there is one |
| `Address.PortOf` | espat/net.go:172-179 | port 0 when the address has no ':'; an error only when there is a ':' and then a syntax error |
| `Address.HostAndPort` | espat/net.go:167-177 | `host:p` looks up `host` and parses the port as `Atoi(p)` |
| `Address.HostAndItoaPort` | espat/net.go:167-177 | `host:n`, with `n` written in decimal, gives port `n` exactly |
| `Address.HostWithoutPort` | espat/net.go:167-179 | an address with no ':' is looked up whole and gives port 0 |
| `Address.ExtraSegmentsIgnored` | espat/net.go:167-177 | `host:p:rest` gives the same host and port as `host:p`: segments after the second are ignored |
| `Address.NonNumericPort` | espat/net.go:173-176 | a port segment with a non-digit (other than a leading sign) is `Atoi`'s syntax error naming the segment |
| `Address.EmptyPort` | espat/net.go:173-176 | `host:` is a syntax error, not port 0 |
| `Strconv.Itoa` | espat/net.go:14-15 | non-empty text of digits, with a '-' only at the front |
| `Strconv.Atoi` | espat/net.go:173-176 | every error is the syntax error naming "Atoi" and the whole input |
| `Strconv.AtoiItoa` | espat/net.go:14-15 | `Atoi(Itoa(n)) == Ok(n)` for every integer `n` |
| `Strconv.ItoaAtoi` | espat/net.go:173-176 | text in the form `Itoa` writes is accepted by `Atoi` and written back unchanged |
| `Strconv.AtoiAccepts` | espat/net.go:173-176 | `Atoi` succeeds exactly when the text, without one leading '+' or '-', is a non-empty run of digits: "", "+" and "-" fail |
| `Strconv.AtoiPlusSign` | espat/net.go:173-176 | a leading '+' changes nothing, so `host:+80` gives port 80 |
| `Strconv.AtoiLeadingZero` | espat/net.go:173-176 | a leading zero changes nothing, so `host:0080` gives port 80 |
| `Strconv.AtoiRejects` | espat/net.go:173-176 | any character that is neither a digit nor a leading sign makes `Atoi` fail |
| `Strings.Split` | espat/net.go:167 | at least one segment; no segment holds the separator; text without it is one segment; the first segment is the text up to the first separator |
| `Strings.JoinSplit` | espat/net.go:167 | joining the segments with the separator restores the text |
| `Strings.SplitJoin` | espat/net.go:167 | splitting the join of separator-free segments gives back the segments |

## Left out

- `Protocol.OpenSocket`: reflects only the requests issued, not the transport's
  outcomes. A connect the transport refused still counts as requested open, and a
  failed disconnect still empties the slot, because the layer discards those replies
  and keeps no state of its own beyond what it asked for.
- The transport primitives' implementations (the AT command text, the response
  parsing, the `+IPD` buffering behind `ReadSocket`) are not in `espat/net.go`. They
  are modelled only as log entries whose replies are parameters.
- `Net.SerialConn.Read`: does not say which bytes the transport copies into `b`; the
  buffer may be overwritten arbitrarily, because that is decided by `ReadSocket`,
  which is not part of this model.
- `Strconv.Atoi`: does not model Go's range error (`ErrRange`) for values beyond the
  width of `int`, because integers here are unbounded; only the syntax error is modelled.
- `Strconv.Itoa`: renders any integer; Go's `int` width is not modelled.
- The `Zone` field of `UDPAddr` and `TCPAddr` is carried but never read, so the
  endpoint types hold only the IP and the port.
- Addresses are values, not pointers. Changing `*laddr` after a dial would show through
  the connection in Go; the model does not capture that aliasing.
- Nil pointers: `DialUDP`, `ListenUDP` and `DialTCP` take non-nil addresses where they
  dereference them. The TCP `LocalAddr`/`RemoteAddr` require a local address. A nil
  dereference (a panic) is not modelled.
- `time.Time` is an opaque value; deadlines have no effect to model.
- A Go string is a byte sequence; it is modelled as a character sequence, one character
  per byte, so `ParseIP`'s conversion to `[]byte` is the identity. UTF-8 is not modelled.
- The `network` argument of Dial/Listen/Resolve is accepted and never checked, as in
  the code.
- The definition of the `Device` struct and its other fields are not part of this model.
- Concurrency: the layer is sequential and takes no locks; nothing is modelled.
- `examples/mfrc522/main.go` (an RFID reader demo) is not part of this model.
