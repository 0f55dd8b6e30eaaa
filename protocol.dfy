/**
 * The calls the socket layer makes on the AT-command transport, recorded in issue
 * order, and two readings of that record: whether every payload write was announced
 * just before it (the byte stream carries both commands and payload), and which
 * connect, if any, the driver last requested without requesting a disconnect since.
 * The record holds requests only; what the transport answered is not part of it.
 */
module Protocol {
  import opened Wrappers

  newtype byte = b: int | 0 <= b < 256

  /** One call on the transport; port numbers travel as decimal text. */
  datatype Cmd =
    | Disconnect
    | ConnectUDP(addr: string, sendPort: string, listenPort: string)
    | ConnectTCP(addr: string, sendPort: string)
    | StartSend(count: nat)
    | RawWrite(data: seq<byte>)
    | ReadSock(capacity: nat)
    | DNS(host: string)
  {
    /** The calls that tear down or open the socket slot. */
    predicate IsLifecycle() {
      Disconnect? || ConnectUDP? || ConnectTCP?
    }
  }

  /**
   * Every raw payload write comes right after the announcement of its exact length,
   * and every announcement is followed right away by the payload it announced.
   */
  predicate Framed(log: seq<Cmd>) {
    && (forall i | 0 <= i < |log| && log[i].RawWrite? ::
          i > 0 && log[i - 1] == StartSend(|log[i].data|))
    && (forall i | 0 <= i < |log| && log[i].StartSend? ::
          i + 1 < |log| && log[i + 1].RawWrite? && |log[i + 1].data| == log[i].count)
  }

  /** Framed runs of calls can be issued one after the other and stay framed. */
  lemma FramedConcat(a: seq<Cmd>, b: seq<Cmd>)
    requires Framed(b)
    ensures Framed(a) ==> Framed(a + b)
  {
  }

  /**
   * The socket the driver means to have open: the last connect requested since the last
   * requested disconnect, or None when none was. Whether the transport accepted either
   * request plays no part.
   */
  function OpenSocket(log: seq<Cmd>): (s: Option<Cmd>)
    ensures s.Some? ==> (s.value.ConnectUDP? || s.value.ConnectTCP?) && s.value in log
    ensures (forall i | 0 <= i < |log| :: !log[i].IsLifecycle()) ==> s == None
    decreases |log|
  {
    if log == [] then None
    else
      var last := log[|log| - 1];
      if last.Disconnect? then None
      else if last.ConnectUDP? || last.ConnectTCP? then Some(last)
      else
        var s := OpenSocket(log[..|log| - 1]);
        assert s.Some? ==> s.value in log[..|log| - 1];
        s
  }

  /** Calls that neither disconnect nor connect leave the socket requested open as it was. */
  lemma {:induction false} OpenSocketKept(log: seq<Cmd>, ext: seq<Cmd>)
    requires forall i | 0 <= i < |ext| :: !ext[i].IsLifecycle()
    ensures OpenSocket(log + ext) == OpenSocket(log)
    decreases |ext|
  {
    if ext == [] {
      assert log + ext == log;
    } else {
      var init := ext[..|ext| - 1];
      OpenSocketKept(log, init);
      assert (log + ext)[..|log + ext| - 1] == log + init;
      assert (log + ext)[|log + ext| - 1] == ext[|ext| - 1];
    }
  }
}
