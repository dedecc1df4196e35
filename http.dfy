/**
 * The parts of net/http the request layer talks to: the calls a handler
 * makes on its http.ResponseWriter, and the connection-side writer that
 * receives them.
 */
module Http {
  import opened Results

  newtype byte = x: int | 0 <= x < 256

  /** http.StatusOK */
  const StatusOK := 200

  /** A call a handler makes on its ResponseWriter (header edits go through Header() instead). */
  datatype Action = WriteHeader(code: int) | Write(data: seq<byte>)

  /** What the connection reports for one Write: the byte count and the error (None for nil). */
  datatype Transmission = Transmission(n: int, err: Option<string>)

  /** http.Header: a reference to a mutable map, shared by everyone who asks for it. */
  class HeaderMap {
    var values: map<string, seq<string>>

    constructor ()
      ensures values == map[]
    {
      values := map[];
    }
  }

  /**
   * The connection's own ResponseWriter. It keeps every call it receives, in
   * order; how many bytes a Write gets through, and with what error, is
   * decided by the connection and given here as `transmit`.
   */
  class Sink {
    const header: HeaderMap
    var received: seq<Action>
    const transmit: seq<byte> -> Transmission

    constructor (transmit: seq<byte> -> Transmission)
      ensures fresh(header) && header.values == map[]
      ensures received == [] && this.transmit == transmit
    {
      header := new HeaderMap();
      received := [];
      this.transmit := transmit;
    }

    method Write(p: seq<byte>) returns (n: int, err: Option<string>)
      modifies this
      ensures received == old(received) + [Action.Write(p)]
      ensures n == transmit(p).n && err == transmit(p).err
    {
      received := received + [Action.Write(p)];
      n, err := transmit(p).n, transmit(p).err;
    }

    method WriteHeader(code: int)
      modifies this
      ensures received == old(received) + [Action.WriteHeader(code)]
    {
      received := received + [Action.WriteHeader(code)];
    }
  }
}
