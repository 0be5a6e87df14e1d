/** What travels between the client and its collaborators: the outbound
    request, what the transport answers, the response body stream, and the
    caller-owned header carrier and decode target. */
module Wire {
  import opened Common

  /** An outbound request. `url` is the parsed URL in its string form;
      `body` is None when the request carries no body at all. */
  datatype Request = Request(verb: Method, url: string, body: Option<seq<Byte>>, header: Header)

  /** A completed exchange with a status line; `body` is every byte the server sent. */
  datatype Response = Response(status: int, header: Header, body: seq<Byte>)

  /** What the transport reports for one request: a failure before any
      status line, or a response that may be absent. */
  datatype Exchange =
    | TransportFailure(cause: string)
    | Delivered(response: Option<Response>)

  /** The URL parser's verdict: the URL's string form, or why it is malformed. */
  datatype ParsedURL = URL(text: string) | BadURL(cause: string)

  /** What a JSON decoder makes of a stream: how many bytes it pulled, and
      the decoded value or the parse failure. */
  datatype Decoded<V> = Decoded(consumed: nat, result: DecodeResult<V>)
  datatype DecodeResult<V> = Parsed(value: V) | Malformed(cause: string)

  /** A response body stream: the bytes, a read cursor and whether it was closed. */
  class Body {
    const data: seq<Byte>
    var cursor: nat
    var closed: bool

    ghost predicate Valid()
      reads this
    {
      cursor <= |data|
    }

    /** The bytes not read yet. */
    function Unread(): (u: seq<Byte>)
      reads this
      requires Valid()
      ensures data == data[..cursor] + u
    {
      data[cursor..]
    }

    constructor (data: seq<Byte>)
      ensures Valid() && this.data == data && cursor == 0 && !closed
    {
      this.data := data;
      cursor := 0;
      closed := false;
    }

    /** Reads up to `n` bytes; a closed stream yields nothing. */
    method Read(n: nat) returns (chunk: seq<Byte>)
      requires Valid()
      modifies this`cursor
      ensures Valid()
      ensures chunk == if closed then [] else old(Unread())[..Min(n, |old(Unread())|)]
      ensures old(Unread()) == chunk + Unread()
    {
      if closed {
        chunk := [];
      } else {
        var k := Min(n, |data| - cursor);
        chunk := data[cursor..cursor + k];
        cursor := cursor + k;
      }
    }

    /** Reads everything left (io.ReadAll). */
    method ReadAll() returns (rest: seq<Byte>)
      requires Valid()
      modifies this`cursor
      ensures Valid()
      ensures rest == if closed then [] else old(Unread())
      ensures !closed ==> Unread() == []
      ensures closed ==> cursor == old(cursor)
    {
      rest := Read(|data| - cursor);
    }

    /** Reads everything left and throws it away (io.Copy into io.Discard). */
    method Drain()
      requires Valid()
      modifies this`cursor
      ensures Valid()
      ensures !closed ==> Unread() == []
      ensures closed ==> cursor == old(cursor)
    {
      var _ := ReadAll();
    }

    method Close()
      requires Valid()
      modifies this`closed
      ensures Valid() && closed
    {
      closed := true;
    }
  }

  /** The caller's header carrier: headers to send, headers received. */
  class HeaderCarrier {
    var header: Header

    constructor (header: Header)
      ensures this.header == header
    {
      this.header := header;
    }
  }

  /** The caller's decode target. */
  class Target<V> {
    var value: V

    constructor (value: V)
      ensures this.value == value
    {
      this.value := value;
    }
  }

  /** A decode target together with the decoder for the target's type. */
  datatype Sink<V> = Sink(target: Target<V>, decode: seq<Byte> -> Decoded<V>)
}
