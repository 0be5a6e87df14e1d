/** Values shared by every part of the request executor: optional values,
    results, bytes, header multimaps and the HTTP verbs the client issues. */
module Common {

  datatype Option<+T> = None | Some(value: T)

  datatype Result<+T, +E> = Ok(value: T) | Err(error: E)

  newtype Byte = b: int | 0 <= b < 256

  /** A header multimap: canonical key to its list of values. */
  type Header = map<string, seq<string>>

  /** The six verbs the client exposes, named after the net/http constants. */
  datatype Method = MethodGet | MethodHead | MethodPost | MethodPut | MethodPatch | MethodDelete
  {
    function Name(): (s: string)
      ensures |s| >= 3
    {
      match this
      case MethodGet => "GET"
      case MethodHead => "HEAD"
      case MethodPost => "POST"
      case MethodPut => "PUT"
      case MethodPatch => "PATCH"
      case MethodDelete => "DELETE"
    }
  }

  function Min(a: int, b: int): (m: int)
  {
    if a <= b then a else b
  }

  /** The text of a byte slice in a message, one character per byte (the
      `%s` verb copies the raw bytes; this model's messages are characters). */
  function Text(bytes: seq<Byte>): (t: string)
    ensures |t| == |bytes|
    ensures forall i :: 0 <= i < |bytes| ==> t[i] as int == bytes[i] as int
  {
    seq(|bytes|, i requires 0 <= i < |bytes| => (bytes[i] as int) as char)
  }
}
