/** The error taxonomy of the executor and the text each error renders to.

    Each sentinel error of the client becomes a constructor; wrapping a
    sentinel together with the "retriable" sentinel becomes the boolean
    `retriable` of a status error, so "is it kind X" and "is it retriable"
    are asked independently. */
module HttpErrors {
  import opened Common

  /** What a non-success status is classified as. `Unhandled` keeps the
      status code and the body bytes its message embeds. */
  datatype Kind =
    | UserAccessDenied
    | NotFound
    | TooManyRequests
    | UnprocessableEntity
    | InternalServerError
    | BadRequest
    | BadGateway
    | ServiceUnavailable
    | GatewayTimeout
    | Unhandled(status: int, body: seq<Byte>)

  datatype Error =
      /** The request could not be built; `cause` is the parser's complaint. */
    | Construction(verb: Method, cause: string)
      /** The transport failed before any status line arrived. */
    | Transport(verb: Method, url: string, cause: string)
    | NilResponse
    | Status(kind: Kind, retriable: bool)
      /** The body did not decode; `consumed` is what the decoder read. */
    | Decode(verb: Method, url: string, consumed: seq<Byte>, cause: string)

  /** The "errors.Is(err, ErrRetriable)" question. */
  predicate IsRetriable(e: Error)
  {
    e.Status? && e.retriable
  }

  const RetriableText: string := "retriable error"
  const UnhandledText: string := "unknown error"
  const NilResponseText: string := "response is nil"

  /** The message of the sentinel (or, for Unhandled, of the joined error). */
  function KindText(k: Kind): (text: string)
  {
    match k
    case UserAccessDenied => "requested resource unauthorized"
    case NotFound => "requested resource not found"
    case TooManyRequests => "requested resource rate limited"
    case UnprocessableEntity => "unprocessable entity"
    case InternalServerError => "internal server error"
    case BadRequest => "bad request"
    case BadGateway => "bad gateway"
    case ServiceUnavailable => "service unavailable"
    case GatewayTimeout => "gateway timeout"
    case Unhandled(status, body) =>
      "request failed, " + Decimal(status) + " status code received: " + Text(body)
      + "\n" + UnhandledText
  }

  /** The string an error renders to; a joined error separates its parts by a newline. */
  function Message(e: Error): (text: string)
  {
    match e
    case Construction(m, cause) =>
      "failed to create " + m.Name() + " request: " + "failed to create HTTP request: " + cause
    case Transport(m, url, cause) =>
      "failed to make request [" + m.Name() + ":" + url + "]: " + cause
    case NilResponse => NilResponseText
    case Status(k, retriable) =>
      if retriable then KindText(k) + "\n" + RetriableText else KindText(k)
    case Decode(m, url, consumed, cause) =>
      "could not parse response body: " + cause + " [" + m.Name() + ":" + url + "] " + Text(consumed)
  }

  /** The sentinels' texts tell the mapped kinds apart. */
  lemma KindTextsDistinct(k1: Kind, k2: Kind)
    requires !k1.Unhandled? && !k2.Unhandled? && k1 != k2
    ensures KindText(k1) != KindText(k2)
  {
  }

  /** Joining the retriable sentinel appends its text on a new line. */
  lemma RetriableMessage(k: Kind)
    ensures Message(Status(k, true)) == Message(Status(k, false)) + "\n" + RetriableText
  {
  }

  /** So a retriable error's text still names its kind and says it is retriable. */
  lemma RetriableMessageMentions(k: Kind)
    ensures Mentions(Message(Status(k, true)), KindText(k))
    ensures Mentions(Message(Status(k, true)), RetriableText)
  {
    var kind := KindText(k);
    assert Message(Status(k, true)) == kind + "\n" + RetriableText;
    MentionsJoined(kind, "\n", RetriableText);
  }

  // ---- decimal rendering of the status code (the %d verb) ----

  predicate IsDigit(c: char)
  {
    '0' <= c <= '9'
  }

  function DigitChar(d: nat): (c: char)
    requires d < 10
  {
    (d + '0' as int) as char
  }

  function Digits(n: nat): (s: string)
    ensures |s| >= 1
    ensures forall i :: 0 <= i < |s| ==> IsDigit(s[i])
  {
    if n < 10 then [DigitChar(n)] else Digits(n / 10) + [DigitChar(n % 10)]
  }

  /** Base-10 text of an integer, with a leading '-' when negative. */
  function Decimal(n: int): (s: string)
    ensures |s| >= 1
    ensures s[0] == '-' <==> n < 0
    ensures n >= 0 ==> IsDigit(s[0])
    ensures forall i :: 1 <= i < |s| ==> IsDigit(s[i])
  {
    if n < 0 then "-" + Digits(-n) else Digits(n)
  }

  function ParseDigits(s: string): (n: int)
  {
    if s == [] then 0
    else 10 * ParseDigits(s[..|s| - 1]) + (s[|s| - 1] as int - '0' as int)
  }

  function ParseDecimal(s: string): (n: int)
  {
    if |s| > 0 && s[0] == '-' then -ParseDigits(s[1..]) else ParseDigits(s)
  }

  lemma {:induction false} DigitsRoundTrip(n: nat)
    ensures ParseDigits(Digits(n)) == n
  {
    if n >= 10 {
      var s := Digits(n);
      assert s[..|s| - 1] == Digits(n / 10);
      DigitsRoundTrip(n / 10);
    }
  }

  /** The status code can be read back from its rendering. */
  lemma DecimalRoundTrip(n: int)
    ensures ParseDecimal(Decimal(n)) == n
  {
    if n < 0 {
      DigitsRoundTrip(-n);
      assert Decimal(n)[1..] == Digits(-n);
    } else {
      DigitsRoundTrip(n);
      assert IsDigit(Digits(n)[0]);
    }
  }

  // ---- what a message mentions ----

  /** `part` occurs in `text` as a contiguous piece. */
  predicate Mentions(text: string, part: string)
  {
    exists i :: 0 <= i <= |text| && part <= text[i..]
  }

  /** Both parts of a join `front + sep + back` occur in it. */
  lemma MentionsJoined(front: string, sep: string, back: string)
    ensures Mentions(front + sep + back, front)
    ensures Mentions(front + sep + back, back)
  {
    var text := front + sep + back;
    assert text[0..] == text;
    assert text[|front + sep|..] == back;
  }

  lemma MentionsMiddle(before: string, part: string, after: string)
    ensures Mentions(before + part + after, part)
  {
    var text := before + part + after;
    assert text[|before|..] == part + after;
  }

  lemma MentionsBoth(head: string, x: string, mid: string, y: string, tail: string)
    ensures Mentions(head + x + mid + y + tail, x)
    ensures Mentions(head + x + mid + y + tail, y)
  {
    assert head + x + mid + y + tail == head + x + (mid + y + tail);
    MentionsMiddle(head, x, mid + y + tail);
    assert head + x + mid + y + tail == (head + x + mid) + y + tail;
    MentionsMiddle(head + x + mid, y, tail);
  }

  lemma MentionsUnhandledParts(d: string, t: string, joined: string)
    ensures Mentions("request failed, " + d + " status code received: " + t + "\n" + UnhandledText + joined, d)
    ensures Mentions("request failed, " + d + " status code received: " + t + "\n" + UnhandledText + joined, t)
  {
    var tail := "\n" + UnhandledText + joined;
    MentionsBoth("request failed, ", d, " status code received: ", t, tail);
    assert "request failed, " + d + " status code received: " + t + "\n" + UnhandledText + joined
        == "request failed, " + d + " status code received: " + t + tail;
  }

  /** An Unhandled error's message names the numeric status and the whole body text. */
  lemma UnhandledMessageMentions(status: int, body: seq<Byte>, retriable: bool)
    ensures Mentions(Message(Status(Unhandled(status, body), retriable)), Decimal(status))
    ensures Mentions(Message(Status(Unhandled(status, body), retriable)), Text(body))
  {
    var d, t := Decimal(status), Text(body);
    var joined := if retriable then "\n" + RetriableText else "";
    var kind := KindText(Unhandled(status, body));
    assert Message(Status(Unhandled(status, body), retriable)) == kind + joined;
    assert kind == "request failed, " + d + " status code received: " + t + "\n" + UnhandledText;
    MentionsUnhandledParts(d, t, joined);
  }

  /** A decode error's message names the method, the URL and the bytes the decoder consumed. */
  lemma DecodeMessageMentions(m: Method, url: string, consumed: seq<Byte>, cause: string)
    ensures Mentions(Message(Decode(m, url, consumed, cause)), m.Name())
    ensures Mentions(Message(Decode(m, url, consumed, cause)), url)
    ensures Mentions(Message(Decode(m, url, consumed, cause)), Text(consumed))
  {
    var head := "could not parse response body: " + cause + " [";
    var msg := Message(Decode(m, url, consumed, cause));
    assert msg == head + m.Name() + (":" + url + "] " + Text(consumed));
    MentionsMiddle(head, m.Name(), ":" + url + "] " + Text(consumed));
    assert msg == head + m.Name() + ":" + url + ("] " + Text(consumed));
    MentionsMiddle(head + m.Name() + ":", url, "] " + Text(consumed));
    assert msg == head + m.Name() + ":" + url + "] " + Text(consumed) + "";
    MentionsMiddle(head + m.Name() + ":" + url + "] ", Text(consumed), "");
  }

  /** A transport error's message names the method, the URL and the cause. */
  lemma TransportMessageMentions(m: Method, url: string, cause: string)
    ensures Mentions(Message(Transport(m, url, cause)), m.Name())
    ensures Mentions(Message(Transport(m, url, cause)), url)
    ensures Mentions(Message(Transport(m, url, cause)), cause)
  {
    var msg := Message(Transport(m, url, cause));
    assert msg == "failed to make request [" + m.Name() + (":" + url + "]: " + cause);
    MentionsMiddle("failed to make request [", m.Name(), ":" + url + "]: " + cause);
    assert msg == "failed to make request [" + m.Name() + ":" + url + ("]: " + cause);
    MentionsMiddle("failed to make request [" + m.Name() + ":", url, "]: " + cause);
    assert msg == "failed to make request [" + m.Name() + ":" + url + "]: " + cause + "";
    MentionsMiddle("failed to make request [" + m.Name() + ":" + url + "]: ", cause, "");
  }

  /** A construction error's message names the method that was attempted. */
  lemma ConstructionMessageMentions(m: Method, cause: string)
    ensures Mentions(Message(Construction(m, cause)), m.Name())
  {
    var msg := Message(Construction(m, cause));
    assert msg == "failed to create " + m.Name() + (" request: " + "failed to create HTTP request: " + cause);
    MentionsMiddle("failed to create ", m.Name(), " request: " + "failed to create HTTP request: " + cause);
  }
}
