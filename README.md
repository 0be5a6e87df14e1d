# httpclient: the request executor, modelled in Dafny

The model covers the request executor of a small Go HTTP client wrapper
(`httpclient.go`). A call builds a request from a verb, a URL and an
optional payload. The request then goes through an injected transport. The
executor classifies the response status into a small error taxonomy and
marks some errors retriable. On success it copies the response headers
back into the caller's header carrier, then either drains the body or
decodes it into the caller's target.

Modules:

- `Common` (`common.dfy`): Option/Result, bytes, the header multimap, the six verbs.
- `HttpErrors` (`errors.dfy`): the error datatype and the rendered text of every error. It also holds the decimal rendering of a status code and lemmas about what each message mentions.
- `Status` (`status.dfy`): the two `switch` statements of `Client.do`. The first says which statuses are success. The second maps every other status to an error kind and the retriable marker.
- `Wire` (`wire.dfy`): the request and response values and the transport's answer. It also holds three classes: the response `Body` stream (bytes, read cursor, closed flag), the caller's `HeaderCarrier`, and the decode `Target`.
- `HttpClient` (`client.dfy`): `New` and `newRequest` as functions; `do`, `doRequest` and the six verb entry points as methods. Pure specification functions (`DoSpec`, `Expected`, `CallSpec`) describe what a call does. The lemmas are stated over those functions.

Collaborators become parameters. The transport is a total function from
request to `Exchange` (a transport failure, or a response that may be absent).
The JSON decoder is a function from the unread body bytes to the number of
bytes it pulled plus a parsed value or a parse failure. The URL parser is a
function from the URL text to its string form or a parse error.
`http.DefaultClient` is an argument of `New`.

Points where the code's behaviour is easy to misread:

- Statuses 203, 205 and 206 are 2xx but are not in the success list at httpclient.go:193-198, so they become `Unhandled` errors (`Status.OtherTwoHundredsUnhandled`).
- The nil check in `doRequest` (httpclient.go:152-153) and the `ErrNilResponse` sentinel (httpclient.go:21) mean an absent response should give a NilResponse error. As written, `do` dereferences the response first (httpclient.go:193; see Findings). `HttpClient.DoAsWritten` models the step as written; `HttpClient.DoSpec`, `HttpClient.Do` and `HttpClient.DoRequest` model the corrected step.
- HEAD sends the payload it is given. GET never sends one.

## Model

| member | source | states |
|---|---|---|
| `Status.IsSuccess` | httpclient.go:193-198 | a success status is a 2xx status and is none of the mapped error statuses |
| `Status.RetriableOnlyForTransientStatuses` | httpclient.go:206-227 | `errors.Is(err, ErrRetriable)` holds for a classified status exactly when it is 422, 429, 500, 502, 503 or 504; a construction, transport, nil-response or decode error is never retriable |
| `Status.ClassifyFailure` | httpclient.go:206-227 | the retriable marker is set exactly for 422, 429, 500, 502, 503, 504; the kind is Unhandled exactly for statuses outside the ten mapped ones, and then carries that status and the body read; any other kind belongs to the status's own table row |
| `Status.KindExactly` | httpclient.go:206-225 | a mapped kind is produced by exactly the statuses of its row (both directions): 400 BadRequest, 401/403 UserAccessDenied, 404 NotFound, 422, 429, 500, 502, 503, 504 each their own kind |
| `Status.TableConsistent` | httpclient.go:193-225 | no status is both success and mapped; every row's statuses are mapped; all retriable statuses are mapped |
| `Status.OtherTwoHundredsUnhandled` | httpclient.go:193-227 | a 2xx status other than 200, 201, 202, 204 is a non-retriable Unhandled error carrying its status and body |
| `HttpErrors.KindTextsDistinct` | httpclient.go:18-32 | the sentinel texts of two different mapped kinds differ |
| `HttpErrors.RetriableMessage` | httpclient.go:211-222 | a joined retriable error's text is the kind's text, a newline, and "retriable error" |
| `HttpErrors.RetriableMessageMentions` | httpclient.go:211-222 | a retriable error's text contains both the kind's sentinel text and the retriable sentinel text |
| `HttpErrors.Decimal` | httpclient.go:227 | the `%d` rendering of a status is non-empty, starts with '-' exactly for a negative status, and otherwise starts with a digit; every character after the first is a decimal digit |
| `Common.Text` | httpclient.go:170-176 | the `%s` rendering of a byte slice has one character per byte, each with that byte's code |
| `HttpErrors.Digits` | httpclient.go:227 | the base-10 digits of a natural number (the magnitude part of `%d`) are at least one character, all decimal digits |
| `HttpErrors.DigitsRoundTrip` | httpclient.go:227 | reading back the decimal digits of a natural number gives that number |
| `HttpErrors.DecimalRoundTrip` | httpclient.go:227 | reading back the `%d` rendering of any status (with sign) gives that status |
| `HttpErrors.UnhandledMessageMentions` | httpclient.go:227 | an Unhandled error's text contains the decimal status and the whole body text |
| `HttpErrors.DecodeMessageMentions` | httpclient.go:170-176 | a decode error's text contains the verb, the URL and the bytes the decoder consumed |
| `HttpErrors.TransportMessageMentions` | httpclient.go:185 | a transport error's text contains the verb, the URL and the cause |
| `HttpErrors.ConstructionMessageMentions` | httpclient.go:15 | a construction error's text names the verb that was attempted |
| `Wire.Body.Read` | httpclient.go:168 | reads at most the requested number of bytes from the unread part and advances past them; a closed body yields nothing |
| `Wire.Body.ReadAll` | httpclient.go:203 | returns everything unread and leaves nothing unread |
| `Wire.Body.Drain` | httpclient.go:161-163 | leaves nothing unread |
| `Wire.Body.Close` | httpclient.go:155 | the body is closed and its cursor is unchanged |
| `HttpClient.New` | httpclient.go:230-243 | missing options mean Debug off; a missing transport means the default one; supplied ones are kept |
| `HttpClient.NewRequest` | httpclient.go:122-131 | the request exists exactly when the URL parses; it has a body exactly when a payload was given (empty or not), and no headers; otherwise the parser's cause is returned |
| `HttpClient.WithCarriedHeader` | httpclient.go:143-145 | a supplied carrier's headers become the request's headers; nothing else about the request changes |
| `HttpClient.Classified` | httpclient.go:193-227 | an arriving response is handed back unchanged exactly when its status is a success; otherwise the error is the one ClassifyFailure gives for its status and body |
| `HttpClient.DoAsWritten` | httpclient.go:182-228 | the step as written: it fails on a nil dereference exactly when the transport delivers no response; a transport failure gives a transport error naming the verb, the URL and the cause; an arriving response is classified exactly as `Classified` does |
| `HttpClient.AsWrittenAgreesElsewhere` | httpclient.go:182-228 | the step as written and the corrected step agree on every exchange except an absent response |
| `HttpClient.DoSpec` | httpclient.go:182-228 | the corrected step (see Findings): success exactly for an arriving response with a 200/201/202/204 status, handed back unchanged; a Status error exactly for any other arriving response, the one ClassifyFailure gives; a transport error exactly for a transport failure, naming the verb, URL and cause; an absent response is handed on as absent |
| `HttpClient.NilResponseUnreachableAsWritten` | httpclient.go:182-198 | as written, an absent response makes the step fail on reading its status, and no exchange ever hands an absent response to the nil check in doRequest |
| `HttpClient.Expected` | httpclient.go:142-180 | the carrier gets a copy of the response headers exactly when one was supplied and the status is a success, whether or not a target was given; no error exactly when the status is a success and either no target was given or the body decodes; a value is decoded exactly then with a target; an absent response gives NilResponse and nothing else; a transport failure gives exactly the transport error naming the sent verb, URL and cause, and a failure status exactly ClassifyFailure's error, in both cases with no headers written and nothing decoded; a success with a target whose decoder rejects the body gives exactly the decode error naming the sent verb and URL, holding the bytes the decoder read (capped at the body's length) and the decoder's cause |
| `HttpClient.CallSpec` | httpclient.go:44-48 | a URL that does not parse yields a construction error naming the verb, with no headers written and nothing decoded |
| `HttpClient.RetriableExactly` | httpclient.go:211-222 | for any verb, a call's error is retriable exactly when a response arrives with status 422, 429, 500, 502, 503 or 504 |
| `HttpClient.StatusKindForEveryVerb` | httpclient.go:206-225 | for any verb, an arriving response with a mapped status yields that row's kind |
| `HttpClient.HeadNeverDecodes` | httpclient.go:44-55 | a HEAD call never fails on decoding, decodes nothing, and succeeds whenever a response with a success status arrives |
| `HttpClient.DecodeErrorNamesRequest` | httpclient.go:167-177 | whenever a success response arrives and the target's decoder rejects the body, the call fails with the decode error for the sent verb and URL, the bytes the decoder read (a prefix of the body) and the decoder's cause, and its text contains the verb, the URL and those bytes |
| `HttpClient.NilResponseReported` | httpclient.go:152-153 | with the step corrected, an absent response yields NilResponse and writes neither headers nor target |
| `HttpClient.Do` | httpclient.go:182-228 | its result is DoSpec's, so it takes the corrected step on an absent response. A success response comes back with a fresh, open, unread body. For any other arriving response the body is read to the end and closed. |
| `HttpClient.DoRequest` | httpclient.go:142-180 | the transport receives the request with the carrier's headers. Error, carrier headers and target value are those Expected gives; otherwise they keep their old values. Any opened body is closed. With no target or a non-success status the body is fully read. With a target the decoder's bytes are consumed. |
| `HttpClient.PerformedIsCallSpec` | httpclient.go:44-180 | what a verb call does to the error, the carrier's headers and the target's value is what CallSpec gives for the call |
| `HttpClient.Execute` | httpclient.go:44-120 | a malformed URL yields a construction error naming the verb and changes nothing; otherwise the call is DoRequest's on the built request |
| `HttpClient.Head` | httpclient.go:44-55 | a HEAD call with the payload given and no decode target |
| `HttpClient.Get` | httpclient.go:57-68 | a GET call with no payload |
| `HttpClient.Post` | httpclient.go:70-81 | a POST call with the payload given |
| `HttpClient.Put` | httpclient.go:83-94 | a PUT call with the payload given |
| `HttpClient.Patch` | httpclient.go:96-107 | a PATCH call with the payload given |
| `HttpClient.Delete` | httpclient.go:109-120 | a DELETE call with the payload given |

## Left out

- Debug dumping of requests and responses (`httputil.DumpRequest`, `DumpResponse`, `log.Printf`): diagnostic output only. The `debug` option is carried but has no effect in the model.
- Context cancellation and deadlines (`req.WithContext`): runtime behaviour of the transport, with no logic in this code.
- The real transport (`http.Client.Do`) and `encoding/json`: foreign code. Both are function parameters.
- URL and method parsing inside `http.NewRequest`: a library call. It is the `parse` parameter. The six verbs are constants and always valid.
- `errors.Join` and `errors.Is` mechanics: the `Error` datatype has a kind plus a retriable flag. The messages render a join as its parts separated by a newline.
- Header key canonicalisation (`Header.Add` and `Header.Get`): part of net/http. Headers are a plain map from key to values.
- Aliasing: the request's header map is the same Go map as the carrier's until the carrier is reassigned, and the client shares the caller's `*Options`. Maps and options are values in the model.
- Read errors from the body: reads in the model never fail, and each read is one step rather than the library's chunked loop. Where the code ignores a read error (`_` when draining or reading the error body), a failed read would show up as a shorter body. On the decode path `dec.Decode` returns the read error and the code wraps it as a decode error (httpclient.go:168-176); in the model that is one of the decoder's `Malformed` results.
- Message texts are character sequences with one character per byte. Go's `%s` copies the raw bytes, so a non-ASCII body (UTF-8 C3 A9, say) is one character in Go's text and two in `Message`.
- HttpClient.Do: models the corrected step, in which an absent response is handed on and then reported as NilResponse by `DoRequest`; the step as written is `HttpClient.DoAsWritten` (see Findings).
- HttpClient.DoRequest: on a decode failure the target keeps its old value. `encoding/json` can leave a partially filled value when the failure is a type mismatch rather than a syntax error.
- Go's `Header.Clone` keeps nil value slices distinct from empty ones. The model's header values are sequences, so it does not capture that distinction.

## Findings

| source | as written | input that shows it | evidently intended | confidence | as-written member | corrected member |
|---|---|---|---|---|---|---|
| httpclient.go:183-198 | `do` reads `resp.StatusCode` (and, with Debug, dumps `resp`) without checking for a nil response. So the nil check in `doRequest` (lines 152-153) can never return `ErrNilResponse`. | a transport that returns no response and no error | an absent response yields `ErrNilResponse` | not executed; `httpClient` is a concrete `*http.Client` (httpclient.go:40), and `net/http`'s `Client.Do` reports a round tripper's (nil, nil) as an error, so no caller can reach this path and the nil check is dead code (`net/http` is not part of this model) | `HttpClient.NilResponseUnreachableAsWritten` | `HttpClient.NilResponseReported` |
