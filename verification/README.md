# Cleaning-quote eligibility gate

A Dafny model of the submission handler for cleaning-quote requests
(`POST /cleaning-quote`) of the MUSE.holiday webshop backend. The handler
reads `region`, `name`, `email`, `apartmentId` and `dateISO` from the request
body and runs three checks in a fixed order:

1. the region must be exactly `"Val Gardena"`;
2. the apartment ID, after `String(apartmentId || '')`, must match
   `/^[A-Za-z0-9]{4,5}$/`;
3. the date must pass `is72hBeforeMidnight`.

The first failing check is answered with status 400, `success: false` and
that check's own Italian message. Only when all three pass does the handler
build the payload (`type: "cleaning-quote"` plus the request fields and
`requestedAt`), sign it into the decision-link token, and reply
`{ success: true }`.

Modules:

- `Wrappers` (`wrappers.dfy`): `Option`, used for request-body fields that
  may be absent (`None` stands for `undefined`).
- `ApartmentId` (`apartment_id.dfy`): the regular expression as a
  backtracking JavaScript engine runs it under `test`. The engine tries every
  start position. `^` holds only at position 0. `[A-Za-z0-9]{4,5}` is
  consumed greedily and then given back one character at a time. `$` holds
  only at the very end of the input, because the expression has no `m` flag.
  This engine model is proved equal to the declarative format: four or five
  characters, all ASCII letters or digits.
- `CleaningQuote` (`cleaning_quote.dfy`): the request, payload, outcome and
  reply datatypes, the validation chain `Submit`, and the reply mapping
  `ReplyOf`. `Submit` is specified through `Passes`, which states each check
  declaratively: the result is the rejection of the first failing check, and
  a payload and token exist exactly when all checks pass.

The helpers the handler calls without defining them are parameters of
`Submit`. `leadTimeOk: Option<string> -> bool` stands for
`is72hBeforeMidnight` applied to `dateISO`. `sign: Payload -> string` stands
for `signToken`. `now: int` is the `Date.now()` reading. Every lemma holds
for all choices of these parameters.

## Model

| member | source | states |
|---|---|---|
| ApartmentId.GreedyRun | server.js:11 | The greedy phase of `[A-Za-z0-9]{4,5}` consumes at most the quantifier's maximum. Every consumed character is in the class. It stops early only at the end of the input or at a character outside the class. |
| ApartmentId.Backtrack | server.js:11 | Giving back characters down to the minimum of 4 lets `$` match exactly when the remaining input length lies between 4 and the number consumed. |
| ApartmentId.MatchAt | server.js:11 | A match attempt can succeed only at position 0, because `^` without the `m` flag anchors at the start of the input. |
| ApartmentId.TestFrom | server.js:11 | Scanning the start positions finds a match exactly when the attempt at position 0 succeeds. |
| ApartmentId.MatchAtStartIffWellFormed | server.js:11 | The attempt at position 0 succeeds exactly on strings of length 4 or 5 whose characters are all in `[A-Za-z0-9]`. |
| ApartmentId.Test | server.js:11 | `/^[A-Za-z0-9]{4,5}$/.test(id)` accepts an ID if and only if its length is 4 or 5 and every character is an ASCII letter or digit. |
| ApartmentId.TrailingNewlineRejected | server.js:11 | Any string followed by a newline fails the test, because `$` does not match before a final newline. |
| ApartmentId.ForeignCharRejected | server.js:11 | A single character outside `[A-Za-z0-9]` anywhere in the input makes the test fail. |
| ApartmentId.WrongLengthRejected | server.js:11 | Inputs shorter than 4 or longer than 5 characters fail the test, whatever their characters. |
| CleaningQuote.CoerceId | server.js:11 | `String(apartmentId \|\| '')` turns an absent ID into the empty string and keeps a present string ID unchanged. |
| CleaningQuote.Message | server.js:8-18 | Each rejection is paired with its own fixed message, in both directions: the region message is given exactly for the region rejection, the ID message exactly for the ID rejection, and the lead-time message exactly for the lead-time rejection. |
| CleaningQuote.BuildPayload | server.js:23-28 | The payload has `type = "cleaning-quote"` and `requestedAt` equal to the clock reading. It carries `region`, `name`, `email`, `apartmentId` and `dateISO` unchanged from the request. |
| CleaningQuote.Submit | server.js:4-29 | The outcome is accepted if and only if every check passes. A rejection names a failing check, and every check ranked before it passes, so the result is the first failure in the order region, ID, lead time. An accepted outcome carries the payload built from the request and the signer's token for exactly that payload. |
| CleaningQuote.ReplyOf | server.js:7-33 | A rejection is answered with status 400, `success: false` and that rejection's message. An acceptance is answered with status 200, `success: true` and no error. |
| CleaningQuote.WrongRegionRejected | server.js:7-9 | Any region other than exactly `"Val Gardena"`, including an absent one, is rejected with the region error, whatever the other fields and helpers are. |
| CleaningQuote.IdGate | server.js:11-13 | Once the region passes, the ID error is returned exactly when the coerced ID is not 4 or 5 characters of `[A-Za-z0-9]`. |
| CleaningQuote.MissingIdRejected | server.js:11-13 | An absent or empty apartment ID is coerced to the empty string and rejected with the ID error. |
| CleaningQuote.TrailingNewlineIdRejected | server.js:11-13 | An apartment ID ending in a newline is rejected with the ID error. |
| CleaningQuote.LeadTimeGate | server.js:15-20 | With the region and ID valid, the lead-time error is returned exactly when the lead-time predicate is false for the request's date. |
| CleaningQuote.RegionFailureIgnoresLaterChecks | server.js:7-20 | On a region failure, the outcome does not depend on the ID, the date, the lead-time predicate, the signer or the clock. |
| CleaningQuote.IdFailureIgnoresLeadTime | server.js:11-20 | On an ID failure, the outcome is the ID error whatever the date, the lead-time predicate, the signer or the clock. |
| CleaningQuote.RejectionIndependentOfSigner | server.js:7-29 | Whether a request is rejected, and why, is the same for every signer and every clock reading, so no rejection path consults `signToken`. |
| CleaningQuote.ReplyMatchesEligibility | server.js:7-33 | The reply reports `success: true` exactly when all checks pass. Every other reply has status 400. |
| CleaningQuote.MessagesDistinct | server.js:8-18 | The three rejections carry three different messages. |
| CleaningQuote.Examples | server.js:7-29 | `AB1`, `ABCDEF`, `AB 1` and `A123` followed by a newline fail the ID test, while `A123` and `zz9Z0` pass. A "Val Gardena" request with ID `A123` is accepted when the lead-time predicate holds. A "Garda" request is rejected with the region error. |

## Left out

- The background e-mail dispatch (`setImmediate`, `transporter.sendMail`, server.js:36-73): asynchronous I/O whose failures are only logged and never reach the reply.
- The HTML bodies and subjects of the two e-mails (server.js:39-68): string templating with no contract.
- The decision URL `BASE_URL/quote/decision?token=…` (server.js:30): it only feeds the e-mail to the owner, which is left out.
- The body of `is72hBeforeMidnight`: it is not part of this model and depends on the wall clock and time zones. It is the opaque parameter `leadTimeOk`.
- `signToken` and its HMAC: they are not part of this model. Signing is the opaque parameter `sign`.
- `Date.now()` (server.js:27): a clock read, taken as the parameter `now`.
- The 500 reply on an exception and the `headersSent` test (server.js:74-80): Express response-state detail. The model assumes the helpers return normally and that the request has a body, so the throw of the destructuring at server.js:4 when `req.body` is absent is not modelled either.
- JavaScript coercion of non-string body values: fields are either absent or strings. For example, a numeric `apartmentId` such as `1234` passes `String(...)` in the source but is not representable here.
- Character encoding: Dafny characters are Unicode scalar values, while JavaScript strings are UTF-16 code units. This does not change which IDs are accepted, because every character outside the ASCII class is rejected either way.
