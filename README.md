# SRFax client: request building and reply interpretation

A Dafny model of the `srfax` PHP client class (`srfax.php`), a thin wrapper
around the SRFax web-service API. Each public operation checks and
normalises its arguments, builds a parameter map keyed by the API's field
names, and hands it to the shared call routine. That routine adds the
credentials and the response format, posts the map as JSON, and turns the
decoded reply into a result or an error.

Modules:

- `Wrappers` (`wrappers.dfy`): `Option` and `Result`.
- `Php` (`php.dfy`): the PHP built-ins the checks rely on, written out on
  byte strings. `empty()` on a string is true of `""` and `"0"`. `strtoupper`
  upper-cases ASCII letters. `is_numeric` follows PHP 8's grammar: optional
  surrounding white space, a sign, digits with an optional decimal point, and
  an optional exponent.
- `Api` (`api.dfy`): the decoded JSON value, the request handed to the
  transport, the transport's outcome (`TransportFailure` or `Body`), the
  errors with their exact messages, and `Interpret`, the reply handling of
  `_call` as a total function.
- `SrFax` (`srfax.dfy`): `_set_options`, the argument tests, and the class
  `Client`. Its five fields are `const` (the PHP class writes them only in
  its constructor). Each public operation is a method that builds its
  parameter map step by step, as the source does. Each method returns the
  result and the request it sent, if any. The contracts state which
  argument errors stop a call before anything is sent, what every key of
  the sent request holds, and how the reply becomes the result.
- `Scenarios` (`scenarios.dfy`): calls a client would make, with the
  service's replies fixed. Their assertions are what the contracts give.

The transport and the two library decoders are not modelled. A `Wire`
value supplies them as functions: `send` maps a request to the transport's
outcome, and `jsonDecode` and `base64Decode` stand for PHP's `json_decode`
and `base64_decode`. A `null` from `json_decode` is `JNull`.

Where the class's comments and its code differ, the model follows the code:

- The Queue_Fax comment (srfax.php:116) allows up to 50 pipe-separated
  11-digit recipients. The code only looks at the length: ten characters
  gain a leading `1`, eleven or more are sent unchanged.
- The sender fax message says "Must be 10 digits". The code accepts any
  numeric string of ten characters: `SrFax.SenderFaxAdmitsNonDigits` shows
  that `-`, `+` or a space before nine digits passes.
- The constructor does not check that the credentials are non-empty.

PHP semantics are those of PHP 8:

- `$response->Status == 'Success'` is a loose comparison. A JSON `true`
  Status counts as success; numbers and null do not.
- `is_numeric` accepts trailing white space.
- `base64_decode` on an array or object raises a `TypeError`, modelled as
  `NotAString`.

## Model

| member | source | states |
|---|---|---|
| `Php.IsEmpty` | srfax.php:129 | `empty()` on a string holds only of strings of at most one byte, and that byte is `0`; no string of two or more bytes is empty |
| `Php.UpperChar` | srfax.php:158 | one byte of `strtoupper`: a lower-case ASCII letter becomes its upper-case letter, 32 code points lower; any other byte is unchanged; the result is never a lower-case letter |
| `Php.Upper` | srfax.php:158 | `strtoupper` keeps the length of its argument |
| `Php.UpperAt` | srfax.php:242 | `strtoupper` keeps the length and upper-cases every byte in place |
| `Php.UpperMatchesIgnoringCase` | srfax.php:243 | comparing `strtoupper($s)` with a constant that has no lower-case letters is exactly a case-insensitive comparison, in both directions |
| `Php.DigitsAreNumeric` | srfax.php:140 | every non-empty run of decimal digits is numeric |
| `Php.IsNumeric` | srfax.php:140 | `is_numeric` holds only of non-empty strings that contain at least one digit |
| `Php.SignedDigitsAreNumeric` | srfax.php:140 | a `+` or `-` followed by digits is numeric |
| `Php.SpacedDigitsAreNumeric` | srfax.php:140 | digits after one leading white-space byte are numeric |
| `Php.DigitsThenJunkNotNumeric` | srfax.php:140 | digits followed by a byte that is not a digit, a point, an exponent mark or white space are not numeric |
| `Api.ScalarString` | srfax.php:99 | PHP's string form of a decoded value exists exactly for scalars and null; a string is itself; null is the empty string |
| `Api.Interpret` | srfax.php:85-107 | the reply handling of `_call`: every error is a reply error; raw mode never yields an API failure; a transport error yields `cURL error`; success needs a non-empty body that decodes to something other than null |
| `Api.EmptyBodyFails` | srfax.php:88-106 | a body of `""` or `"0"` fails with the empty-response error in both modes, whatever the decoder |
| `Api.RawReturnsDecodedReply` | srfax.php:89-93 | in raw mode a body yields success exactly when it is non-empty and decodes to something other than null, and the success value is the whole decoded reply |
| `Api.UnwrappedAgreesWithRaw` | srfax.php:91-101 | the normal mode fails as raw mode does; when raw mode succeeds, it yields `Result` if Status is loosely `'Success'` and otherwise fails carrying `Result` |
| `Api.ReplyWithoutStatusFails` | srfax.php:96-99 | outside raw mode, a decoded reply that is not an object, or has no `Status`, fails with an API failure carrying its `Result`, or null when it has none |
| `Api.StatusIsSuccess` | srfax.php:96 | the loose comparison of a Status with `'Success'` holds exactly for the string `Success` and for `true` |
| `Api.Message` | srfax.php:86-106 | the message of a transport error ends with cURL's own text; the message of an API failure ends with the string form of `Result`, or with `Array` when `Result` is an array |
| `SrFax.SetOptions` | srfax.php:42-49 | the caller's options plus `action`; `action` is set to the operation name whatever the caller passed, and every other option is kept unchanged |
| `SrFax.RecipientAccepted` | srfax.php:129-136 | a recipient passes exactly when it has ten characters or more |
| `SrFax.SenderFaxAccepted` | srfax.php:140-141 | the sender fax test passes exactly for numeric strings of ten characters; its `empty()` test never decides anything |
| `SrFax.TenDigitsAccepted` | srfax.php:140-146 | ten decimal digits always pass the sender fax test |
| `SrFax.SenderFaxAdmitsNonDigits` | srfax.php:140 | `-`, `+` or a space before nine digits also passes the sender fax test, which asks for a numeric string of ten characters |
| `SrFax.SenderFaxRefusesDash` | srfax.php:140 | a ten-character sender fax with a dash after its leading digits is refused |
| `SrFax.FaxTypeIgnoresCase` | srfax.php:158-161 | the fax type passes exactly when it spells SINGLE or BROADCAST in any letter case |
| `SrFax.DirectionIgnoresCase` | srfax.php:242-245 | the direction passes exactly when it spells IN or OUT in any letter case |
| `SrFax.ViewedIgnoresCase` | srfax.php:282-285 | the viewed flag passes exactly when it is `y`, `Y`, `n` or `N` |
| `SrFax.DocumentField` | srfax.php:249-255 | exactly one key names the fax: `sFaxDetailsID` holding the id when the id is non-empty, otherwise `sFaxFileName` holding the non-empty file name |
| `SrFax.Client.constructor` | srfax.php:24-34 | the fields hold the arguments, except that an empty URL is replaced by the service endpoint, so the URL is never empty |
| `SrFax.Client.Injects` | srfax.php:61-63 | a request injects the credentials into a map exactly when it goes to the client's URL and holds the map with `access_id`, `access_pwd` and `sResponseFormat=JSON` assigned over it |
| `SrFax.Client.CarriedFields` | srfax.php:59-63 | in a sent request, `action` holds the operation name, the operation's own fields override the caller's options, every other option is passed through, and the credentials are present |
| `SrFax.Client.Call` | srfax.php:57-112 | an empty map sends nothing and yields null; otherwise the sent request goes to the client's URL, carries the map with `access_id`, `access_pwd` and `sResponseFormat=JSON` overriding caller values, and the result is the interpretation of the transport's reply to it |
| `SrFax.Client.QueueFax` | srfax.php:124-166 | checks in order: recipient, sender fax (argument, then default), sender email (argument, then default), fax type. The first failing check ends the call with its error and nothing sent. A request is sent exactly when all pass. It carries the recipient (`"1"`-prefixed when ten characters), the chosen sender fax and email, and the upper-cased fax type over the caller's options. The reply is unwrapped |
| `SrFax.Client.GetFaxStatus` | srfax.php:174-188 | always sends; the action is `Get_MultiFaxStatus` exactly when the id contains a pipe character, otherwise `Get_FaxStatus`; the id is sent unchanged as `sFaxDetailsID` |
| `SrFax.Client.GetFaxUsage` | srfax.php:195-201 | always sends the caller's options under action `Get_Fax_Usage`; the reply is unwrapped |
| `SrFax.Client.GetFaxInbox` | srfax.php:208-214 | always sends the caller's options under action `Get_Fax_Inbox`; the reply is unwrapped |
| `SrFax.Client.GetFaxOutbox` | srfax.php:221-227 | always sends the caller's options under action `Get_Fax_Outbox`; the reply is unwrapped |
| `SrFax.Client.RetrieveFax` | srfax.php:237-259 | a bad direction, then a missing id and file name, end the call with nothing sent. Otherwise the upper-cased direction and exactly one document key are sent. A reply failure is passed on. A scalar `Result` is given to `base64_decode`; an array or object `Result` fails |
| `SrFax.Client.UpdateViewedStatus` | srfax.php:270-299 | checks the direction, then the viewed flag, then that an id or file name is given. The first failure ends the call with nothing sent. Otherwise it sends the upper-cased direction and flag and exactly one document key, and unwraps the reply |
| `SrFax.Client.DeleteFax` | srfax.php:309-331 | a bad direction, then a missing id and file name, end the call with nothing sent; otherwise the upper-cased direction and exactly one document key are sent and the reply is unwrapped |
| `SrFax.Client.StopFax` | srfax.php:350-357 | always sends the id as `sFaxDetailsID` under action `Stop_Fax`; the whole decoded reply is returned whatever its Status, so it never fails with an API failure |

## Left out

- The cURL exchange (srfax.php:67-109) is not modelled: the POST, the
  TLS-verification settings, the 60-second timeout, fresh connections and
  closing the handle. `Wire.send` gives the transport's outcome for a
  request.
- `json_encode` (srfax.php:64) is not modelled. The request is the
  parameter map itself, so key order and the JSON text of the body are not
  modelled.
- `json_decode` (srfax.php:89) and `base64_decode` (srfax.php:258) are
  library codecs, supplied as functions. No base64 round trip is claimed:
  PHP's decoder is lenient.
- A decoded number is held as its PHP string form (`JNum`). How PHP prints
  floats is not modelled.
- PHP `null` arguments are represented by `""`. Every check in the class
  treats them alike. Only the JSON body would differ: a `null` id passed to
  Get_FaxStatus or Stop_Fax is sent as JSON `null`, and the model sends `""`.
- PHP default arguments are not modelled. Callers pass `"SINGLE"` for the
  default fax type, `""` for a `null` default and `map[]` for `array()`.
- Options that are not arrays, which `_set_options` ignores, are not
  modelled. Neither are option values that are not strings: `Params` maps
  strings to strings.
- An object `Result` in an API failure raises a PHP `Error`, not an
  `Exception`. The model gives it as an `ApiFailure` whose message is that
  `Error`'s text.
- PHP 7 differs from the PHP 8 semantics modelled here in three places.
  Under PHP 7, `0 == 'Success'` is true, so a numeric Status of 0 would
  count as success. A string with trailing white space is not numeric. And
  `base64_decode` on an array returns null with a warning, where PHP 8
  raises the `TypeError` modelled as `NotAString`.
- example/example.php is not part of this model. It is command-line
  plumbing: options, environment variables, file I/O and printing.
