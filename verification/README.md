# fluent-test request builder, modelled in Dafny

This project models `RequestBuilder`, the fluent builder of the `nebkam/fluent-test`
PHP helper library. A test calls the builder to set up a request: method, URI,
server/header entries, Basic-Auth credentials, body, files and parameters. It then
calls `getResponse`, which hands the request to Symfony's in-process test client.

The model is functional:

- A builder is an immutable `Builder` record. Each fluent call is a pure
  transition that returns the next record.
- A call that can throw returns a `Result`. The `LogicException` of
  `setCredentials` is the `LogicException` failure. A rejected `sprintf` is
  `FormatFailure`.
- The static `CLEAR_CREDENTIALS_AFTER_REQUEST` flag is process-wide in the
  PHP class. Here it lives in a `World` value that every builder shares.
- The test client is abstracted as the `sent` field of `World`: an append-only
  trace of the `request(...)` calls it received, each with the client it went to.
  `getResponse` appends the builder's current snapshot, and only then strips the
  credentials if the flag is armed.
- A whole fluent chain is `Run`: calls applied in order, the first exception
  ending the chain.

Files:

- `wrappers.dfy`: `Option` (PHP's nullable values) and `Result` (return or throw).
- `decimal.dfy`: the decimal numeral `sprintf` writes for `%d`, and a parser that inverts it.
- `uri_format.dfy`: the restricted `sprintf` used by `setUri`, with two views of it:
  - an operational one, `Format`;
  - a declarative one: a template is a sequence of literal pieces and slots, and
    the slots are filled in order.
- `request_builder.dfy`: the builder record, the world, every fluent call, and the chain runner.
- `builder_laws.dfy`: properties that relate several calls. These cover the test
  suite's URIs, header overwrites, credential round trips, and the one-shot and
  shared-flag behaviour of `getResponse`.

## Behaviour of the code worth knowing

- `getResponse` does not check that a method and a URI were set. A request with
  `null` method or URI is handed to the client as it is: `Request.httpMethod` and
  `Request.uri` are `Option`s.
- A second `getResponse` after `useCredentialsOnce` does not fail. It sends the
  request without credentials (`OnceCredentialsLastOneRequest`).
- The flag is process-wide, not per builder (`FlagIsShared`).
- `useCredentialsOnce` arms the flag before it resolves the credentials, so a
  throwing call leaves the flag armed (`FailedOnceStillArms`).

## Model

| member | source | states |
|---|---|---|
| Decimal.NatToString | src/RequestBuilder.php:114 | the numeral `%d` prints for a non-negative value is non-empty, all digits, has no leading zero, and has one digit exactly when the value is below ten |
| Decimal.IntToString | src/RequestBuilder.php:114 | the numeral of an integer starts with `-` exactly when the integer is negative, and is all digits otherwise |
| Decimal.ParseNatToString | src/RequestBuilder.php:114 | reading back the numeral of a natural number gives the number |
| Decimal.ParseIntToString | src/RequestBuilder.php:114 | reading back the numeral of any integer gives the integer, so `%d` loses nothing |
| Decimal.IntToStringInjective | src/RequestBuilder.php:114 | distinct integers put distinct text into the URI |
| UriFormat.FormatIsParseRender | src/RequestBuilder.php:112-114 | formatting succeeds exactly when the template parses into literals and `%d`/`%s` slots and the arguments fit those slots in order; the result is then the slots filled left to right |
| UriFormat.ParseUnparse | src/RequestBuilder.php:114 | every sequence of pieces is read back from its spelling as a template |
| UriFormat.UnparseParse | src/RequestBuilder.php:114 | a template that parses is exactly the spelling of its pieces |
| UriFormat.FormatFillsSlots | src/RequestBuilder.php:112-114 | placeholders are replaced in order: the spelling of pieces, formatted with fitting arguments, yields the pieces with their slots filled |
| UriFormat.FitsIffEnoughArguments | src/RequestBuilder.php:114 | with integer arguments, formatting has what it needs exactly when there are at least as many arguments as placeholders |
| UriFormat.ExtraArgumentsIgnored | src/RequestBuilder.php:114 | arguments beyond the placeholders do not change the result |
| UriFormat.PlainTemplateUnchanged | src/RequestBuilder.php:114 | a template without `%` formats to itself whatever the arguments |
| UriFormat.PlainPrefixCopied | src/RequestBuilder.php:114 | text before the first directive is copied to the output unchanged |
| UriFormat.IntDirectiveConsumesArgument | src/RequestBuilder.php:114 | a leading `%d` consumes the first argument and prints it in decimal, and the rest of the template is formatted with the remaining arguments |
| UriFormat.StrDirectiveConsumesArgument | src/RequestBuilder.php:114 | a leading `%s` consumes the first argument and prints it as text, and the rest of the template is formatted with the remaining arguments |
| RequestBuilder.HttpHeaderKey | src/RequestBuilder.php:153-155 | the entry name of an HTTP header is `HTTP_` followed by the header name, and the header name can be read back from it |
| RequestBuilder.Create | src/RequestBuilder.php:64-73 | a new builder has the given client, empty server/files/parameters, and nothing else set |
| RequestBuilder.SetClient | src/RequestBuilder.php:79-84 | binds the client; every other field, and so the request the builder describes, is unchanged |
| RequestBuilder.SetMethod | src/RequestBuilder.php:98-103 | the next request carries the given method; every other field of the builder is unchanged |
| RequestBuilder.SetUri | src/RequestBuilder.php:110-122 | with no arguments the template is stored verbatim (even one with directives); with arguments it succeeds exactly when formatting succeeds and stores the formatted URI; it fails only with a format failure |
| RequestBuilder.SetContent | src/RequestBuilder.php:128-133 | the next request carries the given body; every other field of the builder is unchanged |
| RequestBuilder.SetHeader | src/RequestBuilder.php:165-172 | the literal key now maps to the value, the key set grows by at most that key, and every other entry and field is unchanged |
| RequestBuilder.SetHttpHeader | src/RequestBuilder.php:151-158 | `HTTP_`+key now maps to the value, and every other entry and field is unchanged |
| RequestBuilder.UnsetHeaders | src/RequestBuilder.php:177-182 | the server map becomes empty, and every other field is unchanged |
| RequestBuilder.SetFiles | src/RequestBuilder.php:188-193 | the next request carries the given files map wholesale; every other field of the builder is unchanged |
| RequestBuilder.SetParameters | src/RequestBuilder.php:199-204 | the next request carries the given parameters map wholesale; every other field of the builder is unchanged |
| RequestBuilder.SetDefaultUsername | src/RequestBuilder.php:218-223 | replaces the fallback username; every other field, the client and the request included, is unchanged |
| RequestBuilder.SetDefaultPassword | src/RequestBuilder.php:237-242 | replaces the fallback password; every other field, the client and the request included, is unchanged |
| RequestBuilder.Resolve | src/RequestBuilder.php:268-269 | the falsy arguments `null`, `""` and `"0"` are replaced by the default; every other argument is used as given |
| RequestBuilder.ResolveCredentials | src/RequestBuilder.php:265-279 | resolution succeeds exactly when both username and password resolve to non-null values; an unresolved username throws the username message whatever the password, and otherwise an unresolved password throws the password message |
| RequestBuilder.SetCredentials | src/RequestBuilder.php:265-284 | fails exactly when resolution fails, with the same exception and no change; on success exactly `PHP_AUTH_USER` and `PHP_AUTH_PW` are written with the resolved values, and nothing else changes |
| RequestBuilder.UseCredentialsOnce | src/RequestBuilder.php:251-256 | arms the shared flag whatever happens next, sends nothing, and otherwise behaves as `setCredentials` |
| RequestBuilder.UnsetCredentials | src/RequestBuilder.php:289-301 | removes exactly the two credential entries, and keeps every other entry and field |
| RequestBuilder.GetResponse | src/RequestBuilder.php:306-319 | appends the builder's snapshot, credentials included, to the trace, and wraps the response to that request; when the flag was armed it strips the credentials, otherwise the builder is unchanged; the flag is disarmed afterwards |
| RequestBuilder.Apply | src/RequestBuilder.php:306-308 | only `getResponse` adds to the trace, adding exactly one request when it succeeds; it fails exactly when no client is bound |
| RequestBuilder.Run | src/RequestBuilder.php:306-319 | over a whole chain the trace is only ever extended, by at most one request per `getResponse`, and by exactly that many when nothing throws |
| BuilderLaws.IntThenPlain | src/RequestBuilder.php:114 | `%d` followed by plain text, given one integer, prints the numeral followed by the text |
| BuilderLaws.PlainThenStr | src/RequestBuilder.php:114 | plain text followed by `%s`, given one argument, prints the text followed by the argument |
| BuilderLaws.PlainIntPlain | src/RequestBuilder.php:114 | a template shaped text-`%d`-text, given one integer, prints the numeral in the placeholder's place |
| BuilderLaws.IntPlainStr | src/RequestBuilder.php:114 | a template shaped `%d`-text-`%s` prints the integer and then the second argument in their places |
| BuilderLaws.PlainIntPlainStr | src/RequestBuilder.php:114 | a template shaped text-`%d`-text-`%s` prints the integer and then the second argument in their places |
| BuilderLaws.OnePlaceholderUri | tests/RequestBuilderTest.php:27-32 | `/v5/places/%d/basic` with 54 formats to `/v5/places/54/basic` |
| BuilderLaws.TwoPlaceholderUri | tests/RequestBuilderTest.php:37-42 | `/v5/places/%d/basic/%s` with 54 and `NY` formats to `/v5/places/54/basic/NY` |
| BuilderLaws.TestSuiteUris | tests/RequestBuilderTest.php:17-42 | `setUri` stores the three URIs the test suite expects |
| BuilderLaws.PlainUriIgnoresArguments | src/RequestBuilder.php:110-122 | a template without `%` is stored as written, with or without arguments |
| BuilderLaws.EmptyArgumentsKeepDirectives | src/RequestBuilder.php:112-119 | on one fixed template, as an illustration: an empty argument list takes the verbatim branch and keeps `%d` in the URI, while one argument fills it |
| BuilderLaws.HeaderLastWriteWins | src/RequestBuilder.php:165-172 | writing a key twice is the same as writing only the second value |
| BuilderLaws.HeaderWritesCommute | src/RequestBuilder.php:165-172 | writes to different keys can be done in either order |
| BuilderLaws.HttpHeaderIsNotCredential | src/RequestBuilder.php:151-158 | no HTTP header name can overwrite `PHP_AUTH_USER` or `PHP_AUTH_PW` |
| BuilderLaws.HttpHeaderKeyInjective | src/RequestBuilder.php:153-155 | different header names are stored under different entries |
| BuilderLaws.UnsetCredentialsKeepsHttpHeaders | src/RequestBuilder.php:289-301 | clearing credentials and setting an HTTP header can be done in either order |
| BuilderLaws.UnsetHeadersRemovesCredentials | src/RequestBuilder.php:177-182 | after `unsetHeaders` no credentials remain, and `unsetCredentials` has nothing left to do |
| BuilderLaws.FalsyArgumentsFallBack | src/RequestBuilder.php:268-269 | passing `""` or `"0"`, as username or as password, is the same as passing nothing |
| BuilderLaws.DefaultsFillInCredentials | src/RequestBuilder.php:218-242 | defaults set through the two default setters are the credentials an argument-less `setCredentials` writes |
| BuilderLaws.ClearedDefaultThrows | src/RequestBuilder.php:218-223 | setting the default username back to `null` makes an argument-less `setCredentials` throw the username message |
| BuilderLaws.NoCredentialsAnywhereThrows | src/RequestBuilder.php:271-274 | with neither an argument nor a default username, `setCredentials` throws the username message |
| BuilderLaws.EmptyDefaultsAccepted | src/RequestBuilder.php:268-281 | empty-string defaults are not `null`: they are accepted and written as empty credentials |
| BuilderLaws.ExplicitCredentialsWin | src/RequestBuilder.php:268-281 | truthy explicit credentials are written whatever the defaults |
| BuilderLaws.SetThenUnsetCredentials | src/RequestBuilder.php:280-301 | `unsetCredentials` undoes `setCredentials`: what is left equals what would be left without it |
| BuilderLaws.UnsetCredentialsIdempotent | src/RequestBuilder.php:289-301 | removing credentials twice is removing them once |
| BuilderLaws.UnsetCredentialsWithoutCredentials | src/RequestBuilder.php:291-298 | without credential entries `unsetCredentials` changes nothing |
| BuilderLaws.OnceCredentialsLastOneRequest | src/RequestBuilder.php:306-316 | credentials given once travel with the next request, are gone from the builder afterwards with the flag disarmed, and are absent from the request after that |
| BuilderLaws.PersistentCredentials | src/RequestBuilder.php:306-319 | with the flag disarmed, credentials from `setCredentials` stay in the builder and travel with two consecutive requests |
| BuilderLaws.FlagIsShared | src/RequestBuilder.php:306-316 | arming the flag through one builder makes the next request of another builder carry, and then lose, that builder's credentials |
| BuilderLaws.FailedOnceStillArms | src/RequestBuilder.php:251-256 | a `useCredentialsOnce` that throws still leaves the flag armed, so the next request strips persistent credentials |
| BuilderLaws.FreshProcessKeepsCredentials | src/RequestBuilder.php:58 | the flag starts disarmed, so the first request of a process leaves the builder, credentials included, unchanged |
| BuilderLaws.SettersReachTheRequest | src/RequestBuilder.php:98-204 | the request sent carries exactly the method, body, files and parameters last set, with the URI and headers unchanged |
| BuilderLaws.RunSnoc | src/RequestBuilder.php:306-319 | running a chain and then one more call is running the longer chain, unless the chain threw |
| BuilderLaws.ChainEndingInDispatchDisarms | src/RequestBuilder.php:312-316 | a chain that ends in a successful `getResponse` leaves the flag disarmed and has sent at least one request |
| BuilderLaws.OnceChain | src/RequestBuilder.php:251-319 | the chain `useCredentialsOnce(u, p)` then `getResponse` sends `u` and `p` and leaves no credentials behind |

## Left out

- `ResponseWrapper` (src/ResponseWrapper.php) is not modelled. Its predicates delegate to Symfony's `Response`, and `getJsonContent` is `json_decode`. `GetResponse` records only which request the wrapped response answers (`responseTo`).
- `setJsonContent` is not modelled because it is PHP's `json_encode`. The body is an opaque string set by `setContent`.
- `getClient`, `getDefaultUsername` and `getDefaultPassword` are plain reads of the record's fields.
- The Symfony test client, kernel and routing are not modelled. The client is the trace of requests it receives.
- GetResponse: the client's `request` call is assumed to return. If it threw (an exception passed up from the application under test), the PHP code would skip the clean-up at src/RequestBuilder.php:312-316, leaving the flag armed and the credentials in the builder. The model's promise that the flag is disarmed afterwards holds only for a request that returns, because the client is abstracted as a trace that cannot fail.
- `GetResponse` requires a bound client. The chain runner `Apply` models the PHP `Error` from calling a method on `null` as `NullClient`.
- SetUri: the formatter supports only `%d`, `%s` and `%%`, not full `sprintf`. Padding, precision, argument numbering and other conversions are treated as a format failure, though PHP would honour them.
- SetUri: `%d` given a string argument is treated as a format failure. PHP would convert the string to a number.
- SetUri: the different `sprintf` errors (too few arguments, unknown specifier, trailing `%`) are one `FormatFailure`, and which one PHP reports first is not modelled. The model follows PHP 8, where `sprintf` throws; PHP 7's `false` return is not modelled.
- Decimal.IntToString: integers are unbounded. PHP's 64-bit integers and their overflow to float are not modelled.
- SetHeader: the server array's insertion order is not modelled, since it is a map.
- SetHeader: `array_merge` renumbers integer-like keys, and this is not modelled. Header names are assumed to be non-numeric strings.
- `files` and `parameters` are maps from field name to an opaque string. Their PHP values (uploaded-file objects, nested arrays) are never inspected.
- ResolveCredentials: credential arguments and defaults are nullable strings. PHP would also accept other truthy or falsy values, such as integers or `false`.
