# sbanken-cli in Dafny

A model of the core of `sbanken-cli`, a command-line client for Sbanken's REST
banking API. The model covers six parts:

- the decisions `main` makes before and between its requests;
- the request descriptions sent to the identity server and the bank;
- the form encoding of the client credentials;
- the RFC 3339 rendering of the transaction window;
- the `Display` renderings of the API's entities and of the error type;
- the interactive account picker: its input, the hand-written matcher for
  its one regular expression, the account lookup and the in-place removal
  of the source account.

Nothing is executed. The network, the JSON decoders, the JSON serialiser,
fzf, stdin, the clock, chrono's date parser and the float parser are all
inputs to the model:

- **Network.** The `Http` record in `authorize.dfy` holds client building,
  sending and token decoding. Each of them may fail.
- **JSON decoders.** The `Decoders` record in `bank.dfy`.
- **Everything else.** The `World` record in `app.dfy`.

Every operation that talks to the bank returns, as an ordinary output, the
requests it sent, in order, with the headers the program sets. This lets
the contracts say which requests are sent and which are not.

## Files

| file | module | models |
|---|---|---|
| wrappers.dfy | `Wrappers` | `Option`, `Result`, the `i32` range |
| strings.dfy | `Strings` | line splitting; decimal rendering and parsing of an `i32` (`to_string`, `parse::<i32>`) |
| errors.dfy | `Errors` | `src/core/error.rs` |
| entities.dfy | `Entities` | `src/core/entities.rs` |
| formencode.dfy | `FormEncoding` | UTF-8 and the `application/x-www-form-urlencoded` byte serializer (section 5.2 of the WHATWG URL Standard) that `byte_serialize` implements |
| datetime.dfy | `DateTime` | the proleptic Gregorian calendar on day numbers, and `to_rfc3339_opts(SecondsFormat::Secs, true)` (section 5.6 of RFC 3339) |
| interactive.dfy | `Interactive` | `src/core/interactive.rs` |
| authorize.dfy | `Authorize` | `src/core/authorize.rs`, with `src/core/credentials.rs` as a record |
| bank.dfy | `Bank` | `src/core/bank.rs` and `src/core/customers.rs` |
| app.dfy | `App` | `main` in `src/main.rs` |

### How the source's forms are kept

- **Mutated collections.** `remove_account` works on a `Vec` that it
  changes in place. So does the interactive transfer in `main`. Both are
  modelled as methods over the class `Interactive.AccountVec`.
- **Header maps.** The hyper header maps built by `set` calls are modelled
  as the class `Authorize.HeaderMap`.
- **Loops.** The formatter loops become methods with loop invariants, each
  proved equal to a recursive string function:
  - `WriteItems` and `WriteCustomer`;
  - the picker's `push_str` loop, `BuildPickerInput`;
  - the lookup loop, `LookupAccount`;
  - the account listing, `ListAccounts`.
- **Straight-line writes.** The `writeln!` sequence of the transaction
  renderer is the method `WriteTransaction`, one statement per line written.
- **Query map.** The `insert` calls of `get_transactions` are modelled as
  `TransactionParams`.
- **Subcommands.** Each subcommand of `main` is a method whose contract ties
  its result and the requests it sends to a function of the inputs
  (`TransactionOutcome`, `TransferOutcome`, `AccountOutcome`,
  `CustomerOutcome`), and `Run` is tied to their dispatch, `Dispatch`.

### Behaviour worth noting

- **No `Accept` header set for API requests.** `construct_headers` sets
  `Content-Type: application/json` and no `Accept` header; only the token
  client's headers set `Accept`. `Authorize.ApiHeadersShape` proves that the
  map the program builds has no `Accept` entry. Whatever the HTTP library
  adds on its own is not modelled (see "Left out").
- **Fixed refusal message.** When a transfer answer has `is_error` set, the
  error is the fixed `Message("couldn't perform your transfer")`. The bank's
  `error_message` is not shown. `App.RefusalIgnoresDetails` proves that the
  result does not depend on the bank's error text or error type.
- **Length error message.** The `--length` error message is "given value for
  length couldn't be parsed to integer", as written in `main`.

## Model

| member | source | states |
|---|---|---|
| Interactive.RemoveAccount | src/core/interactive.rs:50-65 | the vector's new contents are the old ones with only the first account of that id removed, and the very vector given is returned |
| Interactive.AccountVec.Remove | src/core/interactive.rs:61-63 | `Vec::remove` drops exactly the element at the index and keeps the others in order |
| Interactive.RemoveFirstNoMatch | src/core/interactive.rs:61-63 | with no account of that id the list is unchanged |
| Interactive.RemoveFirstAt | src/core/interactive.rs:55-62 | when index k holds the first match, the result is everything before k followed by everything after k, so survivors keep their order and later duplicates stay |
| Interactive.RemoveFirstCounts | src/core/interactive.rs:61-62 | when a match exists the length drops by exactly one and exactly one account of that id disappears |
| Interactive.CountIdPositive | src/core/interactive.rs:55-60 | an id is counted exactly when some account carries it |
| Interactive.BuildPickerInput | src/core/interactive.rs:19-25 | the `push_str` loop produces each account's `name\t\t[nr: number]` entry followed by a newline, in list order |
| Interactive.PickerInputLines | src/core/interactive.rs:19-25 | when names and numbers hold no newline, the picker input has exactly one line per account, in order, then nothing after the last newline |
| Interactive.LineCapture | src/core/interactive.rs:33 | no contract of its own; the matcher on one line, characterised by `Interactive.LastOccurrence` and `Interactive.LabelCapture` |
| Interactive.FirstCapture | src/core/interactive.rs:33 | no contract of its own; the first line with a capture wins, characterised by `Interactive.PickerRoundTrip` |
| Interactive.Capture | src/core/interactive.rs:33 | no contract of its own; `captures` on fzf's output, characterised by `Interactive.PickerRoundTrip` and `Interactive.NoBracketCapturesNothing` |
| Interactive.LastOccurrence | src/core/interactive.rs:33 | the matcher's candidate position is an occurrence of `[nr: <word>]` with at least one character before it, and the last such; none means there is no such occurrence |
| Interactive.LabelCapture | src/core/interactive.rs:21-23 | matching one rendered entry captures exactly that account's number when the number is a non-empty run of word characters |
| Interactive.PickerRoundTrip | src/core/interactive.rs:33 | a line rendered for an account, followed by anything, yields that account's number |
| Interactive.NoBracketCapturesNothing | src/core/interactive.rs:33-37 | any picker output without a `[`, the empty output of a cancelled pick among them, captures nothing, so it takes the capture-error path |
| Interactive.PickNoCapture | src/core/interactive.rs:34-47 | `Message("couldn't find a capture")` is the result exactly when the output holds no match; a failed lookup reports `NoAccountFound` instead, whatever the accounts |
| Interactive.FindNumber | src/core/interactive.rs:39-47 | the index found holds the number and no earlier account does; none found means no account has it |
| Interactive.LookupAccount | src/core/interactive.rs:39-47 | the loop returns the first account with the captured number, otherwise `NoAccountFound("Could not an account")` |
| Interactive.PickResult | src/core/interactive.rs:33-47 | no contract of its own; the capture then the lookup, characterised by `Interactive.FuzzyMatchAccount`, `Interactive.PickLine` and `Interactive.PickNoCapture` |
| Interactive.FuzzyMatchAccount | src/core/interactive.rs:7-48 | the input handed to fzf is the picker input, and the result is the lookup of what the matcher captures from fzf's output under the header |
| Interactive.PickLine | src/core/interactive.rs:39-44 | choosing an account's line gives an account with that number, and that very account when numbers are distinct |
| App.ColorEnabled | src/main.rs:58-66 | colour is on exactly when SBANKEN_COLOR is "1" or the flag is given |
| App.LoadCredentials | src/main.rs:68-89 | credentials are built exactly when all three variables are set; otherwise the error names the first missing one in the order secret, client id, customer id |
| App.ParseLength | src/main.rs:136-142 | absent gives 20; a given value is accepted exactly when it parses as an i32, else `Parsable("given value for length couldn't be parsed to integer")` |
| App.LengthReadsDecimal | src/main.rs:137-138 | every i32's decimal text is read back as that length |
| App.TransactionWindow | src/main.rs:144-156 | an accepted window starts no later than it ends |
| App.WindowRejection | src/main.rs:154-156 | refused with "end_date was earlier than start date" exactly when both ends are known and end < start; accepted exactly when they are known and start <= end |
| App.WindowEnd | src/main.rs:144-147 | no contract of its own; characterised by `App.WindowOfDays`, `App.WindowDefaultStart` and `App.WindowDateErrors` |
| App.WindowStart | src/main.rs:149-152 | no contract of its own; characterised by `App.WindowOfDays`, `App.WindowDefaultStart` and `App.WindowDateErrors` |
| App.WindowOfDays | src/main.rs:144-156 | with both days given the window is the first second of the from-day to the last second of the to-day (rendered `T00:00:00Z` and `T23:59:59Z`), refused exactly when the to-day is earlier |
| App.WindowDefaultStart | src/main.rs:149-152 | without `--from` the start is thirty days before the end, and with no dates that end is now |
| App.WindowDateErrors | src/main.rs:145-150 | a date that does not parse gives the single date-format message; `--to` is looked at first |
| App.Lift | src/main.rs:177 | `?` on a request wraps a reqwest error as `Reqwest`, keeping it as the cause |
| App.TransactionOutcome | src/main.rs:135-178 | no contract of its own; the specification of `App.TransactionCommand`, characterised by `App.TransactionOnBehalfOf` |
| App.TransactionCommand | src/main.rs:135-178 | the result and the requests are exactly `TransactionOutcome`: the length and window are checked before any request, and a failure there sends nothing; non-interactive without an account is `Parsable("account wasn't parsable")` and sends nothing; interactive fetches the accounts, picks under "Select from_account" and queries that account's id; the transaction query carries the length and the window |
| App.TransferFromArgs | src/main.rs:207-239 | the request is built exactly when from, to, amount and message are present and the amount parses, with those fields; a missing argument is reported as the first missing in the order from, to, amount, message; an unparsable amount is a `Parsable` error even if the message is missing |
| App.PickAccounts | src/main.rs:188-200 | the source is picked from all accounts under "Select from_account", and the destination from the list with the source's id removed in place, under "Select to_account"; each failure stops the pick |
| App.DestinationIsNotSource | src/main.rs:194-200 | with distinct account ids the destination picked can never be the source account |
| App.Conclude | src/main.rs:241-255 | success exactly when the request succeeded and `is_error` is false; `is_error` gives `Message("couldn't perform your transfer")` and no notice |
| App.RefusalIgnoresDetails | src/main.rs:243-245 | the refusal is the same whatever error text or type the bank sent |
| App.TransferOutcome | src/main.rs:182-256 | no contract of its own; the specification of `App.TransferCommand`, characterised by `App.TransferSucceeded`, `App.NoPostWithoutPicks` and `App.TransferOnBehalfOf` |
| App.TransferCommand | src/main.rs:182-256 | the result and the requests are exactly `TransferOutcome`: from the arguments, nothing is sent unless they settle and then the settled request is posted; interactively, a failed fetch or pick ends the command after the fetch, and only when both picks succeed is a transfer from the first pick to the second posted, with the amount and message from stdin; the second list shown is the first minus the picked source |
| App.TransferSucceeded | src/main.rs:241-255 | a transfer that succeeds shows the success notice in the chosen colour, and its last request is a POST of a transfer's JSON to the transfers URL, interactively one carrying the stdin amount and message |
| App.NoPostWithoutPicks | src/main.rs:188-200 | interactively, no request goes to the transfers URL when the accounts fetch, the source pick or the destination pick fails |
| App.ListAccounts | src/main.rs:116-119 | the listing prints every account's name and number, in order |
| App.ListingCaptures | src/main.rs:118 | each listed line is one the picker's matcher reads back as that account's number |
| App.AccountOutcome | src/main.rs:97-124 | no contract of its own; the specification of `App.AccountCommand` |
| App.AccountCommand | src/main.rs:97-124 | the result and the requests are exactly `AccountOutcome`: with a number, that account's rendering; otherwise the accounts, the interactive pick under "Select account" printed first, then the listing or the full rendering |
| App.CustomerOutcome | src/main.rs:126-133 | no contract of its own; the specification of `App.CustomerCommand` |
| App.CustomerCommand | src/main.rs:126-133 | the result and the request are exactly `CustomerOutcome`: the customer's rendering, or the reqwest error of its request |
| App.Dispatch | src/main.rs:90-256 | no contract of its own; the choice of subcommand inside `App.Run`, characterised by `App.DispatchOnBehalfOf` |
| App.Run | src/main.rs:58-256 | a missing environment variable stops the run before any request; with the credentials loaded, the result and the requests are exactly the dispatch to the subcommand's outcome with those credentials (no subcommand prints and sends nothing, transactions print as their multi-item rendering), every request is made on behalf of those credentials, and a transfer notice carries the resolved colour |
| App.DispatchOnBehalfOf | src/main.rs:90-256 | every request of every subcommand is the token request of the credentials given, or carries exactly the API headers those credentials build with its Bearer token |
| App.TransactionOnBehalfOf | src/main.rs:135-178 | every request of the transaction subcommand is the credentials' token request or carries exactly their API headers |
| App.TransferOnBehalfOf | src/main.rs:182-256 | every request of the transfer subcommand is the credentials' token request or carries exactly their API headers |
| Errors.Description | src/core/error.rs:20-32 | each static-message variant's description is exactly its message; the wrapped errors give the inner error's description |
| Errors.CauseOf | src/core/error.rs:34-46 | there is a cause exactly for `Reqwest` and `Regex`, and it is the wrapped error |
| Errors.Display | src/core/error.rs:49-63 | static variants display as their fixed prefix, the message and the suffix (" missing" for `EnvMissing`); `Reqwest` and `Regex` as their prefix and the inner text |
| Errors.DisplayRecoversMessage | src/core/error.rs:56-60 | the message can be cut back out of a static variant's display |
| Errors.FromChrono | src/core/error.rs:65-69 | every chrono parse error becomes ``Message("Couldn't parse date on format `YYYY-MM-DD`")`` |
| Errors.FromChronoForgets | src/core/error.rs:65-69 | any two parse errors display identically, as `Error: ` followed by the fixed date-format message |
| Errors.FromReqwest | src/core/error.rs:71-75 | the converted error's cause is the reqwest error |
| Errors.FromReqwestRoundTrip | src/core/error.rs:71-75 | the reqwest error is recovered from the cause, and its description and text pass through |
| Errors.FromRegex | src/core/error.rs:77-81 | the converted error's cause is the regex error |
| Errors.FromRegexRoundTrip | src/core/error.rs:77-81 | the regex error is recovered from the cause, and its description and text pass through |
| Entities.AccountDisplay | src/core/entities.rs:16-35 | no contract of its own; characterised by `Entities.AccountDisplayLines` and `Entities.AccountDisplayHidesOwnerAndLimit` |
| Entities.AccountDisplayLines | src/core/entities.rs:16-35 | an account renders as exactly six lines: id, number, name, type, available, balance |
| Entities.AccountDisplayHidesOwnerAndLimit | src/core/entities.rs:16-35 | owner id and credit limit never affect the rendering |
| Entities.ItemsDisplay | src/core/entities.rs:48-55 | no contract of its own; characterised by `Entities.ItemsDisplayLines`, `Entities.ItemsDisplaySnoc`, `Entities.ItemsDisplayConcat` and `Entities.WriteItems` |
| Entities.ItemsDisplaySnoc | src/core/entities.rs:48-55 | one more item appends its rendering and a blank line |
| Entities.ItemsDisplayConcat | src/core/entities.rs:48-55 | the rendering of two lists joined is the two renderings joined |
| Entities.ItemsDisplayLines | src/core/entities.rs:48-55 | every item in order, each followed by a blank line; an empty list renders as the empty string |
| Entities.WriteItems | src/core/entities.rs:50-53 | the `for` loop writes each item's rendering followed by a blank line, in order |
| Entities.SingleDisplay | src/core/entities.rs:67-71 | no contract of its own; characterised by `Entities.SingleDisplayIsItem` |
| Entities.SingleDisplayIsItem | src/core/entities.rs:67-71 | the single envelope shows only its item, and the envelope's error fields never show |
| Entities.PhoneDisplay | src/core/entities.rs:95-99 | no contract of its own; characterised by `Entities.PhoneLinesLines` |
| Entities.PhoneLinesSnoc | src/core/entities.rs:126-128 | one more phone number appends its `\t\t+code number` line |
| Entities.PhoneLinesLines | src/core/entities.rs:95-99 | the phone part is one `\t\t+code number` line per number, in order |
| Entities.CustomerDisplay | src/core/entities.rs:114-132 | no contract of its own; characterised by `Entities.CustomerDisplayLines` and `Entities.WriteCustomer` |
| Entities.WriteCustomer | src/core/entities.rs:114-132 | the header, then the loop over phone numbers, produce the customer rendering |
| Entities.CustomerDisplayLines | src/core/entities.rs:114-132 | first name, last name, email, "Phone numbers:", then one line per phone number in order |
| Entities.Escaped | src/core/entities.rs:182 | the `{:?}` escape of a string never contains a newline |
| Entities.DebugOption | src/core/entities.rs:182 | the `{:?}` form of an optional number never contains a newline |
| Entities.TransactionDisplay | src/core/entities.rs:177-194 | no contract of its own; characterised by `Entities.TransactionDisplayLines`, `Entities.OtherAccountLine`, `Entities.ReservedLine` and `Entities.WriteTransaction` |
| Entities.WriteTransaction | src/core/entities.rs:177-194 | the `writeln!` sequence is the transaction's lines, each ended by a newline |
| Entities.TransactionDisplayLines | src/core/entities.rs:177-194 | a transaction renders as seven lines when the other account number is specified and six otherwise |
| Entities.OtherAccountLine | src/core/entities.rs:181-183 | the other-account line appears exactly when the number is marked specified, third, with the number's `{:?}` form |
| Entities.ReservedLine | src/core/entities.rs:186-190 | the reservation line reads "Yes" exactly when the transaction is a reservation, else "No" |
| FormEncoding.Utf8 | src/core/authorize.rs:23 | no contract of its own; characterised by `FormEncoding.Utf8Char`, `FormEncoding.NonAsciiIsEscaped` and `Authorize.BasicCredentialsDecode` |
| FormEncoding.Utf8Char | src/core/authorize.rs:23 | a character's UTF-8 form is one to four bytes, one byte with the same value exactly for ASCII, and bytes of at least 0x80 otherwise |
| FormEncoding.FormEncode | src/core/authorize.rs:23-24 | no contract of its own; characterised by `FormEncoding.DecodeEncode`, `FormEncoding.EncodeDecode` and `FormEncoding.EncodeAlphabet` |
| FormEncoding.FormEncodeString | src/core/authorize.rs:23-24 | no contract of its own; characterised by `FormEncoding.EncodeUnreservedIdentity`, `FormEncoding.NonAsciiIsEscaped` and `Authorize.BasicCredentialsDecode` |
| FormEncoding.EncodeByte | src/core/authorize.rs:23-24 | alphanumerics and `*-._` are kept, space becomes `+`, and any other byte becomes `%` with two upper-case hex digits of its value |
| FormEncoding.DecodeEncode | src/core/authorize.rs:23-24 | decoding an encoding gives back the exact bytes |
| FormEncoding.EncodeDecode | src/core/authorize.rs:23-24 | any text the strict decoder accepts is the encoding of what it decodes to |
| FormEncoding.EncodeAlphabet | src/core/authorize.rs:23-24 | the output holds only alphanumerics, `*-._`, `+`, `%` and upper-case hex digits |
| FormEncoding.EncodeUnreservedIdentity | src/core/authorize.rs:23-24 | a string of ASCII alphanumerics and `*-._` is encoded as itself |
| FormEncoding.EscapedLength | src/core/authorize.rs:23-24 | bytes that are all escaped take three characters each |
| FormEncoding.NonAsciiIsEscaped | src/core/authorize.rs:23-24 | a non-ASCII character is always written as `%XX` escapes, three characters per UTF-8 byte |
| Authorize.HeaderMap.Set | src/core/authorize.rs:26-33 | `set` records the value under the name, replacing any earlier one |
| Authorize.TokenStep | src/core/authorize.rs:22-42 | no contract of its own; the specification of `Authorize.GetAccessToken`, characterised by `Authorize.TokenRequestShape` |
| Authorize.GetAccessToken | src/core/authorize.rs:22-42 | the token step: build the client with the token headers, post the grant, decode; nothing is sent when the client cannot be built |
| Authorize.TokenRequestShape | src/core/authorize.rs:22-42 | a POST of exactly `grant_type=client_credentials` to the identity server URL with user agent, `Accept` JSON, form content type and the encoded Basic credentials |
| Authorize.BasicCredentialsDecode | src/core/authorize.rs:23-33 | the Basic user name and password decode back to the client id's and secret's UTF-8, and hold only serializer output characters |
| Authorize.PlainCredentialsUnchanged | src/core/authorize.rs:23-24 | plain credentials go into the Basic header as they are |
| Authorize.ApiHeaders | src/core/authorize.rs:44-53 | no contract of its own; characterised by `Authorize.ApiHeadersShape`, `Authorize.ApiHeadersCarryToken` and `Authorize.ConstructHeaders` |
| Authorize.ConstructHeaders | src/core/authorize.rs:44-53 | the header map built by the four `set` calls is exactly the API headers |
| Authorize.ApiHeadersShape | src/core/authorize.rs:44-53 | exactly user agent "sbanken-cli/0.3.0", JSON content type, Bearer with the token, and the raw `customerId` header; no `Accept` |
| Authorize.ApiHeadersCarryToken | src/core/authorize.rs:49 | the Bearer header carries precisely the token given |
| Authorize.Authorized | src/core/authorize.rs:55-87 | no contract of its own; the specification of `Authorize.GetRequest` and `Authorize.PostRequest`, characterised by `Authorize.TokenComesFirst`, `Authorize.NoTokenNoRequest` and `Authorize.WithTokenOneRequest` |
| Authorize.GetRequest | src/core/authorize.rs:55-71 | a fresh token, then the client, then one GET carrying the query exactly when there is one |
| Authorize.PostRequest | src/core/authorize.rs:73-87 | a fresh token, then the client, then one POST whose body is the object's JSON |
| Authorize.TokenComesFirst | src/core/authorize.rs:60 | a call sends at most two requests and the first is always the token request |
| Authorize.NoTokenNoRequest | src/core/authorize.rs:60 | when the token fails, only the token request goes out and the call fails with its error |
| Authorize.WithTokenOneRequest | src/core/authorize.rs:60-70 | with a token and a client, exactly one API request follows, with the method, URL, query and body given and the token as Bearer; its answer is the result |
| Authorize.AnsweredCallSentRequest | src/core/authorize.rs:55-87 | a call that got an answer sent exactly the token request and then the request asked for: same method, URL, query and body |
| Authorize.AuthorizedOnBehalfOf | src/core/authorize.rs:55-87 | every request of a call is the credentials' token request or carries exactly their API headers with the token fetched |
| Authorize.AuthorizedUrls | src/core/authorize.rs:55-87 | every request of a call goes to the identity server or to the URL asked for |
| Bank.AccountUrl | src/core/bank.rs:25-30 | the accounts URL, `/`, the account, and a trailing `/` |
| Bank.TransactionsUrl | src/core/bank.rs:43-46 | the transactions path followed by the account, with no trailing slash |
| Bank.UrlsKeepAccount | src/core/bank.rs:26-46 | different accounts never share a URL text, as formatted before `Url::parse` |
| Bank.TransactionParams | src/core/bank.rs:48-57 | the three `insert` calls build the transaction query map |
| Bank.QueryMapReadsBack | src/core/bank.rs:48-57 | exactly the keys `length`, `startDate`, `endDate`; the length reads back as the number and both dates as their instants |
| Bank.FailureSkipsDecoding | src/core/bank.rs:20 | a failed request is returned unchanged, whatever the decoder |
| Bank.GetAndDecode | src/core/bank.rs:31-33 | `get_request`, then `?`, then the JSON decoder |
| Bank.GetAccounts | src/core/bank.rs:17-23 | a GET of the accounts URL without a query, decoded as accounts |
| Bank.GetAccount | src/core/bank.rs:25-34 | a GET of the account's URL, decoded as one account |
| Bank.GetTransactions | src/core/bank.rs:36-62 | a GET of the account's transactions URL with the query map, decoded as transactions |
| Bank.PostTransfer | src/core/bank.rs:64-73 | a POST of the transfer's JSON to the transfers URL, decoded as a transfer answer |
| Bank.GetCustomer | src/core/customers.rs:15-21 | a GET of the customers URL, decoded as a customer |
| Bank.CallShapes | src/core/bank.rs:17-73 | with a token and a client, the request after the token is a GET of the accounts URL, a GET of the transactions URL with the query, or a POST of the body to the transfers URL |
| DateTime.CivilFromDays | src/core/bank.rs:50-57 | a day number's calendar date is valid and counts back to that day number |
| DateTime.CivilRoundTrip | src/core/bank.rs:50-57 | a valid date goes to its day number and back unchanged |
| DateTime.DaysFromCivilInjective | src/core/bank.rs:50-57 | two valid dates with the same day number are the same date |
| DateTime.Rfc3339 | src/core/bank.rs:50-57 | no contract of its own; the `to_rfc3339_opts(Secs, true)` rendering, characterised by `DateTime.ParseRenders` and `DateTime.RenderInjective` |
| DateTime.ParseRenders | src/core/bank.rs:50-57 | the seconds-precision `Z` rendering of any instant parses back to that instant |
| DateTime.RenderInjective | src/core/bank.rs:50-57 | different instants render differently |
| DateTime.DayStart | src/main.rs:150 | the first second of a day lies in that day, at second 0 |
| DateTime.DayEnd | src/main.rs:145 | the last second of a day lies in that day, at second 86399 |
| DateTime.DayStartText | src/main.rs:150 | the first second of a day renders as the date followed by `T00:00:00Z` |
| DateTime.DayEndText | src/main.rs:145 | the last second of a day renders as the date followed by `T23:59:59Z` |
| Strings.ParseDecimalString | src/core/bank.rs:49 | the decimal text of every i32 parses back to it |
| Strings.ParseRejectsNonDigit | src/main.rs:137-139 | a non-digit after the first character makes the i32 parse fail |

## Left out

- **Transport, client building and JSON.** reqwest's transport and client
  building, and serde's JSON decoding and encoding, are function parameters.
  So is the token decoder. The model treats them as deterministic functions:
  two identical requests get the same answer.
- **fzf, stdin and printing.**
  - The fzf subprocess and its pipes are the parameter `fzf(input, header)`.
  - The `read!` prompts for amount and message are fixed inputs,
    `stdinAmount` and `stdinMessage`.
  - `println!` output is returned as values: lines of text, or the transfer
    notice with its colour flag.
  - The termion escape codes and the "Amount:"/"Message:" prompts are not
    modelled.
- **Shell completions and `src/cli.rs`.** The clap parser and its argument
  rules live in the library. The model starts from the already-parsed
  arguments: `Command`, `TransactionArgs`, `TransferArgs` and `AccountArgs`.
- **f32 values.** They are not modelled as numbers. A value is held as its
  rendered text (`Float`), and the amount parse is the parameter
  `parseAmount`.
- **chrono's `%Y-%m-%d` parse.** It is the parameter `parseDate`: a string
  maps to a day number counted from 1970-01-01, or to a parse error.
- **`Utc::now`.** It is an input. It is truncated to whole seconds, which is
  the precision the query renders.
- **chrono's year range.** chrono's limit of about ±262143 years is not
  modelled. Years outside 0..9999 are rendered with a sign, as chrono does.
- **The regular expression.** Only the one pattern is modelled, by a hand
  matcher. Two limits:
  - `\w` is Rust regex's Unicode word class; the model takes it as ASCII
    `[A-Za-z0-9_]`.
  - The model treats `Regex::new` as never failing, so the `Regex` error
    path is never taken in `Interactive`.
- **`{:?}` escaping.** The model escapes the quote, the backslash, `\n`,
  `\r` and `\t`, and writes every other character as it is. Rust's `Debug`
  for `str` also escapes every other non-printable character, and every
  grapheme-extending character, in the `\u{..}` form. None of these escapes
  contains a newline, so `Entities.Escaped` would still hold.
- **Query serialisation.** The `HashMap` query is kept as a map. Its
  iteration order and the percent-encoding of the query string are not
  modelled.
- **URLs.** They are kept as the text `format!` builds, before parsing.
  `Url::parse(...).unwrap()` is assumed to succeed, and its normalisation is
  not modelled: it removes dot segments, percent-encodes spaces and other
  characters, and splits at `?` and `#`. So two account arguments such as
  `a/../b` and `b` give different URL texts but request the same URL.
- Bank.UrlsKeepAccount: states injectivity of the URL text only, because
  the parser's normalisation is not modelled.
- **The HTTP library's default headers.** Requests hold only the headers
  the program sets. reqwest's own defaults, such as `Accept: */*` and the
  `Accept-Encoding` it adds, are not modelled.
- **Basic header.** The base64 wire form is not modelled; the header stays a
  structured value.
- **`src/core/common.rs`.** It is not part of this model. Nothing in the
  program imports it.
- **`src/core/credentials.rs`.** It is modelled only as the `Credentials`
  record.
- **Subcommand order in `main`.** `main` tests each subcommand with its own
  `if let`; clap yields at most one, so `Run` takes exactly one `Command`.
