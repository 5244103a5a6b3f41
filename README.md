# bunq-rs client core in Dafny

This project models the core of `bunq-rs`, a small Rust client for the bunq
banking API, and proves properties of that model. The modelled parts are:

- the reply envelope `{"Response": [...], "Pagination": ...}`;
- its two decoding strategies:
  - **flattened**: the first entry of every object element is merged into one map, which is then typed;
  - **normal**: the array is decoded element by element;
- the typed records;
- the three-step handshake (installation, device registration, session
  creation) that turns a stored configuration into a ready session;
- the two reads a session makes: listing bank accounts, and gathering an
  account's payments by following each page's `older_url` cursor.

Modules, leaf first:

- `Wrappers`: `Option`, the error kinds, and a `Result` that `:-` can propagate.
- `JsonValues`: parsed JSON values, `i64`, field lookup and the field extractors.
- `Envelope`:
  - the envelope and pagination records;
  - the merge loop (`DecodeFlattened`) against its specification `Flattened`;
  - the normal decoding, and the merge's algebra.
- `Records`: the typed records, each with an encoder and a round-trip lemma.
- `Io`: the outside world as oracles, plus an `Environment` object. It keeps a
  ghost trace of every request sent and every configuration saved.
- `Handshake`: the `BunqConfig` class and `Install`, proved against the
  specification function `InstallRun`.
- `Resources`: `MonetaryAccounts`, and the `Payments` loop. The loop is proved
  against the specification functions `Collect` and `ChainPaths` over a page
  source.

Behaviour worth knowing (the model follows the code):

- **Flattened decoding.**
  - An element that is not an object is skipped.
  - An object with several entries contributes its first entry; it is not rejected.
  - Only an object with no entries fails, with "malformed response".
  - An empty array merges to an empty map, and the typed decoding then fails on the first missing field.
- **No status checks.** The client never checks an HTTP status code. A
  non-success reply is decoded like any other and fails only if its body does
  not decode.
- **Device registration.** Its reply is read but not decoded; only a failure
  to send it or to read its reply aborts the handshake.

## Model

| member | source | states |
|---|---|---|
| Envelope.PaginationRoundTrip | src/lib.rs:261-266 | the three cursors, each a string or null, read back as written |
| Envelope.RawResponseRoundTrip | src/lib.rs:58-63 | an envelope, absent cursors as null, reads back to the same array and cursors |
| Envelope.DecodeFlattened | src/lib.rs:71-86 | the one-pass merge loop computes `Flattened`, and on success the cursors pass through unchanged |
| Envelope.DeserializeFlattenedResponse | src/lib.rs:89-92 | parsing the body, then merging and typing it, equals `DeserializeFlattened`; text that is not JSON is an error |
| Envelope.MergeFailsIff | src/lib.rs:73-81 | the merge fails exactly when some element is an object with no entries, and then with "malformed response" |
| Envelope.MergeKeys | src/lib.rs:72-81 | the merged map's keys are the starting keys plus the first key of every non-empty object element, and no others |
| Envelope.MergeKeepsUntouched | src/lib.rs:72-81 | a key that no element names keeps its starting value |
| Envelope.MergeLastWins | src/lib.rs:79 | on a repeated first key, the value of the last element carrying it is kept |
| Envelope.MergeDistinct | src/lib.rs:72-81 | with no empty objects and distinct first keys the merge succeeds; it holds exactly those keys, each mapped to its element's first value |
| Envelope.MergeOrderIndependent | src/lib.rs:73-81 | for a permutation of an array with distinct first keys, the merged result is the same |
| Envelope.MergeSkipsNonObjects | src/lib.rs:74 | dropping every element that is not an object leaves the merge result unchanged |
| Envelope.DecodeEach | src/lib.rs:97 | decoding a list succeeds iff every element decodes; on success the lengths match and each output is its element's decoding; on failure the error is the first failing element's |
| Envelope.DecodeNormal | src/lib.rs:94-100 | the same success condition and element-wise result for the envelope's array, with the cursors passed through |
| Envelope.NormalPassthrough | src/lib.rs:96-99 | when the elements need no typing, the normal decoding returns the array and cursors unchanged |
| Records.TokenRoundTrip | src/lib.rs:16-19 | a token object reads back to its token |
| Records.UserPersonRoundTrip | src/lib.rs:45-48 | a user object reads back to its id |
| Records.InstallationResponseRoundTrip | src/lib.rs:20-24 | an installation reply written as one single-entry object decodes, by merging and typing, to the same token; the cursors pass through |
| Records.SessionServerResponseRoundTrip | src/lib.rs:38-43 | a session reply written as two single-entry objects decodes to the same token and user id; the cursors pass through |
| Records.EmptyFlattenedReplyFails | src/lib.rs:72-83 | an empty array merges to an empty map, and both flattened replies then fail on the missing "Token" field |
| Records.MonetaryAccountRoundTrip | src/lib.rs:284-293 | an account wrapper reads back to the same id and description |
| Records.LabelRoundTrip | src/lib.rs:242-247 | an account label, optional parts as null, reads back as written |
| Records.AmountRoundTrip | src/lib.rs:249-253 | an amount reads back to its value and currency |
| Records.PaymentRoundTrip | src/lib.rs:268-282 | a payment reads back to all eleven fields, "type" included |
| Records.PaymentPaymentRoundTrip | src/lib.rs:255-259 | a payment wrapper reads back to its payment |
| JsonValues.AsI64 | src/lib.rs:45-48 | an id decodes only from an integer that fits in `i64`, and then to that integer |
| Io.Environment.Send | src/lib.rs:142-146 | a request is answered by the server oracle and appended to the trace |
| Io.Environment.Save | src/lib.rs:121-124 | the configuration is handed to the store oracle and appended to the trace |
| Handshake.Credentials | src/lib.rs:128-166 | the key phase ends with a state whenever it succeeds; with a saved state it sends nothing and keeps that state |
| Handshake.BunqConfig.constructor | src/lib.rs:107-111 | a configuration holds the API key and the optional installed state |
| Handshake.BunqConfig.Install | src/lib.rs:125-183 | the requests and saves, in order, the new state and the result of the handshake are those `InstallRun` gives for the old key, the old state and the world |
| Handshake.ReuseSkipsInstallation | src/lib.rs:128-129 | a saved state is kept and its private key used; at most one request goes out, the session request under the saved token; it goes out exactly when the key parses and signing succeeds, and it is then signed with the saved key |
| Handshake.FreshRun | src/lib.rs:130-182 | with no state and every step succeeding, the run is installation with the new public key, device registration under the installation token, the save of the new state, then the session request signed over its body; the result is what the session reply decodes to |
| Handshake.FreshSuccessNeedsEveryStep | src/lib.rs:130-170 | a fresh run succeeds only if key generation, installation, device registration, saving and signing all succeed |
| Handshake.SessionRequestComesLast | src/lib.rs:162-176 | a session request is always the last event, after any save, and carries the token of the state the run leaves; a successful run ends with one |
| Handshake.FreshScenario | src/lib.rs:125-183 | against a server answering token "T1" and then session "S1" for user 42, the run has exactly four events and yields session S1 for user 42 with the new key |
| Resources.NatToStringValue | src/lib.rs:188-191 | the decimal text of a non-negative number has no leading zero and reads back to the number |
| Resources.I64ToStringInjective | src/lib.rs:188-191 | two ids format to the same text exactly when they are equal, negative ids included |
| Resources.AccountsPathInjective | src/lib.rs:188-191 | two users' account-list paths are equal exactly when the user ids are |
| Resources.PaymentsPathInjective | src/lib.rs:220-223 | two payment paths are equal exactly when both the user ids and the account ids are |
| Resources.UnwrapAccounts | src/lib.rs:199-201 | unwrapping keeps the length and order, and each element is its wrapper's bank account |
| Resources.AccountsFrom | src/lib.rs:196-202 | a transport failure gives an error; on success there is one account per element of the parsed array, and each element decodes to its account's wrapper |
| Resources.MonetaryAccounts | src/lib.rs:187-202 | exactly one authenticated GET of `/v1/user/{id}/monetary-account` is sent, and the result is `AccountsFrom` of its reply |
| Resources.UnwrapPayments | src/lib.rs:216 | unwrapping keeps the length and order, and each element is its wrapper's payment |
| Resources.PageFromDecodes | src/lib.rs:205-219 | a page holds one payment per element of the parsed array, in order, with the array's cursors; a transport failure gives an error |
| Resources.OlderUrl | src/lib.rs:228-236 | a next path exists exactly when the page has cursors and they name an older page, and it is that page |
| Resources.ChainPaths | src/lib.rs:225-237 | the requested paths begin with the first path and number at most the bound |
| Resources.ReadEvents | src/lib.rs:206-208 | each read is one GET of the host plus the path, authenticated by the session token and unsigned |
| Resources.NextPage | src/lib.rs:205-219 | one read goes out, and the page is what the server's reply decodes to |
| Resources.Payments | src/lib.rs:204-239 | the requests sent are the reads of `ChainPaths` from `/v1/user/{id}/monetary-account/{account}/payment`, in order, and the result is `Collect` of that chain |
| Resources.CompleteChain | src/lib.rs:224-238 | for n linked pages whose last names no older page, the chain ends, exactly those n paths are requested in order, and the result is all their payments in page order |
| Resources.FailingChain | src/lib.rs:226 | when the page after n linked pages fails, the result is that page's error, with no partial list, after exactly n + 1 requests |
| Resources.ChainFollowsOlderUrl | src/lib.rs:228-236 | every request after the first is for the older page named by the page before it; the chain stops at the first failing page or page with no older cursor; the result is an error iff that page failed, and then it is that page's error |
| Resources.FuelIndependent | src/lib.rs:225-237 | the requested paths and the result of a chain do not depend on the bound, for any two bounds within which the chain ends |
| Resources.SelfLinkNeverEnds | src/lib.rs:225-237 | a page naming itself as its older page never ends the loop, for any bound |

## Left out

- Signing, RSA key generation and PEM handling (`src/lib.rs:50-56`, `129-137`) are oracles of the world (`sign`, `generatedKey`, `parsePem`). Failures of the UTF-8 conversions of the PEM text are folded into the crypto error.
- The `sign` oracle receives the request body as a value, not as its serialized bytes. The model does not prove that the signed text is the transmitted text.
- Building a request can fail in the source before anything is sent, when the token is not a valid header value or `BASE` plus a server-sent `older_url` is not a valid URI (`src/lib.rs:156-158`, `171-174`, `188-193`, `206-208`). The model treats every request as buildable: it is always recorded as sent and answered by the oracle. Where the source fails before sending, the model goes on with the oracle's answer: it can then send further requests, save the state, and succeed where the source returns an error.
- The server's answers are a fixed function of the request, so they do not change over time. `SelfLinkNeverEnds` and the non-termination noted below hold for such a server.
- HTTP transport is the `respond` oracle. A reply is either a failure to connect, send or read, or a fully read body.
- HTTP status codes: the source never checks them, and neither does the model.
- JSON text is not modelled. A reply body is a parsed value, or `None` when it is not JSON. Request bodies are the `Body` datatype, not their serialized text.
- Serializing the request bodies cannot fail for these bodies, so that step is not modelled.
- JSON numbers are integers only; floating-point numbers are not modelled.
- Objects are assumed to have unique keys, and `Get` takes the first match.
- Objects keep their entries in the map's iteration order. serde_json's default map is sorted, so the "first entry" of a multi-entry object is then its smallest key. The model takes the order as given and does not impose the sorting.
- serde also accepts a struct written as a JSON array. That form is not modelled.
- The field named in a decoding error is approximate. The model names the first missing or ill-typed field it checks.
- Loading the configuration (`src/lib.rs:118-120`) is not modelled. The `BunqConfig` constructor takes the loaded key and state. Saving is the `store` oracle behind `Environment.Save`.
- The console print of the device-server reply (`src/lib.rs:160`) is output only and is left out.
- `src/main.rs` is not part of this model.
- Handshake.BunqConfig.Install: the source consumes the configuration value. The model updates the object in place and leaves it usable.
- Resources.Payments: requires that the chain of older pages ends within a ghost bound `k`. The source loops forever on a chain that revisits a page (`SelfLinkNeverEnds`), so such a chain is outside the method's contract. Any bound within which the chain ends gives the same trace and result (`FuelIndependent`).
- Key generation is a single value of the world, so two fresh runs against one world would get the same key.
