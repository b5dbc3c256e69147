# CyberConnect verifier worker — a Dafny model

This project models the core of a Cloudflare worker that binds a Twitter
handle to an Ethereum address. The user signs a fixed EIP-712 message and
tweets the signature after the marker `sig:`. The handler `handleVerify`
does four things:

- it searches the handle's recent tweets and takes the first one carrying the marker;
- it cuts the signature out of that tweet;
- it recovers the signer and compares checksum addresses with the claimed `addr`;
- it reads the shared list `verified.json`, replaces the signer's record by
  `{twitter: {timestamp, tweetID, handle}}` and writes the list back with the `sha` it read.

The model also covers the worker's entry point (`index.js`). It classifies a
request by path prefix and method, and it answers CORS preflights. Its
preflight test also requires `Access-Control-Request-Headers`, which the
WHATWG Fetch Standard makes optional for a CORS-preflight request.

Modules, one per concern:

- `Wrappers`: `Option`, and `Result`, whose `Err` is a thrown JavaScript exception.
- `Strings`: leftmost substring search.
- `Tweets`: the regular expression `(?<=sig:).*`, `Array.prototype.find` over the
  tweets, and `slice(0, 132)`.
- `TypedMessage`: the `msgParams` typed data.
- `SybilList`: the address → record document and the update `Link`.
- `Verify`: `handleVerify`. The checks before the file is touched are the
  function `CheckProof`. The method `HandleVerify` is proved against it and
  against `Link`. It returns the response and the trace of file accesses
  (`Read`, `Write`), so that "the file is not touched" can be stated.
- `Http`: `Response`, and header values read as comma-separated elements with
  optional white space, used to read the advertised methods. Empty elements
  are kept and quoted strings are not handled.
- `Worker`: `corsHeaders`, `handleOptions` and the `fetch` listener.

Parameters stand in for everything outside the code: the search API's
answer, EIP-712 signer recovery, EIP-55 checksum encoding, the file read,
the JSON/base64 encoding of the document, the PUT, and `Date.now()`.
Recovery, checksumming and encoding are uninterpreted functions that may
throw (`Err`).

Behaviour of the code that the model keeps:

- There is no "already bound" check and no retry on conflict.
- A new record replaces the address's whole record. A `github` sub-record is dropped, not merged.
- The signature is cut to at most 132 characters, not exactly 132.
- An empty `data` array is "Can not find the tweet". Only a `data` that is absent or otherwise falsy is "Invalid handle".
- A successful answer's body is the bare handle, not a JSON object.
- The signed message is one constant. Neither the handle nor the address is part of it.

## Model

| member | source | states |
|---|---|---|
| `Strings.IndexOf` | handlers/verify.js:26 | the result is the leftmost occurrence of the pattern, and there is none iff the pattern occurs nowhere |
| `Tweets.RestOfLine` | handlers/verify.js:26 | what a greedy `.*` matches: a prefix without line terminators that stops at the end of the text or at a line terminator |
| `Tweets.SigMatchIsRegexMatch` | handlers/verify.js:26 | the match exists iff the look-behind `sig:` holds somewhere; it starts at the leftmost such position and runs to the end of that line |
| `Tweets.Find` | handlers/verify.js:66-68 | `find` returns a marked tweet that is in the list with no marked tweet before it, and returns nothing iff no tweet is marked |
| `Tweets.FindSkipsUnmarked` | handlers/verify.js:66-68 | unmarked tweets before the first marked one are skipped, whatever comes after it |
| `Tweets.Signature` | handlers/verify.js:82 | the signature is a prefix of the match, at most 132 characters long, and is the whole match when the match is shorter |
| `Tweets.SignatureAfterFirstMarker` | handlers/verify.js:79-82 | for a text `pre + "sig:" + post` with no marker in `pre`, the signature is the first line of `post` cut to 132 characters |
| `TypedMessage.ProofMessage` | handlers/verify.js:84-100 | the message is one constant, independent of handle and address: domain `CyberConnect Verifier` version `1`, primary type `Permit` with the fixed `contents`, and it is well typed |
| `SybilList.Link` | handlers/verify.js:138-144 | after the update the key maps to exactly `{twitter: proof}`; every other key keeps its record; no key other than `addr` is added, and none is lost |
| `SybilList.LinkLastWins` | handlers/verify.js:138-144 | linking an address twice keeps only the second proof; no earlier binding is protected |
| `SybilList.LinkCommutes` | handlers/verify.js:138-144 | links of two different addresses give the same document in either order |
| `SybilList.LinkDiscardsGithub` | handlers/verify.js:138-144 | a `github` sub-record held by the address is discarded |
| `Verify.Matched` | handlers/verify.js:63-68 | the tweet picked from the search answer carries the marker |
| `Verify.CheckProof` | handlers/verify.js:54-114 | rejections are 400s; a thrown search, recovery or checksum encoding is `Error:` with its message, the signer's checksum evaluated before the claimed address's; no `data` is "Invalid handle"; no marked tweet is "Can not find the tweet"; acceptance holds iff both checksum addresses exist and are equal, otherwise "Address doesn't match"; an accepted signer is the one recovered from the first marked tweet's signature |
| `Verify.CheckUsesFirstMarkedTweet` | handlers/verify.js:66-105 | with unmarked tweets before a marked one, that tweet is picked and its signature is the one recovered |
| `Verify.UpdateResponse` | handlers/verify.js:165-186 | the answer is 200 "Succesful verification" with the handle as body iff the PUT answered 200; any other PUT status is 400 "Error updating list." with no body; a thrown PUT is 400 `Error:` with its message |
| `Verify.LinkRequest` | handlers/verify.js:146-163 | the PUT goes to `verified.json` and carries the `sha` that was read; in the document it carries, the signer maps to exactly the new Twitter record and every other address keeps what the read document held |
| `Verify.UpdateList` | handlers/verify.js:116-180 | the file is read; a failed read, or a failed encoding of the linked document, answers `Error:` with no write; otherwise the file is written once with the linked document and the read `sha`, answered as `UpdateResponse` says |
| `Verify.HandleVerify` | handlers/verify.js:38-188 | a rejected check answers its response with no access to the file; an accepted one reads the file and, unless the read or the encoding throws (then `Error:` with no write), writes it back as `LinkRequest` builds it; every answer is 200 or 400 and a 200 carries the handle |
| `Worker.CorsHeaders` | index.js:6-10 | origin `*`, methods `GET,HEAD,POST,OPTIONS`, max-age `86400`, and nothing else |
| `Worker.HandleOptions` | index.js:14-37 | status 200 with no body; `Access-Control-Allow-Headers` is present iff `Origin`, `Access-Control-Request-Method` and `Access-Control-Request-Headers` are all present, and then it echoes the last with the CORS headers; otherwise only `Allow: GET, HEAD, POST, OPTIONS` |
| `Worker.HandleFetch` | index.js:56-86 | outside `/api` the answer is 404 "Invalid route"; under it `OPTIONS` goes to `HandleOptions`, `GET`/`HEAD`/`POST` go to the router unchanged, any other method is 405 "Method Not Allowed" |
| `Worker.OutsideApiIsNotFound` | index.js:78-84 | outside `/api` the method and the headers do not change the answer, which is a 404 |
| `Worker.AdvertisedMethods` | index.js:8-33 | both OPTIONS answers list the same four methods once parsed as header lists |
| `Worker.RefusedIffNotAdvertised` | index.js:60-77 | under `/api` a request is refused with 405 exactly when its method is not among the advertised ones |

## Left out

- The HTTP calls to the Twitter search API and the GitHub contents API, and the Octokit client, are network I/O. They are inputs: the search answer, the file read and a function that gives the PUT's outcome.
- EIP-712 hashing with signer recovery and EIP-55 checksum encoding come from foreign libraries. They are uninterpreted function parameters, and their failures are `Err`.
- `JSON.parse`, `JSON.stringify`, `atob` and `btoa` are library codecs. The document is a map from address to a record with optional `twitter` and `github` sub-records. Other JSON shapes are not modelled, and a decoding failure is an `Err` of the read. Encoding is the parameter `encode`; its `Err` stands for `btoa` throwing on a character above U+00FF (in practice one in `handle`).
- `Date.now()` is nondeterministic, so it is the parameter `now`.
- Query parsing is left out: `new URL`, `searchParams.get`, and the `null` it gives for a missing `handle` or `addr`. The handle and the address are strings.
- The module-level credentials and the `Origin` header set on the shared `requestOptions` are configuration.
- The router that `handleRequest` builds and its route patterns are not part of this model. `./router` is not shown. `HandleFetch` returns the request it hands on.
- handlers/twitter-verify.js, handlers/twitter-verify-v2.js and handlers/gitbub-verify.js are not modelled. The first is a stub that was meant to answer 400; it spreads an `init` the file does not define, so as written it throws. The others wrap an external package.
- Strings are sequences of Unicode characters. JavaScript counts UTF-16 code units, so `slice(0, 132)` differs from the model on text with surrogate pairs.
- Header names are compared as the code writes them. The Fetch API's case-insensitive names are not modelled.
- URL parsing is left out. The path is an input.
- The PUT's `owner` and `repo` parameters are not modelled. The path already names the repository.
- The store's reaction to a stale `sha` is left out, because it happens on the remote side. It is part of the PUT outcome input.
