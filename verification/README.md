# Shrinkk shortener core in Dafny

This is a functional model of the string logic in Shrinkk, a chat-style URL
shortener. It covers three pieces of code:

- **The `POST /api/shorten` route.** It checks that a `longUrl` is present and
  picks a short ID: the trimmed custom alias, or characters 2..7 of
  `Math.random().toString(36)`. It normalises an optional custom domain and
  builds the short URL from that domain or from the request's own
  `protocol://host`. The route stores nothing and checks nothing for collisions.
- **The chat client's `handleShorten`.** It refuses blank input and any
  submission made while a request is in flight. It trims the typed URL and
  adds `https://` when the URL has no scheme. When the call settles, it
  updates the component state.
- **The share buttons' `handleShare`.** They build WhatsApp, Facebook and
  Twitter share URLs around the encoded short URL.

Modules:

| module | file | what it holds |
|---|---|---|
| `JsString` | js_string.dfy | `trim` (the ECMAScript whitespace set), `substring` with index clamping, ASCII case-insensitive prefix test |
| `Scheme` | scheme.dfy | the `/^https?:\/\//i` test and `https://` defaulting, shared by route and client |
| `Optional` | optional.dfy | `Option`, for missing JSON fields and headers |
| `ShortenRoute` | shorten_route.dfy | the API route |
| `ChatInterface` | chat_interface.dfy | the client state, `handleShorten`, and the input events around it |
| `ShareLinks` | share_links.dfy | share-URL templates |
| `ShortenFlow` | shorten_flow.dfy | the client's call fed through the route, with the service helper's reading of the answer |

Values from outside the program are parameters:

- the `host` header (a missing one prints as `"null"`);
- `NODE_ENV`;
- the text of `Math.random().toString(36)`;
- `Date.now()` and `new Date()`;
- the outcome of the awaited call;
- `encodeURIComponent`, passed as an arbitrary `string -> string` function.

The scheme test is a literal prefix match that ignores ASCII case. It does not
parse URLs.

Two points about what the code does:

- The route stores nothing and does no collision handling, so two requests
  can be given the same short URL.
- A custom domain that trims to exactly a scheme, such as `https://`, comes out
  of the domain normalisation as `https:/`. The route strips the scheme's own
  last slash. So the normalised domain has a scheme exactly when the trimmed
  domain is not a bare scheme (`ShortenRoute.NormaliseDomain`). The finished
  short URL always starts with `http://` or `https://`.

## Model

| member | source | states |
|---|---|---|
| `JsString.Trim` | src/app/api/shorten/route.js:18-19 | `trim` returns "" exactly when every character is ECMAScript whitespace, and otherwise a result that neither starts nor ends with whitespace (which slice of the input it is: `TrimIsSlice`) |
| `JsString.TrimIsSlice` | src/app/api/shorten/route.js:18-19 | the part `trim` keeps is the slice of the input that starts where leading whitespace ends, and everything it drops on either side is whitespace |
| `JsString.Substring` | src/app/api/shorten/route.js:20 | `substring` with in-range indices is exactly that slice; an end past the string is clamped to the string's end, and a start at or past the end gives ""; the result is never longer than the input, nor than `end - start` when `0 <= start <= end` |
| `JsString.SubstringSymmetric` | src/app/api/shorten/route.js:20 | `substring` gives the same text whichever of its two indices comes first |
| `JsString.LeadingEnd` | src/components/ChatInterface.jsx:23-25 | leading-whitespace removal stops at the first non-whitespace character, or at the end of the string; every character it skips is whitespace |
| `JsString.TrailingStart` | src/components/ChatInterface.jsx:23-25 | trailing-whitespace removal stops just after the last non-whitespace character, or at the start of the kept part; every character it drops is whitespace |
| `JsString.TrimKeepsTrimmed` | src/components/ChatInterface.jsx:23-25 | a string that neither starts nor ends with whitespace comes back from `trim` unchanged |
| `JsString.TrimIdempotent` | src/components/ChatInterface.jsx:23-25 | trimming an already trimmed string changes nothing |
| `Scheme.HasSchemeShape` | src/app/api/shorten/route.js:33 | a string that passes the `/^https?:\/\//i` test is at least 7 characters long, starts with `h` or `H`, and has `/` as its 7th character |
| `Scheme.WithDefaultScheme` | src/app/api/shorten/route.js:33-35 | the result always has an `http://`/`https://` prefix in some letter case; a string that had one is returned untouched (no double prefix); otherwise `https://` is put in front |
| `ShortenRoute.RandomShortId` | src/app/api/shorten/route.js:20 | the random ID has at most 6 characters, exactly 6 when the random text has at least 8, and its i-th character is the random text's (i+2)-th |
| `ShortenRoute.ShortIdFor` | src/app/api/shorten/route.js:18-20 | a non-blank alias gives its trimmed, non-empty text as the ID; otherwise the ID is the random slice `substring(2, 8)`: at most 6 characters, each the random text's character two places further on, and exactly 6 when the random text has at least 8 |
| `ShortenRoute.StripTrailingSlash` | src/app/api/shorten/route.js:37 | a string ending in `/` loses exactly that one `/`; any other string is returned unchanged |
| `ShortenRoute.NormaliseDomain` | src/app/api/shorten/route.js:30-37 | the normalised domain is the trimmed domain with `https://` defaulted, minus one final `/` exactly when it ends in `/`; it has a scheme exactly when the trimmed domain is not a bare scheme; it is never prefixed twice; with "/" appended it always has a scheme |
| `ShortenRoute.StripDefaultedScheme` | src/app/api/shorten/route.js:32-37 | the facts above, for a trimmed non-empty domain, relating the scheme test before and after the slash is stripped |
| `ShortenRoute.Protocol` | src/app/api/shorten/route.js:42 | the protocol is `http` exactly when `NODE_ENV` is `development`, and `https` otherwise |
| `ShortenRoute.HostText` | src/app/api/shorten/route.js:41-43 | the host header's value is interpolated as is, and a missing header as the text `null` |
| `ShortenRoute.DefaultOrigin` | src/app/api/shorten/route.js:41-43 | the origin is the protocol, then `://`, then the host text; followed by "/", it starts with a scheme |
| `ShortenRoute.ShortUrlShape` | src/app/api/shorten/route.js:38-43 | a short URL assembled as origin + "/" + ID starts with a scheme and ends in "/" + ID |
| `ShortenRoute.Post` | src/app/api/shorten/route.js:9-49 | fails with 400 "URL is required" exactly when `longUrl` is missing or ""; otherwise answers with the chosen ID and a short URL ending in "/" + ID that starts with a scheme; the ID is the trimmed alias when it is non-blank, else the random slice; the short URL is built on the normalised domain when it is non-blank, else on `protocol://host` |
| `ShortenRoute.PostIgnoresLongUrl` | src/app/api/shorten/route.js:9-49 | two requests with non-empty `longUrl`s that agree on domain and alias get the same answer, so the URL is never validated or normalised |
| `ShortenRoute.AliasIsShortId` | src/app/api/shorten/route.js:18-19 | a non-blank alias becomes the ID with only surrounding whitespace removed and no characters filtered out |
| `ShortenRoute.RandomIdWithoutAlias` | src/app/api/shorten/route.js:18-20 | with no usable alias the ID has at most 6 characters and is characters 2..7 of the random text when that text is long enough |
| `ShortenRoute.TrailingSlashRemovedOnce` | src/app/api/shorten/route.js:36-38 | for a trimmed domain without a trailing slash, `d` and `d/` normalise alike, while `d//` keeps one slash |
| `ShortenRoute.TrailingSlashSameShortUrl` | src/app/api/shorten/route.js:30-38 | for any non-blank domain ending in neither whitespace nor `/`, with or without leading whitespace, adding one `/` (`my.link` and `my.link/`) gives the same short URL |
| `ChatInterface.NormaliseUrl` | src/components/ChatInterface.jsx:25-28 | the URL sent always has a scheme; a trimmed input that already has one is sent as is, otherwise `https://` is put in front |
| `ChatInterface.NormaliseUrlIdempotent` | src/components/ChatInterface.jsx:25-28 | normalising an already normalised URL leaves it unchanged |
| `ChatInterface.Submit` | src/components/ChatInterface.jsx:21-34 | no call is made exactly when the trimmed input is empty or a request is in flight; otherwise the call carries the normalised URL and the current domain and alias, and `loading` becomes true |
| `ChatInterface.NewMessage` | src/components/ChatInterface.jsx:36-44 | the new message records the call's long URL, domain and alias, the returned short URL, `Date.now()` as its id and `new Date()` as its creation time |
| `ChatInterface.Settle` | src/components/ChatInterface.jsx:36-55 | on success exactly one message is appended, recording the call's URL, domain and alias and the returned short URL; input and alias are emptied and the options panel closed, while the domain is kept; on failure messages, inputs and panel are unchanged; `loading` always ends false |
| `ChatInterface.HandleShorten` | src/components/ChatInterface.jsx:21-56 | a blank or in-flight submission sends nothing and changes nothing; a failed call leaves the state as it was; a successful one keeps every earlier message and appends the new one last |
| `ChatInterface.InFlightBlocksResubmit` | src/components/ChatInterface.jsx:23-30 | while a call is in flight a second submission sends nothing |
| `ChatInterface.Apply` | src/components/ChatInterface.jsx:103-147 | typing into the URL, domain or alias input sets only that cell; the settings button flips only `showOptions`; only a submission touches the messages or `loading`, and it does so as `handleShorten` |
| `ChatInterface.ApplyKeepsSettled` | src/components/ChatInterface.jsx:103-147 | any single input event keeps every message's URL scheme-prefixed and only appends to the list, by one exactly on a successful submission |
| `ChatInterface.RunKeepsSettled` | src/components/ChatInterface.jsx:36-55 | over any sequence of events, earlier messages are never changed or removed, and the list grows by exactly the number of successful submissions |
| `ChatInterface.InitialRunsSettled` | src/components/ChatInterface.jsx:9-14 | from the initial state, every message ever shown has a scheme-prefixed long URL, and there is one message per successful submission |
| `ShareLinks.ShareTarget` | src/components/MessageItem.jsx:38-55 | the WhatsApp, Facebook and Twitter URLs are their fixed templates around the encoded promo text and the encoded short URL; any other platform gives "" |
| `ShareLinks.SharedUrlRoundTrip` | src/components/MessageItem.jsx:38-51 | for each known platform, the encoded short URL can be read back out of the share URL |
| `ShareLinks.ShareTargetDistinguishes` | src/components/MessageItem.jsx:38-51 | two short URLs get the same share URL on a known platform only if they encode to the same text |
| `ShortenFlow.ClientOutcome` | src/services/api.js:18-24 | an OK answer resolves to its short URL; an error answer becomes a rejection with a non-empty message |
| `ShortenFlow.ClientCallsPassPresenceCheck` | src/app/api/shorten/route.js:9-14 | every call the client makes passes the route's "URL is required" check |
| `ShortenFlow.SubmitThroughRoute` | src/components/ChatInterface.jsx:34-46 | a guarded submission answered by the route appends one message whose short URL starts with a scheme and ends in "/" + the route's ID; a non-blank alias becomes that ID; a blank domain gives the request's own origin |

## Left out

- Parsing the request body, building `NextResponse`, and the 500 catch-all are left out. The JSON fields are modelled as optional strings, and non-string JSON values are not modelled. For `longUrl`, which is only tested for truthiness and never trimmed, a truthy non-string such as `42` or `{}` would be answered with a short URL, and `0` or `false` with 400. For `customDomain` and `customAlias`, a falsy non-string counts as absent, and a truthy non-string reaches `.trim()`, which throws, so the route answers 500.
- Console logging and the commented-out database write are left out. They have no effect on the answer.
- `Math.random()`, `Date.now()`, `new Date()`, `process.env.NODE_ENV` and the `host` header are parameters. Whether the random text really has the `0.xxxx` base-36 shape is not assumed.
- `encodeURIComponent` is an arbitrary function parameter. Its escaping rules are not modelled.
- `window.open`, the clipboard copy, `alert`, `setTimeout`, JSX rendering and scroll effects are left out. They are browser side effects with no state the model needs.
- ChatInterface.Apply: allows typing into the domain and alias inputs while the options panel is hidden, and into the URL input while a request is in flight, although the page renders the panel only when open and disables the URL input while loading. This is an over-approximation, so every property proved over event sequences also holds for the events the page allows.
- The `async`/`await` ordering of `handleShorten` is left out. `HandleShorten` assumes nothing else changes the state while the call is in flight. `Settle` handles the general case, where the user may have edited the fields in the meantime.
- `fetch`, status codes and JSON decoding in the service helper are left out. The helper appears only as the `ClientOutcome` reading of the route's answer.
- JavaScript strings are UTF-16 code units, while Dafny `char`s are Unicode scalar values. This makes no difference here: every character that `trim` removes, and every character of the scheme pattern, lies in the Basic Multilingual Plane.
- ShortenRoute.TrailingSlashRemovedOnce: stated only for a domain typed without surrounding whitespace whose added slashes do not complete a scheme. Some excluded domains still behave alike: `TrailingSlashSameShortUrl` covers one added slash after leading whitespace, and the exact clause of `NormaliseDomain` gives the value for every domain. Others really differ. `"https:" + "//"` normalises to `https:/`, not `https://https:/`. After trailing whitespace, `"my.link /"` normalises to `https://my.link ` with its space, while `"my.link "` normalises to `https://my.link`.
