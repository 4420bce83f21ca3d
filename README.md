# Neynar score checker: notification registry, webhook, dispatch, token check and score helpers

This project is a Dafny model of the parts of the Neynar score checker Mini App that hold logic of their own. The app is a Farcaster Mini App that shows an account's Neynar reputation score.

- **Notification registry** (`NotificationStore`). A process-wide map from an account id (fid) to its push credential (`url`, `token`). The class `Registry` holds it in a `map` field. `Set` and `Delete` change it in place. `Get`, `Has`, `Count` and `GetAllFids` only read it.
- **Webhook ingestion** (`Webhook.Post`). Handles a direct client report (`frame_added` with an fid and a credential) and the platform envelope (`header`/`payload`/`signature`). For the envelope, the decoded event tag decides between storing, deleting and doing nothing. The signature is not checked, and the model claims no authenticity.
- **Notification dispatch** (`NotificationRoute.Post`, `NotificationRoute.Get`). `Post` resolves the credential: the explicit one first, else a registry lookup for a truthy fid. It refuses an incomplete credential, and otherwise builds the single outbound push request and maps the gateway's reply to the response. `Get` is the read-only status query.
- **Token check** (`VerifyRoute.Post`). A chain of guards: the `Bearer ` prefix, the second space-separated field, exactly three dot-separated JWT parts, a truthy `sub`, and `exp * 1000 < now` for expiry.
- **Score helpers** (`Neynar`). The five-level threshold bucketing, the per-level colour, label, description and tips tables, and `formatAddress`.
- **Cast helpers** (`Farcaster`). The embed selection of `composeCast` and the profile URL of `openProfile`.
- **JavaScript behaviour** (`Js`). The handlers rely on JavaScript truthiness, `split`, `slice`, `startsWith` and integer-to-text conversion. These are modelled once, with their own lemmas: split/join are inverses, and decimal text reads back to the same integer.

External effects become parameters:
- Base64/JSON decoding is a function returning `Option`, where `None` means it threw or produced null.
- A request body that fails to parse or parses to `null` is `None`. A body that parses to a number, a string or a boolean has every field absent.
- The gateway `fetch` is a function returning `Option<GatewayReply>`, where `None` means it threw.
- `Date.now()` and `NEXT_PUBLIC_APP_URL` are plain parameters.

A JavaScript string that may be `undefined` is an `Option<string>`. Its truthiness (`TruthyString`) rules out `undefined` and `""`. A number that may be `undefined` is an `Option<int>`, and `TruthyInt` rules out `undefined` and `0`.

## Model

| member | source | states |
|---|---|---|
| `NotificationStore.Registry.constructor` | src/lib/notificationStore.ts:10 | the registry starts empty |
| `NotificationStore.Registry.Get` | src/lib/notificationStore.ts:13-15 | returns a credential exactly when the fid is a key, and then the stored one |
| `NotificationStore.Registry.Has` | src/lib/notificationStore.ts:28-30 | `has(fid)` holds iff `get(fid)` is defined |
| `NotificationStore.Registry.Count` | src/lib/notificationStore.ts:38-40 | `count()` is the number of keys |
| `NotificationStore.Registry.Set` | src/lib/notificationStore.ts:17-20 | afterwards `get(fid) == details` and `has(fid)`; any earlier entry for fid is overwritten; every other fid's entry is unchanged; count grows by one exactly when fid was new |
| `NotificationStore.Registry.Delete` | src/lib/notificationStore.ts:22-26 | returns true iff fid was present; afterwards fid is absent and all other entries are untouched; on an absent fid the store is unchanged; count drops by one exactly when the result is true |
| `NotificationStore.Registry.GetAllFids` | src/lib/notificationStore.ts:33-35 | lists every stored fid exactly once and nothing else, so its length equals `count()` |
| `NotificationStore.SetIdempotent` | src/lib/notificationStore.ts:17-19 | setting the same credential twice leaves the same map as setting it once |
| `NotificationStore.DeleteIdempotent` | src/lib/notificationStore.ts:22-26 | deleting twice leaves the same map as deleting once |
| `Webhook.Classify` | src/app/api/webhook/route.ts:25-54 | `frame_added`/`mini_app_added` are "added", `frame_removed`/`mini_app_removed` are "removed", `notifications_enabled` and `notifications_disabled` are their own kinds, and a missing tag or any other tag is unknown |
| `Webhook.IsDirectReport` | src/app/api/webhook/route.ts:10 | a direct report is an "added" event, and only under the tag `frame_added`: `mini_app_added` never qualifies |
| `Webhook.IsEnvelope` | src/app/api/webhook/route.ts:16 | an envelope has all three fields non-empty, so the payload text handed to decoding is never empty |
| `Webhook.ShapesReadDisjointFields` | src/app/api/webhook/route.ts:10-16 | the envelope fields never decide whether a body is a direct report, and the report fields never decide whether it is an envelope |
| `Webhook.EnvelopeEffect` | src/app/api/webhook/route.ts:25-54 | added/enabled with a credential store it for the fid; added/enabled without one, and unknown tags, leave the map unchanged; removed/disabled leave the fid absent with or without a credential; no other fid changes |
| `Webhook.Status` | src/app/api/webhook/route.ts:12-65 | a reply is 200 exactly for the two success replies |
| `Webhook.Post` | src/app/api/webhook/route.ts:5-67 | a direct report (tag `frame_added`, truthy fid, credential) is checked first and stores `(fid, details)`, even when the envelope fields are present too; otherwise a full envelope is decoded, and a decode failure gives 500 with the store unchanged; a decoded payload gives success with the store changed as `EnvelopeEffect` says; a body of neither shape gives 400 with the store unchanged; a body that fails to parse or is `null` gives 500 with the store unchanged; a decoded payload without an event tag is acknowledged with the store unchanged |
| `NotificationRoute.AppUrl` | src/app/api/notification/route.ts:20 | the target URL is the given one if non-empty, else the configured app URL if non-empty, else the fixed default; it is never empty |
| `NotificationRoute.FidSegment` | src/app/api/notification/route.ts:43 | the `fid`, or `unknown`: a falsy fid gives `unknown`; a truthy fid gives text that reads back to it, all digits when the fid is non-negative and starting with `-` when it is negative |
| `NotificationRoute.NotificationId` | src/app/api/notification/route.ts:43 | the id starts with `neynar-score-` and ends with the timestamp's decimal text |
| `NotificationRoute.NotificationIdParts` | src/app/api/notification/route.ts:43 | for a missing or non-negative fid the notification id is `neynar-score-<fid or unknown>-<timestamp>`: it splits on `-` into exactly those four parts, and the fid and the timestamp read back from their parts |
| `NotificationRoute.Status` | src/app/api/notification/route.ts:30-71 | the missing-credential reply is 400, a gateway failure carries the gateway's own status, success is 200, and an internal error is 500; a reply is 200 exactly on delivery or on a failure the gateway itself reported as 200 |
| `NotificationRoute.Answer` | src/app/api/notification/route.ts:51-72 | a non-2xx gateway status passes through as the response status with the error text; a 2xx reply with a JSON body is success with that result; a throwing `fetch` or an unparsable body is 500 |
| `NotificationRoute.Post` | src/app/api/notification/route.ts:15-73 | an explicit credential is used whenever present, and an incomplete one gives 400 with no fallback to the store; without one, the store is consulted only for a truthy fid; an unresolved or incomplete credential gives 400 and no request; otherwise exactly one request goes to `details.url` with `tokens == [details.token]`, the title and body as given (absent when the request has none), the resolved target URL and the notification id; the response is the gateway's reply mapped by `Answer` |
| `NotificationRoute.Get` | src/app/api/notification/route.ts:76-91 | a missing or empty fid gives 400; otherwise it reports `has(fid)` for the numeric fid and `count()`, and only reads the registry |
| `Neynar.GetScoreLevel` | src/lib/neynar.ts:35-41 | excellent iff score ≥ 0.8, good iff 0.65 ≤ score < 0.8, average iff 0.5 ≤ score < 0.65, low iff 0.35 ≤ score < 0.5, poor iff score < 0.35 |
| `Neynar.GetScoreLevelIsHighestReached` | src/lib/neynar.ts:35-41 | the level is the highest one whose threshold the score reaches |
| `Neynar.GetScoreLevelMonotone` | src/lib/neynar.ts:35-41 | s ≤ t implies level(s) ≤ level(t) in the order poor < low < average < good < excellent |
| `Neynar.GetScoreColor` | src/lib/neynar.ts:44-53 | total over the five levels, with the source's exact colours; each is a lower-case `#rrggbb` hex colour |
| `Neynar.GetScoreLabel` | src/lib/neynar.ts:56-65 | total over the five levels, with the source's exact labels; each label reads back as its own level |
| `Neynar.GetScoreDescription` | src/lib/neynar.ts:68-77 | total over the five levels, with the source's exact descriptions; none is empty |
| `Neynar.TablesInjective` | src/lib/neynar.ts:44-109 | the colour, label, description and tips tables are total over the five levels and give distinct levels distinct values |
| `Neynar.GetScoreTips` | src/lib/neynar.ts:80-109 | every level has exactly three tips |
| `Neynar.FormatAddress` | src/lib/neynar.ts:112-115 | `""` maps to `""`; a non-empty address maps to its first min(6, n) characters, then `...`, then its last min(4, n) characters |
| `VerifyRoute.Status` | src/app/api/verify/route.ts:20-52 | a reply is 200 exactly when the token is verified, and every refusal is 401 |
| `VerifyRoute.BearerToken` | src/app/api/verify/route.ts:27 | the second field of the header split on a space is the text after `Bearer ` up to the next space or the end, and it holds no space |
| `VerifyRoute.DecodeJwt` | src/app/api/verify/route.ts:4-14 | no claims unless the token has exactly two dots, that is three parts |
| `VerifyRoute.DecodeJwtReadsMiddlePart` | src/app/api/verify/route.ts:6-10 | a token `h.p.s` with dot-free parts decodes to the claims of its middle part |
| `VerifyRoute.IsExpired` | src/app/api/verify/route.ts:38 | `exp && exp * 1000 < now` holds exactly when `exp` is truthy and at most `(now - 1) / 1000`, the last whole second before the millisecond `now` |
| `VerifyRoute.ExpiryBoundary` | src/app/api/verify/route.ts:38 | `exp * 1000 == now` is not expired, and a missing or zero `exp` is never expired |
| `VerifyRoute.Post` | src/app/api/verify/route.ts:16-60 | a missing header, or one without the `Bearer ` prefix, gives "Missing authorization token"; no claims or a falsy `sub` gives "Invalid token"; a truthy `exp` with `exp * 1000 < now` gives "Token expired"; otherwise it verifies with fid equal to `sub` and echoes `iss`, `aud` and `exp` |
| `Farcaster.ComposeCastOptions` | src/lib/farcaster.ts:106-117 | the text passes through unchanged; a missing or empty list gives no embeds; otherwise the embeds are the first min(2, n) of the list, so never more than two |
| `Farcaster.ProfileUrl` | src/lib/farcaster.ts:98 | the profile URL starts with `https://warpcast.com/~/profiles/` and has more after it |
| `Farcaster.ProfileUrlNamesFid` | src/lib/farcaster.ts:98 | the profile URL is `https://warpcast.com/~/profiles/` followed by the fid's decimal text, from which the fid reads back |
| `Farcaster.ProfileUrlInjective` | src/lib/farcaster.ts:98 | distinct fids give distinct profile URLs |
| `Js.SplitJoin` | src/app/api/verify/route.ts:6 | the pieces of `split` hold no separator, and joining them gives back the string |
| `Js.JoinSplit` | src/app/api/verify/route.ts:6 | splitting a join of separator-free pieces gives back the pieces |
| `Js.SplitCount` | src/app/api/verify/route.ts:6-7 | `split` gives one more piece than the string has separators |
| `Js.IntToDecimalRoundTrip` | src/app/api/notification/route.ts:43 | the decimal text of an integer, as a template literal writes it, reads back to the integer |
| `Js.RelativeIndex` | src/lib/neynar.ts:114 | the position `slice` derives from a possibly negative argument lies within the string |

## Left out

- HTTP and network plumbing: `NextResponse` construction, headers, JSON serialisation and the gateway `fetch` itself. Only the decisions, the request value and the status are modelled. The gateway is a parameter.
- Base64 and JSON decoding in the webhook (src/app/api/webhook/route.ts:18-19) and in `decodeJWT` (src/app/api/verify/route.ts:9). Each is an uninterpreted function that may fail. JSON shapes that decode but carry fields of the wrong type (a string fid, a non-object credential) are not modelled, because the model types every field.
- A decoded webhook payload without an fid: the source would then use `undefined` as a map key. The model's payload always carries an integer fid.
- Webhook signature verification: the source does none, so none is modelled.
- The `OPTIONS` CORS handler of the webhook route: it returns a constant header set.
- `console.log`/`console.error` logging, and the concurrency of simultaneous requests. The registry is used sequentially in the model.
- The insertion order of `getAllFids()`: JavaScript lists map keys in insertion order. `GetAllFids` promises each key exactly once but no order.
- JavaScript numbers:
  - fids, timestamps and `exp` are unbounded integers, so NaN, fractions, exponent formatting above 10^21 and the loss of precision above 2^53 are not modelled;
  - scores are exact `real`s, so the scores near a threshold where IEEE-754 rounding of a literal such as 0.8 would matter are not modelled.
- Text is a sequence of Unicode scalar values, whereas JavaScript strings are sequences of UTF-16 code units. Strings holding characters outside the Basic Multilingual Plane are not modelled: `slice` and `split` would count such a character as two units, where the model counts it as one.
- `Number(fid)` in the status query is a parameter. `None` means the text does not denote an integer; the source then gets `NaN`, which `NextResponse.json` writes as `null`, and `has(NaN)` is false.
- `NotificationRoute.Get`: reports `fid: None` where the source echoes a non-integer number such as 1.5 as it is.
- `VerifyRoute.Post`: the 500 reply for an exception is not modelled; every step that can throw in the source is inside `decodeJWT`, which catches it.
- `formatNumber` (src/lib/neynar.ts:118-126), which formats floats with `toFixed`.
- The SDK wrappers of src/lib/farcaster.ts other than the two fragments above (`ready`, `context`, `quickAuth`, `openUrl`, haptics, the wallet provider). Each is an awaited SDK call whose exception is swallowed.
- The UI components, the image and manifest routes, the wagmi configuration and src/app/api/user/route.ts: these are presentation code and a proxy to the Neynar API.
