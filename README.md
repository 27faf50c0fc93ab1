# Bluesky post client: session refresh and post rendering, in Dafny

This project models the core of a small Bluesky command-line client written
in Rust. The client logs in and keeps one session: an access token, the
instant it expires, and a refresh token. Before each authenticated call it
refreshes that session if the access token has expired. It then fetches a
single post by author handle and record key and renders the post as text,
along with its embed (images, an external link, a quoted record, or a
quoted record with media).

Modules, one per source file or component:

- `Wrappers` (wrappers.dfy): `Option`, `Result`, and `Outcome` (the result of a `Result<()>`).
- `Api` (api.dfy): the XRPC view types the core reads (`PostView`, the embed and quoted-record unions, records, profiles). Each keeps the fields the code reads, plus a few identifying fields the code never reads (`uri`, `did`, image `thumb`/`fullsize`, link `description`, and the `handle`, `did` and `email` of the create-session output). The unions are closed datatypes. A resolved quoted record carries embeds of its own, so the types are recursive even though the renderer does not descend into them.
- `Text` (text.dfy): decimal rendering of a `usize` and `[String]::join`, with their inverse and append laws.
- `Session` (session.dfy): `BSkySession`, `get_token_expiration`, and the two `TryInto<BSkySession>` conversions.
- `Client` (client.dfy): the `BSky` class. Its `session` field and a `poisoned` flag stand in for the `Mutex`. The module also holds `ensure_token_valid`, `get_post`, `auth` and `host`, each specified by a pure function of the lock state (`EnsureTokenValidSpec`, `GetPostSpec`).
- `Formatters` (formatters.dfy): the renderer as total functions over the datatypes, plus `get_formatted_post`. In the model, `get_formatted_post` fetches through the `Client` model above and then renders.

Library and network behaviour is passed in as values of function type, so the model leaves it uninterpreted:

- `Session.TokenCodec`: reading the `exp` claim of an unverified JWT, and mapping a count of milliseconds to a UTC instant. Each is partial (`Option`).
- `Formatters.TimeFormat`: RFC 3339 date-time parsing (partial), and rendering an instant in local time.
- `Client.Network`: the refresh-session, get-profile and get-posts calls. Each one receives the credential that `auth` attaches to it. Every operation that talks to the network also returns the list of calls it made, in order. That list is how the contracts state "no refresh", "no lookup before the token check" and "profile lookup before post lookup".
- The current time `now` is a parameter.

Behaviour of the code worth knowing, which the model keeps as written:

- The code reads the `exp` claim as epoch milliseconds (`timestamp_millis_opt`), although section 4.1.4 of RFC 7519 defines it as a NumericDate, which counts seconds.
- A record-with-media embed renders only its media. The quoted record is neither rendered nor replaced by a placeholder.
- An actor that cannot be resolved is whatever error the profile call returns. The code makes no separate "actor not found" check.
- Nothing in the code makes a refreshed session expire later than the old one, so the model does not claim it.

## Model

| member | source | states |
|---|---|---|
| Text.NatToString | src/formatters.rs:102 | an image number is written as decimal digits, never empty and with no leading zero |
| Text.StringToNatOfNatToString | src/formatters.rs:102 | reading the written number back gives the number (the rendering is lossless) |
| Text.NatToStringInjective | src/formatters.rs:102 | distinct image numbers are written differently |
| Text.Join | src/formatters.rs:112 | no parts join to the empty string and one part joins to itself; otherwise the result begins with the first part and ends with the last (with Text.JoinSnoc this fixes the whole result) |
| Text.JoinSnoc | src/formatters.rs:112 | joining one more part appends the separator and that part at the end |
| Session.GetTokenExpiration | src/bsky/session.rs:19-27 | the expiry is the instant of the access token's `exp` claim read as milliseconds; an unparsable token or an unmappable `exp` is an error |
| Session.FromTokens | src/bsky/session.rs:29-53 | a session exists exactly when the access token's expiry decodes; both tokens are copied verbatim and the session's expiry matches its own access token |
| Session.FromCreateSession | src/bsky/session.rs:29-40 | the create-session output becomes (access token, its decoded expiry, refresh token), or fails when the expiry does not decode |
| Session.FromRefreshSession | src/bsky/session.rs:42-53 | the refresh-session output becomes (access token, its decoded expiry, refresh token), or fails when the expiry does not decode |
| Session.ConversionsAgree | src/bsky/session.rs:29-53 | both conversions give identical results for identical token pairs |
| Session.ExpiryIgnoresRefreshToken | src/bsky/session.rs:19-26 | the expiry comes from the access token alone; outputs with the same access token get the same expiry |
| Client.EnsureTokenValidSpec | src/bsky/client.rs:47-64 | poisoned lock: error, no call. Unexpired (`now <= exp`): success, session untouched, no call. Expired: exactly one refresh call carrying the stored refresh token. It then succeeds exactly when both the refresh call and the decoding of the new access token succeed, and on success the session is the decoded refresh output. On error the session is unchanged. The exp-matches-access-token invariant is preserved |
| Client.RefreshReplacesWholeSession | src/bsky/client.rs:55-61 | an expired session whose refresh and decode succeed is replaced in all three fields by the refreshed ones |
| Client.PostUri | src/bsky/client.rs:34-36 | the address is `at://`, then the DID, then `/app.bsky.feed.post/`, then the id, each verbatim at its position |
| Client.PostUriRoundTrip | src/bsky/client.rs:34-36 | the address `at://<did>/app.bsky.feed.post/<id>` parses back to the same did and id (for a DID without '/') |
| Client.PostUriInjective | src/bsky/client.rs:34-36 | distinct (did, id) pairs get distinct post addresses |
| Client.FirstOrNotFound | src/bsky/client.rs:38-44 | the result is the first post exactly when the list is non-empty; otherwise an error naming the id and the handle |
| Client.GetPostSpec | src/bsky/client.rs:27-45 | the session afterwards is the one the token check leaves. A failed check fails the fetch with no lookup. After a passing check: a failed profile lookup is an error with no post lookup. Otherwise the calls are exactly the check's calls, the profile lookup, and one post lookup of the canonical address, both lookups carrying the current access token. A failed post lookup is an error, and a successful one gives the first post or PostNotFound(id, handle). Conversely, a fetched post always came from that sequence |
| Client.EmptyPostsIsNotFound | src/bsky/client.rs:38-44 | a resolved actor with no post at the address gives PostNotFound(id, handle) |
| Client.BSky.constructor | src/bsky/client.rs:21-24 | a new client holds the given session behind an unpoisoned lock |
| Client.BSky.Login | src/bsky/client.rs:19-25 | login fails when the create-session call or its token decode fails; otherwise a fresh client holds the converted session |
| Client.BSky.Host | src/bsky/client.rs:86-88 | the service host is an https origin with no path |
| Client.BSky.Auth | src/bsky/client.rs:89-99 | refresh token when asked for it, access token otherwise, nothing when the lock is poisoned; reads only |
| Client.BSky.EnsureTokenValid | src/bsky/client.rs:47-64 | the imperative check-and-replace; its outcome, new session and calls are those of EnsureTokenValidSpec, and it keeps the session invariant |
| Client.BSky.GetPost | src/bsky/client.rs:27-45 | the imperative fetch; its result, new session and calls are those of GetPostSpec |
| Formatters.SummarizePostContent | src/formatters.rs:37-54 | fails exactly when `created_at` is not a date-time; otherwise `[<local time>] <display name or handle> (<handle>): <text>` |
| Formatters.IndentNewlines | src/formatters.rs:106 | each line break grows by two characters and nothing else changes length (with the lemmas below: character by character, recoverable) |
| Formatters.IndentNewlinesAppend | src/formatters.rs:106 | the line-break replacement works character by character (it distributes over concatenation) |
| Formatters.IndentNewlinesWithoutBreaks | src/formatters.rs:106 | alt text without line breaks is left unchanged |
| Formatters.UnindentIndentNewlines | src/formatters.rs:106 | removing the two tabs after each line break recovers the original alt text |
| Formatters.AltText | src/formatters.rs:103-107 | empty alt text is `<no alt text>`; non-empty alt text is its re-indented self (IndentNewlines), unchanged when it has no line break and recoverable exactly |
| Formatters.SummarizeImages | src/formatters.rs:93-113 | no images give the empty string; one image gives its line numbered 1 (with Formatters.SummarizeImagesSnoc this fixes every summary) |
| Formatters.SummarizeImagesSnoc | src/formatters.rs:93-113 | one more image adds one line at the end, numbered one past the others, after "\n\t" |
| Formatters.TwoImages | src/formatters.rs:93-113 | two images with alt text "cat" and "" give lines numbered 1 and 2, the second with `<no alt text>` |
| Formatters.SummarizeExternal | src/formatters.rs:84-91 | `- Links to `, then the title verbatim, then ` (`, then the uri verbatim, then `)`, with nothing else (the length is fixed) |
| Formatters.SummarizeMedia | src/formatters.rs:77-82 | images are summarized as images, an external link as an external link |
| Formatters.SummarizeQuotedPost | src/formatters.rs:115-140 | not-found, blocked and generator are fixed texts, never errors; a quoted post is its header line; any other quoted record kind is an error |
| Formatters.EmbedBody | src/formatters.rs:60-73 | only a quoted-record embed can fail; images are the image summary, an external link the external summary, a quoted record the quoted-post summary, and a record-with-media embed the summary of its media |
| Formatters.SummarizePostEmbeds | src/formatters.rs:56-75 | an embed block is "\n\tembeds:\n\t" followed by the variant's body, and fails exactly when the body does |
| Formatters.NonPostIsRejected | src/formatters.rs:22-34 | a top-level record that is not a feed post is an error, never text |
| Formatters.FormatPostShape | src/formatters.rs:22-31 | without an embed the output is exactly the header line; with one it is the header line, "\n\tembeds:\n\t" and the body |
| Formatters.BadTimestampFailsPost | src/formatters.rs:22-42 | an unparsable `created_at` fails the whole post whatever its embed, with no partial output |
| Formatters.FormatPost | src/formatters.rs:22-34 | rendering succeeds exactly when the record is a post with a valid date and, if the embed is a plain quote of a resolved record, that record is also a post with a valid date (an independently written predicate). Not-found, blocked and generator quotes, and the quoted record of a record-with-media embed, never fail it. A non-post record is UnexpectedRecordKind |
| Formatters.ExternalSameEitherWay | src/formatters.rs:60-91 | an external link reads `- Links to <title> (<uri>)` both directly and as the media of a record-with-media embed |
| Formatters.RecordWithMediaIgnoresRecord | src/formatters.rs:72-82 | a record-with-media embed renders exactly the summary of its media; the quoted record neither changes nor fails it |
| Formatters.QuotedPostIgnoresNestedEmbeds | src/formatters.rs:117-124 | a quoted post renders the same whatever embeds it carries |
| Formatters.HandleStandsInForName | src/formatters.rs:37-53 | with no display name, handle "alice" and text "hello", the output is `[<time>] alice (alice): hello` |
| Formatters.GetFormattedPost | src/formatters.rs:17-35 | a failed fetch is returned as the error; otherwise the output is the rendering of the fetched post, or its error; the fetch is the client model's GetPostSpec |

## Left out

- Terminal colours and underlining (the `colored` crate): every coloured fragment is modelled as its plain text.
- The local-time rendering format, RFC 3339 parsing, JWT parsing and the millisecond-to-instant conversion are uninterpreted parameters. The model states how they are combined, not what they compute.
- Session.GetTokenExpiration: a token whose `exp` does not fit in an `i64` counts as a token that does not parse, as deserialising the claims would fail.
- `HttpClient::send` (request execution and header copying) is network I/O.
- Concurrency: the `Mutex`, `async`/`await`, and two callers racing to refresh. The model has a single owner, and `poisoned` never changes inside the model. A lock poisoned by a panic elsewhere is set from outside.
- Client.BSky.EnsureTokenValid: the lock is re-checked before the write, as in the code. The model cannot show the lock becoming poisoned between the two acquisitions.
- Error text produced by `map_anyhow` and `bail!`: errors are datatype values, and only success versus failure and the named fields (id, handle, record, date text) are modelled.
- `create_session` is imported from the session module but not defined there. Client.BSky.Login models login as the create-session output followed by the create-session conversion.
- Retrying or re-logging-in after a failed refresh belongs to the caller and is not modelled.
- src/main.rs: environment variables, the read-eval loop, printing and the URL regular expression (the regex crate's matching semantics) are not part of this model.
- Formatters.GetFormattedPost: in the program, the `BSky` that `get_formatted_post` calls is the agent-backed one in src/bsky.rs, and src/bsky/client.rs is not compiled in. So the program's own fetch never runs the token check or the refresh that the model wires in through Client.GetPostSpec. Only the fetch-then-render order and the error propagation are the program's.
- src/bsky.rs is not part of this model. It delegates login and session handling to the library's agent. Its address and first-post logic repeats the logic modelled from src/bsky/client.rs.
