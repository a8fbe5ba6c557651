# AIVoice connection logic in Dafny

AIVoice is a one-page web front end for a remotely hosted voice-AI server. The
user types the server's address; the page derives from it the server's chat
endpoint (`/api/chat` with eleven fixed generation settings in the query) and
the matching WebSocket address, and a "test connection" button probes the
server: it opens a socket, arms a 5-second timer, and reports `connected` when
the server's readiness marker (a binary frame whose first byte is zero) arrives
first, or `failed` with a note of its own when the timer, a socket error or the
socket closing comes first.

The model covers both pieces of logic in `src/app/page.tsx`:

- `text.dfy` (module `Text`): JavaScript's `trim` (its white-space and
  line-terminator set) and the case-insensitive scheme test `/^https?:\/\//i`.
- `address.dfy` (module `Address`): `normalizeUrl` and `joinPath` as functions,
  with idempotence, the empty-means-unset sentinel and the single slash at the
  seam proved.
- `search_params.dfy` (module `SearchParams`): a query as an ordered list of
  name/value pairs and `URLSearchParams.set` as section 6.2 of the WHATWG URL
  Standard describes it. It replaces the first pair of that name in place and
  drops the later ones, or appends when the name is absent.
- `endpoint.dfy` (module `Endpoint`): the parsed URL as a record; the `URL`
  object as a class whose setters the methods `BuildChatUrl` and
  `BuildWebSocketUrl` call in source order; and the functions `ChatUrl` and
  `SocketUrl` that specify them. Parsing (`new URL`) is a function parameter.
  The empty string the builders return for an unset address is the `Unset`
  variant, and the exception `new URL` throws on an unparsable address is the
  `Throws` variant.
- `probe.dfy` (module `Probe`): `handleTestConnection` as the class `Prober`.
  It has one method per event (timer, message, error, close) over the fields
  `status`, `note`, `socketOpened`, `resolved`, `timerCleared` and
  `closeRequested`. Each
  method is proved against the pure transition `Step`. First-wins and terminal
  settlement are proved about `Run`, the delivery of an event sequence.

The code sets eleven query settings (`repetition_penalty_context` and
`repetition_penalty` both). The socket scheme is `wss:` for `https:` and `ws:`
for every other protocol.

## Model

| member | source | states |
|---|---|---|
| `Text.TrimStart` | src/app/page.tsx:21 | the result is a suffix of the input, everything dropped is white space, and it does not start with white space |
| `Text.TrimEnd` | src/app/page.tsx:21 | the result is a prefix of the input, everything dropped is white space, and it does not end with white space |
| `Text.Trim` | src/app/page.tsx:21 | the trimmed value is no longer than the input and has no white space at either end |
| `Text.TrimIsSlice` | src/app/page.tsx:21 | the trimmed value is one contiguous slice of the input, and only white space lies on either side of it |
| `Text.TrimEmptyIff` | src/app/page.tsx:21-22 | trimming gives the empty string exactly when the input is all white space |
| `Text.TrimTrimmed` | src/app/page.tsx:21 | a string with no white space at either end is unchanged by trimming |
| `Text.TrimIdempotent` | src/app/page.tsx:21 | trimming twice is trimming once |
| `Address.NormalizeUrl` | src/app/page.tsx:20-29 | the result is empty exactly when the trimmed input is; a non-empty result always carries an http(s) scheme; it is the trimmed input when that already has the scheme in any case, else `https://` followed by the trimmed input |
| `Address.NormalizeUnsetIffBlank` | src/app/page.tsx:21-24 | the address is unset (`""`) exactly when the input is empty or white space only |
| `Address.NormalizeIdempotent` | src/app/page.tsx:20-29 | normalising a normalised address returns it unchanged |
| `Address.NormalizeKeepsSchemedAddress` | src/app/page.tsx:25-27 | a trimmed address with `http://` or `https://` in any letter case is returned verbatim |
| `Address.NormalizeAddsHttps` | src/app/page.tsx:28 | a trimmed, non-empty address without such a scheme gets `https://` prepended |
| `Address.NormalizeBareHost` | src/app/page.tsx:20-29 | `example.com` normalises to `https://example.com` |
| `Address.NormalizeFragmentHost` | src/app/page.tsx:20-29 | `example.com#x` normalises to `https://example.com#x`: the fragment is kept |
| `Address.NormalizeHttpsHost` | src/app/page.tsx:20-29 | `https://example.com` is kept and does not count as an `http://` address |
| `Address.PrefixedHasScheme` | src/app/page.tsx:25-28 | anything behind `https://` passes the scheme test |
| `Address.NormalizeHttpHost` | src/app/page.tsx:20-29 | `http://example.com` is kept as typed |
| `Address.NormalizeUpperCaseScheme` | src/app/page.tsx:25-26 | `HTTP://example.com` is kept as typed: the scheme test ignores case |
| `Address.JoinPath` | src/app/page.tsx:31-35 | the joined path is never empty and has a `/` at the seam |
| `Address.JoinPathShape` | src/app/page.tsx:32-34 | the joined path is the base up to the seam, then one `/`, then the sub-path without its leading `/` |
| `Address.JoinPathSingleSlash` | src/app/page.tsx:31-35 | when the base does not end in `//` and the sub-path does not start with `//`, exactly one `/` separates them |
| `Address.JoinPathEndsWithSub` | src/app/page.tsx:33-34 | the joined path ends with a slash-prefixed sub-path |
| `Address.JoinPathRoot` | src/app/page.tsx:31-35 | joining `/` with `/api/chat` gives `/api/chat` |
| `SearchParams.SetParam` | src/app/page.tsx:44 | `set` grows the query by at most one pair (which pairs it keeps is stated by the `SetParam...` lemmas below) |
| `SearchParams.SetParamInventsNothing` | src/app/page.tsx:44 | every pair after `set` is the pair just set or was already in the query |
| `SearchParams.SetParamNamed` | src/app/page.tsx:44 | after `set`, the name occurs exactly once, with the new value |
| `SearchParams.SetParamOthers` | src/app/page.tsx:44 | `set` leaves the pairs of every other name as they were, in order |
| `SearchParams.SetParamWithout` | src/app/page.tsx:44 | seen past the name set, `set` changes nothing, so untouched pairs keep their relative order |
| `SearchParams.SetParamAbsent` | src/app/page.tsx:44 | `set` of a name the query lacks appends the pair at the end |
| `SearchParams.SetParamAtFirst` | src/app/page.tsx:44 | `set` of a present name rewrites the first pair of that name where it stands and removes the later ones |
| `SearchParams.SetAll` | src/app/page.tsx:44-54 | successive `set` calls grow the query by at most one pair each (what they set and keep is stated by the `SetAll...` lemmas below) |
| `SearchParams.SetAllInventsNothing` | src/app/page.tsx:44-54 | after successive `set` calls every pair comes from the query or from the calls |
| `SearchParams.SetAllUntouched` | src/app/page.tsx:44-54 | pairs of a name never set come through successive `set` calls unchanged |
| `SearchParams.SetAllAssigned` | src/app/page.tsx:44-54 | after successive `set` calls of distinct names, each name occurs exactly once with the value set |
| `SearchParams.SetAllWithout` | src/app/page.tsx:44-54 | the pairs whose names were not set keep their values and relative order |
| `Endpoint.ChatParamsDistinct` | src/app/page.tsx:44-54 | the eleven settings have eleven distinct names |
| `Endpoint.ChatQuerySettings` | src/app/page.tsx:44-54 | the chat query holds each of the eleven settings exactly once with its fixed value, and every other pair of the parsed query unchanged and in order |
| `Endpoint.ChatUrl` | src/app/page.tsx:37-56 | the chat endpoint is unset exactly for a blank address, and throws exactly when the normalised address does not parse. Otherwise protocol, host and fragment (present or not) are the parsed ones and the path is `joinPath(path, "/api/chat")` |
| `Endpoint.ChatUrlQuery` | src/app/page.tsx:44-54 | a built chat endpoint's query holds each of the eleven settings once with its fixed value, and keeps every other pair of the parsed query unchanged and in order |
| `Endpoint.ChatQueryFixedSettings` | src/app/page.tsx:45-54 | after the eleven `set` calls, `voice_prompt=NATF0.pt`, `text_seed=42`, `audio_seed=42` and `repetition_penalty=1.1` each occur once |
| `Endpoint.ChatUrlFixedSettings` | src/app/page.tsx:43-54 | for any address, a built chat endpoint carries `voice_prompt=NATF0.pt`, `text_seed=42`, `audio_seed=42` and `repetition_penalty=1.1` once each |
| `Endpoint.ChatUrlPathEnds` | src/app/page.tsx:43 | for any address, the path of a built chat endpoint ends in `/api/chat` |
| `Endpoint.SocketProtocol` | src/app/page.tsx:64 | `wss:` exactly for `https:`, `ws:` for any other protocol |
| `Endpoint.SocketUrl` | src/app/page.tsx:58-66 | the socket endpoint is unset exactly for a blank address and throws exactly when the chat endpoint does. Otherwise it is the chat endpoint with only the protocol switched to the socket scheme, so a fragment of the typed address is kept |
| `Endpoint.FragmentFreeSocketUrl` | src/app/page.tsx:58-66 | the corrected socket endpoint: built for exactly the addresses `SocketUrl` builds, never with a fragment, and otherwise the same URL |
| `Endpoint.ParsedProtocol` | src/app/page.tsx:25-28 | with a parser that reads the scheme, a normalised address parses to `http:` when it starts `http://` in any case, and to `https:` otherwise |
| `Endpoint.SocketSchemeFollowsAddress` | src/app/page.tsx:63-64 | with a parser that reads the scheme, an `http://` address gives `ws:` and any other usable address, which is `https://` after normalisation, gives `wss:` |
| `Endpoint.ExampleBareHostSocket` | src/app/page.tsx:58-66 | `example.com` gives a `wss:` socket |
| `Endpoint.ExampleHttpsSocket` | src/app/page.tsx:58-66 | `https://example.com` gives a `wss:` socket |
| `Endpoint.ExampleHttpSocket` | src/app/page.tsx:58-66 | `http://example.com` gives a `ws:` socket |
| `Endpoint.UrlObject.constructor` | src/app/page.tsx:42 | the new object holds the parsed URL |
| `Endpoint.UrlObject.SetPathname` | src/app/page.tsx:43 | only the path changes, to the value assigned |
| `Endpoint.UrlObject.SetProtocol` | src/app/page.tsx:64 | only the protocol changes, to the value assigned |
| `Endpoint.UrlObject.SetSearchParam` | src/app/page.tsx:44 | only the query changes, to the query after `set` |
| `Endpoint.SetChatParams` | src/app/page.tsx:44-54 | the eleven `set` calls in source order leave the query as `SetAll` of the parsed query with the eleven settings, and change nothing else |
| `Endpoint.BuildChatUrl` | src/app/page.tsx:37-56 | the object-by-object construction (normalise, parse, set the path, eleven `set` calls) yields exactly `ChatUrl` |
| `Endpoint.UrlObject.ClearHash` | src/app/page.tsx:63-65 | only the fragment changes: it is removed |
| `Endpoint.BuildFragmentFreeSocketUrl` | src/app/page.tsx:58-66 | `buildWebSocketUrl` with the fragment cleared before serialising yields exactly `FragmentFreeSocketUrl`, a socket URL without fragment |
| `Endpoint.BuildWebSocketUrl` | src/app/page.tsx:58-66 | the construction (chat URL, copy, protocol switch) yields exactly `SocketUrl`: unset exactly for a blank address, and a built socket URL is `wss:` or `ws:` |
| `Probe.IsHandshake` | src/app/page.tsx:219-222 | a text frame is never the handshake, whatever it holds |
| `Probe.HandshakeStartsWithZero` | src/app/page.tsx:219-222 | a message is the handshake exactly when it is a binary frame that starts with the zero byte |
| `Probe.Verdict` | src/app/page.tsx:209-248 | a settling event yields `connected` exactly when it is the handshake message, and `failed` otherwise |
| `Probe.VerdictNotesDistinct` | src/app/page.tsx:209-248 | timeout, handshake, error and close each settle with a note no other kind shares |
| `Probe.Begin` | src/app/page.tsx:196-209 | with no socket address the probe fails at once with "Add a valid server URL first." and opens no socket; otherwise it shows `checking` and "Connecting..." with an unresolved attempt, and a socket (with its timer and handlers) exists exactly when the constructor accepts the address, that is, when it has no fragment |
| `Probe.BlankAddressFailsAtOnce` | src/app/page.tsx:197-201 | a blank typed address fails the probe immediately with its own note and no socket |
| `Probe.UsableAddressStartsChecking` | src/app/page.tsx:202-206 | an address that builds a socket URL starts an unresolved attempt showing `checking`, with a socket exactly when the parsed address has no fragment |
| `Probe.Step` | src/app/page.tsx:205-248 | an event without an open socket (no timer, no handlers), on a resolved attempt, or a non-handshake message changes nothing. Any other event resolves the attempt with its verdict. Every settlement except the timeout clears the timer, and the timeout and the handshake close the socket |
| `Probe.Run` | src/app/page.tsx:205-248 | any sequence of events keeps the probe in a consistent state, with `checking` exactly while unresolved once a socket is open, and never opens or drops a socket |
| `Probe.ResolvedIsFinal` | src/app/page.tsx:210-211 | once resolved, no later timeout, message, error or close changes status or note |
| `Probe.NonSettlingIgnored` | src/app/page.tsx:217-232 | messages that are not the handshake leave an unresolved attempt untouched |
| `Probe.FirstSettlerWins` | src/app/page.tsx:205-248 | the first settling event decides status and note, whatever events follow |
| `Probe.ConnectedOnlyAfterHandshake` | src/app/page.tsx:217-231 | `connected` is shown only if a handshake arrived before any timeout, error or close |
| `Probe.HandshakeThenAnything` | src/app/page.tsx:217-231 | a frame starting with byte 0 settles `connected` whatever arrives afterwards |
| `Probe.NonHandshakeThenTimeout` | src/app/page.tsx:209-232 | a frame starting with byte 1 followed by the timeout settles `failed` with the timeout note |
| `Probe.RetryAfterFailure` | src/app/page.tsx:196-203 | a new probe after a failure shows `checking` again and can reach `connected` |
| `Probe.DetachedIgnoresEvents` | src/app/page.tsx:206-248 | without an open socket no sequence of events changes the probe, since nothing is listening |
| `Probe.RefusedProbeHangs` | src/app/page.tsx:202-209 | a socket address with a fragment leaves the probe at `checking` and "Connecting..." for every later sequence of events, timeout included |
| `Probe.ExampleFragmentHangs` | src/app/page.tsx:20-66 | the typed address `example.com#x` builds a socket URL, and the probe then stays `checking` whatever events follow |
| `Probe.FragmentFreeProbeSettles` | src/app/page.tsx:196-248 | with the fragment-free socket address, every usable address starts an unresolved attempt with an open socket (where `FirstSettlerWins` applies), and the timeout then fails it |
| `Probe.Prober.constructor` | src/app/page.tsx:85-86 | the page starts `idle` with note "Not checked yet." |
| `Probe.Prober.Start` | src/app/page.tsx:196-209 | the new state is `Begin` of the old one, a refused address included |
| `Probe.Prober.OnTimeout` | src/app/page.tsx:209-215 | ignored once resolved; otherwise it resolves, asks the socket to close and fails with the timeout note |
| `Probe.Prober.OnMessage` | src/app/page.tsx:217-232 | ignored once resolved or for a non-handshake frame; otherwise it resolves, clears the timer, asks the socket to close and shows `connected` |
| `Probe.Prober.OnError` | src/app/page.tsx:234-240 | ignored once resolved; otherwise it resolves, clears the timer and fails with the error note |
| `Probe.Prober.OnClose` | src/app/page.tsx:242-248 | ignored once resolved; otherwise it resolves, clears the timer and fails with the closed-before-handshake note |

## Left out

- URL parsing (`new URL(...)`, src/app/page.tsx:42 and 63) is the WHATWG parser, a library; it is the parameter `parse`. Where the scheme matters, the model assumes only that the parser reads `http://` as `http:` and `https://` as `https:` (`ParsesHttpSchemes`).
- Endpoint.SocketSchemeFollowsAddress: holds only for parsers that satisfy `ParsesHttpSchemes`, because parsing is not modelled.
- URL serialisation (`toString`) and the re-parse of the chat URL in `buildWebSocketUrl` (src/app/page.tsx:63, 65) are taken as the identity on the URL record. The socket address is therefore the record, not its text, and the form-encoding of query values is not modelled.
- The `URL` record folds user name, password and port into `host`. The `pathname` and `protocol` setters are plain assignments: their re-parsing, percent-encoding and special-scheme checks are library behaviour, and the values assigned here need none of them.
- The exception `new URL` throws on an unparsable address escapes the page's render. It is the `Throws` variant, and `Prober.Start` is only called without it.
- The `|| "/"` fallback of `joinPath` is modelled as written. `JoinPathShape` proves it can never be taken: the result is always the concatenation.
- The WebSocket constructor's refusal is modelled for a fragment only (`SocketRefuses`). Refusals that depend on the browser, such as a `ws:` address from a page served over `https:`, are not modelled.
- Real WebSocket I/O and wall-clock time (src/app/page.tsx:206-215): events are method calls, and the 5000 ms timer is a "timer fired" event. `socket.close()` is recorded only as the `closeRequested` flag. The close event it later causes is just another event, and it is ignored.
- Overlapping probes from repeated clicks: each click has its own closure, and the rendered result is last-write-wins. The model holds one attempt at a time, and a new start replaces it.
- Confetti and its 1800 ms reset (src/app/page.tsx:228-229, 253-258), the `anime` animations (97-126) and the Matter.js physics scene (128-191): presentation only.
- `localStorage` load and save of the address (src/app/page.tsx:68-80, 93-95): browser storage. The address is the input of the builders.
- React hooks, `useMemo`, state setters and the JSX (src/app/page.tsx:82-95, 193-194, 251-452): the status and note are the fields of `Prober`.
- `src/app/layout.tsx`: static metadata and a wrapper, with no logic.

## Findings

| source | as written | input that shows it | evidently intended | confidence | as-written member | corrected member |
|---|---|---|---|---|---|---|
| src/app/page.tsx:58-66, 202-209 | `buildWebSocketUrl` keeps the fragment of the typed address. `new WebSocket` throws on a URL with a fragment after the page shows `checking`, and before the timer and the handlers exist, so the probe never settles | `example.com#x` (or any address with a `#`) | the probe settles for every usable address, for example by clearing the fragment (`wsUrl.hash = ""`) before serialising | medium, not executed | `Probe.ExampleFragmentHangs` | `Probe.FragmentFreeProbeSettles` |
