# imag: relay, producer page and output page, modelled in Dafny

imag puts text, a generated background image and a logo on a 1920×1080
output page, for example for a broadcast overlay. There are three programs:

- **The relay** (`server.js`). It keeps one `latestConfig` and the set of
  WebSocket clients. A frame `{type: 'update', config}` or a
  `POST /api/update` replaces the stored configuration and is forwarded to
  every OPEN client. A new client is first sent the stored configuration.
  The relay also holds the OpenAI key (`sk-` check, a 10-character prefix
  report) and checks the preconditions of image generation.
- **The producer page** (`setup.js`). It builds a configuration from its
  form and sends it on every path it has:
  1. localStorage, when the fallback is on;
  2. then the WebSocket if it is OPEN, else `POST /api/update`;
  3. then a BroadcastChannel message, always.

  It restores its form from localStorage, with defaults. It refuses to send
  a blank API key or a blank prompt.
- **The output page** (`output.js`). It overlays each configuration it
  receives onto what it shows. Configurations arrive from the socket, the
  channel, the one-second localStorage poll (only while the socket is not
  OPEN) and the start-up fetch. The text and the logo can be dragged, and
  resized from their corners.

Both pages reconnect their WebSocket at most five times, after 2, 4, 6, 8
and 10 seconds. The counter is reset when a connection opens. `config.js`
derives the WebSocket URL from the page origin by rewriting the scheme.

Files:

- `values.dfy`: JavaScript values, truthiness, `||`, property access (with
  the TypeError on null), `trim` and `parseInt`.
- `protocol.dfy`: the one frame type, the socket states and the localStorage
  read.
- `config.dfy`: `WS_URL`.
- `relay.dfy`: the relay, as the class `RelayServer`.
- `transport.dfy`: the reconnect counter both pages share, as the class
  `WsLink`.
- `output.dfy`: the output page, as the class `OutputPage`.
- `setup.dfy`: the producer page, as the class `SetupPage`.
- `system.dfy`: lemmas that connect the three programs.

Both pages use the same reconnect code (setup.js:15-47 and output.js:34-74).
`Transport.WsLink` models it once; the table cites the output page's lines.

## Model

| member | source | states |
|---|---|---|
| Values.Or | setup.js:301 | the logical-or operator yields its left operand when that is truthy; the result is truthy iff either operand is |
| Values.Field | output.js:99 | reading a property throws exactly on null/undefined, and otherwise yields the property or undefined |
| Values.TrimProperties | setup.js:113 | `trim` returns a slice of its input that neither starts nor ends with whitespace, and everything cut off on either side is whitespace; it is empty iff the input is all whitespace |
| Values.Trim | setup.js:113 | no contract of its own; `Values.TrimProperties` states what `trim` returns |
| Values.ParseIntReadsLeadingDigits | output.js:239 | `parseInt` of a CSS length such as "48px" is the value of its leading digits |
| Values.ParseIntString | output.js:239 | no contract of its own; `Values.ParseIntReadsLeadingDigits` states how a CSS length is read |
| Values.ParseInt | output.js:313 | no contract of its own; numbers are kept, strings are read as `Values.ParseIntString` reads them, and an array reads as its first item |
| Protocol.UpdateFrame | server.js:51-54 | the frame carries type 'update' and the config unchanged |
| Protocol.IsUpdate | server.js:43 | no contract of its own; `Relay.Accepted`, `Output.SocketUpdate` and `Output.ChannelUpdate` state which messages pass this test |
| AppConfig.IndexOf | config.js:12 | the first index at or after `from` where the pattern occurs; none if it never does |
| AppConfig.ReplaceAbsent | config.js:12 | `replace` with a string pattern that does not occur returns the input |
| AppConfig.ReplaceFirstOccurrence | config.js:12 | `replace` rewrites only the first occurrence and keeps both sides of it |
| AppConfig.ReplaceFirst | config.js:12 | no contract of its own; `AppConfig.ReplaceAbsent`, `AppConfig.ReplaceFirstOccurrence` and `AppConfig.ReplaceAfterPrefix` state what `replace` with a string pattern does |
| AppConfig.ReplaceAfterPrefix | config.js:12 | a replacement in `a + b` whose pattern first occurs in `b` leaves `a` untouched |
| AppConfig.WsUrlOfHttp | config.js:12 | `http://rest` becomes `ws://` followed by `rest`, with only the second replace left to act on `rest` |
| AppConfig.WsUrlOfHttps | config.js:12 | `https://rest` becomes `wss://`, because the first replace does not match `https://` |
| AppConfig.WsUrlOfOrigin | config.js:12 | for an origin whose host has no '/', `http://h` gives `ws://h` and `https://h` gives `wss://h` |
| AppConfig.WsUrlOfOtherScheme | config.js:12 | an origin containing neither scheme string is returned unchanged |
| AppConfig.WsUrl | config.js:12 | no contract of its own; `AppConfig.WsUrlOfHttp`, `AppConfig.WsUrlOfHttps`, `AppConfig.WsUrlOfOrigin` and `AppConfig.WsUrlOfOtherScheme` state the getter for each scheme |
| Relay.Accepted | server.js:39-45 | a frame stores its `config` iff it parses and its type is 'update'; a REST body is stored verbatim |
| Relay.StoredAfter | server.js:45 | no contract of its own; `Relay.LastWriteWins` states which update the stored config comes from |
| Relay.LastWrite | server.js:45 | the config of an update that stored one, with no later update storing anything; none exactly when no update stored anything |
| Relay.LastWriteWins | server.js:45 | after any run of socket and REST updates, the stored config is the config of any update after which no update stored anything, and the initial one when no update stored anything |
| Relay.ConfiglessUpdateErases | server.js:43-45 | an 'update' frame without a config erases any stored config: the relay then answers null and replays nothing |
| Relay.Replay | server.js:31-37 | a new client is sent one frame with the stored config if that config is truthy, and nothing otherwise |
| Relay.LateJoinScenario | server.js:29-37 | no contract of its own; a worked example in which a client that joins after a publish is sent the stored config once, and a malformed frame changes nothing |
| Relay.Broadcast | server.js:49-56 | every OPEN client gets the frame appended once; other clients are unchanged; states and identities are kept |
| Relay.BroadcastSendsOnePerOpenClient | server.js:49-56 | a broadcast sends exactly as many frames as there are OPEN clients |
| Relay.CheckKey | server.js:103-117 | a key is accepted iff `apiKey` is a string starting with "sk-"; a falsy or unprefixed key gets 400 and a non-string truthy key or an unreadable body gets 500 |
| Relay.RelayServer.constructor | server.js:24-25 | nothing is stored, there are no clients, and the key is the non-empty environment key |
| Relay.RelayServer.Connect | server.js:28-37 | the new client gets a fresh identity, is OPEN, and its outbox is the replay of the stored config; nothing else changes |
| Relay.RelayServer.SetReadyState | server.js:50 | only the named client's ready state changes |
| Relay.RelayServer.Disconnect | server.js:63-65 | the client leaves the set and every other client stays |
| Relay.RelayServer.SendToOpenClients | server.js:49-56 | the loop leaves the clients exactly as the broadcast says |
| Relay.RelayServer.OnMessage | server.js:39-61 | an accepted frame stores its config and is broadcast to every OPEN client, the sender included; anything else changes nothing and sends nothing |
| Relay.RelayServer.PostUpdate | server.js:73-93 | the body is stored, broadcast to every OPEN client, and answered with `{success: true}` |
| Relay.RelayServer.GetConfig | server.js:96-100 | the reply is the most recently stored config, or null when that config is falsy (including when nothing was stored) |
| Relay.RelayServer.SetApiKey | server.js:103-118 | the key changes iff the check accepts it, and the reply is 200 exactly then; configuration and clients are untouched |
| Relay.RelayServer.CheckApiKey | server.js:120-125 | `hasKey` iff a key is stored; the prefix is at most 10 characters of the key plus "...", or null |
| Relay.RelayServer.GenerateImage | server.js:128-137 | a missing key is refused before the prompt is looked at, a falsy prompt is refused, a null body throws, and otherwise the key and prompt go forward |
| Relay.RelayServer.Health | server.js:178-185 | the reply reports "ok", the number of connections whatever their state, and whether a key is stored |
| Transport.CloseStep | output.js:56-65 | a close schedules a retry iff fewer than 5 were made; the n-th retry waits 2000·n ms; the counter never passes 5 |
| Transport.RunStaysBounded | output.js:56-65 | over any run of opens and closes, the counter stays within 0..5 and every delay is 2, 4, 6, 8 or 10 seconds |
| Transport.Run | output.js:40-65 | no contract of its own; `Transport.RunStaysBounded`, `Transport.ClosesFrom` and `Transport.OpenRestoresBudget` state what a run of opens and closes does |
| Transport.ClosesFrom | output.js:60-63 | k closes from counter n schedule min(k, 5-n) retries with delays 2000·(n+1), 2000·(n+2), … |
| Transport.BackoffSchedule | output.js:60-63 | from a fresh counter, five or more closes schedule exactly 2000, 4000, 6000, 8000 and 10000 ms, and then stop |
| Transport.OpenRestoresBudget | output.js:40-43 | an open resets the counter, so the closes after it behave as from a fresh page |
| Transport.WsLink.constructor | output.js:2-3 | no socket, counter 0 |
| Transport.WsLink.Connect | output.js:34-38 | a created socket starts CONNECTING; a failed constructor leaves everything as it was |
| Transport.WsLink.OnOpen | output.js:40-43 | the socket is OPEN and the counter is 0 |
| Transport.WsLink.OnClose | output.js:56-65 | the socket is CLOSED, and the counter and retry delay are those of `CloseStep` |
| Transport.WsLink.IsOpen | setup.js:319 | no contract of its own; the `ws && ws.readyState === WebSocket.OPEN` test, used by `Setup.SetupPage.SendToOutput` and `Output.OutputPage.PollTick` |
| Output.Apply | output.js:284-346 | a falsy config changes nothing; each application with a custom font appends one font rule and never drops one |
| Output.ApplySetsOrResets | output.js:321-345 | a truthy config always sets the stroke and the logo display: stroked iff a stroke is requested, shown iff a logo is given; without a logo, its source, width and base width are kept |
| Output.ApplyFieldwise | output.js:284-346 | field by field: text, family, size, colour and background are overlaid only when truthy, a custom font wins over a named family, and stroke and logo are set or reset |
| Output.TextSection | output.js:288-290 | no contract of its own; `Output.ApplyFieldwise` and `Output.OutputPage.ApplyText` state the text rule |
| Output.FamilySection | output.js:293-295 | no contract of its own; `Output.ApplyFieldwise` and `Output.OutputPage.ApplyFamily` state the family rule |
| Output.FontSection | output.js:298-308 | no contract of its own; `Output.ApplyFieldwise` and `Output.OutputPage.ApplyCustomFont` state the custom-font rule |
| Output.SizeSection | output.js:311-314 | no contract of its own; `Output.ApplyFieldwise` and `Output.OutputPage.ApplyFontSize` state the size rule |
| Output.ColorSection | output.js:317-319 | no contract of its own; `Output.ApplyFieldwise` and `Output.OutputPage.ApplyColor` state the colour rule |
| Output.StrokeSection | output.js:322-329 | no contract of its own; `Output.ApplyFieldwise`, `Output.ApplySetsOrResets` and `Output.OutputPage.ApplyStroke` state the stroke rule |
| Output.BackgroundSection | output.js:332-334 | no contract of its own; `Output.ApplyFieldwise` and `Output.OutputPage.ApplyBackground` state the background rule |
| Output.LogoSection | output.js:337-345 | no contract of its own; `Output.ApplyFieldwise`, `Output.ApplySetsOrResets` and `Output.OutputPage.ApplyLogo` state the logo rule |
| Output.ApplyTwice | output.js:284-346 | applying the same config twice shows the same thing as once; the only trace is one more font rule when it has a custom font |
| Output.CompleteConfigDecides | output.js:284-346 | a config that sets every overlaid field decides what is shown, whatever was shown before |
| Output.OverlayMixesConfigs | output.js:288-319 | the text of one config and the colour of a later one can be shown together |
| Output.RepeatedTicks | output.js:105-118 | n poll ticks over an unchanged item show what one tick shows, and add n font rules when the config has a custom font |
| Output.VisibleApply | output.js:284-346 | what an application shows depends only on what was shown, not on the accumulated font rules |
| Output.SocketUpdate | output.js:45-54 | a socket frame is applied iff it parses, its type is 'update' and its config is truthy, and then its config is applied unchanged |
| Output.RelayFrameAccepted | output.js:48-49 | a relay frame reaches `applyConfiguration` iff its config is truthy |
| Output.ChannelUpdate | output.js:98-102 | a channel message is applied iff its type is 'update', with no test of its config |
| Output.ChannelAgreesWithSocket | output.js:98-102 | the channel and the socket show the same result for the same message |
| Output.PollUpdate | output.js:105-118 | the stored config is applied iff the fallback is on, the socket is missing or not OPEN, and the item parses |
| Output.OpenSocketSilencesPolling | output.js:107 | while the socket is OPEN, the tick applies nothing |
| Output.InitialConfig | output.js:77-89 | the fetched config is applied iff the response is ok, the body is not null and its config is truthy |
| Output.ClampPosition | output.js:192-193 | a dragged position is at least 0 and at most the free space; inside that range it is unchanged |
| Output.ScaleFactor | output.js:198-212 | the factor is 1 without a corner class, and above (below) 1 iff the pointer moved away from (toward) the opposite corner |
| Output.ClampScale | output.js:215 | the factor is kept within [0.2, 5] and unchanged inside it |
| Output.Round | output.js:219 | `Math.round` gives the integer within a half of its argument, halves rounding up |
| Output.RoundMonotone | output.js:219 | rounding preserves order |
| Output.ResizeBounds | output.js:215-223 | a resized size stays between a fifth and five times the base size |
| Output.Resized | output.js:219-223 | no contract of its own; `Output.ResizeBounds` bounds the resized size |
| Output.ResizedBetween | output.js:219-223 | for a factor within [0.2, 5], the rounded product with a base size lies between the rounded fifth and five times the base |
| Output.ScaledBetween | output.js:219-223 | before rounding, a non-negative base scaled by a clamped factor lies between its fifth and five times itself |
| Output.OutputPage.constructor | output.js:20-31 | initial look and layout, no gesture, base sizes 48 and 100, no socket |
| Output.OutputPage.ApplyConfiguration | output.js:284-346 | the page shows `Apply` of what it showed |
| Output.OutputPage.ApplyText | output.js:287-290 | the text section of the overlay |
| Output.OutputPage.ApplyFamily | output.js:292-295 | the font-family section of the overlay |
| Output.OutputPage.ApplyCustomFont | output.js:297-308 | the custom-font section: one more font rule, and the family of the uploaded font |
| Output.OutputPage.ApplyFontSize | output.js:310-314 | the font-size section, which also sets the base of the next resize |
| Output.OutputPage.ApplyColor | output.js:316-319 | the colour section of the overlay |
| Output.OutputPage.ApplyStroke | output.js:321-329 | the stroke is set when requested and reset to `unset` otherwise |
| Output.OutputPage.ApplyBackground | output.js:331-334 | the background section of the overlay |
| Output.OutputPage.ApplyLogo | output.js:336-345 | the logo is shown with its data and size, or hidden |
| Output.OutputPage.OnSocketMessage | output.js:45-54 | a frame changes the page exactly as `SocketUpdate` says |
| Output.OutputPage.OnChannelMessage | output.js:98-102 | a channel message changes the page exactly as `ChannelUpdate` says |
| Output.OutputPage.PollTick | output.js:105-118 | a tick changes the page exactly as `PollUpdate` says, for the page's own socket state |
| Output.OutputPage.LoadConfiguration | output.js:273-282 | at start-up, a stored item that parses is applied |
| Output.OutputPage.FetchInitialConfig | output.js:77-89 | the fetched config changes the page exactly as `InitialConfig` says |
| Output.OutputPage.HideInstructions | output.js:122-124 | the instructions are hidden and nothing else changes |
| Output.OutputPage.StartDrag | output.js:155-173 | a press off the handles starts a drag of that element at the pointer, with its grabbing cursor; a press on a handle changes nothing |
| Output.OutputPage.Drag | output.js:175-226 | a drag moves the element to the clamped position; a resize sets its size to the base size times the clamped factor, rounded; otherwise nothing changes |
| Output.OutputPage.StopDrag | output.js:228-249 | both gestures end, the dragged element's cursor is back to grab, and the computed size becomes the next base only for a resize without a drag |
| Output.OutputPage.StartResize | output.js:251-271 | a resize starts on the held corner; the handle's owner becomes the current element and its computed size becomes the base |
| Setup.BuildConfig | setup.js:300-311 | the config is truthy and carries the form's text, or 'Sample Text' when the text is empty |
| Setup.BuildConfigStyle | setup.js:300-311 | the config carries the form's font family, size and colour unchanged |
| Setup.BuildConfigStroke | setup.js:300-311 | the config carries the stroke checkbox as a boolean and the form's stroke colour and width |
| Setup.BuildConfigAssets | setup.js:300-311 | the config carries the generated image or else the stored one, and the uploaded font and logo |
| Setup.GetsPastStore | setup.js:313-316 | no contract of its own; the handler goes on after the store unless the fallback is on and `setItem` throws |
| Setup.Route | setup.js:313-334 | nothing at all when the store throws; otherwise localStorage first iff the fallback is on, the channel message last, and every delivery carries the same config |
| Setup.ExactlyOneRelayPath | setup.js:313-334 | past the store, exactly one delivery goes to the relay: the socket iff it is OPEN, the REST call otherwise, and the channel always; a throwing store leaves no relay delivery, socket, REST call or channel message |
| Setup.Restore | setup.js:359-391 | a missing, unparsable or null item assigns nothing; otherwise size, colour, stroke colour and width come out truthy, the checkbox follows `useStroke`, the font family is never restored, and image and logo are replaced only by truthy values |
| Setup.RestoreDefaults | setup.js:363-384 | for any saved object, field by field: a truthy field is restored as it is, and a missing or falsy one gives '', 48, '#ffffff', unchecked, '#000000' or 2; a truthy logo is taken with its size or 100, and a missing image or logo leaves the page's own |
| Setup.SaveRestore | setup.js:359-391 | restoring a config the page built gives back its form (empty text as 'Sample Text'), except the font family, and the logo size is taken from the logo |
| Setup.KeyRequest | setup.js:112-126 | no request iff the input is all whitespace; otherwise one POST to /api/set-api-key whose apiKey is the trimmed input, non-empty and with no whitespace at either end |
| Setup.PromptRequest | setup.js:155-173 | no request iff the prompt is all whitespace; otherwise one POST to /api/generate-image whose prompt is the trimmed input, non-empty and with no whitespace at either end |
| Setup.KeyShown | setup.js:142-153 | the placeholder shows the reported prefix iff the answer says a key is stored |
| Setup.PreviewStroke | setup.js:277-283 | the preview is stroked iff the checkbox is checked, with the form's width and colour |
| Setup.PreviewAfter | setup.js:263-297 | the preview shows the text or 'Sample Text' and the form's values; background and logo width change only when there is an image or a logo |
| Setup.PreviewTextIsSentText | setup.js:264 | the preview shows the text the next config carries |
| Setup.LogoObject | setup.js:245-249 | the uploaded logo records its data and the slider value at upload |
| Setup.LogoSizeFixedAtUpload | setup.js:245-249 | after the slider moves, the preview shows the new width but the next config still carries the width at upload |
| Setup.FontObject | setup.js:224-228 | the uploaded font records its generated name and data |
| Setup.FontOption | setup.js:219 | the selected family names the uploaded font first, in quotes, with `sans-serif` as its fallback |
| Setup.SetupPage.constructor | setup.js:9-12 | no font, image or logo, nothing sent, no socket |
| Setup.SetupPage.SendToOutput | setup.js:299-335 | the page sends `BuildConfig` of its state along `Route` for its own socket state and the outcome of the store |
| Setup.SetupPage.LoadSavedSettings | setup.js:359-391 | the form, image and logo become `Restore` of what they were |
| Setup.SetupPage.UpdatePreview | setup.js:263-297 | the preview becomes `PreviewAfter` of the form, image and logo |
| Setup.SetupPage.Edit | setup.js:88-109 | a control changes and the preview follows |
| Setup.SetupPage.OnCustomFontLoaded | setup.js:203-232 | the font is kept, its family is selected, and the preview follows |
| Setup.SetupPage.OnLogoLoaded | setup.js:242-258 | the logo is kept with the current slider value, and the preview shows it at that width |
| Setup.SetupPage.SaveApiKey | setup.js:112-126 | the page sends exactly the request `KeyRequest` says |
| Setup.SetupPage.OnKeyStatus | setup.js:142-153 | the placeholder changes exactly as `KeyShown` says |
| Setup.SetupPage.GenerateImage | setup.js:155-173 | clicked while enabled, the page sends exactly the request `PromptRequest` says, and the button is disabled iff a request went out |
| Setup.SetupPage.OnImageResponse | setup.js:175-195 | a successful answer sets the image URL and saves it to localStorage when `setItem` succeeds (a throw is caught and the URL kept); any other answer changes neither; the button is enabled again |
| System.AsRelayUpdate | server.js:39-45 | a socket delivery reaches the relay as a frame and a REST delivery as a body |
| System.EveryPathDeliversTheConfig | setup.js:299-335 | a delivery reaches the relay iff the store does not throw; the relay stores the built config from whichever path carried it, and the output page applies it from the relay frame, the channel, and the poll while its socket is not OPEN |
| System.OutputTextMatchesPreview | setup.js:264 | the output page shows the text the preview shows |
| System.StrokePreviewVersusOutput | setup.js:277-283 | an output stroke equals the preview stroke, and the output is stroked iff the preview is and colour and width are both truthy |
| System.TypedKeyAgainstRelay | server.js:103-113 | a typed key reaches the relay trimmed, and the relay stores it iff the trimmed key starts with "sk-" |
| System.TypedPromptAgainstRelay | server.js:128-137 | a prompt that passes the page's guard is forwarded by a relay with a key, trimmed |
| System.KeyShownIffRelayHasKey | setup.js:147-149 | the page shows a key prefix iff the relay holds a key |
| System.InitialFetchAppliesStoredConfig | output.js:77-89 | the start-up fetch applies the relay's stored config iff it is truthy |

## Behaviour worth noting

Where the code differs from what its own documentation suggests, the model
follows the code:

- **Echo to the sender.** The relay forwards an update to every OPEN
  client, the sender included (`Relay.RelayServer.OnMessage`).
- **Bad frames are dropped silently.** A frame that does not parse, or that
  is not of type 'update', is ignored; no error goes back to the sender.
- **No validation.** The relay stores configurations without checking them.
- **A full localStorage stops the send.** With the fallback on,
  `sendToOutput` writes the configuration to localStorage before anything
  else, outside any `try`. A write that throws (the configuration holds the
  logo and the font as data URLs and can exceed the storage quota) ends the
  handler: neither the relay nor the channel gets the configuration
  (`Setup.ExactlyOneRelayPath`). The same failure in `generateImage` is
  caught and only the saved copy of the image URL is lost.
- **A config-less update erases.** An 'update' frame without a `config`
  still assigns it, so the stored configuration becomes undefined: the relay
  then answers `GET /api/config` with null and replays nothing to new clients
  (`Relay.ConfiglessUpdateErases`).
- **No diffing on the poll.** The output page's poll re-applies the stored
  item on every tick while the socket is not OPEN, without comparing it with
  what it applied before. With a custom font, every tick adds one more
  `@font-face` rule (`Output.RepeatedTicks`).
- **Paths carry the `/api` prefix.** The relay answers on `/api/update`,
  `/api/config`, `/api/set-api-key`, `/api/check-api-key`,
  `/api/generate-image` and `/api/health`.
- **localStorage only with the flag.** The producer writes localStorage
  only when `USE_LOCALSTORAGE_FALLBACK` is set. It is set in `config.js`.
- **Configurations are overlays.** A falsy field keeps what an earlier
  configuration put there, so the page can show a mixture of two
  configurations (`Output.OverlayMixesConfigs`).
- **The preview can disagree with the output page.**
  - The preview draws a stroke whenever the checkbox is checked; the output
    page also needs a colour and a width (`System.StrokePreviewVersusOutput`).
  - The logo size sent is the one at upload time, while the preview follows
    the slider (`Setup.LogoSizeFixedAtUpload`).

## Left out

- JSON text is not modelled. A value sent is the value the receiver parses;
  parse failures are inputs (`Option`, `Stored`). `JSON.stringify` drops
  `undefined` members, and the BroadcastChannel's structured clone does
  not; that difference is not modelled.
- Numbers are integers, and pixel arithmetic uses reals. Floating-point
  rounding, fractional config values and NaN positions are not modelled;
  `parseInt` reads decimal text only. `Values.ParseInt` keeps a number as it
  is, where JavaScript reads its text: a magnitude of 1e21 or more prints in
  exponent form and parses to its leading digit.
- `Relay.RelayServer.CheckApiKey`: `substring(0, 10)` (server.js:123) counts
  UTF-16 code units, and the model counts characters. The two prefixes differ
  when the key's first ten units hold a character outside the Basic
  Multilingual Plane.
- DOM string conversion is not modelled. A value assigned to an input keeps
  its JSON type (48 rather than "48"), and range inputs are not
  sanitised. Style strings (`<v>px`, `url(...)`, `<w>px <c>`) are recorded as
  the values they are built from.
- I/O and plumbing are not modelled, because none of it changes the state
  modelled here:
  - Express, CORS and static serving;
  - the listen banner, the interface listing and SIGTERM handling
    (server.js:1-21, 188-223);
  - console logging;
  - `showStatus` and its timer;
  - `window.open`;
  - the `selectstart` handlers;
  - the image, logo and font-name labels of the producer page.
- The OpenAI request and its answer (server.js:139-174) are a foreign
  network call. Only the checks before it are modelled.
- Timers are not modelled. `OnClose` returns the retry delay instead of
  scheduling it, and a poll tick is an explicit step.
- Asynchronous answers are steps of their own (`OnImageResponse`,
  `OnKeyStatus`, `FetchInitialConfig`). The outcomes of `saveApiKey` and
  `sendViaRestAPI` only produce status messages and are not modelled.
- `Relay.RelayServer.Disconnect` assumes the `ws` library removes a closed
  connection from `wss.clients`. The relay's own close handler only logs.
- `Date.now()` in the generated font name is a parameter of
  `Setup.SetupPage.OnCustomFontLoaded`. A change event with no file returns
  at once, so it has no model. `FileReader` is not modelled.
- The producer's `onopen` status message under `DEBUG` is not modelled.
  `DEBUG` is false.
- `Setup.SetupPage.OnImageResponse`: `localStorage.setItem` stores the
  string form of the URL, and the model stores the value itself.
