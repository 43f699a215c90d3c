# cloudboard clipboard sync, modelled in Dafny

cloudboard is a desktop clipboard synchroniser. A watcher reads the local
clipboard after each change and uploads it to a relay server. The relay
pushes every upload over a socket to every connected client, the sender
included, so each client drops the events that carry its own socket id and
writes the others into its own clipboard. Content can be
end-to-end encrypted with a password. This project models the decision logic
of that loop and proves its properties.

- `wrappers.dfy`, `typedef.dfy`, `constants.dfy`: the option type, the
  clipboard payload (type tag, content, optional plain text, local or
  remote source; the tag is unchecked at run time, so a relayed payload
  carries whatever tag the sender put there) and the constant tables (password bounds, connection-state codes
  and their display).
- `utils.dfy`: the helpers.
  - Path `join` and `arraysEqual`.
  - Decryption with passthrough, over an uninterpreted cipher whose UTF-8
    decoding may throw.
  - Selection of the clipboard format to read, including the image-path
    pattern.
  - Write dispatch with the HTML plain-text fallback.
  - `formatSeconds`.
- `request.dfy`: the generic request hook. It merges options and headers,
  then tracks `loading`, `error` and `data` through one fetch. The fetch is
  an outcome value.
- `sync.dfy`: what both views share.
  - The `^https?://.*$` endpoint pattern.
  - The inbound relay event and its self-echo filter.
  - The upload body.
  - The log of side effects the views perform.
- `main_view.dfy`: the production coordinator. It has a base-URL check with
  normalisation and an error-notification latch for the configuration
  endpoint. Only remote payloads are deduplicated. Uploads are gated by
  socket id, server type list and size limit. The in-flight gate is written
  too, but the watcher reaches it through the first render's callbacks,
  where the flag is always false, so it never holds an upload back.
- `example_view.dfy`: the coordinator the application renders. It
  deduplicates every payload and writes every payload back to the clipboard
  with the echo flag raised. It is meant to upload a local payload through
  the request hook after a successful write. As written, building that
  upload throws, so nothing is posted (see "## Findings"). The password length, in UTF-16 code
  units, is checked when the field loses focus, but each edit is stored
  whatever its length.

Each coordinator is a class whose fields are the component's refs and state.
Each callback or effect is a method whose `ensures` equates the new
`Snapshot()` with a pure transition (`…Spec`) of the old one. The properties
are contracts of those transitions and lemmas about them.

The following are parameters of the model:
- AES;
- the DOM text extraction;
- URL parsing and origin;
- the content-size function;
- the clipboard plugin's answers;
- whether a clipboard write succeeded;
- the outcome of every fetch.

## Model

| member | source | states |
|---|---|---|
| Typedef.Tag | src/types/typedef.ts:19 | every kind has a wire tag among text/image/html/rtf, and the tag names that kind back |
| Typedef.KindOfTag | src/types/typedef.ts:19 | a tag names a kind exactly when it is one of the four tags; 'files' names none |
| Constants.Code | src/constants/index.ts:19-24 | the four states have codes 0..3 and each code maps back to its state (codes are distinct) |
| Constants.StateOfCode | src/constants/index.ts:19-24 | a code names a state exactly when it is in 0..3 |
| Constants.SocketConfig | src/constants/index.ts:26-31 | the display table has an entry exactly for the four state codes |
| Constants.SocketConfigTotal | src/constants/index.ts:26-31 | every state has an entry, coloured yellow, green, red and dimmed in state order |
| Utils.IntercalateSnoc | src/common/utils.ts:120 | joining one more part adds exactly one separator before it |
| Utils.IntercalateNonEmpty | src/common/utils.ts:279 | joining non-empty parts never gives the empty string |
| Utils.FirstNonString | src/common/utils.ts:118 | segment i is not a string and every segment before it is: the one `find` stops at |
| Utils.FindNonString | src/common/utils.ts:118 | the search finds nothing exactly when every segment is a string, otherwise the first non-string segment |
| Utils.Join | src/common/utils.ts:117-121 | as written: "" for no segments; null exactly when the first non-string segment is truthy; otherwise the shown segments joined by the separator |
| Utils.JoinLetsFalsySegmentThrough | src/common/utils.ts:119 | `join("/", "home", undefined)` gives "home/" where the checked join gives null |
| Utils.JoinChecked | src/common/utils.ts:111-121 | null exactly when some segment is not a string; otherwise the segments joined by the separator |
| Utils.JoinAgreesWithCheckedJoin | src/common/utils.ts:117-121 | both joins agree whenever no non-string segment is falsy |
| Utils.ArraysEqual | src/common/utils.ts:95-109 | true exactly for the same reference, or two non-null arrays of equal length equal at every index |
| Utils.EncryptContent | src/common/utils.ts:126-128 | the ciphertext text of the content under the password (AES is a parameter) |
| Utils.DecryptContent | src/common/utils.ts:133-135 | throws exactly when the UTF-8 decoding throws; a non-empty decryption is returned; an empty one gives the input back; the result is empty only for empty input |
| Utils.DecryptAfterEncrypt | src/common/utils.ts:126-135 | decrypting the ciphertext of a non-empty text with the same password gives the text back |
| Utils.DecryptPassthrough | src/common/utils.ts:133-135 | a text whose decryption is empty comes back unchanged |
| Utils.EmptyPlaintextComesBackEncrypted | src/common/utils.ts:126-135 | the empty text does not survive encryption and decryption: its ciphertext comes back |
| Utils.PngAcceptedAnywhere | src/common/utils.ts:167-169 | a `.png` in either letter case anywhere in the path makes it an image path |
| Utils.IsImagePath | src/common/utils.ts:167 | the image-path pattern: `.png`, `.jpg`, `.jpeg`, `.gif` or `.bmp` anywhere, `.webp` only at the end, in either letter case |
| Utils.WebpSuffixAccepted | src/common/utils.ts:167 | a path ending in `.webp` is an image path |
| Utils.WebpAcceptedAtEnd | src/common/utils.ts:167-169 | a path ending in `.webp` is an image path, and `a.webp.txt` is not |
| Utils.NonFinalWebpRejected | src/common/utils.ts:167 | a lower-case path with no dot before p, j, g or b that does not end in `.webp` is rejected, whatever `.webp` it holds inside |
| Utils.WebpInsideRejected | src/common/utils.ts:167 | `a.webp.txt` is not an image path |
| Utils.LowerOfLower | src/common/utils.ts:167 | the case-insensitive flag leaves text without upper-case letters unchanged |
| Utils.OccursAt | src/common/utils.ts:167 | the pattern starts at position i of the text |
| Utils.AbsentWithoutOccurrence | src/common/utils.ts:167 | an unanchored alternative that starts at no position does not match |
| Utils.DotPatternAbsent | src/common/utils.ts:167 | an extension `.x…` does not match when no dot of the path is followed by x |
| Utils.ReadFiles | src/common/utils.ts:166-179 | a payload exactly when the first path is non-empty, an image path and its file content is non-empty; the payload is that content as a local image |
| Utils.ReadClipboardData | src/common/utils.ts:154-211 | the first present format wins: the files reader; else the image; else the HTML with the text as plain text; else the RTF; else the text; null exactly when no format is present or the files reader yields nothing; every result is local and one of the four types |
| Utils.ReaderPriority | src/common/utils.ts:204-210 | a kind is read only when every higher-priority format (files, image, html, rtf, text) is absent |
| Utils.HtmlToText | src/common/utils.ts:239-245 | the empty document gives the empty text |
| Utils.WriteToClipboard | src/common/utils.ts:219-232 | text, image and rtf go to their own writers and html to the HTML-and-text writer, with the plain text if truthy, else the text of the document; 'files' only warns; any other tag has no writer and the call throws |
| Utils.EveryKindIsWritten | src/common/utils.ts:219-232 | a payload of any of the four types puts its content on the clipboard; any other tag writes nothing |
| Utils.HtmlFallback | src/common/utils.ts:224-227 | an empty HTML payload without plain text is written with empty plain text |
| Utils.LeadingZeroOnlyForZero | src/common/utils.ts:278 | a number's decimal text starts with '0' exactly for zero |
| Utils.Split | src/common/utils.ts:273-277 | h·3600 + m·60 + s equals the input, with m < 60 and s < 60 |
| Utils.FormatSeconds | src/common/utils.ts:270-280 | `formatSeconds` on a natural number: the h, m and s units whose text does not start with '0', joined by spaces |
| Utils.FormatSecondsShowsNonZeroUnits | src/common/utils.ts:270-280 | the text is the non-zero units among h, m, s in that order, separated by single spaces |
| Utils.FormatSecondsEmptyIffZero | src/common/utils.ts:270-280 | the text is empty exactly for zero seconds |
| Request.Merge | src/hooks/useRequest.ts:48-64 | per-call headers override default headers, which override the built-in ones; per-call options override defaults; showError and showSuccess come from the call, else the defaults, else true and false; the success message from the call, else the defaults, else the built-in one |
| Request.Started | src/hooks/useRequest.ts:66-68 | issuing a request sets loading and clears the error, keeping the data |
| Request.Settled | src/hooks/useRequest.ts:70-103 | loading ends; a result exactly on success, which sets data and keeps the error clear; a failure sets the error and keeps data; one notice iff showSuccess/showError applies |
| Request.RunSettles | src/hooks/useRequest.ts:44-104 | a whole run: success leaves no error and returns the data; a non-ok status or thrown error returns null with its message; an error notice iff showError |
| Request.Requester.constructor | src/hooks/useRequest.ts:37-42 | a hook starts with no data, not loading and no error |
| Request.Requester.Begin | src/hooks/useRequest.ts:48-68 | the request is the merge of defaults and options, and the hook enters the started state |
| Request.Requester.Complete | src/hooks/useRequest.ts:70-103 | the hook's new state and result are those of settling the request with the outcome |
| Request.Requester.Run | src/hooks/useRequest.ts:44-104 | a whole run with no other request settling in between |
| Sync.HttpUrl | src/views/MainView.tsx:37-40 | the endpoint pattern: a lower-case `http://` or `https://` followed by text without a line terminator |
| Sync.HttpUrlAccepts | src/views/MainView.tsx:37-40 | `http://` or `https://` followed by any single-line text matches the endpoint pattern |
| Sync.HttpUrlRejects | src/views/ExampleView.tsx:111-112 | an upper-case scheme, another scheme, or a line break after the scheme is rejected |
| Sync.DefaultUrlAccepted | src/constants/index.ts:5 | the default endpoint matches the endpoint pattern |
| Sync.Inbound | src/views/MainView.tsx:278-289 | an event is dropped exactly when it came from this socket; otherwise it becomes a remote payload of its type and content without plain text |
| Sync.SyncBody | src/views/MainView.tsx:377-382 | the upload body carries type, content and key, plus the client id when there is one |
| Sync.TimesShownAppend | src/views/MainView.tsx:120-135 | the number of times a notice is shown over two logs in a row is the sum of the two counts |
| MainView.ApiEndpoint | src/views/MainView.tsx:80-93 | no endpoints exactly when the base is empty; otherwise base + "/key-gen", base + "/config", base + "/sync", and the base's origin for the socket |
| MainView.ConfigEndpointInjective | src/views/MainView.tsx:98-103 | two different non-empty bases have different configuration endpoints, so a base change resets the latch |
| MainView.StorageLoadedSpec | src/views/MainView.tsx:69-77 | the refs take over the persisted settings; a different base re-arms the error latch; nothing else changes |
| MainView.ChangeApiBaseUrlSpec | src/views/MainView.tsx:35-60 | an unparsable or non-http(s) URL only notifies; an unchanged normalised URL does nothing; otherwise the normalised URL is stored and persisted, the latch reset and the configuration fetched with notification; nothing else changes |
| MainView.GetApiKeySpec | src/views/MainView.tsx:162-188 | nothing while the captured settings flag or a key request is loading; otherwise an empty key starts a key request and, with copy, the key held at the call is copied and notified; nothing else changes |
| MainView.GetApiKeyIntended | src/views/MainView.tsx:162-163 | with the current settings flag, an empty key is requested as soon as settings are loaded and no request is loading |
| MainView.FirstCopyIsEmpty | src/views/MainView.tsx:166-185 | copying before a key is provisioned copies the empty text while the request is pending |
| MainView.ApiKeyFetchedSpec | src/views/MainView.tsx:167-178 | a truthy fetched key is stored and persisted, and sent again with `auth` when it is new and the socket is connected; the request stops loading either way; nothing else changes |
| MainView.ProvisionedKeyAuthenticated | src/views/MainView.tsx:273-290 | a key provisioned while connected is the socket's latest authentication |
| MainView.OnConfigOutcomeSpec | src/views/MainView.tsx:113-151 | loading shows Connecting; an error shows Error, disconnects, and notifies only with the latch open; success shows Connected, connects, clears the latch, caches the config, requests a key exactly when the settings flag captured by the `getApiKey` it calls is clear, no key request is loading and the key is empty, and notifies exactly when asked; nothing else changes |
| MainView.LatchStep | src/views/MainView.tsx:120-135 | one non-success outcome closes the latch on error and adds a failure notice only through an open latch |
| MainView.ConfigFailureNotifiedOnce | src/views/MainView.tsx:120-135 | over any run of errors and loadings the failure notice is shown once if the latch was open and something failed, never otherwise |
| MainView.StaleLoadingNeverProvisions | src/views/MainView.tsx:146-188 | when every configuration success calls a `getApiKey` that captured the loading flag, no key request is ever made and the key stays empty |
| MainView.StaleStep | src/views/MainView.tsx:113-151 | one configuration outcome under that flag only appends entries, none a key request |
| MainView.SuccessRearmsLatch | src/views/MainView.tsx:137-146 | after a success the next error is notified again |
| MainView.NewBaseRearmsLatch | src/views/MainView.tsx:98-103 | after a base change the next error is notified again |
| MainView.FlagsState | src/views/MainView.tsx:257-262 | the socket flags give Error iff error, else Connected iff connected, else Connecting iff connecting, else Disconnected |
| MainView.UploadAllowed | src/views/MainView.tsx:358-373 | the upload gates: a non-empty socket id, the captured in-flight flag down, the type in the server's list, the size within the limit unless it is 0 |
| MainView.UploadSpec | src/views/MainView.tsx:357-386 | nothing unless every gate passes; otherwise one POST of the body to the sync endpoint, and the in-flight flag goes up |
| MainView.UploadSizeBoundary | src/views/MainView.tsx:368-373 | with limit 1000 a size of 1000 is uploaded and 1001 is not; limit 0 means no limit |
| MainView.UploadNamesThisClient | src/views/MainView.tsx:375-386 | the posted body carries the type, content, key and this socket's id |
| MainView.UploadDoneSpec | src/views/MainView.tsx:387-408 | the in-flight flag clears; exactly code 200 notifies success; an error notifies failure; nothing else changes |
| MainView.HandleClipboardDataSpec | src/views/MainView.tsx:410-447 | a remote payload is ignored iff its decryption throws or its text equals the last content, else it is recorded, flagged and written under its tag; a local payload goes to the upload, encrypted iff enabled; nothing else changes |
| MainView.RemoteDeliveryIdempotent | src/views/MainView.tsx:416-437 | the same remote payload delivered twice is written once |
| MainView.RemoteIsNeverUploaded | src/views/MainView.tsx:416-446 | a remote payload never posts and never changes the in-flight flag |
| MainView.RemoteCiphertextWrittenDecrypted | src/views/MainView.tsx:416-432 | a peer's ciphertext of one of the four types, under the same password, is written as its plaintext |
| MainView.UndecryptableRemoteIgnored | src/views/MainView.tsx:416-420 | a remote payload whose decryption throws changes nothing |
| MainView.UnwritableRemoteSwallowsNextFire | src/views/MainView.tsx:425-432 | a remote payload with a tag that has no writer writes nothing, yet raises the echo flag, so the next watcher fire is swallowed |
| MainView.LocalNeverDeduplicated | src/views/MainView.tsx:440-446 | the last content neither blocks nor records a local payload |
| MainView.WatcherFireSpec | src/views/MainView.tsx:301-348 | a raised echo flag is lowered without reading; an empty read is ignored; a read payload goes to the upload with the first render's in-flight flag, false |
| MainView.WatcherIgnoresUploadInFlight | src/views/MainView.tsx:301-359 | with an upload in flight a watcher payload that passes the other gates is posted again, where the current flag would have held it back |
| MainView.EchoConsumesNextFire | src/views/MainView.tsx:429-432 | after a remote payload is written, the next watcher fire only lowers the flag, whatever the clipboard holds |
| MainView.ReadIgnoresSizeLimit | src/views/MainView.tsx:322 | an over-limit payload is read; only the upload gate drops it |
| MainView.InboundSpec | src/views/MainView.tsx:273-292 | an event from this socket changes nothing; any other is handled as a remote payload |
| MainView.MainSync.constructor | src/views/MainView.tsx:24-30 | settings loading, the default endpoint, an empty key, disconnected, nothing logged |
| MainView.MainSync.SocketStatus | src/views/MainView.tsx:264-271 | the shown status is the table entry of the current state's code |
| MainView.MainSync.OnStorageLoaded | src/views/MainView.tsx:69-77 | performs StorageLoadedSpec |
| MainView.MainSync.ChangeApiBaseUrl | src/views/MainView.tsx:35-61 | performs ChangeApiBaseUrlSpec |
| MainView.MainSync.GetApiKey | src/views/MainView.tsx:162-188 | performs GetApiKeySpec with the captured settings flag |
| MainView.MainSync.OnApiKeyFetched | src/views/MainView.tsx:167-178 | performs ApiKeyFetchedSpec |
| MainView.MainSync.OnConfigOutcome | src/views/MainView.tsx:113-151 | performs OnConfigOutcomeSpec |
| MainView.MainSync.OnConfigFailed | src/views/MainView.tsx:120-135 | the error branch: latch closed, Error shown, the failure notified only when the latch was open, socket disconnected |
| MainView.MainSync.OnConfigLoaded | src/views/MainView.tsx:137-150 | the success branch as the composition of its three steps (ConfigLoadedSpec) |
| MainView.MainSync.Connect | src/views/MainView.tsx:139-144 | Connected shown, socket connected, latch re-armed, configuration cached, nothing else changed |
| MainView.MainSync.NoticeSuccess | src/views/MainView.tsx:148-150 | the success notice is appended exactly when a notice was asked for |
| MainView.MainSync.OnSocketFlags | src/views/MainView.tsx:257-262 | the four sequential tests leave the state FlagsState gives |
| MainView.MainSync.OnSocketConnected | src/views/MainView.tsx:273-277 | the socket id is recorded and the socket authenticates with the current key |
| MainView.MainSync.OnSocketDisconnected | src/views/MainView.tsx:254-256 | the socket id is gone |
| MainView.MainSync.Upload | src/views/MainView.tsx:357-386 | performs UploadSpec |
| MainView.MainSync.OnUploadDone | src/views/MainView.tsx:387-408 | performs UploadDoneSpec |
| MainView.MainSync.HandleClipboardData | src/views/MainView.tsx:410-447 | performs HandleClipboardDataSpec |
| MainView.MainSync.OnWatcherFire | src/views/MainView.tsx:315-333 | performs WatcherFireSpec |
| MainView.MainSync.OnInbound | src/views/MainView.tsx:278-290 | performs InboundSpec |
| MainView.MainSync.CheckPassword | src/views/MainView.tsx:212-219 | every password is accepted and stored: the length check is commented out |
| ExampleView.UploadRequestShape | src/views/ExampleView.tsx:278-294 | the intended upload (as written it throws, see "## Findings") is a POST of the JSON body to base + "/sync" with JSON content type, version header "undefined", error notices on and success notices off |
| ExampleView.Utf16Length | src/views/ExampleView.tsx:155 | a password's length is between its character count and twice that |
| ExampleView.Utf16LengthOfAstral | src/views/ExampleView.tsx:155 | characters outside the Basic Multilingual Plane count two each |
| ExampleView.PasswordLengthOk | src/views/ExampleView.tsx:155 | the password's length in UTF-16 code units is between 6 and 32 |
| ExampleView.EmojiPasswordTooLong | src/views/ExampleView.tsx:154-166 | seventeen emoji, seventeen characters, are rejected as longer than 32 |
| ExampleView.StorageLoadedSpec | src/views/ExampleView.tsx:131-140 | the refs take over the persisted settings; nothing else changes |
| ExampleView.ChangeApiBaseUrlSpec | src/views/ExampleView.tsx:110-122 | the raw URL is stored and persisted iff it matches the pattern, else only an error is shown; nothing else changes |
| ExampleView.CheckPasswordSpec | src/views/ExampleView.tsx:154-166 | accepted iff 6 ≤ length ≤ 32; accepted passwords are stored, rejected ones only notify |
| ExampleView.PasswordEditedSpec | src/views/ExampleView.tsx:399 | an edit of the field stores and persists the password, whatever its length, and changes nothing else |
| ExampleView.ShortPasswordStaysStored | src/views/ExampleView.tsx:391-400 | a three-character edit is stored, and the check on leaving the field rejects it without removing it |
| ExampleView.GetApiKeySpec | src/views/ExampleView.tsx:84-105 | nothing while loading; a present key is copied; an empty key is requested first: a failed request ends there, a successful one stores and persists the key, copies the empty text and shows the copied notice; nothing else changes |
| ExampleView.HandleClipboardDataSpec | src/views/ExampleView.tsx:317-355 | a payload whose decryption throws, or equal to the last content, is dropped; otherwise it is recorded, flagged and written under its tag; the intended upload starts iff the write did not fail or throw and the payload is local; nothing else changes (the code as written is HandleClipboardDataAsWritten) |
| ExampleView.HandleClipboardDataAsWritten | src/views/ExampleView.tsx:317-355 | the code as written: the handling rejects iff the decryption throws or a new local payload of a writable type is written, since the upload then throws at :292; no request is ever made and the sync request is untouched |
| ExampleView.AsWrittenIsIntendedWithoutUpload | src/views/ExampleView.tsx:286-292 | as written, every handling leaves the state the intended handling leaves after a failed write |
| ExampleView.UploadThrowsAsWritten | src/views/ExampleView.tsx:286-292 | a written new local text payload is posted by the intended handling but, as written, the handling rejects with nothing posted |
| ExampleView.HandlingIsIdempotent | src/views/ExampleView.tsx:327-332 | handling the same payload again, of either source, changes nothing |
| ExampleView.LocalDuplicateDropped | src/views/ExampleView.tsx:327-332 | a local payload equal to the last content is neither written nor uploaded |
| ExampleView.FailedWriteUploadsNothing | src/views/ExampleView.tsx:334-342 | a failed write issues no request |
| ExampleView.LocalUploadedAfterWrite | src/views/ExampleView.tsx:344-354 | under the intended handling, a new local payload of one of the four types, once written, is uploaded once with the body holding the content, encrypted iff enabled |
| ExampleView.RemoteNeverUploaded | src/views/ExampleView.tsx:344-354 | a remote payload never starts an upload |
| ExampleView.UploadSettledSpec | src/views/ExampleView.tsx:286-299 | the upload settles in its hook: loading ends; data on success, an error otherwise; nothing else changes |
| ExampleView.WatcherFireSpec | src/views/ExampleView.tsx:237-257 | a raised echo flag is lowered without reading; an empty read is ignored; a read payload is handled |
| ExampleView.WriteBackConsumedByEcho | src/views/ExampleView.tsx:241-245 | after any payload is written back, the next watcher fire only lowers the flag |
| ExampleView.InboundSpec | src/views/ExampleView.tsx:198-217 | an event from this socket changes nothing; any other is handled as a remote payload of its tag and content; no inbound event uploads |
| ExampleView.ExampleSync.constructor | src/views/ExampleView.tsx:77-79 | default endpoint, empty key, both request hooks idle and distinct |
| ExampleView.ExampleSync.OnStorageLoaded | src/views/ExampleView.tsx:131-140 | performs StorageLoadedSpec |
| ExampleView.ExampleSync.ChangeApiBaseUrl | src/views/ExampleView.tsx:110-122 | performs ChangeApiBaseUrlSpec |
| ExampleView.ExampleSync.CheckPassword | src/views/ExampleView.tsx:154-166 | performs CheckPasswordSpec and returns its verdict |
| ExampleView.ExampleSync.OnPasswordInput | src/views/ExampleView.tsx:399 | performs PasswordEditedSpec |
| ExampleView.ExampleSync.GetApiKey | src/views/ExampleView.tsx:84-105 | performs GetApiKeySpec through the key request hook |
| ExampleView.ExampleSync.HandleClipboardData | src/views/ExampleView.tsx:317-355 | performs HandleClipboardDataSpec, the intended handling, through the upload request hook |
| ExampleView.ExampleSync.OnUploadSettled | src/views/ExampleView.tsx:287-294 | performs UploadSettledSpec |
| ExampleView.ExampleSync.OnWatcherFire | src/views/ExampleView.tsx:237-257 | performs WatcherFireSpec |
| ExampleView.ExampleSync.OnSocketConnected | src/views/ExampleView.tsx:198-202 | the socket id is recorded and the socket authenticates with the current key |
| ExampleView.ExampleSync.OnSocketDisconnected | src/views/ExampleView.tsx:193-195 | the socket id is gone |
| ExampleView.ExampleSync.OnInbound | src/views/ExampleView.tsx:203-215 | performs InboundSpec |

## Left out

- AES is not modelled. `encrypt`/`decryptUtf8` are uninterpreted functions.
  Which ciphertexts fail to decode as UTF-8 is part of the parameter.
- HTML text extraction, URL parsing and origin, and the content-size
  function are uninterpreted parameters.
- The clipboard plugin is not modelled. Its answers at read time are a
  probe value, and whether a write succeeded is a parameter.
- The reading of a file as Base64 is not modelled. It is the probe's
  `firstFileBase64`.
- The network is not modelled. Every fetch, and the SWR cache behind
  MainView's configuration and key requests, is an outcome passed to the
  method that settles it.
- Socket transport and reconnection are out of scope. The socket's id and
  its flags are method parameters, and joining a new origin after a base
  change is not modelled.
- ExampleView.HandleClipboardDataSpec: assumes a socket hook that exposes
  `socketRef`. The hook ExampleView imports, src/hooks/useWebsocket.ts,
  returns none (lines 51-67), so as written the upload throws at
  ExampleView.tsx:292 and nothing is posted; that path is
  ExampleView.HandleClipboardDataAsWritten (see "## Findings"). MainView
  imports `useWebsocket` from `src/hooks/index`, which is not part of this
  model; the model assumes it returns `socketRef`, `isConnecting`,
  `isConnected` and `error` as MainView.tsx:254 reads them. If that index
  re-exported the same hook, `socketRef.current` would throw at
  MainView.tsx:132, :140 and :358, and `isConnecting` and `error` would be
  undefined; none of that is modelled.
- Lodash debounce timing is not modelled, only what happens when the
  callback fires. Interleavings between awaits are left out too: each
  callback runs to completion.
- Duplicate `clipboard:sync` listeners are not modelled. The effect
  registers a new one each time it re-runs.
- MainView.MainSync.OnStorageLoaded: a stored key loaded while the socket
  is connected is sent again with `auth` only at a later render, because
  the key ref is updated after the render that loads it; this re-send is
  not modelled. A fetched key is re-sent (MainView.ApiKeyFetchedSpec).
- ExampleView.ExampleSync.GetApiKey: ExampleView's socket effect also
  re-sends `auth` when the key ref changes. Its key ref is updated after
  the render the new key causes, so the re-send waits for a later render
  and is not modelled.
- React render timing is folded in. Each callback reads the current state,
  with three exceptions that are modelled. The key copied by `getApiKey` is
  the one it held when called. The settings flag MainView's `getApiKey`
  tests is the one of the render that last recreated it, a parameter,
  since when that happens depends on the storage setter's identity. The
  in-flight flag MainView's watcher sees is the first render's. The other
  values these callbacks read come through refs or setters and are taken
  as current.
- Storage I/O, i18n, the autostart plugin and all rendering are out of
  scope, as are the language and input-box mirror effects.
- Notifications are out of scope except as entries of the effect log.
- `formatBytes` is left out because it is floating-point arithmetic.
- `trueTypeOf` is left out because it depends on runtime type tags.
- `formatSeconds` is modelled on natural numbers only. NaN, negative and
  fractional inputs are left out.
- Utils.NatToString: the decimal text is exact only below 10^21, where
  JavaScript switches to exponent notation.
- `writeToClipboard` on a tag naming an inherited object property is left
  out. Such a tag reaches a property of `Object.prototype` rather than a
  missing writer.
- `useApiKey`, `useFetch`, `useFetchSWR`, the socket hooks and the Rust
  helpers are not part of this model, beyond what the
  ExampleView.HandleClipboardDataSpec line says of them.
- The password field's `trim()` and `maxLength`/`minLength` attributes are
  not modelled: an edit is the text the field hands over.
- MainView.MainSync.GetApiKey: a clipboard write of the key is taken to
  succeed. A rejected write would skip the copied notice.
- ExampleView.ExampleSync.GetApiKey: the same holds for ExampleView: the
  copy at ExampleView.tsx:99 is taken to succeed, so the copied notice is
  always logged. A rejected write would skip it.
- ExampleView.ChangeApiBaseUrlSpec: the pattern accepts a base with nothing
  after the scheme, such as "http://" (Sync.HttpUrlAccepts with an empty
  rest). That base is stored and persisted, and the next render's
  `new URL(...)` at ExampleView.tsx:194 throws on it, so the view falls to
  the application's error boundary, at every start since the base is
  persisted. URL parsing and rendering are not modelled, so this crash is
  not captured.

## Findings

| source | as written | input that shows it | evidently intended | confidence | as-written member | corrected member |
|---|---|---|---|---|---|---|
| src/common/utils.ts:119 | the check tests the segment `find` returns, so a falsy non-string such as `undefined` or `0` passes and is joined | `join("/", "home", undefined)` gives "home/" | null whenever any segment is not a string, as the documented return type says | not executed | Utils.Join | Utils.JoinChecked |
| src/views/MainView.tsx:163 | `getApiKey` tests the settings flag `loading` but leaves it out of its dependencies, so it keeps the flag of the render that last recreated it | a fresh install with no stored key, if the storage setter keeps its identity: nothing recreates the first render's callback, whose flag is true, so every configuration success and the copy button return at once and no key is ever requested | the current settings flag, so an empty key is requested once settings are loaded | low, not executed: whether the setter keeps its identity is decided in src/tauri/storage, which is not part of this model | MainView.StaleLoadingNeverProvisions | MainView.GetApiKeyIntended |
| src/views/ExampleView.tsx:292 | `uploadClipboard` reads `socketRef.current?.id`, but the hook imported at line 11 (src/hooks/useWebsocket.ts:51-67) returns no `socketRef`, so reading `current` of `undefined` throws before `syncClipboard` is called | a new local text payload whose clipboard write succeeds: it is recorded, flagged and written, then the handling rejects and no upload request is made | the upload is posted with the socket's id as `clientId` | high, not executed | ExampleView.UploadThrowsAsWritten | ExampleView.HandleClipboardDataSpec |
