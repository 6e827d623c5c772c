# CureZ conversation session, verified in Dafny

This project models the conversational core of the CureZ wellness assistant.
It covers the browser side, where a session hook holds the conversation, and
the Python side, where a WebSocket server keeps one set of tables per client
and summarises finished conversations. It also covers the helpers around them.

## What is modelled

The conversation state machine (`UseSession.Session`) models
`frontend/hooks/useSession.ts`. Its state is:

- the transcript: a sequence of heap objects `Msg`, because the hook mutates
  the text of the reply being streamed in place;
- the reply being accumulated (`responseText` and `responseElement`);
- the recording, active and playing flags, the elapsed-seconds counter and
  the input mode;
- the reference to the audio client.

Every event handler and user action of the hook is a method whose
postcondition states the hook's whole new state and every field of the
audio client it touches; the screen's actions state what they change in
the hook and in the audio client. Scenario methods run several events in a row and state
the resulting transcript. The audio client is the class
`Types.AudioClient`: it records only what callers can observe, and whether
connecting or opening the microphone succeeds is left open.

The conversation screen (`SessionScreen`, `frontend/components/Session.tsx`)
is a class holding the text box and the displayed input mode, with the send,
mode-toggle and microphone actions that call the hook. The header line, the
message pane and the control set are pure functions of the hook state.

`WebSocketServer.Server` models the per-client bookkeeping of
`Python_WebSocket/websocket_server.py`:

- the four tables `active_clients`, `session_transcripts`, `session_ids` and
  `user_ids`;
- the user_id handshake, the message loop, the recording of transcriptions
  and the resumption handle;
- the clean-up on disconnect;
- the preparation of a transcript for summarising: the "my name is"
  heuristic and the flattened `ROLE: text` lines.

The remaining modules are the data helpers, one module per source file:

- `SummarizerUtils`: JSON salvage, score clamping and summariser model choice (`utils.py`);
- `ExtractData`: XML-to-record ingestion and whitespace normalisation (`extract_data.py`);
- `UploadToPinecone`: documents and batched upload (`upload_to_pinecone.py`);
- `FormatTime`: the `mm:ss` clock (`frontend/lib/utils.ts`);
- `NextConfig`: the WebSocket proxy rewrite (`frontend/next.config.mjs`);
- `Auth`: Firebase error messages, sign-up, log-in and log-out (`frontend/lib/auth.ts`);
- `Dashboard`: profile save, mood data, suggested exercises and the tip of the day (`Dashboard.tsx`);
- `HomeSection`: the display formatters and gauges (`HomeSection.tsx`);
- `DashboardHeader`: the page title and greeting name (`DashboardHeader.tsx`);
- `Faq`: the single-open accordion (`Faq.tsx`).

These modules share four helper modules:

- `Wrappers`: `Option` and `Result`;
- `Seqs`: filter, join and map-filter;
- `Text`: JavaScript and Python whitespace trimming, ASCII case mapping,
  search, line splitting and decimal numerals with their parsers;
- `Js`: JavaScript values, truthiness, `Math.round` and clamping.

### Observed behaviour

These are the program's behaviours as written, proved about the model:

- **A message typed mid-reply loses its place.** A message typed while an
  assistant reply is streaming is appended after the reply. The next chunk of
  the same reply then extends the reply's entry object. It also overwrites
  the last transcript slot, which holds the typed message, with a copy of the
  reply. The transcript then shows the reply twice and the typed message no
  longer (`UseSession.TextSentMidReply`).
- **normalizePath is not idempotent.** It removes only one trailing slash,
  so `/a//` becomes `/a/` and then `/a` (`NextConfig.NormalizePathNotIdempotent`).
- **No queued mode switch.** The input mode is simply assigned to the
  current client. Text is sent without interrupting the reply in progress.

## Model

| member | source | states |
|---|---|---|
| UseSession.Session.constructor | frontend/hooks/useSession.ts:9-17 | a new hook has an empty transcript, no client, no open reply, every flag false, 0 seconds and audio input |
| UseSession.Session.Tick | frontend/hooks/useSession.ts:20-36 | the counter grows by one exactly when the session is active; nothing else changes |
| UseSession.Session.InitializeAudioClient | frontend/hooks/useSession.ts:38-126 | it fails with "User must be logged in to start a session" exactly when there is no uid, and then nothing changes and no client is created; on success a fresh client with the user's id is connected and installed with an empty accumulation, or the connection error message is appended |
| UseSession.Session.ReportConnectFailure | frontend/hooks/useSession.ts:116-125 | exactly one assistant message "Sorry, I'm having trouble connecting..." is appended; nothing else changes |
| UseSession.Session.Install | frontend/hooks/useSession.ts:52-53 | the client is stored and wired, and no reply is open |
| UseSession.Session.OnReady | frontend/hooks/useSession.ts:55-64 | the session becomes active and the transcript is exactly one new assistant greeting; the other state is unchanged |
| UseSession.Session.OnAudioReceived | frontend/hooks/useSession.ts:66-68 | playback is on; nothing else changes |
| UseSession.Session.OnTextReceived | frontend/hooks/useSession.ts:70-86 | the accumulated reply becomes Accumulate(old, chunk); a blank chunk changes nothing; a first chunk appends one fresh assistant entry holding it as the open reply; a later chunk keeps the length and overwrites the last slot with a fresh copy of the extended reply |
| UseSession.Session.OpenReply | frontend/hooks/useSession.ts:72-75 | a fresh assistant entry holding the chunk is appended and becomes the open reply |
| UseSession.Session.ExtendReply | frontend/hooks/useSession.ts:76-84 | the open reply's text becomes old + " " + trimmed chunk, the length is kept and only the last slot is replaced |
| UseSession.WithoutListening | frontend/hooks/useSession.ts:143-146 | keeps only entries of the input, and its snapshot is the input snapshot with every "Listening..." message filtered out |
| UseSession.AccumulateContinues | frontend/hooks/useSession.ts:76-78 | continuing an open reply appends every later non-blank chunk, trimmed, each after one space |
| UseSession.AccumulateTurn | frontend/hooks/useSession.ts:70-84 | one turn's reply is the first non-blank chunk as received, then every later non-blank chunk trimmed, joined by single spaces; no reply opens while every chunk is blank |
| UseSession.Session.OnTurnComplete | frontend/hooks/useSession.ts:88-92 | playback stops and the accumulation is reset; the transcript and flags are unchanged |
| UseSession.Session.OnError | frontend/hooks/useSession.ts:94-105 | exactly one fallback assistant message is appended and the accumulation is reset |
| UseSession.Session.OnInterrupted | frontend/hooks/useSession.ts:107-113 | playback stops, the client receives one interrupt and nothing else of it changes, the accumulation is reset and the transcript is unchanged |
| UseSession.Session.StartRecording | frontend/hooks/useSession.ts:128-136 | only with a client whose microphone opened: recording is set on the hook and the client and one user "Listening..." message appended; otherwise the hook is unchanged; nothing else of the client changes |
| UseSession.Session.AddListening | frontend/hooks/useSession.ts:131-134 | the recording flag is set and exactly one "Listening..." user entry is appended |
| UseSession.Session.StopRecording | frontend/hooks/useSession.ts:138-148 | with a client, the client stops recording and nothing else of it changes, recording is off and every "Listening..." message is removed, the rest keeping their order; without one nothing changes |
| UseSession.Session.DropListening | frontend/hooks/useSession.ts:141-146 | recording is off and the transcript is the old one filtered of "Listening..." messages |
| UseSession.Session.EndSession | frontend/hooks/useSession.ts:150-162 | any recording stops, also on the client, which is closed, disconnected and dropped with its other fields kept; the session is inactive at 0 seconds with an empty transcript; on an ended session it changes nothing, so ending twice is ending once |
| UseSession.Session.SendTextMessage | frontend/hooks/useSession.ts:164-169 | without a client nothing changes; with one the client receives the text, nothing else of it changes, and exactly one user message with it is appended |
| UseSession.Session.SetInputMode | frontend/hooks/useSession.ts:171-175 | the mode is assigned and, when it changed, forwarded to the current client, whose mode is otherwise kept; nothing else of the hook or the client changes |
| UseSession.StartConversation | frontend/hooks/useSession.ts:38-64 | a logged-in user either gets a transcript holding only the connection error, or a connected session showing exactly the greeting |
| UseSession.ConversationScenario | frontend/hooks/useSession.ts:55-169 | connect, greeting, a two-chunk reply, turn end and a typed message give exactly greeting, joined reply, typed message, and the client was sent exactly the typed text; a failed connection gives only the error and sends nothing |
| UseSession.StreamTwoChunks | frontend/hooks/useSession.ts:70-84 | two non-blank chunks after one entry give one reply entry holding chunk1 + " " + trimmed chunk2 |
| UseSession.AccumulateAllSnoc | frontend/hooks/useSession.ts:70-84 | accumulating one more chunk after a run of chunks is one more accumulation step on the run's result |
| UseSession.StreamChunks | frontend/hooks/useSession.ts:70-86 | after any number of chunks the hook's accumulated reply is the accumulation of all of them; the earlier entries are kept, and exactly one assistant entry holding the reply is added once a reply opens; client, status and wiring are unchanged |
| UseSession.StreamTurn | frontend/hooks/useSession.ts:70-86 | a whole streamed reply on the hook: all-blank chunks change nothing; otherwise the transcript gains exactly one assistant entry holding the first non-blank chunk and the later ones trimmed, joined by single spaces |
| UseSession.TypeDuringReply | frontend/hooks/useSession.ts:70-75 | a first chunk and then a typed message leave the open reply second and the typed message last |
| UseSession.NextChunkAfterTyping | frontend/hooks/useSession.ts:76-83 | the next chunk extends the open reply and overwrites the last slot: the second and third entries both hold the extended reply |
| UseSession.TextSentMidReply | frontend/hooks/useSession.ts:76-83 | typing during a reply and then receiving a second chunk leaves greeting, reply, reply: the typed message is gone |
| Types.AudioClient.constructor | frontend/lib/types.ts:1-17 | a new client has no user id, is not connected, recording or closed, is in audio mode (an assumed default), and has sent nothing |
| Types.AudioClient.SetUserId | frontend/lib/types.ts:16 | only the user id changes |
| Types.AudioClient.Connect | frontend/lib/types.ts:2 | the client is connected exactly when the handshake succeeded |
| Types.AudioClient.StartRecording | frontend/lib/types.ts:3 | recording is on afterwards exactly when it was on or the microphone opened |
| Types.AudioClient.StopRecording | frontend/lib/types.ts:4 | recording is off; nothing else changes |
| Types.AudioClient.Close | frontend/lib/types.ts:5 | the client is closed and disconnected |
| Types.AudioClient.Interrupt | frontend/lib/types.ts:13 | one more interrupt is recorded |
| Types.AudioClient.SendTextMessage | frontend/lib/types.ts:14 | the text is added to the sent texts |
| SessionScreen.Toggle | frontend/components/Session.tsx:49 | the new mode differs from the old |
| SessionScreen.ToggleTwice | frontend/components/Session.tsx:48-52 | two toggles restore the original mode |
| SessionScreen.StatusLineShowsClock | frontend/components/Session.tsx:65-67 | the status line starts "Connected - " exactly when the session is active, and the clock after it reads back as the elapsed seconds |
| SessionScreen.StatusLine | frontend/components/Session.tsx:65-67 | an inactive session shows "Connecting..."; an active one shows "Connected - " followed by a clock of at least five characters |
| SessionScreen.SideOf | frontend/components/Session.tsx:88-92 | a bubble sits right exactly when the user sent it |
| SessionScreen.RenderPane | frontend/components/Session.tsx:76-99 | the hint shows exactly for an empty transcript; otherwise one bubble per message, in order, with its text and side |
| SessionScreen.Controls | frontend/components/Session.tsx:117-158 | the toggle and end buttons always show; the mic only in audio mode; the text box and send button only in text mode |
| SessionScreen.Screen.constructor | frontend/components/Session.tsx:38-39 | the text box starts empty and the mode starts as audio |
| SessionScreen.Screen.SetText | frontend/components/Session.tsx:146 | the text box holds the typed text |
| SessionScreen.Screen.HandleSendText | frontend/components/Session.tsx:41-46 | blank input does nothing; otherwise the trimmed text is sent through the hook and the box is emptied; the open reply, the wiring and every other client field are unchanged |
| SessionScreen.Screen.ToggleInputMode | frontend/components/Session.tsx:48-52 | the screen shows the other mode and the hook's mode agrees with it; the client gets the mode when the hook's changed; nothing else of the screen, the hook or the client changes |
| SessionScreen.Screen.PressMic | frontend/components/Session.tsx:125 | while recording, recording stops and the client no longer records; otherwise a recording is started exactly when the client opens the microphone, and then the client records and a listening notice is appended; the active flag, clock, playback, input mode, open reply, wiring and the other client fields are unchanged |
| FormatTime.FormatTime | frontend/lib/utils.ts:8-12 | the clock is at least 5 characters with ':' third from the end, and exactly 5 characters below 6000 seconds |
| FormatTime.PaddedParses | frontend/lib/utils.ts:9-10 | a numeral padded to two places with zeros is all digits and reads back as its number |
| FormatTime.SecondsFieldIsTwoDigits | frontend/lib/utils.ts:10 | the seconds field is two digits reading back as the seconds past the minute, below 60 |
| FormatTime.MinutesFieldHoldsMinutes | frontend/lib/utils.ts:9 | the minutes field is at least two digits and reads back as all the minutes, never truncated |
| FormatTime.ReadClock | frontend/lib/utils.ts:11 | the independent reader of an "mm:ss" clock; it accepts only text with ':' third from the end |
| FormatTime.FormatTimeRoundTrip | frontend/lib/utils.ts:8-12 | reading the clock back gives the original count of seconds |
| FormatTime.FormatTimeInjective | frontend/lib/utils.ts:8-12 | different counts never show the same clock |
| FormatTime.FormatTimeZero | frontend/lib/utils.ts:8-12 | zero seconds shows "00:00" |
| NextConfig.WithLeadingSlash | frontend/next.config.mjs:3 | the result starts with "/": the default when unset or empty, else the path with "/" added when missing |
| NextConfig.NormalizePath | frontend/next.config.mjs:2-8 | the result starts with "/", is "/api/ws" when unset or empty, and drops one trailing "/" only from a path longer than one character |
| NextConfig.RootPathStays | frontend/next.config.mjs:4-7 | "/" stays "/" |
| NextConfig.NormalizedPathIsFixed | frontend/next.config.mjs:2-8 | a path starting with "/" and not ending in "/" (or "/" itself) is unchanged |
| NextConfig.NormalizePathNotIdempotent | frontend/next.config.mjs:4-7 | "/a//" normalises to "/a/" and that to "/a": at most one slash goes per call |
| NextConfig.NormalizeDestination | frontend/next.config.mjs:10-19 | ws:// becomes http://, wss:// becomes https://, and falsy values and other URLs are unchanged |
| NextConfig.HttpIsNoWebSocketScheme | frontend/next.config.mjs:12-17 | a URL starting with 'h' has neither WebSocket scheme |
| NextConfig.NormalizeDestinationIdempotent | frontend/next.config.mjs:10-19 | normalising twice is normalising once |
| NextConfig.Rewrites | frontend/next.config.mjs:34-45 | no rule without a service URL, else exactly one rule from the proxy path to that URL |
| NextConfig.ConfiguredRewritesShape | frontend/next.config.mjs:21-45 | with a service URL there is exactly one rule, whose source starts with "/" and whose destination has no WebSocket scheme |
| Auth.MapFirebaseError | frontend/lib/auth.ts:64-82 | no message exactly for an absent or empty code; a known code gives its fixed message; any other code is lowercased with "_" turned into a space |
| Auth.KnownCodes | frontend/lib/auth.ts:65-78 | each named code gives its own message, and both weak-password spellings give the same one |
| Auth.KnownCode | frontend/lib/auth.ts:65-78 | a code with a fixed message maps to exactly that message |
| Auth.KnownMessageIsNoFallback | frontend/lib/auth.ts:65-78 | no fixed message is empty or the generic request failure text |
| Auth.UnknownCodeMessage | frontend/lib/auth.ts:80 | an unknown code's message has the code's length, a blank wherever the code has "_", and no "_" or capital letter |
| Auth.FailureMessageFallback | frontend/lib/auth.ts:94-98 | the thrown message is never empty, and it is the generic text exactly when the code maps to no message |
| Auth.FirebaseRequest | frontend/lib/auth.ts:84-101 | a missing API key fails first; otherwise success gives the data, a failure status the mapped or generic message, and a throw from fetch or the JSON parse its own message |
| Auth.FailureMessage | frontend/lib/auth.ts:94-98 | the thrown message is never empty, and is the generic failure message when the error code is missing or empty |
| Auth.SignupAge | frontend/lib/auth.ts:156 | no age exactly when the field is empty |
| Auth.SignupAgeOfNumber | frontend/lib/auth.ts:156 | a decimal age is sent as that number |
| Auth.SignupProfile | frontend/lib/auth.ts:152-159 | the new profile carries the account id and e-mail, the typed name, the parsed age, the gender only when filled in, and an unverified e-mail |
| Auth.Signup | frontend/lib/auth.ts:134-172 | success exactly when the account and the verification requests both succeed, then the new id and e-mail; a failed or throwing account request passes its message on; a failed verification request gives the fixed verification message |
| Auth.MergedUser | frontend/lib/auth.ts:223-229 | the stored user has the account id, the account e-mail or else the typed one, and the profile's age and gender |
| Auth.MergedUserName | frontend/lib/auth.ts:226 | the name is the profile's, else the display name, never empty, and absent only when neither is given |
| Auth.LoginVerificationGate | frontend/lib/auth.ts:186-206 | a log-in succeeds only for a verified first account; an unverified one fails with code EMAIL_NOT_VERIFIED |
| Auth.LoginOutcome | frontend/lib/auth.ts:174-240 | a missing API key fails first; only the verification error carries a code, EMAIL_NOT_VERIFIED with its message; a success needs both the sign-in and the lookup to succeed; a throw in either request is rethrown with its own message |
| Auth.Storage.Login | frontend/lib/auth.ts:174-240 | the outcome is the log-in result; the user is stored under "curez_user" exactly on success, and a failure leaves storage as it was |
| Auth.Storage.Logout | frontend/lib/auth.ts:280-282 | the "curez_user" entry is removed and nothing else changes |
| Dashboard.Filled | frontend/components/Dashboard.tsx:125-133 | a field is sent exactly when it is not blank, and then trimmed and non-empty |
| Dashboard.UpdateData | frontend/components/Dashboard.tsx:121-133 | the payload carries the uid and exactly the non-blank fields, trimmed |
| Dashboard.BuildUpdateData | frontend/components/Dashboard.tsx:121-133 | the conditional assignments build exactly that payload |
| Dashboard.SavedUserMatchesPayload | frontend/components/Dashboard.tsx:145-150 | the saved user agrees with every field the payload carries, keeps the earlier value of every blank field, and keeps uid and e-mail |
| Dashboard.SavedUser | frontend/components/Dashboard.tsx:145-150 | uid and e-mail are kept; a blank name, age or gender keeps the earlier value; a filled name or gender is stored trimmed |
| Dashboard.SavedAgeOfNumber | frontend/components/Dashboard.tsx:148 | a decimal age is saved as that number |
| Dashboard.SaveOutcomeOf | frontend/components/Dashboard.tsx:109-170 | nothing happens without a uid; all blank fields give only the fill-in alert; a request is sent exactly otherwise, with the payload; the user is updated exactly when it is accepted; rejection and failure give their alerts |
| Dashboard.DashboardState.constructor | frontend/components/Dashboard.tsx:69-81 | the form starts empty, not editing or loading, with no mood data and no suggestions |
| Dashboard.DashboardState.ResetForm | frontend/components/Dashboard.tsx:95-107 | the form fields show the current user's name, age and gender, empty where absent, and editing is set as asked |
| Dashboard.DashboardState.HandleSave | frontend/components/Dashboard.tsx:109-170 | the outcome is SaveOutcomeOf the fields; editing ends and the merged user is stored exactly on acceptance; loading is off after a request; the form and mood data are unchanged |
| Dashboard.ParseToNumberOrNull | frontend/components/Dashboard.tsx:200-209 | numbers are unchanged, strings are parsed with null for NaN, and anything else is null |
| Dashboard.MoodDataOf | frontend/components/Dashboard.tsx:199-237 | mood data exists exactly when the summary has a truthy mood, and carries that mood |
| Dashboard.MoodDataDefaults | frontend/components/Dashboard.tsx:211-236 | falsy scores become 0, falsy labels "Unknown", optional fields null rather than undefined, parsed fields a number or null |
| Dashboard.SuggestedAreCatalogueEntries | frontend/components/Dashboard.tsx:245-250 | the suggestion is a subsequence of the catalogue holding exactly the entries whose id is suggested |
| Dashboard.SuggestedFrom | frontend/components/Dashboard.tsx:245-250 | no more entries than the catalogue, each one a catalogue entry whose id is suggested |
| Dashboard.TipIndex | frontend/components/Dashboard.tsx:271-274 | the tip index is within the tip list |
| Dashboard.TipConstantInWindow | frontend/components/Dashboard.tsx:271-274 | every instant of one 12-hour window shows the same tip |
| Dashboard.TipAdvances | frontend/components/Dashboard.tsx:271-274 | twelve hours later the next tip, cyclically, is shown |
| Dashboard.DashboardState.OnUserData | frontend/components/Dashboard.tsx:191-250 | mood data is replaced only by a summary with a truthy mood, suggestions only when the summary lists them in an array; the form is unchanged |
| HomeSection.RoundedTenths | frontend/components/sections/HomeSection.tsx:49 | the result is a whole number of tenths within half a tenth of the input |
| HomeSection.FormatHours | frontend/components/sections/HomeSection.tsx:42-51 | null, undefined and NaN give "Not available", zero gives "0 hrs", else the rounded value and " hrs" |
| HomeSection.ShownNumber | frontend/components/sections/HomeSection.tsx:58-59 | with "%" the value shown is in [0, 100] and within one half of an in-range input; other suffixes are only rounded |
| HomeSection.FormatNumber | frontend/components/sections/HomeSection.tsx:53-60 | a missing value gives "Not available", else the shown number and the suffix |
| HomeSection.PercentageReadsBack | frontend/components/sections/HomeSection.tsx:53-60 | a percentage is two to four characters whose digits read back as the shown number |
| HomeSection.FormatText | frontend/components/sections/HomeSection.tsx:62-67 | null, undefined and "" give "Not available", else the value itself |
| HomeSection.Gauge | frontend/components/sections/HomeSection.tsx:123-134 | both parts lie in [0, 100] and sum to 100, a falsy level is empty, and an in-range level is filled exactly |
| DashboardHeader.GetHeaderDetails | frontend/components/DashboardHeader.tsx:9-37 | home greets by name, sessions, resources and profile have their fixed titles, and only the fallback page has a description |
| DashboardHeader.DisplayName | frontend/components/DashboardHeader.tsx:46 | never empty: the user name, else the e-mail before the first "@", else "User" |
| DashboardHeader.DisplayNameFromEmail | frontend/components/DashboardHeader.tsx:46 | the e-mail fallback is a prefix of the address without "@" that stops at the first "@" |
| DashboardHeader.HomeGreetsUser | frontend/components/DashboardHeader.tsx:11-14 | the home title is the greeting followed by that non-empty name |
| DashboardHeader.HeaderName | frontend/components/Dashboard.tsx:306 | the logged-in user's non-empty name, else the fetched name |
| Faq.Toggled | frontend/components/Faq.tsx:39-45 | toggling the open entry closes it, and toggling any other entry opens exactly that one |
| Faq.ToggleTwice | frontend/components/Faq.tsx:39-45 | toggling an entry twice restores it if it was open, and otherwise leaves nothing open |
| Faq.ToggleOpensOnlyIndex | frontend/components/Faq.tsx:42-44 | after a toggle no other entry is open |
| Faq.FaqAccordion.constructor | frontend/components/Faq.tsx:38 | no entry is open initially |
| Faq.FaqAccordion.ToggleFaq | frontend/components/Faq.tsx:39-45 | the open entry becomes the toggle of the old one |
| WebSocketServer.FirstNameMentionIsFirst | Python_WebSocket/websocket_server.py:417-425 | no name exactly when no user turn mentions one; otherwise the name comes from the first such turn, and no earlier turn mentions one |
| WebSocketServer.FirstNameMention | Python_WebSocket/websocket_server.py:417-425 | no name when no turn mentions one; a name found is the stripped, lower-cased text after the last "my name is" in a user turn that mentions it |
| WebSocketServer.ExtractUserName | Python_WebSocket/websocket_server.py:417-425 | the scan loop finds exactly that first mention |
| WebSocketServer.FlatLinesAreKeptTurns | Python_WebSocket/websocket_server.py:443-449 | one line per turn with text, in order, each its "ROLE: text" |
| WebSocketServer.FlatLines | Python_WebSocket/websocket_server.py:443-449 | at most one line per turn, and none for an empty transcript |
| WebSocketServer.FlattenTranscript | Python_WebSocket/websocket_server.py:443-449 | the loop's output is those lines joined by "\n" |
| WebSocketServer.PrepareSummary | Python_WebSocket/websocket_server.py:411-460 | nothing exactly for an empty transcript; otherwise the found name, the flattened transcript and the session handle, or "" |
| WebSocketServer.Server.constructor | Python_WebSocket/websocket_server.py:20-26 | all four tables start empty |
| WebSocketServer.Server.Register | Python_WebSocket/websocket_server.py:152-156 | the socket is stored and the client gets an empty transcript; the other tables are unchanged |
| WebSocketServer.Server.Handshake | Python_WebSocket/websocket_server.py:158-177 | only a first message of type user_id records a uid and lets the session start; another message or a timeout closes it with its reason, and an unreadable one abandons it |
| WebSocketServer.Server.HandleMessage | Python_WebSocket/websocket_server.py:204-255 | a text message is recorded as a user turn only when its data is non-empty; an end message starts a summary for a recorded uid; audio is queued; nothing else changes the tables |
| WebSocketServer.Server.RecordTranscription | Python_WebSocket/websocket_server.py:346-396 | a non-empty transcription is appended to the client's transcript with its role; an empty one changes nothing |
| WebSocketServer.Server.OnResumptionUpdate | Python_WebSocket/websocket_server.py:276-282 | a resumable update with a handle replaces the client's handle, so only the latest is kept |
| WebSocketServer.Server.Cleanup | Python_WebSocket/websocket_server.py:49-68 | a summary starts exactly for a recorded non-empty uid and non-empty transcript, with that uid, that transcript and the client's session handle read before the deletions; the client leaves all four tables and no other client's entry changes |
| WebSocketServer.Server.SummaryInputs | Python_WebSocket/websocket_server.py:411-451 | nothing for a client without a transcript; otherwise the flattened transcript and its handle |
| WebSocketServer.ClientLifetime | Python_WebSocket/websocket_server.py:33-68 | after register, handshake, messages and disconnect the client has no entry in any table, others are unchanged, and no summary starts without a user_id handshake |
| SummarizerUtils.CandidateSpan | Python_WebSocket/utils.py:14-16 | a span exists exactly when some "{" comes before some "}", and then it runs from the first "{" to the last "}" |
| SummarizerUtils.Candidate | Python_WebSocket/utils.py:14-17 | the candidate occurs in the text, starts with "{" and ends with "}" |
| SummarizerUtils.ExtractJson | Python_WebSocket/utils.py:6-22 | empty text is {"raw": ""}; text that decodes gives its value; else a decoding candidate gives its value; else {"raw": stripped text} |
| SummarizerUtils.ExtractJsonResult | Python_WebSocket/utils.py:6-22 | the result is always a decoded value or a "raw" object of the stripped text |
| SummarizerUtils.RoundHalfEven | Python_WebSocket/utils.py:58 | Python's round is within one half of its input |
| SummarizerUtils.RoundWithin | Python_WebSocket/utils.py:47-58 | rounding a value within integer bounds stays within them |
| SummarizerUtils.Clamp | Python_WebSocket/utils.py:47-54 | the clamped value lies in [0, max] and is unchanged when already in range |
| SummarizerUtils.ValidateScore | Python_WebSocket/utils.py:43-64 | a validated score is a number in [0, max], an integer for _level, _score and _percentage fields, and 0 when unparsable |
| SummarizerUtils.ApplyFieldsAt | Python_WebSocket/utils.py:41-64 | the loop keeps every key's presence; an unnamed key keeps its value; a named present non-None field gets its validated value |
| SummarizerUtils.ScoreFieldsValid | Python_WebSocket/utils.py:30-38 | the score fields have distinct names and non-negative bounds |
| SummarizerUtils.ValidateSleep | Python_WebSocket/utils.py:66-75 | sleep becomes 0 below 0 and 24 above 24, stays in range, and is None when unparsable |
| SummarizerUtils.ValidateMoodScores | Python_WebSocket/utils.py:24-77 | a non-object is returned unchanged; an object gets every score field validated in turn and then the sleep rule |
| SummarizerUtils.SleepIsNoScoreField | Python_WebSocket/utils.py:30-38 | the sleep field is not one of the score fields |
| SummarizerUtils.ValidatedScores | Python_WebSocket/utils.py:40-64 | after validation each present non-None score field is in its range, an integer when rounded, 0 when unparsable; absent and None fields are untouched |
| SummarizerUtils.ValidatedOtherKeys | Python_WebSocket/utils.py:24-77 | keys that are neither score fields nor the sleep field keep their presence and value |
| SummarizerUtils.ValidatedSleep | Python_WebSocket/utils.py:66-75 | the sleep field keeps its presence, and its value follows the sleep rule |
| SummarizerUtils.PickSummarizerModel | Python_WebSocket/utils.py:83-102 | a live, native-audio or realtime name maps to the 2.0 flash model for 2.5, 2-5, 2.0 or 2- and to 1.5 flash otherwise; any other non-empty name is kept; no name gives 1.5 flash |
| SummarizerUtils.FallbacksAreTextModels | Python_WebSocket/utils.py:95-99 | neither fallback model is a live name |
| SummarizerUtils.LiveNameNeverKept | Python_WebSocket/utils.py:91-99 | a live name is never returned as it is |
| ExtractData.ToText | Python_WebSocket/extract_data.py:11-15 | no element gives "", and the text has no surrounding whitespace |
| ExtractData.SafeAttr | Python_WebSocket/extract_data.py:21-22 | the attribute when the element has it, else the default, also for a missing element |
| ExtractData.FindText | Python_WebSocket/extract_data.py:24-26 | the stripped text of the first child with the tag, "" without one |
| ExtractData.Find | Python_WebSocket/extract_data.py:25 | a child with the tag is found exactly when one exists, and the one found has the tag |
| ExtractData.FindIsFirst | Python_WebSocket/extract_data.py:25 | the child found is the first with the tag: every child before it has another tag |
| ExtractData.NormLinesShape | Python_WebSocket/extract_data.py:17-19 | every kept line is non-empty, stripped and without a line break |
| ExtractData.NormWs | Python_WebSocket/extract_data.py:17-19 | text with no non-blank line normalises to ""; text with one non-blank line normalises to that line stripped |
| ExtractData.NormWsLines | Python_WebSocket/extract_data.py:17-19 | splitting the output into lines gives back exactly the kept lines |
| ExtractData.NormWsKeepsOrder | Python_WebSocket/extract_data.py:17-19 | the output lines are the non-blank input lines, stripped, in their original order |
| ExtractData.NormWsEmpty | Python_WebSocket/extract_data.py:17-19 | the output is empty exactly when no line has non-whitespace |
| ExtractData.NormWsStripped | Python_WebSocket/extract_data.py:17-19 | the output has no surrounding whitespace |
| ExtractData.NormWsIdempotent | Python_WebSocket/extract_data.py:17-19 | normalising twice is normalising once |
| ExtractData.Header | Python_WebSocket/extract_data.py:44-48 | the document id is the root's id or else the file stem; source and url are the root's attributes or empty, focus is the Focus text; a found review date wins over the attribute, which is used otherwise |
| ExtractData.QaRecordOf | Python_WebSocket/extract_data.py:55-87 | a record exactly when the pair has a question and an answer whose normalised text is non-empty; a record has type "qa", the document's id, id document_id + ":" + qid when qid is set, and no review date exactly when it is empty |
| ExtractData.QaRecordOfFields | Python_WebSocket/extract_data.py:60-87 | a kept pair's record holds its normalised answer and stripped question text, the qid, qtype, pid and section attributes or empty, the header's document id, focus, source and url, the language, audience "patient", the review date or None when empty, and id document_id + ":" + qid, or the random hex when qid is empty |
| ExtractData.QaRecordsOfShape | Python_WebSocket/extract_data.py:54-87 | exactly one record per kept pair (so at most one per pair), each with an answer, type "qa" and the document id as prefix |
| ExtractData.QaRecordsOfPairs | Python_WebSocket/extract_data.py:54-87 | records and kept pairs correspond one to one in document order: the j-th record has the question and answer of the j-th kept pair |
| ExtractData.QaRecordOfKept | Python_WebSocket/extract_data.py:57-63 | a pair contributes one record, with its own question and answer, when kept, and none otherwise |
| ExtractData.ExtractDocQaRecords | Python_WebSocket/extract_data.py:33-87 | no records for an unparsed document or one without QAPairs; otherwise the kept pairs' records in order |
| ExtractData.ExtractDocMetaRecord | Python_WebSocket/extract_data.py:89-116 | a record exactly for a parsed document, with id document_id + "::meta", type "doc_meta", the header's document id, focus, source and url, the language, audience "patient", and the header's review date, absent exactly when empty |
| ExtractData.WriteJsonl | Python_WebSocket/extract_data.py:119-126 | the count is the number of records, and the output is one serialised record per line |
| UploadToPinecone.DocumentOfFields | Python_WebSocket/upload_to_pinecone.py:36-53 | the metadata repeats the text and the entry's fields, and the id is the qid or else document_id + "_" + pid |
| UploadToPinecone.DocumentTextLines | Python_WebSocket/upload_to_pinecone.py:36 | without line breaks in the fields, the text is exactly the three labelled lines |
| UploadToPinecone.PreparedAreKeptEntries | Python_WebSocket/upload_to_pinecone.py:18-55 | one document per entry with a non-blank answer, in input order, and no more documents than entries |
| UploadToPinecone.PrepareDocuments | Python_WebSocket/upload_to_pinecone.py:18-55 | the loop builds exactly those documents |
| UploadToPinecone.VectorsOf | Python_WebSocket/upload_to_pinecone.py:71-76 | one vector per document carrying its id, its metadata and the embedding of its text |
| UploadToPinecone.VectorsOfAppend | Python_WebSocket/upload_to_pinecone.py:63-76 | consecutive runs of documents give consecutive runs of vectors |
| UploadToPinecone.BatchVectors | Python_WebSocket/upload_to_pinecone.py:65-76 | the batch's vectors are those of its documents |
| UploadToPinecone.UploadStep | Python_WebSocket/upload_to_pinecone.py:63-80 | upserting the next slice extends the uploaded prefix by one batch |
| UploadToPinecone.UploadToPinecone | Python_WebSocket/upload_to_pinecone.py:62-80 | the batches are consecutive slices of at most the batch size, all full but the last, together exactly the vectors of all documents, and the total is the number of documents |

## Left out

- The audio client's implementation is not part of this model: WebSocket framing, microphone capture and playback. `Types.AudioClient` records only what the hook observes, and whether connecting or recording succeeds is left open.
- Asynchronous scheduling is not modelled: React state batching, `setInterval` and the awaited `import` and `connect`. The timer is the explicit `Tick` method, and every handler runs to completion before the next.
- `dashboardPage` in useSession.ts is plain state with a setter and no logic, so it is not modelled.
- The live model session, the audio queue, `generate_dynamic_system_instruction`, tool calls and the HTTP requests of the server are left out. These are network and concurrency work. Where the server would start such work, a method returns its inputs (`Action`, `SummaryJob`, `SummaryInput`).
- Every HTTP call in auth.ts and Dashboard.tsx whose answer the code uses is a parameter giving its response: the authentication requests, the profile lookup and the update-profile request.
- `syncUserProfile` (auth.ts:103-132) and the verification resend at log-in (auth.ts:193-200) are left out. Both catch every error and only log it, so neither can change an outcome; what signup sends to `syncUserProfile` is `Auth.SignupProfile`.
- Types.AudioClient.constructor: a new client's input mode is assumed to be `Audio`, the hook's initial mode, because the audio client's implementation (audio-client.js) is not part of this model; the hook forwards the mode to the client only when it changes (useSession.ts:171-175), so the client's own default is otherwise unknown.
- `requestPasswordReset` and `getCurrentUser` in auth.ts are single HTTP calls with no logic of their own. The profile `getCurrentUser` returns is a parameter of `Auth.Storage.Login`.
- The other branches of `fetchUserData` are left out: the missing uid, a failed response and a thrown error. They change only loading flags and the log, and `OnUserData` models the successful branch.
- The random positive tip in Dashboard.tsx is left out, because it is a random choice.
- Floating point is modelled with reals. IEEE rounding, infinities and negative zero are left out. NaN appears only where the source tests for it. `Number.parseFloat`, Python's `float()` and `json.loads` are oracle parameters.
- HomeSection.FormatHours: JavaScript's rendering of a non-integer number as text is the parameter `show`, so the exact digits are not modelled.
- Case mapping (`Text.Lower`, and `Text.Upper` for `role.upper()` in the summarizer input) maps only ASCII letters. Python's and JavaScript's Unicode case mapping is not modelled.
- XML parsing (`ElementTree`) is left out: a document arrives as its parsed tree or as None. The random `uuid4` fallback id is a parameter, and so is `json.dumps`.
- Python's `splitlines` is modelled as a split at each line-break character. The two differ only in empty pieces, and `norm_ws` drops those.
- The name heuristic reads the text after the last occurrence of the phrase, as `split(...)[-1]` does. The model finds that occurrence directly instead of splitting.
- A key missing from a loaded entry in upload_to_pinecone.py is modelled as "", as `qa.get(key, '')` reads it. The loading of the file is left out.
- The sentence encoder is the parameter `embed`, applied to one text at a time. The batch encode call and the upsert into the index are recorded as the returned batches.
- SummarizerUtils.ValidateMoodScores: the source mutates the dictionary it is given. The model returns the new value instead, so aliasing between the argument and the result is not captured.
- Dashboard.SavedUser: an age that does not parse (NaN) is stored as absent, because the model's User has integer ages.
- `parseInt` is `Text.ParseInt`: leading whitespace, an optional sign and the longest run of decimal digits. Its hexadecimal "0x" prefix is not modelled.
- Presentation markup, class names and icons are not modelled, and the `cn` helper of utils.ts is left out.
