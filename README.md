# Gen-AI mini apps: chat relay, agent dispatch and song recommender, in Dafny

This project models the application logic of a small Next.js site whose
features forward user text to the Gemini API:

- the **chat page** keeps the conversation, sends the last ten turns to the
  streaming endpoint, grows one assistant turn from the streamed chunks, and
  handles setup errors, read errors, Stop, Clear and Regenerate;
- the **streaming chat endpoint** checks the turns, flattens them into one
  role-labelled prompt, and relays the model's text fragments, adding an
  in-band `"\n[Streaming error]"` notice when the upstream fails and closing
  the stream once;
- the **non-streaming chat endpoint** does the same checks and prompt and
  answers with the whole reply;
- the **agent endpoint** reads the model's reply as a decision and may run
  the **song lookup tool**, a fixed mood-to-playlist table;
- the **mood-and-songs endpoint** obtains a mood (given, or detected by the
  model), asks for songs, and projects the reply;
- the **song page** keeps the mood, the songs and the paging offset, and
  builds Spotify and YouTube search links with `encodeURIComponent`.

Network calls, the model and JSON parsing are inputs. A model reply is a
value (or the error thrown while getting or parsing it); the chat stream is
a list of decoded text chunks that ends in completion, an abort or an error.
Pure code (routes, the tool, prompt assembly) is written as functions with
lemmas. Code that updates state step by step is written as classes: the two
pages (`ChatPage.ChatSession`, `SongPage.SongPage`), whose methods state the
whole new state. The chat relay loop is a method with loop invariants.

Files: `wrappers.dfy` (Option, Result), `errors.dfy` (thrown errors and
request bodies), `strings.dfy` (models of `trim`, `join`, `slice(-n)` and
`+=` concatenation), `chat_request.dfy` (what both chat endpoints share),
`chat_stream_route.dfy`, `chat_route.dfy`, `chat_page.dfy`, `song_tool.dfy`,
`agent_route.dfy`, `song_route.dfy`, `uri.dfy` (`encodeURIComponent`) and
`song_page.dfy`.

## Model

| member | source | states |
|---|---|---|
| Strings.TrimEmptyIffBlank | app/chat-bot/page.jsx:86 | `input.trim()` is empty exactly when every character of the input is ECMAScript white space or a line terminator |
| Strings.TrimStartRemovesLeadingSpace | app/song-recommender-app/page.jsx:47 | trimming the start removes a white-space prefix only, and what remains starts with a non-space |
| Strings.TrimEndRemovesTrailingSpace | app/song-recommender-app/page.jsx:47 | trimming the end removes a white-space suffix only, and what remains ends with a non-space |
| Strings.LastN | app/chat-bot/page.jsx:95 | `slice(-MAX_MESSAGES)` keeps min(n, length) elements, and they are the last ones of the list |
| Strings.ConcatAppend | app/chat-bot/page.jsx:62 | `fullText += chunk`: one more chunk appends exactly that chunk to the concatenation |
| Strings.ConcatSplit | app/api/chat-bot/chat-stream/route.js:47-52 | the concatenation of two chunk lists is the concatenation of their texts |
| Strings.JoinAppend | app/api/chat-bot/chat-stream/route.js:36 | joining one more part adds the separator and that part at the end |
| Strings.SplitJoin | app/api/chat-bot/chat-stream/route.js:30-36 | splitting a join of separator-free parts on the separator gives the parts back |
| Strings.SplitAfterPiece | app/api/chat-bot/chat-stream/route.js:36 | a separator-free piece followed by the separator splits off as the first piece |
| Strings.SplitNoSeparator | app/api/chat-bot/chat-stream/route.js:36 | a text without the separator splits into itself alone |
| ChatRequest.ValidTurns | app/api/chat-bot/chat-stream/route.js:10-15 | the turns are accepted exactly when `messages` is an array with at least one element; missing, non-array and empty are refused |
| ChatRequest.ErrorMessage | app/api/chat-bot/chat-stream/route.js:66-70 | the error's message when it is present and non-empty, otherwise "Something went wrong"; never empty |
| ChatRequest.ServerError | app/api/chat-bot/chat/route.js:42-46 | a thrown error becomes a 500 reply with a non-empty message |
| ChatRequest.RoleLabel | app/api/chat-bot/chat-stream/route.js:33 | the label is "User" exactly for the role "user"; every other role is labelled "Assistant" |
| ChatRequest.PromptLines | app/api/chat-bot/chat-stream/route.js:30-35 | the system line first, then one "Label: content" line per turn, in input order |
| ChatRequest.BuildPrompt | app/api/chat-bot/chat-stream/route.js:30-36 | the prompt begins with "System: " and the system instruction, and is exactly that line when there are no turns |
| ChatRequest.PromptAppend | app/api/chat-bot/chat/route.js:27-32 | one more turn extends the prompt by a newline and that turn's labelled line |
| ChatRequest.LineHasNoNewline | app/api/chat-bot/chat-stream/route.js:33-34 | a turn whose content has no newline gives a prompt line without one, since both role labels and ": " have none |
| ChatRequest.PromptLineByLine | app/api/chat-bot/chat-stream/route.js:30-36 | when no text holds a newline, the prompt's lines are exactly the system line and one labelled line per turn |
| ChatStreamRoute.NonEmpty | app/api/chat-bot/chat-stream/route.js:49 | no kept text is empty, and there is at most one kept text per fragment |
| ChatStreamRoute.NonEmptyKeepsEveryText | app/api/chat-bot/chat-stream/route.js:47-50 | the kept texts are exactly the non-empty fragments, each as often as it arrived |
| ChatStreamRoute.NonEmptyStep | app/api/chat-bot/chat-stream/route.js:47-50 | reading one more fragment keeps it, at the end, exactly when it is not empty |
| ChatStreamRoute.NonEmptyAppend | app/api/chat-bot/chat-stream/route.js:47-50 | arrival order is kept: the texts kept from a list read in two parts are those of the first part followed by those of the second |
| ChatStreamRoute.RelayChunks | app/api/chat-bot/chat-stream/route.js:47-55 | one chunk per non-empty fragment, plus one for the notice when the upstream threw; no chunk is empty; the last chunk is "\n[Streaming error]" when the upstream threw; every other chunk is an upstream fragment |
| ChatStreamRoute.Relay | app/api/chat-bot/chat-stream/route.js:44-57 | the relay loop writes the non-empty fragments, then the error notice if the upstream threw, never writes after closing, and closes exactly once |
| ChatStreamRoute.NonEmptyConcat | app/api/chat-bot/chat-stream/route.js:47-50 | skipping empty fragments does not change the streamed text |
| ChatStreamRoute.RelayText | app/api/chat-bot/chat-stream/route.js:47-55 | the streamed text is the fragments in arrival order, followed by "\n[Streaming error]" exactly when the upstream threw after them |
| ChatStreamRoute.Post | app/api/chat-bot/chat-stream/route.js:6-72 | 400 "Messages are required" exactly for bad `messages`, and then no model call; the model is prompted only for valid turns; a 200 text stream with the plain-text and no-cache headers exactly when the provider call succeeds; every other failure is 500 with the defaulted message |
| ChatRoute.Post | app/api/chat-bot/chat/route.js:5-48 | the same validation and prompt; `{success:true, data}` with the reply text, or "" when it is absent, exactly when the model call succeeds; thrown errors give 500 with the defaulted message |
| ChatPage.ErrorTurn | app/chat-bot/page.jsx:74-77 | a caught error becomes an assistant turn "Error: " followed by its message |
| ChatPage.StreamOutcome | app/chat-bot/page.jsx:31-83 | earlier turns are never changed; nothing is added exactly for an abort during the request; a rejected fetch adds "Error: " + its message; a failed setup adds "Error: Failed to stream response."; a body read to the end or aborted mid-read adds one assistant turn holding all chunks in order; a read error adds that turn and then "Error: " + its message |
| ChatPage.ClientShowsRelayedText | app/chat-bot/page.jsx:55-69 | reading the relay's chunks to the end shows the upstream text, plus the error notice when the upstream failed mid-stream |
| ChatPage.MidStreamFailureKeepsPartialText | app/api/chat-bot/chat-stream/route.js:51-52 | an upstream that fails after "Hel" and "lo" shows "Hello" followed by the notice |
| ChatPage.HelloWithNotice | app/api/chat-bot/chat-stream/route.js:47-55 | the fragments "Hel" and "lo" followed by the relay's notice read "Hello\n[Streaming error]" |
| ChatPage.PayloadEndsWithNewTurn | app/chat-bot/page.jsx:89-95 | the turns sent after Send are the last at most nine earlier turns followed by the new user turn |
| ChatPage.AbortController.constructor | app/chat-bot/page.jsx:33 | a new controller has not been aborted |
| ChatPage.AbortController.Abort | app/chat-bot/page.jsx:116 | after `abort()` the controller is aborted |
| ChatPage.ChatSession.constructor | app/chat-bot/page.jsx:12-17 | empty conversation and input, both flags off, no abort handle |
| ChatPage.ChatSession.Send | app/chat-bot/page.jsx:85-97 | no change when the input is blank or a reply is loading; otherwise one user turn with the untrimmed input is appended, the input cleared, `loading` set, and the last ten turns returned for sending |
| ChatPage.ChatSession.Regenerate | app/chat-bot/page.jsx:99-112 | acts exactly when not loading and the last turn is the assistant's; then removes only that turn, sets `loading` and returns the last ten remaining turns |
| ChatPage.ChatSession.StreamResponse | app/chat-bot/page.jsx:31-83 | the conversation becomes StreamOutcome of the old one, and both flags end false and the handle null on every path; the loop invariant (not the ensures) keeps the running text equal to the concatenation of the chunks read so far |
| ChatPage.ChatSession.Stop | app/chat-bot/page.jsx:114-121 | with a handle: aborts it, drops it and clears both flags; without one: no change |
| ChatPage.ChatSession.Clear | app/chat-bot/page.jsx:123-128 | Stop, then empty conversation, empty input and `loading` off; `isStreaming` is cleared only if a handle was active |
| ChatPage.StopTwice | app/chat-bot/page.jsx:114-121 | a second Stop changes nothing after the first |
| ChatPage.OneChunk | app/chat-bot/page.jsx:49-70 | a body of a single chunk read to the end adds exactly that chunk as the new assistant turn |
| ChatPage.HiNotBlank | app/chat-bot/page.jsx:86 | "Hi" passes the blank-input test |
| ChatPage.HelloChunks | app/chat-bot/page.jsx:49-70 | the chunks "He", "llo", "!" read to the end add the assistant turn "Hello!" |
| ChatPage.SendHi | app/chat-bot/page.jsx:85-97 | a fresh page with "Hi" typed in sends [user "Hi"] and shows it as the only turn |
| ChatPage.SendScenario | app/chat-bot/page.jsx:85-97 | sending "Hi" and reading "He", "llo", "!" gives the user turn "Hi" and the assistant turn "Hello!" |
| ChatPage.RegenerateScenario | app/chat-bot/page.jsx:99-112 | regenerating after "Hi"/"Hello!" resends only "Hi" and the new reply takes the old one's place |
| SongRecommendation.RecommendSongs | lib/tools/SongRecommendation.js:2-12 | the mood is echoed; the song list is never empty; it is the default list exactly when the mood is absent or not a table key, and the table's list otherwise |
| SongRecommendation.KnownPlaylists | lib/tools/SongRecommendation.js:3-11 | "romantic" gives its three titles, "sad" and "happy" their two, an absent mood "Believer - Imagine Dragons", each in the listed order |
| AgentRoute.ReplyContent | app/api/agent/route.js:30 | an empty reply is read as "{}"; any other reply as it is |
| AgentRoute.Decide | app/api/agent/route.js:32-37 | a reply that does not parse is the decision `{action:"none", params:{}}`; otherwise the parsed decision |
| AgentRoute.Post | app/api/agent/route.js:5-49 | every reply has `success:true`; the tool runs exactly for the action "recommendSongs" with params; every other action gives "No action needed."; errors, including absent params for the tool, are not caught |
| AgentRoute.EmptyReplyIsEmptyObject | app/api/agent/route.js:30 | an empty reply is handled exactly as "{}" |
| AgentRoute.UnparseableReplyNeedsNoAction | app/api/agent/route.js:32-48 | a reply that does not parse gives "No action needed." |
| SongRecommenderRoute.Projection | app/api/song-recommender-agent/route.js:94-99 | the reply's mood is the four mood fields of `moodData`, and the `mood` key stored beside them is dropped |
| SongRecommenderRoute.SuppliedMoodData | app/api/song-recommender-agent/route.js:19-20 | a supplied mood gives `moodData` with energy level "medium" and no other mood field |
| SongRecommenderRoute.Post | app/api/song-recommender-agent/route.js:3-109 | mood detection happens exactly when no mood is supplied; failure (500 with the error's message) exactly when the body, the detection or the song reply throws; songs are the reply's list or []; the mood is the detected fields, or only energy "medium" for a supplied mood |
| SongRecommenderRoute.SuppliedMoodIsDropped | app/api/song-recommender-agent/route.js:94-99 | whatever mood is supplied, the reply's mood has no primary mood, secondary mood or language |
| Uri.Utf8 | app/song-recommender-app/page.jsx:66 | one to four bytes, each below 256; one byte exactly for code points below 0x80, and then the code point itself |
| Uri.HexDigit | app/song-recommender-app/page.jsx:66 | escape digits are unreserved characters |
| Uri.PercentEncode | app/song-recommender-app/page.jsx:66 | three characters per byte, each '%' or unreserved, starting with '%' |
| Uri.EncodeUriComponent | app/song-recommender-app/page.jsx:66 | an encoded query holds only unreserved characters and '%' (no '/', '?', '#', '&' or space survives) |
| Uri.EncodeLength | app/song-recommender-app/page.jsx:66 | each character becomes one to twelve characters, so the encoding is at least as long as the text and at most twelve times as long |
| Uri.EncodeChar | app/song-recommender-app/page.jsx:66 | a character is kept as it is exactly when it is unreserved, and otherwise escaped; one to twelve characters, all unreserved or '%' |
| Uri.UnreservedUnchanged | app/song-recommender-app/page.jsx:65-69 | a query of unreserved characters is left unchanged |
| Uri.EncodeAppend | app/song-recommender-app/page.jsx:65-69 | encoding a concatenation is the concatenation of the encodings |
| SongPage.DataOf | app/song-recommender-app/page.jsx:27-28 | the page reads `success` as true exactly for the route's success reply |
| SongPage.SpotifyLink | app/song-recommender-app/page.jsx:65-66 | the Spotify search prefix followed by the encoded query, so after the prefix only unreserved characters and '%' |
| SongPage.YoutubeLink | app/song-recommender-app/page.jsx:68-69 | the YouTube search prefix followed by the encoded query, so after the prefix only unreserved characters and '%' |
| SongPage.SongPage.constructor | app/song-recommender-app/page.jsx:7-11 | empty text, no mood, no songs, not loading, offset 0 |
| SongPage.SongPage.BeginFetch | app/song-recommender-app/page.jsx:15-24 | sets `loading`; posts `{text, mood:null, offset:0}` for a fresh fetch and `{text:"", mood, offset}` for load-more |
| SongPage.SongPage.FinishFetch | app/song-recommender-app/page.jsx:27-43 | an accepted reply sets the mood, and replaces songs and sets offset 5, or appends songs and adds 5; a failed or unsuccessful reply leaves mood, songs and offset alone; `loading` ends false |
| SongPage.SongPage.FetchSongs | app/song-recommender-app/page.jsx:13-44 | both halves: the posted body, then the state update of FinishFetch |
| SongPage.SongPage.Generate | app/song-recommender-app/page.jsx:46-52 | no change for a blank text; otherwise mood, songs and offset are reset before a fresh fetch, so a failed fetch leaves them reset |
| SongPage.SongPage.LoadMore | app/song-recommender-app/page.jsx:61-63 | a load-more fetch: old songs stay as a prefix and the offset grows by 5 on success |
| SongPage.SongPage.Reset | app/song-recommender-app/page.jsx:54-59 | empty text, no mood, no songs, offset 0 |
| SongPage.LoadMoreRoundTrip | app/song-recommender-app/page.jsx:20-37 | a load-more through the route appends the new songs, and the page's mood afterwards has lost its primary mood, secondary mood and language |

## Left out

- Rendering, auto-scroll, toasts and clipboard copy on both pages, and the static project list of `app/page.tsx`: user interface only.
- The Gemini client, `fetch`, `ReadableStream`, `TextEncoder` and `TextDecoder`: replaced by input values. The page's chunks are already-decoded text, so UTF-8 decoding with partial code points carried between reads is not modelled, and the relay's output is text rather than bytes.
- `JSON.parse` and `JSON.stringify`: a parsed reply is an input value. A reply that parses to JSON `null` (whose property reads throw a TypeError) and mood or role values that are not strings are not represented.
- The mood-detection and song prompt texts: constant text whose effect depends on the model.
- Asynchrony: React state batching, stale closures and the timing of `abort()` against in-flight reads. An abort is a discrete event between reads, and `StreamResponse` performs the user's Stop at that point.
- The server side of a client disconnect: stopping the upstream call when the browser goes away is not modelled.
- SongRecommendation.RecommendSongs: the table has own keys only; inherited keys such as "constructor" or "toString", which JavaScript's `map[mood]` would find, are not modelled.
- AgentRoute.Post: a thrown error is only marked as uncaught; the framework's generic error reply is not modelled. The `tools` import of `lib/tool` is taken to be the object in `lib/tools/SongRecommendation.js`.
- ChatStreamRoute.Post and ChatRoute.Post: every element of `messages` is a turn with a text role and a text content. An element that is `null` or not an object (where reading `m.role` throws a TypeError and the route answers 500), a turn without `content` (which puts the text "undefined" into the prompt) and non-text contents are not represented.
- Uri.EncodeUriComponent: a Dafny `char` is a Unicode scalar value, so the URIError that `encodeURIComponent` throws on a lone surrogate cannot arise.
- SongPage.SpotifyLink and SongPage.YoutubeLink: the query is always a text; a song without `spotifyQuery` or `youtubeQuery`, for which `encodeURIComponent(undefined)` gives "undefined", is not represented.
- ChatStreamRoute.NonEmpty: its own contract states only that no kept text is empty and that there is at most one per fragment. Which texts are kept is the lemma NonEmptyKeepsEveryText, and their order is the lemma NonEmptyAppend. Keeping the multiset fact out of the function's contract keeps the relay loop's proof small.
- ChatRoute.Post and ChatStreamRoute.Post: errors from constructing the Gemini client are merged with the model call's error; the model name and the API key are not modelled.
- ChatPage.ChatSession.StreamResponse: an error without a message (which JavaScript shows as "Error: undefined") is not represented; every caught error carries a text message.
- The `offset` the song page posts is not read by the route (it destructures only `text` and `mood`); the model reflects this by dropping it at the route.
