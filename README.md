# Perwira-AI WhatsApp assistant — a Dafny model of its core

This project models the core of Perwira-AI, a WhatsApp assistant. The assistant:

- reads every incoming message;
- drops broadcasts and senders that are not on its whitelist;
- obeys the commands `!aktif`, `!mati`, `!help`, `!ctt`, `!hpsctt` and `!cekctt` from anyone who passes the whitelist: the owner, a whitelisted number or any member of a whitelisted group;
- otherwise records the message in a rolling history and collects a burst of messages from one chat behind a debounce timer;
- answers each burst with one model reply.

The reply is built in several steps:

- The prompt holds the history, the urgent note, the agenda and tasks (with a Google login attempted once) and the best-matching passages of a local knowledge base.
- A JSON tool action the model embeds in the reply is executed and cut out.
- A status segment after `|||` is sent under a one-hour cooldown per chat.
- The reply carries a fixed header and is recorded in the history.
- An hour after a chat's last message, its history is summarised into a summary record and cleared.
- A separate job announces upcoming calendar events to the owner, once per event.

The model follows the program's modules, one Dafny module each:

| module | file | models |
|---|---|---|
| `JsText` | `js_text.dfy` | the JavaScript string built-ins the core relies on (`trim`, `toLowerCase`, `indexOf`, `split`/`join`, `replace` with a string) |
| `ContactService` | `contact_service.dfy` | number normalisation, the whitelists, the special-contact lookup |
| `Db` | `db.dfy` | the message buffer, the summaries, the urgent note and what is written to disk (class `Database`) |
| `State` | `state.dfy` | the on/off switch and its activation time (class `BotState`) |
| `ToolService` | `tool_service.dfy` | finding, executing and cutting out the JSON action in a reply |
| `RagService` | `rag_service.dfy` | chunking, tokenising, lexical scoring and ranking of the knowledge base (class `KnowledgeBase`) |
| `AiService` | `ai_service.dfy` | the model calls and their fallbacks, the extension guess, the call reply |
| `ReminderService` | `reminder_service.dfy` | the calendar reminder job (class `Reminders`) |
| `MessageHandler` | `message_handler.dfy` | gating, commands, the debounce queues, the merge, the reply pipeline, the status cooldown and the summaries (class `Orchestrator`) |

The outside world is passed in as values:

- the language models, the image describer and `JSON.parse`;
- the Google calls and whether `authorize()` yields a client;
- whether WhatsApp delivers a message;
- the contents of the data files;
- the current time.

Module-level mutable state is modelled as fields of a class whose methods update it in place:

- the queues, the timers, the cooldown map and the cached Google client (`MessageHandler.Orchestrator`);
- the message buffer and the urgent note (`Db.Database`);
- the switch (`State.BotState`);
- the vector store (`RagService.KnowledgeBase`);
- the reminded ids (`ReminderService.Reminders`).

WhatsApp sends are appended to an `outbox` field.

Some behaviour of the code is easy to miss, and the model keeps it as written:

- A summary is filed even when generating it failed, with the text `Gagal membuat ringkasan.`.
- A new burst may be queued while an earlier one of the same chat is still being answered; the flushes of one chat are not serialised.
- The reply after `applyHeader` is never empty, so it is always sent.
- An incoming message is recorded in the history when it arrives, not when its burst is flushed.
- The Google login is attempted once per process and its outcome is cached, even when it failed.
- The debounce time is 10000 ms, the value of `DEBOUNCE_TIME` (src/handlers/messageHandler.js:25), although the comment beside it says 15 seconds.

## Model

| member | source | states |
|---|---|---|
| JsText.LowerChar | src/handlers/messageHandler.js:140 | lower-casing one character leaves no ASCII capital and keeps white space and digits as they were |
| JsText.ToLower | src/handlers/messageHandler.js:140 | `toLowerCase` keeps the length and lowers each character on its own |
| JsText.TrimStart | src/services/ragService.js:16 | the result is a suffix of the input with no leading white space, and only white space was removed |
| JsText.TrimEnd | src/services/ragService.js:16 | the result is a prefix of the input with no trailing white space, and only white space was removed |
| JsText.Trim | src/handlers/messageHandler.js:82 | the result is trimmed and is empty exactly for blank input; trimmed input is returned unchanged |
| JsText.VisibleTrim | src/services/ragService.js:16 | trimming never removes a non-white-space character |
| JsText.IndexOfFrom | src/services/toolService.js:129 | `indexOf` finds an occurrence, and no occurrence lies before it or, when it finds none, anywhere |
| JsText.RemoveFirst | src/services/toolService.js:129 | `replace` with a string pattern removes exactly one occurrence when there is one and otherwise changes nothing |
| JsText.Split | src/handlers/messageHandler.js:445 | `split` always gives at least one piece |
| JsText.JoinSplit | src/handlers/messageHandler.js:445 | joining the pieces of a split with the separator gives back the original text |
| JsText.SplitJoin | src/handlers/messageHandler.js:445 | splitting a join on a one-character separator that no piece contains gives back the pieces |
| JsText.DigitsOnly | src/services/contactService.js:34 | `replace(/\D/g, '')` keeps only digits and never lengthens the text; `DigitsOnlyChar` and `DigitsOnlyKeepsDigits` state that exactly the digits survive, each as often as it occurs |
| JsText.DigitsOnlyKeepsDigits | src/services/contactService.js:34 | every digit of the input is kept, as often as it occurs |
| JsText.DigitsOnlyChar | src/services/contactService.js:34 | one character is kept exactly when it is a digit; with `DigitsOnlyAppend` this fixes the result character by character, in order |
| JsText.FirstIndexOfChar | src/services/toolService.js:77 | the first `{` is found, or there is none |
| JsText.LastIndexOfChar | src/services/toolService.js:83 | the last `}` is found, or there is none |
| JsText.BeforeFirst | src/services/aiService.js:187 | `split(';')[0]` is the prefix before the first `;` and contains no `;` |
| ContactService.NormalizeNumber | src/services/contactService.js:33-35 | a normalised number is made of digits only, and a missing or empty number gives ''; `NormalizeKeepsDigits` states that every digit of the number survives |
| ContactService.NormalizeKeepsDigits | src/services/contactService.js:33-35 | a normalised number holds every digit of the number as often as it occurs |
| ContactService.NormalizeIdempotent | src/services/contactService.js:33-35 | normalising twice is normalising once |
| ContactService.SuffixMatchSymmetric | src/services/contactService.js:62-64 | the number match is symmetric in its two numbers |
| ContactService.SuffixMatchEmpty | src/services/contactService.js:62-64 | an empty number matches exactly the empty number |
| ContactService.MatchPhoneWithoutDigits | src/services/contactService.js:37-44 | an incoming number without digits matches any contact that has a phone without digits, because `matchPhone` has no empty guard |
| ContactService.AnyNumberMatches | src/services/contactService.js:60-65 | the whitelist scan succeeds exactly when some entry's normalised number suffix-matches |
| ContactService.IsNumberAllowed | src/services/contactService.js:51-66 | a number is allowed exactly when it has digits and some whitelist entry suffix-matches it; an empty list or an empty number admits no one |
| ContactService.AllowedEntryMatch | src/services/contactService.js:51-66 | one entry admits a sender exactly when the entry has digits and one normalised number ends with the other |
| ContactService.IsGroupAllowed | src/services/contactService.js:84-91 | a group is allowed exactly when some entry has that exact group id |
| ContactService.FirstMatch | src/services/contactService.js:98-101 | `find` returns the first contact that matches by phone or by case-insensitive name, and none before it matches |
| ContactService.GetSpecialContact | src/services/contactService.js:93-112 | the result is the first contact of the combined list that matches; there is none exactly when no contact matches; a failed contact load gives none |
| Db.ChatEntries | src/database/db.js:78-80 | the chat's entries are exactly the buffer's entries with that chat id |
| Db.OtherChats | src/database/db.js:82-85 | the kept entries are exactly the buffer's entries of other chats |
| Db.ChatEntriesAppend | src/database/db.js:78-80 | filtering by chat keeps buffer order across appends |
| Db.OtherChatsKeepsOthers | src/database/db.js:82-85 | clearing one chat removes all of its entries and leaves every other chat's entries exactly as they were |
| Db.LastN | src/database/db.js:41-42 | `slice(-n)` is the last n elements, or all of them when there are fewer |
| Db.Database.constructor | src/database/db.js:11-36 | start-up reads the note file (or ''), and `database.json` in its array or its object format (or nothing) |
| Db.Database.SaveDatabase | src/database/db.js:38-48 | the written copy holds the last 1000 messages and the last 500 summaries; memory is untouched |
| Db.Database.SaveUrgentNote | src/database/db.js:50-53 | the note is set first, and the file changes only when the note is a string |
| Db.Database.DeleteUrgentNote | src/database/db.js:55-58 | the note reads as '' and the file is gone |
| Db.Database.AddMessageToBuffer | src/database/db.js:68-71 | the entry is appended at the end and the database is saved |
| Db.Database.ClearMessageBuffer | src/database/db.js:73-76 | the buffer is emptied and saved |
| Db.Database.ClearMessagesByChat | src/database/db.js:82-85 | exactly that chat's entries go and every other chat's history is unchanged |
| Db.Database.AddConversationSummary | src/database/db.js:87-90 | the summary is appended and the database saved |
| State.BotState.constructor | src/utils/state.js:1-2 | the bot starts switched off and never activated |
| State.BotState.SetBotStatus | src/utils/state.js:4-10 | the switch takes the given value; switching on records the time, switching off keeps the last activation time |
| State.BotState.GetBotStatus | src/utils/state.js:12-14 | reads the last value set |
| State.BotState.GetActivationTimestamp | src/utils/state.js:16-18 | reads the last activation time |
| ToolService.ActionDispatch | src/services/toolService.js:11-61 | an action gives a result exactly for Google actions, `delete_note`, and note writes with a content; only note actions touch the note; a Google action without a client gives "Auth failed."; a Google call that throws gives `null`; a missing action gives `null` |
| ToolService.ExecuteToolAction | src/services/toolService.js:11-61 | unparsable JSON gives `null` and changes nothing; otherwise the result and the note change are those of the dispatch, so a throwing Google call gives `null` too |
| ToolService.GoogleResult | src/services/toolService.js:57-60 | a Google call gives its non-empty text, or `null` when it throws (as `createTask` and `updateTask` do on an unparsable due date, src/services/googleService.js:289 and :323) |
| ToolService.SkipSpaces | src/services/toolService.js:68 | a greedy `\s*` stops at the first non-white-space character |
| ToolService.FenceOpen | src/services/toolService.js:68 | the group opens at a `{` after the fence, the optional `json` and white space |
| ToolService.FenceCloseAt | src/services/toolService.js:68 | a `}` closes the group only when white space and a closing fence follow it |
| ToolService.FirstClose | src/services/toolService.js:68 | the lazy group ends at a `}` that a closing fence follows |
| ToolService.FirstCloseLeast | src/services/toolService.js:68 | the lazy group ends at the first such `}` |
| ToolService.FenceMatchAt | src/services/toolService.js:68 | a match found at a start position is a fenced `{…}` group inside the text |
| ToolService.FenceMatchAtSound | src/services/toolService.js:68 | what is found at a position is a match of the fenced-block pattern |
| ToolService.FirstFence | src/services/toolService.js:68 | the first match found is a fenced `{…}` group |
| ToolService.FirstFenceLeftmost | src/services/toolService.js:68 | no match starts before the one chosen |
| ToolService.FenceMatchDetermined | src/services/toolService.js:68 | a match is fixed by its start and its closing brace |
| ToolService.MatchFoundAt | src/services/toolService.js:68 | wherever a match starts, one with a group closing no later is found |
| ToolService.FirstFenceIsRegexMatch | src/services/toolService.js:68 | the chosen fenced block is the one `String.prototype.match` reports: leftmost, with the shortest group; none is chosen only when the pattern matches nowhere |
| ToolService.TailStart | src/services/toolService.js:77-80 | a trailing object exists exactly when the reply ends with `}` and contains `{`; it starts at the first `{` |
| ToolService.RelaxedSpan | src/services/toolService.js:83-92 | the relaxed span runs from the first `{` to the last `}`, and there is none exactly when no `{` comes before a `}` |
| ToolService.CandidateShape | src/services/toolService.js:67-94 | every candidate is a `{…}` text inside the cut text, which is part of the reply |
| ToolService.FencedShape | src/services/toolService.js:68-75 | a fenced candidate is a `{…}` text inside its fence |
| ToolService.RelaxedShape | src/services/toolService.js:83-92 | a relaxed candidate is a `{…}` text of the reply |
| ToolService.NoCandidateIff | src/services/toolService.js:67-98 | there is no candidate exactly when no tier finds one, the relaxed tier counting only when its text parses |
| ToolService.EmptyFenceAt | src/services/toolService.js:131 | an empty fence runs from one fence to the next |
| ToolService.RemoveEmptyFences | src/services/toolService.js:131 | removing empty fences never lengthens the reply and keeps a reply without backticks unchanged |
| ToolService.RemoveTrailingEmptyFence | src/services/toolService.js:127-132 | an empty fence left at the end of a reply is removed and the text before it kept |
| ToolService.StripCandidate | src/services/toolService.js:127-132 | the cleaned reply is trimmed and at least the candidate's length shorter |
| ToolService.Interpret | src/services/toolService.js:63-135 | with no candidate, or one that does not parse, the reply is returned unchanged with no result; a result is non-empty and comes with a trimmed reply |
| ToolService.FindCandidate | src/services/toolService.js:67-94 | the three `match` calls give the candidate of the three-tier rule |
| ToolService.FindUnfencedCandidate | src/services/toolService.js:76-93 | without a fenced block, the trailing and relaxed tiers give the rule's candidate |
| ToolService.ParseAndExecuteTool | src/services/toolService.js:63-135 | the cleaned reply, the result and the note change are those of `Interpret`, and nothing else in the database changes |
| ToolService.NoCandidateKeepsReply | src/services/toolService.js:96-104 | a reply with no candidate, or with one that does not parse, is kept unchanged and nothing is executed |
| ToolService.FencedBlockWins | src/services/toolService.js:68-75 | a fenced block is the candidate even when it does not parse, and then the reply is kept unchanged |
| ToolService.FencedCandidate | src/services/toolService.js:68-75 | the fenced candidate is the group, and the whole fence is cut |
| ToolService.TrailingObjectCandidate | src/services/toolService.js:77-80 | a reply ending with `}` offers the text from its first `{`, which the relaxed tier would also pick |
| ToolService.StripIff | src/services/toolService.js:108-134 | the object is cut exactly when the action gave a result or the object is `{}`; otherwise the reply stays as it was |
| ToolService.ThrowingGoogleCallKept | src/services/toolService.js:57-60 | a Google action whose call throws gives no result and no note change, so its JSON is cut out only when it is `{}` and otherwise stays in the reply |
| ToolService.GoogleActionWithoutAuth | src/services/toolService.js:20-32 | a Google action without a client reports "Auth failed." and is cut like a successful one |
| ToolService.NoteAtEndOfReply | src/services/toolService.js:34-37 | a reply ending in an `add_note` object stores the note, confirms it, and keeps the trimmed text before the object |
| ToolService.NoteDispatch | src/services/toolService.js:34-37 | `add_note` with a content stores it and confirms it |
| ToolService.TrailingObjectOf | src/services/toolService.js:77-80 | an object ending a plain reply is its candidate |
| ToolService.StripTrailingObject | src/services/toolService.js:127-132 | cutting a trailing object leaves the text before it, trimmed |
| ToolService.NoBacktickNoFence | src/services/toolService.js:68 | a reply without backticks has no fenced block |
| ToolService.EmptyObjectStripped | src/services/toolService.js:118-125 | `{}` is always cut, although it names no action |
| RagService.SentenceBreak | src/services/ragService.js:10 | a sentence break is a run of white space right after a `.` |
| RagService.SplitSentences | src/services/ragService.js:10 | splitting into sentences always gives at least one piece |
| RagService.SplitSentencesVisible | src/services/ragService.js:10 | splitting into sentences removes only white space |
| RagService.ChunkText | src/services/ragService.js:9-23 | the loop produces the chunks of the gathering rule; they are non-empty, trimmed and fit (see `ChunksCorrect`), and hold all of the text's visible characters in order |
| RagService.ChunksCorrect | src/services/ragService.js:9-23 | every chunk is non-empty, trimmed and at most `maxLength` long unless it is one sentence; together they hold exactly the text's non-white-space characters, in order |
| RagService.ChunkFromCorrect | src/services/ragService.js:14-21 | each step of the gathering keeps the chunks valid and no visible character is lost |
| RagService.CleanChar | src/services/ragService.js:27-28 | after lower-casing and replacement a character is a token character or white space |
| RagService.CleanText | src/services/ragService.js:26-28 | cleaning works character by character and keeps the length |
| RagService.WordLength | src/services/ragService.js:29 | a word runs to the first white space |
| RagService.WordsChars | src/services/ragService.js:29-30 | words of clean text are non-empty and made of token characters |
| RagService.WordsVisible | src/services/ragService.js:29-30 | the words are exactly the non-white-space characters, in order |
| RagService.TokenizeShape | src/services/ragService.js:25-31 | tokens are non-empty and lower-case, and are made only of a–z, 0–9 and U+00C0–U+024F; together they are every such character of the cleaned text, in order |
| RagService.NoTokenChars | src/services/ragService.js:25-31 | text without token characters has no tokens |
| RagService.OverlapScore | src/services/ragService.js:102-109 | the score is at most the number of query tokens |
| RagService.OverlapAppend | src/services/ragService.js:102-109 | the score adds up over parts of the query |
| RagService.OverlapZeroIff | src/services/ragService.js:102-109 | the score is 0 exactly when no query token occurs in the chunk, and is full exactly when all of them do |
| RagService.TokenOverlapScore | src/services/ragService.js:102-109 | the counting loop computes the overlap score |
| RagService.ScoreAll | src/services/ragService.js:90-94 | each chunk is scored against the query, in store order |
| RagService.Positive | src/services/ragService.js:95 | the filter keeps exactly the items with a positive score |
| RagService.PositiveNone | src/services/ragService.js:95 | when every score is 0 nothing is kept |
| RagService.Insert | src/services/ragService.js:96 | insertion adds one item |
| RagService.InsertPermutes | src/services/ragService.js:96 | insertion adds exactly that item |
| RagService.InsertSorted | src/services/ragService.js:96 | insertion keeps the list in descending score order |
| RagService.InsertWithScore | src/services/ragService.js:96 | insertion keeps equal scores in arrival order |
| RagService.SortByScore | src/services/ragService.js:96 | the sort keeps the length |
| RagService.SortByScoreCorrect | src/services/ragService.js:96 | the sort is a permutation in descending score order, and stable, as `Array.prototype.sort` is |
| RagService.Take | src/services/ragService.js:97 | `slice(0, topK)` is the first topK items, or all of them |
| RagService.RankedCorrect | src/services/ragService.js:90-97 | at most topK chunks are selected, each with a positive score; they come best first; equal scores keep store order; when fewer than topK are selected, all chunks with a positive score are |
| RagService.Search | src/services/ragService.js:84-100 | an empty query, an empty store or a query without tokens retrieves '' |
| RagService.NoOverlapNoContext | src/services/ragService.js:84-100 | a query sharing no token with any chunk retrieves '' |
| RagService.EntryOf | src/services/ragService.js:58-61 | a snapshot item keeps its text and its token array, or is tokenised again when it has none |
| RagService.LoadedStore | src/services/ragService.js:57-61 | loading maps every snapshot item to its entry |
| RagService.Texts | src/services/ragService.js:99 | the texts of a store, a missing text printing as '' |
| RagService.BuiltStoreCorrect | src/services/ragService.js:40-46 | a built store holds the file's chunks, each with its own tokens; chunks are at most 800 characters unless one sentence, and together they hold all of the text's visible characters, in order |
| RagService.SnapshotRoundTrip | src/services/ragService.js:43-61 | loading the snapshot a build wrote gives back the same store |
| RagService.KnowledgeBase.constructor | src/services/ragService.js:7 | the store starts empty |
| RagService.KnowledgeBase.LoadVectorStore | src/services/ragService.js:52-70 | a loadable snapshot replaces the store; any other snapshot leaves the store as it was |
| RagService.KnowledgeBase.BuildVectorStoreFromFile | src/services/ragService.js:33-50 | without a knowledge file the store is empty; otherwise it is the file's chunks with tokens, and its snapshot is written |
| RagService.KnowledgeBase.InitializeKnowledgeBase | src/services/ragService.js:72-82 | the snapshot is used when it loads; otherwise the store is rebuilt from the knowledge file; `vector_store.json` is written only by a rebuild from an existing knowledge file, with the snapshot of the new store |
| AiService.ExtensionOf | src/services/aiService.js:187-193 | the extension is one of six; `ogg` exactly for ogg/opus types, `tmp` exactly when no rule matches |
| AiService.MimeParametersIgnored | src/services/aiService.js:186-187 | parameters after `;` never change the extension |
| AiService.GuessExtensionCaseInsensitive | src/services/aiService.js:187 | the extension does not depend on letter case |
| AiService.ExtractTextFromCompletion | src/services/aiService.js:26-40 | the text is trimmed; no choice gives ''; only a message whose content is neither a string nor an array throws |
| AiService.OtherPartIgnored | src/services/aiService.js:31-36 | parts without text are ignored wherever they stand |
| AiService.SinglePartIsText | src/services/aiService.js:31-39 | a one-string array reads as that string |
| AiService.GenerateCallResponse | src/services/aiService.js:196-199 | the call reply greets and ends with the fixed apology |
| AiService.CallResponseNamesTarget | src/services/aiService.js:196-199 | two call replies are equal exactly when they address the same target |
| AiService.CreateCompletion | src/services/aiService.js:42-57 | the answer is trimmed, and fails exactly when the model call fails |
| AiService.UserPrompt | src/services/aiService.js:75 | the user part of the prompt is never blank |
| AiService.GenerateAIResponse | src/services/aiService.js:59-86 | the reply is never empty; a failing model call gives the error text |
| AiService.AIResponseCases | src/services/aiService.js:75-84 | a non-blank answer is returned trimmed and a blank one gives the apology; the prompt ends with the user's text, or with the continuation prompt when that text is blank |
| AiService.VisionText | src/services/aiService.js:121-129 | the text handed on for an image is never empty |
| AiService.VisionTextCases | src/services/aiService.js:121-129 | present parts are joined by a blank line, one part stands alone, and with neither the placeholder is used |
| AiService.GenerateVisionResponse | src/services/aiService.js:114-142 | the reply is never empty; no media and a failed description give their fixed texts |
| AiService.VisionUsesChatPath | src/services/aiService.js:119-137 | a described image is answered through the chat path and gets its fallbacks, not the vision error |
| AiService.GenerateSummary | src/services/aiService.js:144-158 | a failed call gives the failure text; otherwise the trimmed answer, possibly '' |
| AiService.TranscribeVoiceNote | src/services/aiService.js:160-184 | no media gives ''; the transcription is trimmed; a successful one is returned |
| ReminderService.OwnerTarget | src/services/reminderService.js:26-30 | the target is a WhatsApp id: the number as is when it has `@`, otherwise with `@c.us` |
| ReminderService.OwnerTargetIdempotent | src/services/reminderService.js:26-30 | normalising the target twice changes nothing |
| ReminderService.ReminderMessage | src/services/reminderService.js:35-38 | the reminder quotes the event's title |
| ReminderService.ProcessCorrect | src/services/reminderService.js:32-50 | the reminded ids only grow; every new id was announced; one message per new id, so no event is announced twice |
| ReminderService.ProcessCounts | src/services/reminderService.js:32-50 | one delivered message per new reminded id |
| ReminderService.ProcessAnnounced | src/services/reminderService.js:32-50 | every new reminded id had its reminder delivered |
| ReminderService.RemindedEventSkipped | src/services/reminderService.js:33 | an event already reminded produces no message |
| ReminderService.FailedSendRetried | src/services/reminderService.js:40-49 | a failed delivery leaves the event unreminded, so it is tried again |
| ReminderService.Reminders.constructor | src/services/reminderService.js:6 | no event has been reminded |
| ReminderService.Reminders.CheckAndSendReminders | src/services/reminderService.js:8-58 | without a client, events or owner nothing changes; otherwise the reminded ids and sends are those of the loop |
| MessageHandler.ApplyHeader | src/handlers/messageHandler.js:79-85 | a reply always starts with the header and is never empty |
| MessageHandler.HeaderTrimmed | src/handlers/messageHandler.js:80 | the header is trimmed and non-empty |
| MessageHandler.ApplyHeaderCases | src/handlers/messageHandler.js:79-85 | trimmed text already headed is kept; '' gives the header alone; other text gets the header and a blank line |
| MessageHandler.ApplyHeaderIdempotent | src/handlers/messageHandler.js:79-85 | on trimmed text the header is never added twice |
| MessageHandler.ApplyHeaderBlankInput | src/handlers/messageHandler.js:81-84 | on blank input a second application changes the result, so idempotence needs trimmed input |
| MessageHandler.StripPrefix | src/handlers/messageHandler.js:66-68 | the result is trimmed and no longer than the body; a body without the prefix is only trimmed |
| MessageHandler.StripPrefixOfPrefixed | src/handlers/messageHandler.js:66-68 | the prefix in any letter case is removed with the space after it, once |
| MessageHandler.TextsOf | src/handlers/messageHandler.js:39-45 | the history lines are the entries' texts, in order (of the chat's last 20 entries) |
| MessageHandler.HistoryIgnoresOtherChats | src/handlers/messageHandler.js:39-45 | another chat's message never enters a chat's history |
| MessageHandler.HistoryEndsWithLatest | src/handlers/messageHandler.js:39-45 | the newest entry is the last line of the history |
| MessageHandler.HistoryAfterClear | src/handlers/messageHandler.js:39-45 | a cleared chat has an empty history |
| MessageHandler.SenderName | src/handlers/messageHandler.js:152 | the sender name is never empty |
| MessageHandler.CommandOf | src/handlers/messageHandler.js:216-266 | a note command carries the trimmed rest of a body that starts with `!ctt` |
| MessageHandler.CommandReply | src/handlers/messageHandler.js:216-266 | a command reply is never empty; `!cekctt` shows the note when there is one |
| MessageHandler.GatingRules | src/handlers/messageHandler.js:195-273 | a queued message is from a whitelisted group and addressed the bot, or from a whitelisted number, or is from the owner with the prefix; the bot is on and the message is not a command; an active bot queues every non-command from a whitelisted number |
| MessageHandler.OwnerAndCommands | src/handlers/messageHandler.js:195-221 | the owner passes the whitelist everywhere, and `!aktif` works while the bot is paused |
| MessageHandler.VCardText | src/handlers/messageHandler.js:279-289 | a shared contact is announced with its marker |
| MessageHandler.VoiceText | src/handlers/messageHandler.js:306-312 | a voice note is announced with its marker |
| MessageHandler.UserText | src/handlers/messageHandler.js:275-312 | a contact and a voice note stand for the text; a body without the prefix is used as is; media without text gives `[media]` |
| MessageHandler.ContactMetaOf | src/handlers/messageHandler.js:70-95 | the summary contact always has a name; a group's is the group |
| MessageHandler.PromptSenderName | src/handlers/messageHandler.js:321 | the name in the prompt is never empty |
| MessageHandler.PayloadOf | src/handlers/messageHandler.js:323-333 | the payload is queued under its own chat |
| MessageHandler.NonEmptyTexts | src/handlers/messageHandler.js:361 | only non-empty texts are merged, and there are none exactly when all texts are empty |
| MessageHandler.FirstMedia | src/handlers/messageHandler.js:362 | the merged media is the first media of the burst |
| MessageHandler.Merge | src/handlers/messageHandler.js:360-371 | the last message gives the sender, name and contact; the first media is kept |
| MessageHandler.MergeEmptyText | src/handlers/messageHandler.js:361-367 | the merged text is empty exactly when no message has text and there is no media; media alone gives `[media]` |
| MessageHandler.MergeAppend | src/handlers/messageHandler.js:361 | a later message with text is added on a new line, in arrival order; one without text adds nothing |
| MessageHandler.MergeSingle | src/handlers/messageHandler.js:360-371 | a burst of one message passes that message on unchanged |
| MessageHandler.ChatReply | src/handlers/messageHandler.js:445-461 | the reply is headed and non-empty, and ends with the action's result when there is one |
| MessageHandler.ReplyWithStatus | src/handlers/messageHandler.js:445-470 | `a|||b` replies with the headed `a` and takes `b`, up to any further separator, as the status |
| MessageHandler.ReplyWithoutStatus | src/handlers/messageHandler.js:445-464 | without `|||` the whole text is the reply and there is no status |
| MessageHandler.CooldownAfterSend | src/handlers/messageHandler.js:464-474 | after a status at time t the next one goes only after more than an hour; other chats are unaffected |
| MessageHandler.AgendaAndTasks | src/handlers/messageHandler.js:399-411 | without a client the prompt says the calendar and tasks are unavailable |
| MessageHandler.FullResponse | src/handlers/messageHandler.js:413-439 | the answer is never empty; without media it is the chat path's answer |
| MessageHandler.SummaryRecord | src/handlers/messageHandler.js:118-125 | the record names a contact and holds the chat and its summary |
| MessageHandler.Respond | src/handlers/messageHandler.js:443-480 | the reply is headed, and at most a reply and a status are sent |
| MessageHandler.AuthAfter | src/handlers/messageHandler.js:383-397 | a client exists only if one existed or the attempt gave one; after the first attempt nothing changes |
| MessageHandler.Outcome | src/handlers/messageHandler.js:374-489 | the reply is headed, and at most a reply and a status are sent |
| MessageHandler.Answer | src/handlers/messageHandler.js:445-480 | the reply is headed, and at most a reply and a status are sent |
| MessageHandler.BotEntry | src/handlers/messageHandler.js:482-488 | the bot's history entry belongs to the chat, at the reply's time, and shows the headed reply |
| MessageHandler.Orchestrator.constructor | src/handlers/messageHandler.js:20-29 | no queue, timer or cooldown, no Google client, nothing sent |
| MessageHandler.Orchestrator.EnqueuePrivateMessage | src/handlers/messageHandler.js:336-347 | the payload joins the end of its chat's queue, and the chat's one timer is re-armed for 10 seconds later |
| MessageHandler.Orchestrator.FlushPrivateQueue | src/handlers/messageHandler.js:349-372 | the queue and the timer are detached first; a non-empty queue is merged |
| MessageHandler.Orchestrator.ScheduleChatSummary | src/handlers/messageHandler.js:97-104 | one summary timer per chat, re-armed an hour later |
| MessageHandler.Orchestrator.FlushChatSummary | src/handlers/messageHandler.js:106-132 | without messages only the timer goes; otherwise one summary of the chat's history is filed and that chat's entries are cleared; database.json then holds the newest 1000 messages and 500 summaries (`Saved`) |
| MessageHandler.Orchestrator.FireSummaryTimer | src/handlers/messageHandler.js:102 | a due summary timer leaves the chat's history empty and files at most one summary |
| MessageHandler.Orchestrator.SendStatus | src/handlers/messageHandler.js:464-480 | the status goes only after the cooldown, and the time is recorded only when delivered |
| MessageHandler.Orchestrator.Authorize | src/handlers/messageHandler.js:383-397 | the login is attempted once; later replies reuse its outcome |
| MessageHandler.Orchestrator.GenerateResponse | src/handlers/messageHandler.js:413-439 | the answer is that of the specification for the chat's history and note |
| MessageHandler.Orchestrator.PostReply | src/handlers/messageHandler.js:445-480 | the reply and status sent and the new cooldowns are those of `Answer`; the Google login cache, the queues and the debounce timers are untouched |
| MessageHandler.Orchestrator.DeliverReply | src/handlers/messageHandler.js:443-488 | the sends, cooldowns and the reply's history entry are those of `Respond`; the urgent note and the note file change only as the reply's tool action asks; the Google login cache, the queues and the debounce timers are untouched; database.json then holds the newest 1000 messages and 500 summaries (`Saved`) |
| MessageHandler.Orchestrator.ProcessAIResponse | src/handlers/messageHandler.js:374-489 | the login is attempted at most once; the reply and status sent, the cooldowns and the reply appended to the history are those of `Outcome` on the state before the call; the urgent note and the note file change only as the reply's tool action asks; the queues and the debounce timers are untouched; database.json then holds the newest 1000 messages and 500 summaries (`Saved`) |
| MessageHandler.Orchestrator.ReplyTo | src/handlers/messageHandler.js:400-488 | the history entry, the sends and the cooldowns are as `Outcome` states, and the urgent note and the note file change only as the reply's tool action asks; the Google login cache, the queues and the debounce timers are untouched; database.json then holds the newest 1000 messages and 500 summaries (`Saved`) |
| MessageHandler.Orchestrator.FireDebounceTimer | src/handlers/messageHandler.js:345-372 | a due debounce timer answers the burst once, and leaves the chat with no queue and no timer |
| MessageHandler.Orchestrator.RunCommand | src/handlers/messageHandler.js:216-266 | one reply per command; `!aktif` switches on and stamps the activation time, `!mati` switches off and keeps it; `!ctt` with a text stores the note, `!hpsctt` empties it and deletes the file; nothing else changes |
| MessageHandler.Orchestrator.Admit | src/handlers/messageHandler.js:318-333 | an answered message is recorded, re-arms the chat's summary, and joins the chat's queue; database.json then holds the newest 1000 messages and 500 summaries (`Saved`) |
| MessageHandler.Orchestrator.Dispatch | src/handlers/messageHandler.js:216-333 | a command replies once; `!aktif` switches on and stamps the activation time, `!mati` switches off and keeps it; `!ctt` with a text stores the note in memory and on disk, `!hpsctt` empties it and deletes the file, and other commands leave the note alone; a queued message is recorded and queued, leaves the note and its file alone, and is saved to database.json with the newest 1000 messages and 500 summaries (`Saved`); other routes change nothing |
| MessageHandler.Orchestrator.HandleMessage | src/handlers/messageHandler.js:134-334 | the route is that of the gating rules; dropped messages change nothing; commands reply once and change the switch, its activation time and the note exactly as `Dispatch` states; answered messages are recorded, their summary re-armed and queued, the note and its file untouched and database.json saved (`Saved`) |

## Left out

- The WhatsApp client is not part of this model: downloading media, reading vCards, `getContact`, the mention accessors and `getChat`. What they produce is a field of `Incoming` (`senderNumber`, `mentionedIds`, `attachment`).
- Calls and the call handler are not part of this model. Only the text of the call reply (`generateCallResponse`) is modelled.
- The prompt template (`src/data/prompt.js`) is not part of this model. It is a function `env.prompt` of the prompt's inputs.
- The date formatting inside the prompt template is not modelled.
- The Google calendar and tasks service is not part of this model. Its calls are functions of `env.google`, and the listings are `env.googleLists`.
- The language models, the image describer and the transcriber are functions passed in. `None` stands for a call that throws.
- Temporary files for transcription are not modelled: the file system is outside the model. `transcribeVoiceNote` writes its temporary file before its `try` (src/services/aiService.js:163-167), so a failed write, or a `null` mimetype that `guessExtension` cannot split, rejects out of `handleMessage`, and the message is then neither recorded nor queued. The model always records and queues a voice note, with the transcription or the failure text.
- Timers are modelled by their due time in a map, and a timer fires through an explicit call (`FireDebounceTimer`, `FireSummaryTimer`). `Date.now()` is a `now` parameter.
- The pause before generating (2000 ms, or 3000 ms with media) and the 1000 ms pause before the status are left out.
- The interleaving of asynchronous handlers is left out: each handler runs to completion.
- Files are fields of the classes (`noteFile`, `savedFile`, `written`), and what is read at start-up is a constructor parameter. Write failures of `database.json` and the snapshot are not modelled.
- Text is a sequence of `char`, not UTF-16 code units. Lengths count characters.
- `toLowerCase` is modelled for ASCII and Latin-1 capitals only.
- Logging and the `console` output are left out. This includes the reference to an undefined `senderName` in the status log, which throws after the status was sent and its time recorded and is caught: the model keeps the send and the recorded time.
- The whitelist tool actions (`add_allowed_number` and the others) call functions the contact service does not export. The model keeps that behaviour: the action yields `null` and changes nothing, as the code does.
- Whether WhatsApp delivers the reply and the status is a flag (`env.replyDelivered`, `env.statusDelivered`). A failed send is caught, as in the code; the reason for the failure is not modelled.
- FireDebounceTimer: its contract states only the detached queue and timer and the handler's invariant. What the burst's answer sends, records and caches is stated by `ProcessAIResponse`, which it calls.
- FireSummaryTimer: its contract states only the cleared history and the bound on new summaries. The exact record is stated by `FlushChatSummary`, which it calls.
- Respond, Outcome, Answer: their own contracts state only the header and the bound on messages sent. Their meaning is given by `ChatReply`, `ReplyWithStatus`, `ReplyWithoutStatus`, `CooldownAfterSend` and `Interpret`, from which they are built.
- The JSON parser is a function `JsonParser` from text to an object of string members. Parsing itself, and members that are not strings, are not modelled.
