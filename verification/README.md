# telegram-monitor, modelled in Dafny

telegram-monitor watches the Telegram accounts it is logged into. For each
incoming message it runs the account's monitors: keyword, file-extension,
button, all-messages, AI, and image-and-button. A monitor that matches
asks for actions: a reply, a forward, an e-mail, a log line or a button
click. The monitor engine runs the monitors in priority order under three
execution modes (`first_match`, `all` and merge). It folds the merged
requests into one record, counts each monitor's executions against its
quota, remembers the messages it has already processed, and fires
scheduled messages. Around the engine sit the account registry, the
step-by-step configuration wizard, the status counters, the input
validators, a few pure rules inside the web handlers, and the older
single-file command-line monitor (`monitor.py`).

This project models those decisions and proves what they promise. There
is one Dafny module per source file:

| module | source file |
|---|---|
| `Config` | `models/config.py` |
| `Message` | `models/message.py` |
| `Account` | `models/account.py` |
| `BaseMonitor` | `monitors/base_monitor.py` |
| `KeywordMonitor` | `monitors/keyword_monitor.py` |
| `FileMonitor` | `monitors/file_monitor.py` |
| `ButtonMonitor` | `monitors/button_monitor.py` |
| `AllMessagesMonitor` | `monitors/all_messages_monitor.py` |
| `AiMonitor` | `monitors/ai_monitor.py` |
| `ImageButtonMonitor` | `monitors/image_button_monitor.py` |
| `MonitorFactory` | `monitors/monitor_factory.py` |
| `EngineOrder`, `EngineActions`, `EngineDispatch`, `ScheduledJobs`, `MonitorEngine` | `core/monitor_engine.py` |
| `AccountManager` | `core/account_manager.py` |
| `Validators` | `utils/validators.py` |
| `ConfigWizard` | `ui/config_wizard.py` |
| `StatusMonitor` | `ui/status_monitor.py` |
| `WebRules` | `ui/web_app.py` (only its pure rules) |
| `LegacyMonitor` | `monitor.py` |

Three modules support the rest:
- `Wrappers` holds Option and Result.
- `PyStr` holds the Python string operations the source relies on: `strip`, `lower`, `in`, `split`, `int()` and `str()` of integers.
- `Effects` holds the outside world as parameters.

Every Telegram, OpenAI, SMTP or file-system call is replaced by the outcome
it reports:
- whether a send, a click or a download succeeded;
- the AI answer as an `Option<string>`;
- the outcome of a regex search.

The monitors in `monitors/` catch what these calls raise. The handler of
`monitor.py` does not always: three of its calls can raise into the
handler's catch-all, which logs and ends the handler. `LegacyMonitor.Faults`
makes them inputs:
- a keyword pattern that does not compile as a regex;
- a forward in the all-messages loop that fails;
- a user list checked against a message sent by a channel.

The keyword and file forwards can fail too, but each of their loops sits in
its own `try`: a failing target skips the later targets of that loop, and the
handler goes on with the log line, the regex send and the button phases.
`LegacyMonitor.Outcome` is therefore a subsequence of the action list
`LegacyMonitor.Respond`, and a prefix of it while no keyword or file forward
fails.

Randomness is a chosen value with a stated range, and the current time is a
parameter.

Where the source mutates state, the model does too:
- `MonitorEngine.Engine` holds the monitors per account, the processed-id set and the scheduled jobs.
- `AccountManager.AccountManager`, `ConfigWizard.Wizard`, `StatusMonitor.StatusMonitor`, `LegacyMonitor.Handler`, `Account.Account`, `Config.MonitorConfig` (the keyword and file configuration tables), `MonitorFactory.MonitorFactory` and `AiMonitor.AIMonitorBuilder` are classes. Their methods are proved against value-level functions.

The wizard's `WizardStep` enum has 13 members, but its step table has 12
entries, because REPLY_CONFIG has no step of its own. The progress total is
the length of that table, so the model uses 12.

## Model

| member | source | states |
|---|---|---|
| Config.ParseMatchType | models/config.py:10-13 | `MatchType(s)` yields only the member whose value is `s`; other strings fail |
| Config.ParseMonitorMode | models/config.py:16-18 | `MonitorMode(s)` yields only the member whose value is `s` |
| Config.ParseReplyMode | models/config.py:21-23 | `ReplyMode(s)` yields only the member whose value is `s` |
| Config.ParseReplyContentType | models/config.py:26-28 | `ReplyContentType(s)` yields only the member whose value is `s` |
| Config.EnumValuesRoundTrip | models/config.py:10-28 | every enum member is recovered from its string value |
| Config.Coerce | models/config.py:95-101 | a member is kept as is; a string is converted by the enum constructor, and an unknown string fails |
| Config.Increment | models/config.py:68-69 | the count goes up by exactly one; the limit is untouched |
| Config.Reset | models/config.py:71-72 | the count becomes 0; the limit is untouched |
| Config.LimitReached | models/config.py:63-66 | without `max_executions` the limit is never reached; with one, it is reached iff the count is at least the limit |
| Config.NonPositiveLimitReachedAtOnce | models/config.py:63-66 | a limit of 0 or less is reached before the first execution |
| Config.ReachedAfterIncrements | models/config.py:63-69 | from count 0, the limit `max` is reached exactly after `max` increments |
| Config.IncrementKeepsReached | models/config.py:63-69 | a reached limit stays reached after another execution |
| Config.ResetClearsPositiveLimit | models/config.py:63-72 | after a reset the limit is reached exactly when it is 0 or less |
| Config.PauseAndReset | models/config.py:74-76 | the monitor is deactivated, its count zeroed, and every other field kept |
| Config.WithBase | models/config.py:38-61 | replacing the shared base fields of any typed config yields that base |
| Config.WithBaseKeepsKind | models/config.py:80-202 | swapping the base out and back restores the typed config, so its kind and kind-specific fields are kept |
| Config.IsSizeValid | models/config.py:111-116 | with both bounds set, a size is valid iff it lies in the closed interval; with no bounds every size is valid; the lower bound itself is valid |
| Config.KeywordPostInit | models/config.py:95-101 | succeeds iff all three enum fields coerce; a string becomes the member whose value it is, a member is kept; no other field changes |
| Config.ButtonPostInit | models/config.py:125-127 | succeeds iff the mode coerces; a string mode becomes the member whose value it is, a member is kept; no other field changes |
| Config.AllMessagesPostInit | models/config.py:141-145 | succeeds iff reply mode and content type coerce; each string becomes the member whose value it is, a member is kept; no other field changes |
| Config.ImageButtonPostInit | models/config.py:156-158 | a missing button keyword list becomes empty; a given list is kept |
| Config.AIMonitorPostInit | models/config.py:198-202 | succeeds iff the reply mode coerces; a string mode becomes the member whose value it is, a member is kept; an empty prompt becomes the default prompt, a non-empty one is kept, so the prompt is never empty; no other field changes |
| Config.MonitorConfig.constructor | models/config.py:206-214 | every table starts empty |
| Config.MonitorConfig.AddKeywordConfig | models/config.py:216-217 | the keyword table maps `keyword` to the config; nothing else changes |
| Config.MonitorConfig.RemoveKeywordConfig | models/config.py:219-223 | reports whether `keyword` was present and removes exactly that entry |
| Config.MonitorConfig.GetKeywordConfig | models/config.py:225-226 | the config stored under `keyword`, or none iff absent |
| Config.MonitorConfig.AddFileConfig | models/config.py:228-229 | the file table maps `extension` to the config; nothing else changes |
| Config.MonitorConfig.RemoveFileConfig | models/config.py:231-235 | reports whether `extension` was present and removes exactly that entry |
| Config.MonitorConfig.GetFileConfig | models/config.py:237-238 | the config stored under `extension`, or none iff absent |
| Config.RemoveUndoesAdd | models/config.py:216-223 | removing a freshly added key restores the table |
| Message.FullName | models/message.py:23-31 | the title when set, else first and last name joined by a space, else whichever one is set, else the placeholder; never empty |
| Message.FileSizeMb | models/message.py:72-75 | none iff the size is missing or zero; otherwise the size divided by 1024*1024 |
| Message.StrippedTexts | models/message.py:108-113 | one stripped text per button, in order |
| Message.FlattenLength | models/message.py:108-113 | the row-major listing has one entry per button of the grid |
| Message.FlattenAt | models/message.py:108-126 | button (row, col) sits at offset (buttons in earlier rows) + col of the row-major listing |
| Message.ButtonTexts | models/message.py:108-113 | the stripped button texts in row-major order, one per button |
| Message.FirstHitIsEarliest | models/message.py:115-126 | the search finds the earliest button that answers the query (exact or substring), and none iff no button answers |
| Message.GetButtonByText | models/message.py:115-126 | the nested row/column scan returns the first answering button of the row-major listing |
| Message.PrefixHit | models/message.py:115-126 | a hit within the first rows is the hit of the whole grid, so returning early is sound |
| Message.ExtensionOfFileName | models/message.py:140-145 | an extension exists iff the name has a dot; it is '.' plus a lowercase, dot-free tail that ends the lowercased name |
| Message.MediaTypeOfMime | models/message.py:147-155 | one of image/video/audio/document, and "image" exactly for an `image/` MIME type |
| Message.FirstFileName | models/message.py:140-145 | the first attribute that carries a file name, and none iff none does |
| Message.MediaFromTelethon | models/message.py:132-157 | media exists iff the message has media; a recorded extension always comes from the recorded file name |
| Message.ButtonsFromTelethon | models/message.py:159-170 | the grid has the raw shape, and each button records its own row and column index |
| Message.ForwardFromChannelId | models/message.py:172-178 | none for a message that is not forwarded; the `from_chat` id when present |
| Message.SplitAtLastUnderscore | models/message.py:203-204 | "x_y" splits back into x and y when y has no underscore |
| Message.UniqueIdInjective | models/message.py:203-204 | two events share `unique_id` only when account, chat and message ids all agree, even for account ids containing '_' |
| Message.UniqueId | models/message.py:203-204 | the id starts with the account id and an underscore |
| Message.SameUniqueIdSameMessage | models/message.py:203-204 | two events with the same id share account, chat and message id |
| Account.RemovePlus | models/account.py:21 | the result has no '+'; it holds every other character of the phone, as often as the phone does; a phone without '+' is unchanged |
| Account.RemovePlusConcat | models/account.py:21 | removing '+' from a concatenation removes it from each part, keeping the order of what remains |
| Account.RemovePlusLeading | models/account.py:21 | a leading '+' is dropped and nothing else changes |
| Account.AccountConfigPostInit | models/account.py:19-21 | an empty session name becomes "session_" plus the phone without '+'; a set name is kept; the name is never empty afterwards |
| Account.AccountConfigPostInitIdempotent | models/account.py:19-21 | applying the default twice changes nothing more |
| Account.MonitorConfigsPostInit | models/account.py:33-43 | empty sections become the seven default sections; non-empty ones are kept |
| Account.ToDict | models/account.py:95-106 | the dictionary carries the id, own user id, session name, monitor flag and sections |
| Account.FromDict | models/account.py:109-126 | `.get` defaults then both post-init steps: a non-empty session name and sections, `monitor_active` only when stored as True |
| Account.FromDictToDict | models/account.py:95-126 | an account as constructed survives `from_dict(to_dict(a))` unchanged |
| Account.FromDictToDictEmptySections | models/account.py:33-43 | an account whose sections were emptied comes back with the default sections, so the round trip needs the invariant |
| Account.StatusDisplay | models/account.py:82-93 | a label for each known status, and the unknown label exactly for other strings |
| Account.StatusDisplayInjective | models/account.py:82-93 | distinct known statuses get distinct labels |
| Account.Account.constructor | models/account.py:25-43 | the fields as given after both post-init steps; no client yet |
| Account.Account.FromDictNew | models/account.py:109-126 | a fresh account without a client whose state is `FromDict(d)` |
| Account.Account.GetMonitorConfig | models/account.py:128-129 | the stored section, or an empty dict when absent |
| Account.Account.UpdateMonitorConfig | models/account.py:131-132 | the section is replaced; nothing else changes |
| Account.Account.AddMonitorConfig | models/account.py:134-137 | a missing section is created as a dict and the entry stored; a list section fails and changes nothing |
| Account.Account.RemoveMonitorConfig | models/account.py:139-143 | true iff the section is a dict holding the key; exactly that entry is deleted, otherwise nothing changes |
| BaseMonitor.MatchUserFilter | monitors/base_monitor.py:122-151 | no user list admits everyone; option '1' compares the sender id text and its "-100"-less short form with the entries as text; option '2' fails only for a sender without a username; unknown options admit |
| BaseMonitor.UserIdAdmitsSender | monitors/base_monitor.py:125-135 | an integer entry equal to the sender id admits that sender under option '1' |
| BaseMonitor.UserIdFilterIsTextual | monitors/base_monitor.py:125-135 | under option '1', a sender whose id no entry equals (and without the "-100" form) is rejected |
| BaseMonitor.MatchChatFilter | monitors/base_monitor.py:153-219 | the scan over bot, channel and group ids with early exits computes the chat filter |
| BaseMonitor.FullChannelIdAdmitsSender | monitors/base_monitor.py:193-198 | a channel listed in full "-100…" form admits the bare channel id as sender |
| BaseMonitor.ChatFilterRejectsUnlisted | monitors/base_monitor.py:160-219 | with precise ids configured, a message no listed id matches is filtered out |
| BaseMonitor.BotIdsNeverAdmitAsWritten | monitors/base_monitor.py:168-177 | as written (reading `bot`, which the sender record lacks) a filter with only bot ids rejects every message |
| BaseMonitor.BotIdsAdmitListedBots | monitors/base_monitor.py:168-177 | reading the sender's `is_bot` flag, a bot-only filter admits exactly the listed bots |
| BaseMonitor.BotOnlyFilterNeverMatches | monitors/base_monitor.py:39-98 | a monitor whose only precise ids are bot ids never reaches MATCHED, whatever the message |
| BaseMonitor.ShouldProcess | monitors/base_monitor.py:100-120 | own messages and chats outside `chats` are dropped; a pass implies the user filter passed and the chat filter passed with the bot flag as the code reads it |
| BaseMonitor.BlockedBotsOnlyBlockBots | monitors/base_monitor.py:221-242 | with no blocked users or channels, a message is blocked iff its sender is a bot listed in `blocked_bots` |
| BaseMonitor.ExecuteActions | monitors/base_monitor.py:248-260 | the custom actions when they succeed; one error entry when they raise |
| BaseMonitor.ProcessMessage | monitors/base_monitor.py:39-98 | the guard chain, with the chat filter as written: inactive gives no match; BLOCKED, LIMIT_REACHED and MATCHED each hold exactly under their guard prefix; only a match carries actions |
| BaseMonitor.BlockedBeforeLimit | monitors/base_monitor.py:56-70 | a blocked message is reported BLOCKED even when the quota is exhausted |
| BaseMonitor.OwnMessagesNeverMatch | monitors/base_monitor.py:100-106 | the account's own messages never match, whatever the condition says |
| KeywordMonitor.MatchCondition | monitors/keyword_monitor.py:30-68 | empty text never matches; exact and partial compare the stripped lowercased text with the lowercased keyword; regex defers to the search; a match with content records it in `matched_keyword` and nothing else changes |
| KeywordMonitor.ExactMatchImpliesPartialMatch | monitors/keyword_monitor.py:40-47 | every exact match is also a partial match |
| KeywordMonitor.EmptyKeywordMatchesAnyText | monitors/keyword_monitor.py:33-47 | an empty partial keyword matches any message with text, even whitespace only |
| KeywordMonitor.TrailingSpaceKeywordNeverMatchesExactly | monitors/keyword_monitor.py:36-42 | only the text is stripped, so a keyword ending in whitespace never matches exactly |
| KeywordMonitor.MatchedKeywordSurvivesMiss | monitors/keyword_monitor.py:65-68 | a recorded keyword survives a later message that does not match |
| KeywordMonitor.DynamicReplyContent | monitors/keyword_monitor.py:105-130 | nothing for AI replies with a prompt; else the reply texts; else the matched keyword when set |
| KeywordMonitor.ReplyEchoesMatchedKeyword | monitors/keyword_monitor.py:65-66 | with custom replies and no texts, a match makes the monitor answer with its own keyword |
| KeywordMonitor.CustomActions | monitors/keyword_monitor.py:70-78 | one action exactly for a regex monitor with a non-zero send target |
| KeywordMonitor.GetMatchFunction | monitors/keyword_monitor.py:184-190 | the table is keyed by enum members: a string falls back to partial; exact and regex are chosen only by their members |
| KeywordMonitor.StrategyExactDiffersFromMonitor | monitors/keyword_monitor.py:168-169 | the strategy strips the keyword and the monitor does not: a keyword with a trailing space matches under the strategy only |
| KeywordMonitor.MonitorPartialIsStrategyPartial | monitors/keyword_monitor.py:172-173 | on non-empty text the monitor's partial match is the strategy's partial match on the stripped text |
| FileMonitor.SplitExt | monitors/file_monitor.py:35-40 | a non-empty `splitext` extension starts with '.', has no other dot and no '/', and ends the path |
| FileMonitor.SplitExtAgreesWithMessageExtension | monitors/file_monitor.py:35-40 | on a bare name with a real stem, `splitext` and the parser's extension agree up to case |
| FileMonitor.DotFileHasNoExtension | monitors/file_monitor.py:35-40 | a dot-file such as ".bashrc" has no extension |
| FileMonitor.NormalizeExt | monitors/file_monitor.py:72-79 | the normal form starts with '.' and is lowercase |
| FileMonitor.NormalizeIdempotent | monitors/file_monitor.py:72-79 | normalising twice changes nothing |
| FileMonitor.NormalizeIgnoresCaseAndDot | monitors/file_monitor.py:72-79 | "pdf", ".pdf" and ".PDF" normalise alike |
| FileMonitor.DerivedExtension | monitors/file_monitor.py:31-70 | the parsed extension, else the lowercased `splitext` suffix, else the MIME table entry; never an empty extension |
| FileMonitor.MatchCondition | monitors/file_monitor.py:20-89 | no media gives false; a match (or the raise while logging it) happens exactly when the normal forms of the derived and configured extensions agree; the raise needs a missing size |
| FileMonitor.SizeBoundsDoNotAffectMatching | monitors/file_monitor.py:20-89 | the size bounds play no part in matching |
| FileMonitor.ConfigExtensionSpellingIrrelevant | monitors/file_monitor.py:77-79 | configured as "pdf", ".pdf" or ".PDF", a monitor matches the same messages |
| FileMonitor.SaveSizeMb | monitors/file_monitor.py:109-116 | `file_size_mb` when present, else the byte size in MiB; a missing size raises |
| FileMonitor.CustomActions | monitors/file_monitor.py:91-99 | one action exactly when a save folder is set and the save succeeded |
| FileMonitor.OversizedFileNotSaved | monitors/file_monitor.py:118-120 | a file above the configured maximum is never reported saved |
| FileMonitor.SaveFile | monitors/file_monitor.py:101-122 | a saved file came from a message with media whose size is known and lies within both configured bounds, and the download produced a path |
| ButtonMonitor.MatchCondition | monitors/button_monitor.py:19-37 | no buttons never matches; AI mode matches any message with buttons; manual mode matches iff there are buttons and a button text contains the keyword, ignoring case |
| ButtonMonitor.ManualMatchHasTarget | monitors/button_monitor.py:32-63 | for every message: if the manual match succeeds, the click's button search finds a button |
| ButtonMonitor.ClickManual | monitors/button_monitor.py:53-81 | a manual match whose click succeeds is reported as clicked; a reported click needs buttons and a successful click |
| ButtonMonitor.ClickAi | monitors/button_monitor.py:83-134 | a reported AI click needs a configured AI, buttons and a successful click; an empty AI choice never clicks |
| ButtonMonitor.CustomActions | monitors/button_monitor.py:39-51 | at most one entry, present exactly when the mode's click succeeded |
| ButtonMonitor.ManualMatchIsClicked | monitors/button_monitor.py:39-81 | in manual mode a matched message is clicked whenever the click itself succeeds |
| AllMessagesMonitor.ChatIdNotConsulted | monitors/all_messages_monitor.py:17-21 | the configured chat id plays no part in matching |
| AllMessagesMonitor.MatchCondition | monitors/all_messages_monitor.py:17-21 | every message matches |
| AllMessagesMonitor.CustomActions | monitors/all_messages_monitor.py:23-33 | no custom action is ever reported |
| AllMessagesMonitor.DynamicReplyContent | monitors/all_messages_monitor.py:35-45 | nothing for AI replies, else the configured reply texts |
| AllMessagesMonitor.TypeInfo | monitors/all_messages_monitor.py:63-67 | the all-chats label exactly when the chat id is 0 |
| MonitorFactory.TypeOf | monitors/monitor_factory.py:41 | the exact class of the config; foreign objects map to a type outside the defaults |
| MonitorFactory.DefaultRegistryDomain | monitors/monitor_factory.py:23-35 | the default registry knows exactly the six built-in config classes |
| MonitorFactory.DefaultCreatesBuiltIn | monitors/monitor_factory.py:23-50 | with the defaults every built-in config gets its monitor unless the constructor raises; foreign configs get none |
| MonitorFactory.RegisterChangesOneType | monitors/monitor_factory.py:37-50 | registering a class for one type changes creation for that type only |
| MonitorFactory.MonitorFactory.constructor | monitors/monitor_factory.py:19-21 | the registry holds exactly the defaults |
| MonitorFactory.MonitorFactory.RegisterMonitor | monitors/monitor_factory.py:37-38 | the type maps to the class; other types are unchanged |
| MonitorFactory.MonitorFactory.CreateMonitor | monitors/monitor_factory.py:40-50 | the registered class of the exact type, applied to the config; none when unregistered or when the constructor raises |
| AiMonitor.MessageLines | monitors/ai_monitor.py:46-69 | the description opens with the user prompt and carries the message text on its fourth line |
| AiMonitor.PromptLines | monitors/ai_monitor.py:46-89 | the message description followed by the "判断/回复" format when replies are on without fixed texts, else by the plain yes/no format |
| AiMonitor.PromptFormatChoice | monitors/ai_monitor.py:71-87 | the structured format is requested exactly when replies are on without fixed texts |
| AiMonitor.BuildAiPrompt | monitors/ai_monitor.py:46-89 | the prompt opens with the user's instruction and ends with the last line of the chosen answer format |
| AiMonitor.ReplyOf | monitors/ai_monitor.py:102-105 | a reply is taken only when it is non-empty and not "无" |
| AiMonitor.ScanLine | monitors/ai_monitor.py:97-105 | one stripped line keeps the reply or sets a valid one |
| AiMonitor.ScanLines | monitors/ai_monitor.py:93-105 | any reply found over the lines is a valid reply |
| AiMonitor.ScanStructured | monitors/ai_monitor.py:93-105 | the loop over the stripped answer's lines computes the scan, with later lines overwriting earlier findings |
| AiMonitor.KeepWordChars | monitors/ai_monitor.py:117 | punctuation removal keeps only word and space characters and never lengthens the text |
| AiMonitor.KeptByCleanup | monitors/ai_monitor.py:117 | ASCII punctuation such as '.', ',', '!', '?', ':' and the apostrophe is removed; non-ASCII characters are kept |
| AiMonitor.ParsedResponse | monitors/ai_monitor.py:91-133 | a reply is only ever a valid reply; without both markers the verdict is the keyword fallback and no reply is stored |
| AiMonitor.SniffVerdict | monitors/ai_monitor.py:115-133 | the two keyword loops compute the fallback verdict: true iff some positive keyword occurs |
| AiMonitor.FallbackVerdict | monitors/ai_monitor.py:115-133 | a cleaned response containing "y" or "1" anywhere is read as a match |
| AiMonitor.ScanKeywords | monitors/ai_monitor.py:122-130 | one keyword loop reports whether any keyword occurs in the cleaned text |
| AiMonitor.ParseAiResponse | monitors/ai_monitor.py:91-133 | the structured scan, falling back to keywords when no verdict line was found, computes `ParsedResponse` |
| AiMonitor.NomatchCountsAsMatch | monitors/ai_monitor.py:119-125 | an answer containing "nomatch" reads as a match, since it contains the positive keyword "match" |
| AiMonitor.PositiveBeatsNegative | monitors/ai_monitor.py:119-130 | a "yes" anywhere wins over any negative keyword |
| AiMonitor.MatchCondition | monitors/ai_monitor.py:24-44 | no verdict and no change without a configured service and a non-empty answer; otherwise the answer (or its structured reply) is stored and parsed |
| AiMonitor.FirstPrefix | monitors/ai_monitor.py:176-179 | the first listed prefix the lowercased text starts with; none iff no prefix fits |
| AiMonitor.CutVerdictPrefix | monitors/ai_monitor.py:176-184 | the first matching prefix is cut and the rest stripped; the text is kept when no prefix fits |
| AiMonitor.CleanVerdictAnswer | monitors/ai_monitor.py:166-184 | a bare verdict becomes ""; otherwise one prefix is cut from the stripped answer |
| AiMonitor.CleanForReply | monitors/ai_monitor.py:159-184 | "" for an empty answer; an answer without verdict words is only stripped; otherwise the verdict cleaning; always stripped |
| AiMonitor.DynamicReplyContent | monitors/ai_monitor.py:148-157 | fixed reply texts first, else the cleaned stored answer when non-empty |
| AiMonitor.StructuredReplyIsSent | monitors/ai_monitor.py:24-44 | a structured reply without verdict words is stored by the match and sent unchanged |
| AiMonitor.CleanKeepsPlainReply | monitors/ai_monitor.py:162-164 | a stripped, non-empty text without verdict words passes the cleaning unchanged |
| AiMonitor.UnconfiguredNeverMatches | monitors/ai_monitor.py:24-29 | an unconfigured AI service never matches and leaves the config untouched |
| AiMonitor.CustomActions | monitors/ai_monitor.py:135-146 | exactly one action entry |
| AiMonitor.AIMonitorBuilder.constructor | monitors/ai_monitor.py:219-220 | the builder starts from the default AI config |
| AiMonitor.AIMonitorBuilder.WithPrompt | monitors/ai_monitor.py:222-224 | the prompt is set as given; nothing else changes |
| AiMonitor.AIMonitorBuilder.WithChats | monitors/ai_monitor.py:226-228 | the chats are set; nothing else changes |
| AiMonitor.AIMonitorBuilder.WithEmailNotify | monitors/ai_monitor.py:230-232 | the email flag is set; nothing else changes |
| AiMonitor.AIMonitorBuilder.WithAutoForward | monitors/ai_monitor.py:234-238 | the flag is set; targets are replaced only by a non-empty list |
| AiMonitor.AIMonitorBuilder.WithEnhancedForward | monitors/ai_monitor.py:240-244 | the flag is set; the size limit is replaced only by a non-zero value |
| AiMonitor.AIMonitorBuilder.WithConfidenceThreshold | monitors/ai_monitor.py:246-248 | the threshold is set; nothing else changes |
| AiMonitor.AIMonitorBuilder.WithMaxExecutions | monitors/ai_monitor.py:250-252 | the execution limit is set; nothing else changes |
| AiMonitor.AIMonitorBuilder.WithReply | monitors/ai_monitor.py:254-263 | the reply settings are set; texts are replaced only by a non-empty list |
| AiMonitor.AIMonitorBuilder.WithPriority | monitors/ai_monitor.py:265-267 | the priority is set; nothing else changes |
| AiMonitor.AIMonitorBuilder.WithExecutionMode | monitors/ai_monitor.py:269-271 | the execution mode is set; nothing else changes |
| AiMonitor.AIMonitorBuilder.Build | monitors/ai_monitor.py:273-274 | the accumulated config |
| ImageButtonMonitor.Texts | monitors/image_button_monitor.py:262-268 | one text per button, in row-major order, unstripped |
| ImageButtonMonitor.ExtractButtonTexts | monitors/image_button_monitor.py:262-268 | the nested loop collects exactly the texts of the flattened button grid |
| ImageButtonMonitor.MatchCondition | monitors/image_button_monitor.py:25-63 | no image and no buttons never matches; an image without buttons always does; with buttons and keywords configured it matches iff some keyword occurs (case-insensitively) in some button text; with no keywords it matches |
| ImageButtonMonitor.PlaceRow | monitors/image_button_monitor.py:272-281 | row `r` contributes one entry per button, carrying the button and its (r, column) |
| ImageButtonMonitor.PositionedInGrid | monitors/image_button_monitor.py:270-282 | every listing entry names the button that really sits at its (row, col) |
| ImageButtonMonitor.PositionedRowMajor | monitors/image_button_monitor.py:270-282 | listing entries are ordered row-major: earlier rows first, then left to right |
| ImageButtonMonitor.PositionedButtons | monitors/image_button_monitor.py:270-282 | the listing carries exactly the flattened buttons, one entry each |
| ImageButtonMonitor.Kind | monitors/image_button_monitor.py:279 | the intended type: keyboard exactly when the button carries no callback data |
| ImageButtonMonitor.KeyboardButtonListedInline | monitors/image_button_monitor.py:279 | a button without data is still listed as inline by the attribute test as written (finding) |
| ImageButtonMonitor.Infos | monitors/image_button_monitor.py:275-280 | one info record per placed button, in order, with the type the attribute test gives |
| ImageButtonMonitor.PositionedSnoc | monitors/image_button_monitor.py:272-281 | the listing of the first i+1 rows extends that of the first i rows by row i |
| ImageButtonMonitor.ExtractButtonInfo | monitors/image_button_monitor.py:270-282 | the nested loop builds exactly the info records of the row-major listing, and, as written, every record says `inline` |
| ImageButtonMonitor.InfoPositions | monitors/image_button_monitor.py:270-282 | each info record's text is that of the button at its (row, col) |
| ImageButtonMonitor.PartialScore | monitors/image_button_monitor.py:323 | 80 times shorter/longer lies in [0, 80], is positive when the shorter is non-empty, and reaches 50 iff 8*shorter >= 5*longer |
| ImageButtonMonitor.Score | monitors/image_button_monitor.py:313-327 | a button scores 100 iff it matches the answer exactly (as is or lower-cased after strip); neither exact nor contained scores 0 |
| ImageButtonMonitor.PartialClickThreshold | monitors/image_button_monitor.py:322-332 | a contained but inexact match is good enough to click iff 8*shorter >= 5*longer |
| ImageButtonMonitor.BestOf | monitors/image_button_monitor.py:306-330 | the chosen index, if any, is a valid button index |
| ImageButtonMonitor.BestUpTo | monitors/image_button_monitor.py:306-330 | a pick over the first m scores is one of those m buttons |
| ImageButtonMonitor.BestUpToIsEarliestMax | monitors/image_button_monitor.py:306-330 | over any prefix: no pick means score 0; a pick has a positive score equal to its own, beats every earlier score strictly and is not beaten by any score in the prefix |
| ImageButtonMonitor.BestOfIsEarliestMax | monitors/image_button_monitor.py:306-330 | the search picks the earliest highest positive score, and nothing when all scores are 0 |
| ImageButtonMonitor.ScoresByAt | monitors/image_button_monitor.py:310-327 | the k-th score is the scoring of the k-th listed button |
| ImageButtonMonitor.FirstFullScoreWins | monitors/image_button_monitor.py:316-320 | the first score of 100 is the pick |
| ImageButtonMonitor.FirstExactIsChosen | monitors/image_button_monitor.py:316-320 | the first button that matches the answer exactly is chosen with score 100 |
| ImageButtonMonitor.BestStopsAtExact | monitors/image_button_monitor.py:319-330 | after a score of 100 the remaining buttons change nothing (the breaks lose nothing) |
| ImageButtonMonitor.PositionedPrefix | monitors/image_button_monitor.py:310-311 | the listing of the first rows is a prefix of the whole listing |
| ImageButtonMonitor.PositionedAt | monitors/image_button_monitor.py:310-311 | the entry for cell (i, j) sits right after the listing of rows before i |
| ImageButtonMonitor.RowInListing | monitors/image_button_monitor.py:310-311 | row i occupies the listing right after the earlier rows, scores aligned |
| ImageButtonMonitor.TrackedStep | monitors/image_button_monitor.py:322-327 | a strictly higher score takes over best match, position and score; any other score leaves them unchanged |
| ImageButtonMonitor.Visit | monitors/image_button_monitor.py:312-327 | one button: the best score becomes the larger of old and new (strictly higher wins) and the tracking invariant advances by one |
| ImageButtonMonitor.SearchRow | monitors/image_button_monitor.py:311-320 | the inner loop keeps the tracking invariant and, unless a 100 stopped it, consumes the whole row |
| ImageButtonMonitor.SearchGrid | monitors/image_button_monitor.py:302-330 | the nested loops with both breaks compute exactly the earliest-highest pick over all buttons, with its stripped text and (row, col) |
| ImageButtonMonitor.ClickButtonByText | monitors/image_button_monitor.py:301-348 | returns the best score and position of the search, and clicks iff a match with score >= 50 and non-empty text exists and the original message is fetched |
| ImageButtonMonitor.ExactAnswerIsClicked | monitors/image_button_monitor.py:316-336 | a first exact hit with a non-blank text always leads to a click attempt |
| ImageButtonMonitor.ButtonToClick | monitors/image_button_monitor.py:150-156 | the choice is always stripped; no answer or an answer that is neither string nor dict gives "" |
| ImageButtonMonitor.CustomActions | monitors/image_button_monitor.py:65-173 | the step-by-step handler reports exactly the actions of the specification function |
| ImageButtonMonitor.NoChoiceNoClick | monitors/image_button_monitor.py:70-77 | no buttons, no AI answer or a failed click report nothing |
| ImageButtonMonitor.ExactChoiceIsReported | monitors/image_button_monitor.py:150-161 | an AI choice naming a button exactly (first such, non-blank) is reported as clicked when the click succeeds |
| ImageButtonMonitor.ReportedWhenWanted | monitors/image_button_monitor.py:158-161 | a non-empty choice whose search wants a click is reported as "点击按钮: choice" when the click succeeds |
| EngineOrder.CandidatesOf | core/monitor_engine.py:380-385 | one candidate per registered monitor, in registration order, carrying its priority and execution mode |
| EngineOrder.Insert | core/monitor_engine.py:387 | inserting adds exactly the new candidate to the list |
| EngineOrder.SortByPriority | core/monitor_engine.py:387 | sorting keeps the length and the set of candidates |
| EngineOrder.InsertPermutes | core/monitor_engine.py:387 | insertion adds exactly one occurrence of the candidate |
| EngineOrder.SortPermutes | core/monitor_engine.py:387 | the sorted list is a permutation of the candidates |
| EngineOrder.ConsSorted | core/monitor_engine.py:387 | a head ordered before a sorted tail gives a sorted list |
| EngineOrder.TailSorted | core/monitor_engine.py:387 | the tail of a sorted list is sorted and follows its head |
| EngineOrder.InsertKeepsOrder | core/monitor_engine.py:387 | inserting a later-registered candidate into a stably sorted list keeps it stably sorted |
| EngineOrder.SortIsStable | core/monitor_engine.py:387 | sorting a registration-ordered list gives lower priorities first and registration order among equal priorities (Python's stable sort) |
| EngineOrder.CandidatesInOrder | core/monitor_engine.py:381-385 | the candidate list is in increasing registration position |
| EngineOrder.SortedCandidates | core/monitor_engine.py:376-389 | the dispatch order holds every monitor exactly once (same multiset as the registration order), sorted by priority, registration order kept among equal priorities |
| EngineOrder.SortedLinksBack | core/monitor_engine.py:380-387 | each sorted candidate still refers to its own monitor, priority and mode |
| EngineActions.SetOf | core/monitor_engine.py:508 | `set(xs)` holds exactly the members of `xs` |
| EngineActions.ReplySourceOf | core/monitor_engine.py:521 | only keyword, all-messages and AI monitors have reply settings |
| EngineActions.CollectedReply | core/monitor_engine.py:521-546 | the single-monitor reply part takes content type, prompt, delays and mode from the monitor and the dynamic texts when non-empty, else the configured texts |
| EngineActions.MergedReply | core/monitor_engine.py:471-502 | the merged reply part does the same, except that no dynamic and no configured texts but an AI prompt switch it to AI content |
| EngineActions.CollectedAndMergedReply | core/monitor_engine.py:481-495 | the two reply parts differ exactly when the AI-prompt fallback applies to a custom-content monitor |
| EngineActions.Collect | core/monitor_engine.py:504-548 | the single-monitor record: e-mail as configured, targets and enhanced flag only when auto-forward is on, the log path when non-empty, a reply part iff the monitor replies |
| EngineActions.MergeAllSnoc | core/monitor_engine.py:409-448 | merging one more monitor folds it into the record built so far |
| EngineActions.MergeAllEmail | core/monitor_engine.py:460-461 | a merged record notifies by e-mail iff some merged monitor does |
| EngineActions.MergeAllTargets | core/monitor_engine.py:463-464 | merged targets are the union of the targets of monitors with auto-forward on and targets |
| EngineActions.MergeAllEnhanced | core/monitor_engine.py:463-466 | the merged record is enhanced iff some forwarding monitor asks for it |
| EngineActions.MergeAllLogs | core/monitor_engine.py:468-469 | merged log files are exactly the non-empty log paths of the merged monitors |
| EngineActions.MergeAllNoReply | core/monitor_engine.py:394-407 | without a reply-enabled monitor the merged reply part keeps its initial values |
| EngineActions.MergeAllFirstReply | core/monitor_engine.py:471-502 | the reply part comes from the first reply-enabled monitor; later ones never override it |
| EngineActions.DelayBounds | core/monitor_engine.py:600-603 | an empty range gives the minimum delay; otherwise the delay lies within [min, max] |
| EngineActions.ReplyText | core/monitor_engine.py:608-635 | AI content with a prompt yields text iff the service is configured and answers; otherwise there is text iff texts exist, and it is one of them |
| EngineActions.ReplyOutcomeOf | core/monitor_engine.py:597-682 | no reply iff disabled; an attempted reply has non-empty text, the configured mode and the computed delay; the reply is skipped iff there is no text or it is empty |
| EngineActions.Execute | core/monitor_engine.py:550-702 | e-mail as requested; forwards go to the targets minus the source chat; enhanced only with targets; monitors are counted iff neither a failing enhanced forward nor a skipped reply ended the run early |
| EngineActions.NoForwardToSource | core/monitor_engine.py:569 | the message's own chat never receives a forward |
| EngineActions.NoReplyTextCountsNothing | core/monitor_engine.py:626-635 | a reply-enabled record without reply text counts no monitor |
| EngineActions.CountedBase | core/monitor_engine.py:689-697 | counting changes only the count and the active flag |
| EngineActions.CountedBaseOutcome | core/monitor_engine.py:689-697 | after counting, either the count rose by one and the limit is not reached, or the monitor is paused with count 0 |
| EngineActions.CountingStaysBelowLimit | core/monitor_engine.py:689-697 | a count below a positive limit stays below it after counting |
| EngineActions.CountOne | core/monitor_engine.py:684-697 | counting one monitor keeps the number of monitors |
| EngineActions.CountAll | core/monitor_engine.py:684-697 | the counting loop keeps the number of monitors |
| EngineActions.CountAllOthers | core/monitor_engine.py:684-697 | monitors outside the matched list are left as they were |
| EngineActions.CountAllListed | core/monitor_engine.py:684-697 | each of a list of distinct matched monitors is counted exactly once |
| EngineDispatch.Fire | core/monitor_engine.py:550-702 | one execution: the delivery is that of the record, and the listed monitors are counted iff the execution did not return early |
| EngineDispatch.Step | core/monitor_engine.py:409-451 | one candidate keeps the number of monitors and the merged-record bookkeeping consistent |
| EngineDispatch.Advance | core/monitor_engine.py:411-448 | evaluating a candidate of a running dispatch keeps the bookkeeping consistent |
| EngineDispatch.RunUpTo | core/monitor_engine.py:409-451 | after any number of candidates the bookkeeping is consistent and no monitor is lost |
| EngineDispatch.StoppedIsFinal | core/monitor_engine.py:416-426 | once a first_match monitor has returned, later candidates change nothing |
| EngineDispatch.FirstMatchEndsDispatch | core/monitor_engine.py:416-426 | a matching first_match monitor executes only its own record and ends the dispatch; merge-mode matches gathered before it are never executed |
| EngineDispatch.AllModeContinues | core/monitor_engine.py:428-437 | a matching `all` monitor executes its own record and the loop goes on with the merged record untouched |
| EngineDispatch.OtherModesMerge | core/monitor_engine.py:439-448 | any mode other than first_match and all behaves as merge: the match joins the merged record and nothing is executed yet |
| EngineDispatch.UnmatchedOnlyEvaluated | core/monitor_engine.py:411-413 | a monitor that does not match only has its state replaced by the evaluated one |
| EngineDispatch.MergedRecordExecutedLast | core/monitor_engine.py:453-455 | after a full loop with merge-mode matches, the last execution is the merged record of exactly those matches, counting them iff it did not return early |
| EngineDispatch.Finish | core/monitor_engine.py:453-455 | adds exactly one delivery, the merged record, iff some merge-mode monitor matched and no `first_match` returned; otherwise nothing changes |
| EngineDispatch.Dispatch | core/monitor_engine.py:391-455 | one state per monitor is kept; at most one delivery per candidate plus the merged one; no candidates changes nothing |
| MonitorEngine.WithoutType | core/monitor_engine.py:338 | the filtered list keeps exactly the monitors that are not instances of the type |
| MonitorEngine.WithoutTypeShorter | core/monitor_engine.py:337-339 | removal by type reports success iff the list held an instance of the type |
| MonitorEngine.KeyIndex | core/monitor_engine.py:343-347 | a position read from a key is always a valid position |
| MonitorEngine.KeyTypeName | core/monitor_engine.py:352 | the class part of a key is a '_'-free prefix of the key |
| MonitorEngine.FirstOfClassFrom | core/monitor_engine.py:353-357 | the found monitor is the first of its class from the start position, and none means no monitor of that class |
| MonitorEngine.KeyTarget | core/monitor_engine.py:341-357 | the monitor a key names is a valid position |
| MonitorEngine.RemoveAt | core/monitor_engine.py:348 | `pop(i)` removes exactly the i-th monitor, keeping the order of the rest |
| MonitorEngine.Removed | core/monitor_engine.py:330-362 | `remove_monitor` reports True iff the list got shorter |
| MonitorEngine.OwnKeyRemovesThatMonitor | core/monitor_engine.py:341-350 | the key `Class_i` given to the i-th monitor removes exactly that monitor |
| MonitorEngine.FirstSeparator | core/monitor_engine.py:352 | the first separator in `x_y` with no '_' in x is right after x |
| MonitorEngine.ClassNameHasNoUnderscore | core/monitor_engine.py:382 | monitor class names contain no '_' |
| MonitorEngine.SplitKey | core/monitor_engine.py:343-352 | a key `name_digits` splits back into its class part and its position part |
| MonitorEngine.KeyParts | core/monitor_engine.py:382 | a monitor's own key splits into its class name and its position |
| MonitorEngine.StaleKeyRemovesFirstOfClass | core/monitor_engine.py:347-357 | a key whose position is out of range removes the first monitor of the class it names |
| MonitorEngine.RemovedTypeIsGone | core/monitor_engine.py:337-339 | after removal by type no instance of it is left, and success means there was one |
| MonitorEngine.ExecuteAndCount | core/monitor_engine.py:550-702 | the execution followed by the counting loop gives exactly the fired outcome |
| MonitorEngine.DispatchOne | core/monitor_engine.py:409-451 | one loop pass matches one step of the dispatch fold and keeps the merged record equal to the merge of the merge-mode matches |
| MonitorEngine.ExecuteMerged | core/monitor_engine.py:453-455 | the after-loop execution matches the fold's finishing step |
| MonitorEngine.ProcessWithModes | core/monitor_engine.py:391-455 | the loop with its early return produces exactly the monitor states and deliveries of the dispatch fold |
| MonitorEngine.MessageOutcome | core/monitor_engine.py:376-389 | one state per monitor is kept; at most one delivery per monitor plus the merged one; no monitors gives no delivery |
| MonitorEngine.Engine.constructor | core/monitor_engine.py:25-37 | a new engine has no monitors, no processed ids and no scheduled messages |
| MonitorEngine.Engine.MonitorsOf | core/monitor_engine.py:364-365 | an unknown account has no monitors |
| MonitorEngine.Engine.RemoveMonitor | core/monitor_engine.py:330-362 | an unknown account reports False and changes nothing; otherwise only that account's list changes, as `Removed` says |
| MonitorEngine.Engine.AddMonitor | core/monitor_engine.py:317-328 | the account's list (created if missing) loses the monitor the key names and gains the new one at the end; other accounts are unchanged |
| MonitorEngine.Engine.ProcessMessage | core/monitor_engine.py:376-389 | an account without monitors changes nothing; otherwise its monitors are replaced by those the priority-ordered dispatch leaves, with its deliveries |
| MonitorEngine.Engine.MarkMessageProcessed | core/monitor_engine.py:870-876 | the id is added; past 10000 ids, 5000 are discarded; the set never exceeds 10000 |
| MonitorEngine.Engine.ProcessMessageEvent | core/monitor_engine.py:816-852 | inactive accounts and already processed events change nothing; otherwise the id is added to the processed set (which drops the chosen set of 5000 ids when it grows past 10000, so it stays bounded) and the message dispatched; an account without monitors gets no delivery |
| MonitorEngine.Engine.AddScheduledMessage | core/monitor_engine.py:912-937 | appends the fresh entry and keeps every entry within its limit |
| MonitorEngine.Engine.RemoveScheduledMessage | core/monitor_engine.py:1143-1168 | drops every entry with the id and reports True iff there was one |
| MonitorEngine.Engine.ExecuteScheduledMessage | core/monitor_engine.py:982-1132 | the entry list and outcome are those of the scheduled-run function, and entries stay within their limits |
| ScheduledJobs.EntryOf | core/monitor_engine.py:912-935 | a new entry copies the job's fields and starts at count 0, active, whatever count the configuration carried |
| ScheduledJobs.ZeroMaxIsNoLimit | core/monitor_engine.py:998-1001 | a `max_executions` of 0 never stops the engine, though the configuration's own limit test calls it reached (models/config.py:176-179) |
| ScheduledJobs.FirstJobFrom | core/monitor_engine.py:985-988 | the found entry is the first with the id from the start position; none means no entry has it |
| ScheduledJobs.FirstJob | core/monitor_engine.py:984-992 | the loop stops at the first entry with the id, and finds none iff no entry has it |
| ScheduledJobs.FireOutcomeOf | core/monitor_engine.py:994-1100 | a job is sent iff it is active, under its truthy limit, has account and target, a ready client, an AI answer when AI is used, a non-blank text, a found target and a successful send; inactive jobs report paused, exhausted ones the limit stop |
| ScheduledJobs.TextToSend | core/monitor_engine.py:1025-1069 | without AI use or an AI answer, the stored message is sent; otherwise the non-empty stripped AI answer |
| ScheduledJobs.AfterSend | core/monitor_engine.py:1102-1126 | after a send the count rises by one and the job is paused iff its truthy limit is now reached; nothing else changes |
| ScheduledJobs.NewEntryWithinLimit | core/monitor_engine.py:927-930 | a freshly added job is within its limit |
| ScheduledJobs.FiringKeepsLimits | core/monitor_engine.py:982-1132 | firing keeps every job within its limit |
| ScheduledJobs.UnsentFiringChangesNothing | core/monitor_engine.py:990-1100 | every firing that ends before sending leaves all entries unchanged |
| ScheduledJobs.LimitStopsBeforeSending | core/monitor_engine.py:998-1007 | a job whose truthy limit is reached is stopped before sending, count unchanged |
| ScheduledJobs.WithoutJob | core/monitor_engine.py:1146 | the filtered list keeps exactly the entries with another id |
| ScheduledJobs.WithoutJobShorter | core/monitor_engine.py:1145-1164 | removal reports True iff some entry had the id |
| ScheduledJobs.RemovalKeepsLimits | core/monitor_engine.py:1146 | removal keeps every job within its limit |
| AccountManager.Without | core/account_manager.py:190 | removing an id keeps exactly the other ids, each once |
| AccountManager.WithoutMatchesKeys | core/account_manager.py:190-195 | after removal the insertion-order list still names exactly the remaining accounts, each once |
| AccountManager.ActiveIn | core/account_manager.py:294-295 | only accounts with monitoring on are listed, never more than registered |
| AccountManager.ActiveInExact | core/account_manager.py:294-295 | an account is listed iff it is registered and its monitoring is on |
| AccountManager.Stored | core/account_manager.py:136-145 | a new id is stored as given; a re-added id keeps its configurations and has monitoring on, the rest as given |
| AccountManager.AccountManager.constructor | core/account_manager.py:23-30 | a new manager has no accounts, no current account and no blocked bots |
| AccountManager.AccountManager.CurrentAccount | core/account_manager.py:206-209 | there is a current account iff a non-empty current id is set, and it is that id's account |
| AccountManager.AccountManager.AddAccount | core/account_manager.py:136-161 | stores the account (keeping a re-added id's configurations and position), and makes it current only when none was |
| AccountManager.AccountManager.RemoveAccount | core/account_manager.py:163-201 | an unknown id reports False and changes nothing; otherwise the entry goes and a removed current account is replaced by the first remaining one, or none |
| AccountManager.AccountManager.SwitchAccount | core/account_manager.py:211-216 | succeeds and switches iff the id is registered |
| AccountManager.AccountManager.SetAccountMonitorStatus | core/account_manager.py:280-287 | False for an unknown id; otherwise only that account's flag changes |
| AccountManager.AccountManager.SetAllMonitorStatus | core/account_manager.py:289-292 | every account's flag becomes the status, nothing else changes |
| AccountManager.AccountManager.GetActiveAccounts | core/account_manager.py:294-295 | returns the accounts with monitoring on, in insertion order |
| AccountManager.AccountManager.AddBlockedBot | core/account_manager.py:297-299 | the id joins the blocked set (idempotent) |
| AccountManager.AccountManager.RemoveBlockedBot | core/account_manager.py:301-306 | True iff the id was blocked; afterwards it is not |
| AccountManager.ProxyKindOf | core/account_manager.py:420-427 | only socks5, socks4 and http are known proxy types |
| AccountManager.CreateAccountConfig | core/account_manager.py:406-440 | keeps phone and API credentials, sets the proxy from the settings, and the session name defaults to `session_` plus the phone without '+' (models/account.py:19-21) |
| AccountManager.ProxyShape | core/account_manager.py:429-433 | a proxy is set iff a known type, a host and a port are given; it carries credentials and remote DNS iff user and password are given too |
| AccountManager.ProxyOf | core/account_manager.py:406-433 | a proxy exists iff its kind is known, the host is set and the port is set and non-zero; host and port are copied; credentials are included iff both user and password are set |
| AccountManager.ReAddKeepsConfigs | core/account_manager.py:139-142 | re-adding keeps the configurations and switches monitoring on, taking the rest from the new account |
| StatusMonitor.UptimeParts | ui/status_monitor.py:116-119 | days, hours below 24 and minutes below 60 that add up to the elapsed time within the dropped seconds |
| StatusMonitor.UptimeUnits | ui/status_monitor.py:117-126 | there are days iff at least a day passed; under a day there are hours iff at least an hour passed; under an hour the minutes are the whole minutes |
| StatusMonitor.UptimeShowsDays | ui/status_monitor.py:121-122 | from one day on, the text begins with the number of days |
| StatusMonitor.UptimeShowsHours | ui/status_monitor.py:123-124 | between an hour and a day, the text begins with the number of hours |
| StatusMonitor.UptimeMinutesOnly | ui/status_monitor.py:125-126 | under an hour, the text is the whole minutes alone |
| StatusMonitor.Uptime | ui/status_monitor.py:116-126 | the text always ends with the minutes unit |
| StatusMonitor.After | ui/status_monitor.py:139 | the filter keeps exactly the timestamps later than the cutoff, in order |
| StatusMonitor.AfterAfter | ui/status_monitor.py:139 | filtering at an earlier cutoff first does not change what a later cutoff keeps |
| StatusMonitor.AfterSnoc | ui/status_monitor.py:131-139 | appending a value keeps the older values' filter and adds the new one iff it is recent |
| StatusMonitor.PushProcessingTime | ui/status_monitor.py:133-136 | the buffer gains the new time at its end, stays within 100 entries and is a suffix of the old buffer plus the time |
| StatusMonitor.PushKeepsMostRecent | ui/status_monitor.py:134-136 | once full, the buffer holds the 100 most recent times, oldest first |
| StatusMonitor.StatsOf | ui/status_monitor.py:226-241 | the total is the number of accounts, and only valid accounts count as active or connected |
| StatusMonitor.GetAccountStats | ui/status_monitor.py:222-241 | the counting loop computes exactly the account statistics |
| StatusMonitor.StatusOf | ui/status_monitor.py:247-256 | running iff accounts exist, some are active, none is invalid and all are connected; unconfigured iff there are none; stopped iff none is active |
| StatusMonitor.InvalidProbeShows | ui/status_monitor.py:238-252 | an invalid account shows as partly invalid whenever some account is active |
| StatusMonitor.InvalidCounted | ui/status_monitor.py:238-239 | an invalid account is counted as invalid |
| StatusMonitor.HealthScore | ui/status_monitor.py:280-306 | the score lies in [20, 100] and is 100 iff CPU and memory are fine, all accounts are connected and the forward rate is not low |
| StatusMonitor.CpuPenalty | ui/status_monitor.py:283-288 | the deduction lies in 0..20; it is 0 iff CPU is at most 60% and 20 iff above 80% |
| StatusMonitor.MemoryPenalty | ui/status_monitor.py:290-295 | the deduction lies in 0..25; it is 0 iff memory is at most 75% and 25 iff above 90% |
| StatusMonitor.PenaltiesMonotone | ui/status_monitor.py:283-295 | a higher reading never costs fewer points |
| StatusMonitor.HealthOf | ui/status_monitor.py:308-315 | excellent iff the score is at least 90; needs attention iff below 50 |
| StatusMonitor.ReportedScoreUnclamped | ui/status_monitor.py:318 | `max(0, score)` never differs from the score |
| StatusMonitor.WorstHealth | ui/status_monitor.py:283-315 | a system failing every check scores 20, needs attention |
| StatusMonitor.GoodForwardRate | ui/status_monitor.py:301-306 | at least four successes per failure is never a low forward rate |
| StatusMonitor.StatusMonitor.constructor | ui/status_monitor.py:65-82 | a new monitor has all counters at 0 and empty buffers |
| StatusMonitor.StatusMonitor.RecordMessageProcessed | ui/status_monitor.py:128-139 | one more message; the time is buffered when given; only the last hour of timestamps is kept and it includes now |
| StatusMonitor.StatusMonitor.MessagesPerMinute | ui/status_monitor.py:150-158 | the per-minute count never exceeds the kept timestamps |
| StatusMonitor.StatusMonitor.RecordForwardResult | ui/status_monitor.py:141-145 | exactly one of the success and failure counters grows by one, as the result says |
| StatusMonitor.StatusMonitor.RecordAiCall | ui/status_monitor.py:147-148 | the AI call counter grows by one |
| StatusMonitor.HourFilterKeepsMinuteCount | ui/status_monitor.py:138-158 | dropping hour-old timestamps never changes the per-minute count |
| StatusMonitor.RecordedMessageCounts | ui/status_monitor.py:128-158 | right after recording a message, the per-minute count includes it |
| Validators.ToInt | utils/validators.py:19 | `int()` keeps an integer and parses a text, failing where Python raises |
| Validators.PhoneShape | utils/validators.py:13-14 | the pattern `^\+\d{10,15}$` holds exactly for '+' followed by 10 to 15 digits |
| Validators.ValidatePhone | utils/validators.py:9-14 | a phone is valid iff, stripped, it is '+' followed by 10 to 15 digits |
| Validators.PhoneIgnoresWhitespace | utils/validators.py:14 | surrounding whitespace never changes the verdict on a non-blank phone |
| Validators.ChannelIdsRejected | utils/validators.py:17-22 | ids of magnitude at least 10^12 (the "-100…" channel form) are rejected, as integers and as text |
| Validators.ChatIdTextAgrees | utils/validators.py:17-22 | an id and its decimal text are judged alike, and valid iff its magnitude is below 10^12 |
| Validators.ValidateChatId | utils/validators.py:17-22 | an integer is valid iff its magnitude is below 10^12; a valid value always parses as an integer |
| Validators.NewlineHashAccepted | utils/validators.py:34 | 31 hex digits and a newline pass the check as written, but are not a 32-digit hash (finding) |
| Validators.ValidateApiCredentialsAsWritten | utils/validators.py:25-34 | accepted credentials have an integer id and a 32-character hash, all hex unless its last character is a newline |
| Validators.ValidateApiCredentials | utils/validators.py:25-34 | the intended check accepts only what the written check accepts, and never a hash with a newline |
| Validators.ApiCredentialsIntended | utils/validators.py:25-34 | the intended check accepts exactly a parseable id and 32 hex digits; it agrees with the written check except on a trailing newline |
| Validators.ValidateCron | utils/validators.py:37-79 | empty input is rejected as empty and only then; a wrong field count is reported with the count; valid needs five fields and the scheduler's acceptance |
| Validators.LeadingWord | utils/validators.py:41-42 | a word followed by nothing or whitespace is the leading word |
| Validators.WordOfPrefix | utils/validators.py:42 | the leading word of a space-free prefix followed by whitespace is that prefix |
| Validators.SplitWsCons | utils/validators.py:42 | `split()` of a word, a space and more text yields the word then the rest's words |
| Validators.SplitWsSingle | utils/validators.py:42 | `split()` of a single word yields that word |
| Validators.SplitWsOfSpaced | utils/validators.py:42 | splitting words joined by single spaces gives the words back |
| Validators.SpacedIsStripped | utils/validators.py:41 | space-joined words carry no surrounding whitespace to strip |
| Validators.SpacedEdges | utils/validators.py:41-42 | space-joined words start and end with a non-space |
| Validators.CronExamples | utils/validators.py:82-91 | one expression per listed example |
| Validators.CronExamplesHaveFiveFields | utils/validators.py:82-91 | every example has five fields, so its verdict is the scheduler's alone |
| Validators.FirstAt | utils/validators.py:98 | an '@' preceded only by local-part characters is the first '@' |
| Validators.LastDot | utils/validators.py:98 | a '.' followed only by letters is the last '.' |
| Validators.EmailMatchIsPattern | utils/validators.py:94-99 | the computed test (first '@', last '.') accepts exactly what the e-mail pattern matches |
| Validators.ValidateEmail | utils/validators.py:94-99 | an address is valid iff it is non-empty and its stripped form matches the pattern |
| ConfigWizard.OnlyReplyConfigMissing | ui/config_wizard.py:24-37 | every step type has a table entry except REPLY_CONFIG, so the table has 12 steps (lines 105-898) |
| ConfigWizard.RuleErrors | ui/config_wizard.py:1368-1395 | one rule adds at most one error, about its own field, none iff the field passes, and "required" on a falsy value reports the field missing |
| ConfigWizard.ErrorsOf | ui/config_wizard.py:1362-1397 | a step reports at most one error per rule |
| ConfigWizard.ErrorsFreeIff | ui/config_wizard.py:1362-1397 | a step accepts its data iff every one of its rules passes |
| ConfigWizard.ValidateStepData | ui/config_wizard.py:1362-1397 | the loop over the rules collects exactly the step's errors, in table order |
| ConfigWizard.RulelessStepsAcceptAll | ui/config_wizard.py:742-791 | the filter and advanced steps have no rules and accept any data |
| ConfigWizard.ShortAiPromptRefused | ui/config_wizard.py:442-446 | an AI prompt of 1 to 9 characters is refused with the minimum length, and nothing else when chats are given |
| ConfigWizard.ErrorsOfPrefix | ui/config_wizard.py:1368 | the errors of the first rules come first among all errors |
| ConfigWizard.RuleErrorsReported | ui/config_wizard.py:1368-1395 | every error one rule reports is among its step's errors |
| ConfigWizard.ButtonOnlyNeedsKeyword | ui/config_wizard.py:542-549 | a plain button monitor without a button keyword is refused, naming the keyword |
| ConfigWizard.TableRanks | ui/config_wizard.py:105-898 | every table step lies at most seven steps along |
| ConfigWizard.StepOf | ui/config_wizard.py:105-898 | every step type but REPLY_CONFIG has a table entry, and a fixed successor always ranks higher |
| ConfigWizard.NextStepAdvances | ui/config_wizard.py:1399-1411 | a step's successor is again in the table and strictly further along: the wizard never loops and never reaches REPLY_CONFIG |
| ConfigWizard.NextIsFixedOrRouted | ui/config_wizard.py:1399-1411 | the next step is the fixed successor or one of the step's routing targets |
| ConfigWizard.NextStep | ui/config_wizard.py:1399-1411 | without routes, or without `monitor_type` and `auto_forward` in the data, the fixed successor; otherwise the fixed successor or a routed target |
| ConfigWizard.FixedNextAdvances | ui/config_wizard.py:105-898 | every fixed successor is in the table and further along |
| ConfigWizard.RoutesAdvance | ui/config_wizard.py:148-154 | every routing target is in the table and further along |
| ConfigWizard.ReviewIsLast | ui/config_wizard.py:876-897 | after the review step the configuration is completed |
| ConfigWizard.MonitorTypeRoutes | ui/config_wizard.py:148-154 | each offered type routes to its own step; any other value completes the wizard, as the type step has no fixed successor |
| ConfigWizard.ForwardOnlyWhenAsked | ui/config_wizard.py:831-834 | the notification step goes to forwarding iff `auto_forward` is True, "on", "true" or "1", else to filtering |
| ConfigWizard.FieldShown | ui/config_wizard.py:1176-1195 | the visibility loop, stopping at the first failing entry, shows the field iff all its conditions hold |
| ConfigWizard.CondShows | ui/config_wizard.py:1183-1195 | a missing key hides a field that expects True and shows one that expects False |
| ConfigWizard.FalseConditionsDiffer | ui/config_wizard.py:1183-1186 | an absent key fails a `required_if` on False (line 1379) but passes a visibility condition on False |
| ConfigWizard.NotInKey | ui/config_wizard.py:981-992 | a class name containing a capital letter the key's class lacks never occurs in the key |
| ConfigWizard.KeyPrefixes | ui/config_wizard.py:981-992 | a key starting with a capital letter matches none of the lower-case prefixes |
| ConfigWizard.KeyHasName | ui/config_wizard.py:981-992 | a key contains its own class name |
| ConfigWizard.KeyFacts | ui/config_wizard.py:981-992 | for each engine key, which of the class names tested before its own it does and does not contain |
| ConfigWizard.EditKeyTypeAsWritten | ui/config_wizard.py:981-1007 | the derived type is one of the six types; the image-button subtype comes only with type "button" and only for a key that neither contains "ButtonMonitor" nor starts with "button_" |
| ConfigWizard.EditKeyType | ui/config_wizard.py:981-1007 | the corrected order: the same six types and subtype shape, and a plain "button" only for a key that is not an image-button key |
| ConfigWizard.ImageKeyHasButton | ui/config_wizard.py:987-991 | every image-button key contains "ButtonMonitor" |
| ConfigWizard.AllKeyPrefixes | ui/config_wizard.py:981-992 | engine keys are `Class_i` and fail every prefix test |
| ConfigWizard.ImageButtonKeyReadAsButton | ui/config_wizard.py:987-991 | as written, an image-button key is read as a plain button monitor, losing the subtype; the corrected order keeps it (finding) |
| ConfigWizard.EditKeyOfEngineKey | ui/config_wizard.py:981-1007 | with the corrected order, every engine key is read back as its monitor's own wizard type |
| ConfigWizard.EditStartStep | ui/config_wizard.py:935-948 | edit mode opens on a table step within the first three; on account setup iff the type is none of the five offered |
| ConfigWizard.EditData | ui/config_wizard.py:973-1113 | an empty configuration gives no data; otherwise the data carries the edit key, the derived type (and subtype) and the account; every key but `monitor_type`, `type` and `execution_count` is copied, a converted key through the conversion |
| ConfigWizard.EditFlowData | ui/config_wizard.py:974-1007 | the flow entries are exactly the edit key, the derived type, the subtype iff there is one, and the account iff the configuration has one |
| ConfigWizard.CopiedEntries | ui/config_wizard.py:1009-1113 | the copy holds exactly the unskipped keys; converted keys map to their converted value, the rest are copied unchanged |
| ConfigWizard.ConvertedNotSkipped | ui/config_wizard.py:1009-1113 | no converted key is skipped |
| ConfigWizard.AccountIdCopied | ui/config_wizard.py:977-978 | the account id is neither skipped nor converted |
| ConfigWizard.ImageButtonEditOpensButtonStep | ui/config_wizard.py:926-1007 | editing an image-button monitor by its engine key opens the plain button step with type "button" and no subtype |
| ConfigWizard.AscendingLength | ui/config_wizard.py:105-898 | a path of table steps moving further along has at most eight steps |
| ConfigWizard.ProgressWithinTotal | ui/config_wizard.py:1148-1152 | the progress counter of a well-formed session lies between 1 and 10, below the total of 12 |
| ConfigWizard.NewSession | ui/config_wizard.py:900-916 | a fresh session is well formed, with nothing completed or collected |
| ConfigWizard.EditSession | ui/config_wizard.py:926-963 | an edit session is well formed, has the first two steps completed, opens on the step for its derived type and carries the converted data |
| ConfigWizard.RefusalKeepsProgress | ui/config_wizard.py:1281-1289 | a refused step changes only the stored errors and reports them |
| ConfigWizard.AcceptedStepMerges | ui/config_wizard.py:1292-1305 | an accepted step is recorded as completed; submitted values win and earlier ones are kept |
| ConfigWizard.Processed | ui/config_wizard.py:1266-1318 | never reports an expired session; invalid iff the step's rules give errors, which are stored; an advance records the step, moves to the next and merges the data; completion removes the session and returns the merged data |
| ConfigWizard.ProcessedKeepsSessionOk | ui/config_wizard.py:1266-1318 | processing a step keeps the session well formed |
| ConfigWizard.ProcessedStoreKeepsSessionsOk | ui/config_wizard.py:1266-1318 | processing a step in a store of well-formed sessions leaves every session of the store well formed |
| ConfigWizard.SteppedBackKeepsSessionOk | ui/config_wizard.py:1339-1341 | going back keeps the session well formed |
| ConfigWizard.BackUndoesAdvance | ui/config_wizard.py:1305-1341 | going back after an accepted step returns to that step with the history it had |
| ConfigWizard.OrderlyAdvance | ui/config_wizard.py:1292-1305 | recording the current step and moving to a later one keeps the completed steps in table order, below the current one |
| ConfigWizard.OrderlyBack | ui/config_wizard.py:1339-1341 | taking back the last completed step keeps the history in table order |
| ConfigWizard.MergeStepData | ui/config_wizard.py:1292-1303 | update plus the put-back of type, account and edit key equals the plain override of the old data by the step data |
| ConfigWizard.Wizard.constructor | ui/config_wizard.py:67-75 | a new wizard has no sessions |
| ConfigWizard.Wizard.StartWizard | ui/config_wizard.py:900-924 | a fresh session replaces any session with the same id |
| ConfigWizard.Wizard.StartWizardEditMode | ui/config_wizard.py:926-971 | the edit session replaces any session with the same id |
| ConfigWizard.Wizard.ProcessStep | ui/config_wizard.py:1266-1326 | an unknown session reports expiry and changes nothing; otherwise the session store and outcome are those of the step function |
| ConfigWizard.Wizard.GoToPreviousStep | ui/config_wizard.py:1328-1360 | succeeds iff the session exists and has a completed step, which becomes current again |
| LegacyMonitor.MatchUser | monitor.py:96-113 | an empty user list admits everyone; a missing sender is refused; options 1, 2 and 3 admit only a listed id, lowercased username or stripped full name |
| LegacyMonitor.CapitalisedUsernameNeverMatches | monitor.py:102-109 | a rule whose only username has an upper-case letter admits nobody under option 2, since only the sender's side is lowercased |
| LegacyMonitor.MatchUserWidens | monitor.py:96-113 | listing more users never refuses a sender a non-empty list admitted |
| LegacyMonitor.IdOptionIgnoresNames | monitor.py:106-107 | under option 1 only the sender's id matters |
| LegacyMonitor.FullNameOfFirstNameOnly | monitor.py:103-111 | a sender with only an unpadded first name is matched under option 3 by that name |
| LegacyMonitor.StripTrailingSpace | monitor.py:105 | the space joining an empty last name is stripped away |
| LegacyMonitor.Ignored | monitor.py:288-294 | a message without sender is never ignored; the account's own messages always are; a stranger that is not a bot never is |
| LegacyMonitor.ForwardActions | monitor.py:502-539 | when no forward fails, the forwards go to listed targets only, never to the source chat, and reach every other target |
| LegacyMonitor.ForwardsTried | monitor.py:502-539 | with the `try` around the loop: a prefix of the fault-free forwards that stops right before the first failing non-source target; a failure is reported iff some non-source target fails; without one, every forward is made |
| LegacyMonitor.RaisedForwardIsFinal | monitor.py:502-519 | once a forward has raised, the later targets change nothing |
| LegacyMonitor.AutoForward | monitor.py:502-519 | the loop, left at the first forward that raises, produces exactly the tried forwards and never forwards to the source chat |
| LegacyMonitor.ForwardAll | monitor.py:304-307 | the all-messages rule forwards to every target in order, the source chat included |
| LegacyMonitor.AllMessagesActions | monitor.py:296-308 | a refused sender gets nothing; otherwise at most the mail and one forward per listed target, the mail exactly when the rule asks for it |
| LegacyMonitor.FirstHandling | monitor.py:310-376 | the found rule is the first handling one from the start position, and none means no rule handles the message |
| LegacyMonitor.Hit | monitor.py:284-354 | exact rules hit iff the lowercased, stripped text equals the keyword; partial iff it contains it; regex rules hit as the search on the original text does; other match types never hit |
| LegacyMonitor.ExactHitIsPartialHit | monitor.py:316-354 | a text that hits a keyword exactly also hits it as a partial rule, with the same matched text |
| LegacyMonitor.ScanKeywordRules | monitor.py:310-376 | the keyword loop with its `break` and its exceptions stops exactly at the first rule that handles the message or raises |
| LegacyMonitor.FirstStop | monitor.py:310-376 | the first rule where the loop stops; none iff no rule stops; where it stops without raising, it stops at the first handling rule |
| LegacyMonitor.KeywordOrFile | monitor.py:310-397 | never forwards to the source chat; ending the handler means no action; an action with no handling keyword rule needs a file |
| LegacyMonitor.KeywordActions | monitor.py:317-375 | when no forward fails, a handling keyword rule never forwards to the source chat and sends the regex match only for a regex rule with a send target, to that target |
| LegacyMonitor.KeywordTail | monitor.py:325-373 | after the forwards come only the log line, first and exactly when a log file is set, and the regex send, present for a regex rule with a send target |
| LegacyMonitor.KeywordActionsRun | monitor.py:317-375 | with failing forwards, a subsequence of the rule's actions that still holds the log line and the regex send; all of them when no target of the rule fails; never a forward to the source chat |
| LegacyMonitor.FilePhase | monitor.py:377-397 | a refusing file rule returns with no action; no action forwards to the source chat; any action needs a file name whose extension has a rule |
| LegacyMonitor.FirstPhase | monitor.py:296-397 | ending the handler happens only through a refusing file rule outside all-messages chats, with no action; outside those chats nothing is forwarded to the source chat |
| LegacyMonitor.FirstInRow | monitor.py:403-404 | the first button of a row from a column whose lowercased label contains the keyword; none means no such button |
| LegacyMonitor.FirstButton | monitor.py:402-407 | the first matching button in row-major order from a row; none means no button matches |
| LegacyMonitor.ButtonClick | monitor.py:398-407 | a click is on an existing button matching some applying rule's keyword; no click means no applying rule's keyword occurs in any label |
| LegacyMonitor.StrippedRows | monitor.py:468 | every label stripped, grid shape kept |
| LegacyMonitor.FirstEqualInRow | monitor.py:467-471 | the first column from `c` whose stripped label equals the answer; none means there is none |
| LegacyMonitor.ImageClicks | monitor.py:466-471 | every click is on a button whose stripped label is the answer, at most one per row, rows in order |
| LegacyMonitor.ImageClicksCoverRows | monitor.py:466-471 | every row showing the answer gets a click at or before its first such button |
| LegacyMonitor.ImagePhase | monitor.py:408-471 | each click is on an existing button whose stripped label is the AI's stripped answer, and only for an image-button chat with an image |
| LegacyMonitor.ButtonPhases | monitor.py:398-471 | no buttons, no click; every action is a click on an existing button; more than one click only from the image rule, when no keyword click applied |
| LegacyMonitor.Respond | monitor.py:283-471 | ignored messages, the account's own and those of blocked bots get no action; outside all-messages chats nothing is forwarded back to the source |
| LegacyMonitor.ForwardUntilFailure | monitor.py:304-308 | the forwards before the first failing target, in order; a failure is reported iff some target fails; without one, every target is forwarded |
| LegacyMonitor.ForwardEach | monitor.py:304-308 | the forward loop stops at the first failing target with exactly the forwards before it |
| LegacyMonitor.AllMessagesRun | monitor.py:296-308 | the rule's actions in full, or, when `match_user` or a forward raises, a prefix of them that ends the handler; in full when nothing raises |
| LegacyMonitor.FilePhaseRun | monitor.py:377-397 | nothing and the end of the handler (a refusing or raising `match_user`), or a prefix of the file rule's actions that does not end the handler, cut where a forward fails; the handler ends exactly as the fault-free phase says without a channel sender, and the actions are all the phase's when no forward fails either |
| LegacyMonitor.KeywordOrFileRun | monitor.py:310-397 | nothing and the end of the handler, or a subsequence of the keyword-or-file actions that does not end it; with no failing forward, exactly the keyword-or-file outcome unless a rule raises |
| LegacyMonitor.FirstPhaseRun | monitor.py:296-397 | a subsequence of the text-and-file actions that ends the handler only where the fault-free phase does or something raised; in an all-messages chat, or with no failing forward, the outcome itself or a prefix of it that ends the handler |
| LegacyMonitor.ButtonClickRun | monitor.py:398-407 | the keyword click, or no click when a rule's `match_user` raises before an applying rule clicked; raising happens exactly then |
| LegacyMonitor.ButtonPhasesRun | monitor.py:398-471 | the button phases' clicks, or none when a rule raises; never raises without a channel sender |
| LegacyMonitor.Outcome | monitor.py:283-478 | what the handler does is a subsequence of what `Respond` lists; in an all-messages chat, or when no keyword or file forward fails, it is a prefix: an exception cuts it short and nothing follows |
| LegacyMonitor.KeywordRuleOutcome | monitor.py:310-478 | when the keyword loop stops at a rule without raising, the handler runs that rule's actions and then the button phases, and `Respond` lists the fault-free ones |
| LegacyMonitor.FirstPartialRuleStops | monitor.py:335-351 | a first partial rule of the chat with no user list, whose keyword the stripped lowercased text contains, stops the loop without raising |
| LegacyMonitor.FailedKeywordForwardSkipsLaterTargets | monitor.py:340-341 | a keyword rule whose first of two targets fails forwards to neither, though `Respond` lists the second; with a log file the log line still follows, so the actions are no prefix of `Respond` |
| LegacyMonitor.KeywordRunSkipsBoth | monitor.py:502-519 | the rule's run leaves out both forwards and nothing else, the log line first after the mail |
| LegacyMonitor.TwoTargetsFirstFails | monitor.py:512-516 | two targets, the first of which fails: neither is forwarded |
| LegacyMonitor.FaultFreeOutcome | monitor.py:283-478 | with no channel sender, no bad pattern and no failing forward, the handler does everything `Respond` lists |
| LegacyMonitor.InvalidPatternSilences | monitor.py:310-354 | a first keyword rule for the chat whose pattern does not compile ends the handler with no action at all |
| LegacyMonitor.FailedForwardEndsHandler | monitor.py:304-308 | a failing forward ends the handler: only the mail and the forwards before it happen, and no button is clicked |
| LegacyMonitor.AllMessagesRunFails | monitor.py:296-308 | with a user list that admits every sender, a failing forward target makes the all-messages loop raise after at most the mail and the forwards listed before it |
| LegacyMonitor.ChannelSenderRaisesAtUserList | monitor.py:96-112 | a channel posting in a chat whose first keyword rule lists users ends the handler with no action |
| LegacyMonitor.Handler.constructor | monitor.py:279-281 | a new handler has seen no message and blocks no bot |
| LegacyMonitor.Handler.BlockBot | monitor.py:637-643 | a stripped all-digit id is added to the blocked bots; anything else changes nothing |
| LegacyMonitor.Handler.UnblockBot | monitor.py:644-654 | a stripped all-digit id is removed from the blocked bots; anything else changes nothing |
| LegacyMonitor.Handler.HandleMessage | monitor.py:257-478 | with monitoring stopped or an unknown account, nothing is recorded and nothing done; a (chat, message) pair seen before does nothing; otherwise it is recorded first, and the actions are `Outcome`: those of the phases, with failed keyword or file forwards left out and cut short by the first exception; the blocked bots are untouched |
| LegacyMonitor.AllMessagesTakesPrecedence | monitor.py:297-309 | a chat with an all-messages rule is handled by it alone, then the button phases; no log line or regex send follows |
| LegacyMonitor.FirstKeywordWins | monitor.py:310-376 | the keyword rules stop at the first that handles the message and the file rules do not run |
| LegacyMonitor.FilesOnlyWhenUnhandled | monitor.py:377-397 | when no keyword rule handles the message, the file rules decide |
| LegacyMonitor.NoForwardToSourceOutsideAllMessages | monitor.py:297-407 | outside all-messages chats the handler never forwards a message back to its own chat |
| LegacyMonitor.AllMessagesForwardsToSource | monitor.py:304-307 | the all-messages rule forwards to its source chat when that chat is among its targets |
| LegacyMonitor.FileRefusalSkipsButtons | monitor.py:388-392 | a file rule for this chat that refuses the sender ends the handler: no button is clicked |
| LegacyMonitor.ButtonClickEndsHandler | monitor.py:398-407 | a button-keyword click is the handler's last action and its only click |
| LegacyMonitor.DeliveredTwice | monitor.py:279-281 | the second delivery of the same message does nothing |
| LegacyMonitor.AddExt | monitor.py:844 | the corrected normalisation: the stripped entry, with a leading dot added only when it has none |
| LegacyMonitor.AddExtensionsAsWritten | monitor.py:843-844 | as written: at least one extension, each non-empty, lowercase and starting with a dot |
| LegacyMonitor.AddExtensions | monitor.py:843-844 | the corrected command (each entry stripped before the dot test): at least one extension, each non-empty, lowercase and starting with a dot |
| LegacyMonitor.AddExtensionsDifferByOneDot | monitor.py:843-844 | the written command stores as many extensions as the corrected one, each equal to it or with one extra dot |
| LegacyMonitor.AddExtAsWritten | monitor.py:844 | as written: an entry starting with a dot is stripped, any other gets a dot before its stripped form, so the result always starts with a dot |
| LegacyMonitor.SplitOnKeepsLower | monitor.py:843-844 | the comma-separated pieces of a lowercase input are lowercase |
| LegacyMonitor.LowerEntry | monitor.py:844 | a lowercase entry normalises to a lowercase extension |
| LegacyMonitor.AddExtIdempotent | monitor.py:844 | the corrected normalisation is idempotent |
| LegacyMonitor.SpacedDotEntryGetsTwoDots | monitor.py:844 | as written, " .docx" becomes "..docx" because the dot test runs before the strip; the corrected form gives ".docx" (finding) |
| LegacyMonitor.StripSpaceThenWord | monitor.py:844 | one leading space before an unpadded string is all that stripping removes |
| LegacyMonitor.WithExtensions | monitor.py:865-873 | the rule is stored under each normalised extension; other extensions keep their rules |
| WebRules.IntOf | ui/web_app.py:1247 | `int()` keeps integers and raises (None) on a missing value |
| WebRules.CreateLimit | ui/web_app.py:1242-1249 | on create, "" and None mean no limit, and any kept limit is the value `int()` reads |
| WebRules.UpdateLimit | ui/web_app.py:1372-1381 | on update, a kept limit is always positive |
| WebRules.UpdateIsPositiveCreate | ui/web_app.py:1372-1381 | the update rule is the create rule with non-positive limits dropped |
| WebRules.ZeroLimitOnlyKeptOnCreate | ui/web_app.py:1242-1249 | a limit of 0 (or False) survives creation but not an update, and the engine treats it as no limit |
| WebRules.LimitTextRoundTrip | ui/web_app.py:1242-1249 | a limit sent as its decimal text reads back as that number, on create and, when positive, on update (lines 1372-1381) |
| WebRules.ParseInterval | ui/web_app.py:1257-1270 | an accepted interval has exactly two fields, hours at least 0, minutes 0 to 59, and is not zero |
| WebRules.IntervalOfParts | ui/web_app.py:1259-1268 | accepted pieces are two, with hours at least 0, minutes 0 to 59 and not both zero |
| WebRules.CheckSchedule | ui/web_app.py:1251-1275 | an empty schedule is refused; an accepted interval schedule parses; an accepted cron schedule passes the cron validation |
| WebRules.SplitWsOfWordThen | ui/web_app.py:1258 | a space-free word at the front of a string is its first piece |
| WebRules.SplitWsSkipsSpace | ui/web_app.py:1258 | leading whitespace does not change the pieces |
| WebRules.SplitTwoWords | ui/web_app.py:1258 | two space-free words joined by a space split back into those words |
| WebRules.DigitsHaveNoSpace | ui/web_app.py:1258-1264 | a number's decimal text has no space |
| WebRules.ValidPartsAccepted | ui/web_app.py:1262-1268 | the texts of a valid interval pass the check unchanged |
| WebRules.IntervalRoundTrip | ui/web_app.py:1257-1270 | every valid interval written as "hours minutes" is accepted and read back unchanged |
| WebRules.ToggledEntry | ui/web_app.py:1448-1455 | `active` is set as requested, and resuming a job at its truthy limit restarts its count from 0; nothing else changes |
| WebRules.Toggled | ui/web_app.py:1446-1448 | toggling keeps the number of entries |
| WebRules.ResumeAfterLimitRunsAgain | ui/web_app.py:1452-1455 | a resumed job that its positive limit had stopped can run again |
| WebRules.ToggleKeepsLimits | ui/web_app.py:1446-1455 | pausing and resuming keep every job within its limit |
| WebRules.ToggleScheduled | ui/web_app.py:1437-1505 | finds a job iff one has the id, toggles only the first such entry, and keeps every job within its limit |
| WebRules.ConvertBool | ui/web_app.py:1802-1805 | non-strings convert by their truthiness |
| WebRules.ConvertBoolIgnoresCase | ui/web_app.py:1802-1804 | case does not matter to a string's conversion |
| WebRules.StringsAreNotTruthiness | ui/web_app.py:1802-1805 | "off" is truthy yet converts to false; "on" converts to true but does not request a full fetch (line 948) |
| WebRules.FetchAllRequested | ui/web_app.py:948 | a requested full fetch is also a true flag for the configuration reader; "on" is true there but does not request it |
| WebRules.KindOf | ui/web_app.py:1006-1072 | a dialog is skipped iff it is no channel, group or user; otherwise bot wins over channel, channel over group, group over user |
| WebRules.NoUnknownDialogs | ui/web_app.py:1036-1072 | the "unknown" type is never produced |
| WebRules.BotWinsOverChannel | ui/web_app.py:1063-1066 | a bot flagged as channel and group is listed as a bot |
| WebRules.IsBot | ui/web_app.py:1013-1030 | only users are bots; a bot flag, or a verified user with a username, makes a bot; a user with no username and no bot flag is not one |
| WebRules.Take | ui/web_app.py:1043 | `s[:n]` has at most n characters and is all of a short string |
| WebRules.TitleOf | ui/web_app.py:1042-1061 | the shown name has at most 100 characters and is the cut title when there is one |
| WebRules.LinkOf | ui/web_app.py:1101-1109 | a public username gives its t.me address; the link is empty iff there is no username and the dialog is a channel |
| WebRules.InfoOf | ui/web_app.py:1036-1124 | a listed entry has its dialog's type, never "unknown", the shown name, and contains the search text case-insensitively |
| WebRules.Listed | ui/web_app.py:1002-1128 | the list has no more entries than dialogs, none of type "unknown", each matching the search |
| WebRules.ListChannels | ui/web_app.py:1002-1128 | the loop over the dialogs builds exactly the listed entries |
| WebRules.Gather | ui/web_app.py:979-995 | one pass takes dialogs not seen before, in order, with distinct ids and at most the bound |
| WebRules.Collected | ui/web_app.py:960-995 | the two passes give distinct ids and at most 250 dialogs unless fetching all |
| WebRules.IdsSnoc | ui/web_app.py:982 | taking one more dialog adds its id to the seen ids |
| WebRules.GatherStep | ui/web_app.py:979-985 | a seen id is skipped; a new one is taken, recorded and counted |
| WebRules.GatherLoop | ui/web_app.py:979-995 | the pass loop takes exactly the gathered dialogs and records their ids |
| WebRules.CollectDialogs | ui/web_app.py:960-995 | both passes give exactly the collected dialogs |
| WebRules.SliceBound | ui/web_app.py:1137 | a slice bound lands within the sequence and is unchanged when already inside |
| WebRules.PySlice | ui/web_app.py:1137 | a slice is never longer than the sequence |
| WebRules.Paginate | ui/web_app.py:1130-1169 | paging fails iff it is not a full fetch and the limit is 0; the total is the number of entries; a full fetch returns everything |
| WebRules.SliceWindow | ui/web_app.py:1135-1137 | a slice from a non-negative start is empty past the end, else the window of at most `limit` items |
| WebRules.PageWindow | ui/web_app.py:1135-1137 | page p of positive limit l is the window of at most l items starting at (p-1)·l |
| WebRules.CeilPages | ui/web_app.py:1164 | ⌈n/l⌉ counts exactly the pages whose first index lies before n |
| WebRules.PageNonEmptyIff | ui/web_app.py:1135-1164 | a positive page has entries iff it is at most the page count |
| WebRules.ItemOnItsPage | ui/web_app.py:1135-1137 | entry k is on page ⌊k/l⌋+1 at position k mod l |
| WebRules.PageZeroIsEmpty | ui/web_app.py:1135-1137 | page 0 is always empty |

## Left out

- Telegram client I/O: sending, forwarding, fetching, downloading, clicking, `get_entity`, deleting and the enhanced forward service. Each call's outcome is an input. In the `monitor.py` handler, whether a regex compiles and whether a forward raises are inputs too (`LegacyMonitor.Faults`); the other calls that can raise there are listed under `LegacyMonitor.Handler.HandleMessage` below.
- `FileMonitor._save_file` and the download path: the save is modelled only as an outcome and a size check.
- OpenAI calls, with their retries and timeouts: the answer is an `Option<string>` input. Of the AI prompt text, the model states its format choice, its first line and its last line.
- SMTP e-mail sending and its message body: whether a notification is requested is modelled, not its content.
- `asyncio.sleep` and `asyncio.create_task`: the reply delay is modelled as a value in its range, not as time passing.
- Concurrency: the singletons' locking, the wizard's session-cleanup thread, and event-handler registration.
- Aliasing of monitor configuration objects: Python shares one config object between a monitor and the engine. The model keeps configurations as values inside the engine's map, so an update made through one reference is not seen through another.
- Python `re` semantics: regex matching is an input function. The character classes of `validate_phone`, `validate_email` and the API-hash check are written out over ASCII.
- Unicode case folding and whitespace: `lower()` and `strip()` act on ASCII letters and ASCII whitespace only.
- `int()` on text: after stripping surrounding ASCII whitespace, only an optional sign followed by ASCII digits is accepted. Underscores and non-ASCII digits are not modelled.
- Python set iteration order when processed ids are evicted: which 5000 ids go is an input, and only the size bound is proved.
- APScheduler: triggers, crontab parsing, and `pause_job`/`remove_job` calls. The scheduler's verdict on a cron text is a boolean input. Only the five-field check and the interval rule are modelled.
- `toggle_scheduled_message` re-registering the job with the scheduler: only the entry update is modelled.
- JSON persistence: saving and loading monitors, scheduled messages and accounts, and the web import/export handlers.
- `MonitorEngine.get_statistics`: it only reports sizes and is not modelled.
- The wizard's dynamic `account_id` options: building them lists the account registry for display only.
- `get_performance_metrics`, psutil readings and host information: CPU and memory percentages are real-number inputs to the health score.
- The HTTP layer of the web application: routing, status codes, templates, WebSocket. Only the pure rules inside the handlers are modelled.
- The other fields an update handler copies, and the web handlers' error messages.
- The command-line prompts of `monitor.py`, except the `addext`, `blockbot` and `unblockbot` state changes.
- LegacyMonitor.Handler.HandleMessage: of the calls that can raise into the handler's catch-all, three are modelled (a pattern that does not compile, a failed forward of the all-messages loop, `match_user` on a channel sender, whose `first_name` it reads). A failed keyword or file forward is modelled as well; it ends only its own forwarding loop (monitor.py:502-539). The mail and the regex send catch their own errors. The keyword button click (monitor.py:405) and the image download and rename (monitor.py:410-417) can raise in the source, but the model takes them to succeed.
- AiMonitor.KeptByCleanup: Python's `\w` is approximated by ASCII letters, digits and '_' plus every non-ASCII character. Non-ASCII punctuation, such as the full-width comma '，', is kept where Python removes it, so a reply like "匹，配" does not contain "匹配" after the cleanup in the model and loses its positive verdict.
- ConfigWizard.EditData: the conversion of the scalar keys (`str()`, `bool()`, `float()`, `int()`, enum values; ui/config_wizard.py:1040-1113) is a `convert` input applied to exactly those keys. The joining of list-valued keys into text, and the extra flags the loop sets beside them (`user_ids`, `filter_users`, `filter_specific_ids`, `save_files`, `log_to_file`, `reply_type`) and after it (`filter_mode`), are not modelled: list values are copied as they are.
- Logging, the environment-variable loader, the `__init__` re-exports and the launcher: plumbing.

## Findings

| source | as written | input that shows it | evidently intended | confidence | as-written member | corrected member |
|---|---|---|---|---|---|---|
| monitors/base_monitor.py:168-177 | the bot-id branch reads `getattr(sender, 'bot', False)`, but `MessageSender` has no `bot` attribute (its flag is `is_bot`), so the branch never admits anyone | a sender with `is_bot` true whose id is in `bot_ids` | admit a bot whose id is listed in `bot_ids` | high (not executed) | BaseMonitor.BotIdsNeverAdmitAsWritten | BaseMonitor.BotIdsAdmitListedBots |
| monitors/image_button_monitor.py:279 | `hasattr(button, 'data')` is true for every `MessageButton`, so every button is reported as `inline` | a keyboard button whose `data` is None | `inline` only for a button carrying callback data | medium (not executed) | ImageButtonMonitor.KeyboardButtonListedInline | ImageButtonMonitor.Kind |
| utils/validators.py:34 | `re.match('^[a-fA-F0-9]+$', h)` with `len(h) == 32`: `$` also matches before a final newline | 31 hex digits followed by "\n" | exactly 32 hex digits | high (not executed) | Validators.NewlineHashAccepted | Validators.ApiCredentialsIntended |
| ui/config_wizard.py:987-991 | the key is tested for 'ButtonMonitor' before 'ImageButtonMonitor', and every image-button key contains 'ButtonMonitor' | the edit key "ImageButtonMonitor_0" | read as an image-button monitor | high (not executed) | ConfigWizard.ImageButtonKeyReadAsButton | ConfigWizard.EditKeyOfEngineKey |
| monitor.py:844 | `addext` tests the leading '.' before stripping each comma-separated entry | the input "pdf, .docx" gives ".pdf" and "..docx" | ".pdf" and ".docx" | medium (not executed) | LegacyMonitor.SpacedDotEntryGetsTwoDots | LegacyMonitor.AddExt |
