# Chat simulator admin console — a Dafny model

This project models the state logic of a chat-simulator plugin. The plugin
plays a scripted conversation between bots to visitors, and an admin console
manages it. Four React components hold that logic:

- **Conversation editor.** It maintains the ordered list of bot messages. Messages are added from a form, edited, deleted, moved up or down, imported from JSON and cleared. A message may carry a reply snapshot: the author, a 50-character excerpt and the id of the message it answers. The editor shows the summed playback delay (`conversation_editor.dfy`, module `Conversation`, class `Editor`).
- **Admin panel.** It keeps the bot registry and its slugs, the inbox of visitor messages awaiting a reply, the Telegram settings, the design settings with five colour presets, and the dashboard counters (`admin_panel.dfy`, module `Admin`, class `Panel`).
- **Public chat page.** It covers:
  - the reveal of the scripted bot messages one by one;
  - the visitor's own messages and the name prompt;
  - quoting;
  - collapsing long quotes at 100 characters.

  It is in `chat_view.dfy`, module `Chat`, class `ChatPage`.
- **Privacy console.** It holds visitor sessions, their private messages, the Telegram log of notifications and admin replies, and the counters. The counters are recomputed whenever sessions or messages change (`privacy_system.dfy`, module `Privacy`, class `Console`).

`common.dfy` (module `Common`) gives the JavaScript operations the handlers use a precise meaning:
- `trim` and `!s.trim()`;
- `includes`;
- `toLowerCase`;
- `replace(/\s+/g, '_')`;
- `substring(0, n) + '...'`;
- `filter`, `map` with a condition, `find`/`findIndex` and `splice`.

Each component is a class whose fields are its React state. Each handler is a method with a `modifies` clause. The method's `ensures` gives the new state as a pure function of the old state, and lemmas prove that function's properties. The following become method parameters:
- the clock readings (`Date.now()`, `toLocaleTimeString`, `toISOString`);
- the random picks;
- the answer to `confirm`;
- the result of `JSON.parse`.

## Model

| member | source | states |
|---|---|---|
| Common.BlankIffAllSpace | src/components/AdminPanel.tsx:149 | `!s.trim()` holds exactly when every character of `s` is JavaScript whitespace |
| Common.TrimStart | src/components/AdminPanel.tsx:149 | the first half of `trim`: a suffix of the text, everything cut off is whitespace, and what is left does not start with whitespace |
| Common.TrimEnd | src/components/AdminPanel.tsx:149 | the second half of `trim`: a prefix of the text, everything cut off is whitespace, and what is left does not end with whitespace |
| Common.Trim | src/components/AdminPanel.tsx:149 | defines `trim` as `TrimEnd` after `TrimStart`; its meaning for blankness is stated by `BlankIffAllSpace` |
| Common.IsBlank | src/components/AdminPanel.tsx:149 | defines `!s.trim()` (also src/components/AdminPanel.tsx:199, src/pages/Index.tsx:126 and :156) as an empty trim; characterised by `BlankIffAllSpace` |
| Common.Shorten | src/components/ConversationEditor.tsx:158-159 | the excerpt is the text when it has at most `n` characters, otherwise its first `n` characters followed by `...`; never longer than `n + 3` |
| Common.ShortenIdempotent | src/components/ConversationEditor.tsx:158-159 | shortening an excerpt again changes nothing |
| Common.ShortenFitsWider | src/pages/Index.tsx:196-198 | an excerpt cut at `n` is never cut again by a limit of `n + 3` or more |
| Common.ContainsIff | src/components/PrivacySystem.tsx:275-276 | `includes` holds exactly when the pattern occurs at some position |
| Common.Contains | src/components/PrivacySystem.tsx:275-276 | defines `includes` as "a prefix of the text or of one of its tails"; characterised by `ContainsIff` |
| Common.OccurrenceOfContains | src/components/PrivacySystem.tsx:275-276 | when `includes` holds, it names a position where the pattern occurs |
| Common.ContainsOfOccurrence | src/components/PrivacySystem.tsx:275-276 | a pattern occurring at some position makes `includes` hold |
| Common.Slug | src/components/AdminPanel.tsx:153 | the lower-cased, whitespace-collapsed name is no longer than the display name and holds no whitespace |
| Common.CollapseIsSplitJoin | src/components/AdminPanel.tsx:153 | replacing every whitespace run by `_` equals splitting at whitespace runs and joining with `_` |
| Common.SlugIsJoinedWords | src/components/AdminPanel.tsx:153 | the bot's internal name is the words of the lower-cased display name joined by `_` |
| Common.CollapseIdempotent | src/components/AdminPanel.tsx:153 | a slug collapses to itself |
| Common.CollapseKeepsSpaceFree | src/components/AdminPanel.tsx:153 | text without whitespace is left as it is by the whitespace-run replacement |
| Common.CollapseSpaceRuns | src/components/AdminPanel.tsx:153 | `replace(/\s+/g, '_')` never lengthens the text and leaves no whitespace in it; characterised by `CollapseIsSplitJoin` |
| Common.LowerChar | src/components/AdminPanel.tsx:153 | lower-casing maps whitespace to whitespace and nothing else to it |
| Common.Lower | src/components/AdminPanel.tsx:153 | `toLowerCase` keeps the length and lowers every character by `LowerChar` |
| Common.Filter | src/components/ConversationEditor.tsx:178 | `filter` never lengthens the list, every element it keeps passes and comes from the list, and every element that passes is kept; order is stated by `FilterIsSubsequence` and copies by `FilterMultiplicity` |
| Common.FilterIsSubsequence | src/components/ConversationEditor.tsx:178 | what `filter` keeps is a subsequence of the list |
| Common.FilterMultiplicity | src/components/ConversationEditor.tsx:178 | `filter` keeps every copy of an element that passes and none of one that fails |
| Common.FilterConcat | src/components/PrivacySystem.tsx:266-268 | filtering distributes over concatenation |
| Common.MapIf | src/components/PrivacySystem.tsx:254-256 | the conditional `map` replaces exactly the selected elements and keeps the length |
| Common.FirstIndex | src/components/ConversationEditor.tsx:239-240 | `findIndex` gives the first matching position, and no position when nothing matches |
| Common.CountIf | src/components/PrivacySystem.tsx:152-155 | `filter(p).length` is at most the length and is the length of the filtered list |
| Common.SpliceNeighbourIsSwap | src/components/ConversationEditor.tsx:245-247 | splicing an element out and back in at a neighbouring index swaps the two |
| Common.RemoveAt | src/components/ConversationEditor.tsx:246 | `splice(i, 1)` shortens the list by one: elements before `i` stay, those after it move down one place |
| Common.InsertAt | src/components/ConversationEditor.tsx:247 | `splice(j, 0, x)` lengthens the list by one with `x` at `j`: elements before `j` stay, those from `j` move up one place |
| Conversation.IndexOfId | src/components/ConversationEditor.tsx:239-240 | the first position with that id, or none when no message has it |
| Conversation.FindBot | src/components/ConversationEditor.tsx:143-144 | the first bot with that display name, or none when no bot has it |
| Conversation.ReplySnapshot | src/components/ConversationEditor.tsx:146-161 | no snapshot exactly when no reply id is set or no message has it; otherwise the author, a 50-character excerpt and the id of the first message with that id, as `find` picks it |
| Conversation.NewMessage | src/components/ConversationEditor.tsx:140-162 | no message exactly when the author or text is empty or no bot has that name; otherwise id `msg_`+stamp, the colour of the first bot with that name (as `find` picks it), the clock when the time is empty, and the reply snapshot |
| Conversation.WithoutId | src/components/ConversationEditor.tsx:177-180 | deleting keeps exactly the messages with another id, every copy of each, in order |
| Conversation.DraftOf | src/components/ConversationEditor.tsx:183-196 | the form holds the message's author, text, time, delay and the id it replies to, or an empty id |
| Conversation.ApplyEdit | src/components/ConversationEditor.tsx:199-224 | the messages with the edited id take the form, the bot's colour and a fresh snapshot; ids, length and all other messages are unchanged |
| Conversation.Move | src/components/ConversationEditor.tsx:238-251 | the same messages, permuted; the first message with the id and its neighbour in that direction trade places and nothing else changes, and nothing changes when it is missing or at that end |
| Conversation.Neighbour | src/components/ConversationEditor.tsx:242 | defines the target index, one place up or down |
| Conversation.MoveAt | src/components/ConversationEditor.tsx:238-251 | when the message is found at `i` and its neighbour `j` is inside the list, the result is the list with positions `i` and `j` swapped |
| Conversation.DurationConcat | src/components/ConversationEditor.tsx:363 | the total delay of a concatenation is the sum of the totals |
| Conversation.TotalDuration | src/components/ConversationEditor.tsx:363 | defines the `reduce` that sums the delays; its properties are `DurationConcat`, `DurationOfAppend` and `DurationNonNegative` |
| Conversation.DurationOfAppend | src/components/ConversationEditor.tsx:164 | adding a message lengthens the playback by exactly its delay |
| Conversation.DurationSwapNeighbours | src/components/ConversationEditor.tsx:363 | swapping neighbours keeps the total delay |
| Conversation.MovePreservesDuration | src/components/ConversationEditor.tsx:238-251 | moving a message never changes the total delay |
| Conversation.AddThenDeleteRestores | src/components/ConversationEditor.tsx:164-180 | appending a message with a new id and deleting that id restores the list |
| Conversation.MoveUpThenDown | src/components/ConversationEditor.tsx:238-251 | moving a message up and then down restores the list |
| Conversation.MoveDownThenUp | src/components/ConversationEditor.tsx:238-251 | moving a message down and then up restores the list when its lower neighbour has another id |
| Conversation.EditUnchangedIsIdentity | src/components/ConversationEditor.tsx:183-224 | opening a message with a unique id whose colour is its bot's current colour and whose reply snapshot is current, and saving it unchanged, leaves the list as it was |
| Conversation.DurationNonNegative | src/components/ConversationEditor.tsx:363 | with no negative delay the total duration is not negative |
| Conversation.Editor.constructor | src/components/ConversationEditor.tsx:97-108 | the editor starts from the given lists with an empty form and closed dialogs |
| Conversation.Editor.AddMessage | src/components/ConversationEditor.tsx:140-174 | appends the new message, resets the form and closes it; when a guard fails, nothing changes |
| Conversation.Editor.DeleteMessage | src/components/ConversationEditor.tsx:177-180 | the list loses exactly the messages with that id |
| Conversation.Editor.EditMessage | src/components/ConversationEditor.tsx:183-196 | a found message is loaded into the form and marked as being edited; otherwise nothing changes |
| Conversation.Editor.SaveEdit | src/components/ConversationEditor.tsx:199-235 | saves exactly when an edit is open and the bot exists, then resets the form; otherwise nothing changes |
| Conversation.Editor.MoveMessage | src/components/ConversationEditor.tsx:238-251 | the list becomes `Move` of the old list; reports whether anything moved |
| Conversation.Editor.ImportFromJson | src/components/ConversationEditor.tsx:274-288 | a `conversation` array replaces the list and closes the dialog; a bad format or parse error raises its alert and changes nothing |
| Conversation.Editor.ClearConversation | src/components/ConversationEditor.tsx:291-296 | the list is emptied exactly when the dialog is confirmed |
| Conversation.Editor.Duration | src/components/ConversationEditor.tsx:363 | the duration shown is the sum of all delays (`TotalDuration`), 0 for an empty list and not negative when no delay is |
| Admin.CreateBot | src/components/AdminPanel.tsx:151-160 | the new bot is active with no messages and the "just created" label, id `bot_`+stamp, the form's fields, and a slug name without whitespace |
| Admin.WithoutBot | src/components/AdminPanel.tsx:169-172 | deleting keeps exactly the bots with another id, every copy of each, in order |
| Admin.ToggleActive | src/components/AdminPanel.tsx:175-180 | only `isActive` changes, and it flips exactly on the bots with that id |
| Admin.MarkReplied | src/components/AdminPanel.tsx:204-206 | only `replied` changes, and it becomes true exactly on the messages with that id |
| Admin.WithPreset | src/components/AdminPanel.tsx:770-775 | the three colours come from the preset and every other design field is kept |
| Admin.ActiveCount | src/components/AdminPanel.tsx:320 | the active count is at most the number of bots |
| Admin.MessageTotal | src/components/AdminPanel.tsx:332 | defines the `reduce` that sums the message counts; its properties are `CountConcat` and `MessageTotalNonNegative` |
| Admin.ToggleActiveTwice | src/components/AdminPanel.tsx:175-180 | toggling a bot twice restores the registry |
| Admin.MarkRepliedIdempotent | src/components/AdminPanel.tsx:204-206 | marking a message replied twice is the same as once |
| Admin.LastPresetWins | src/components/AdminPanel.tsx:770-775 | only the last preset clicked matters |
| Admin.CountConcat | src/components/AdminPanel.tsx:320-332 | both dashboard counters distribute over concatenation |
| Admin.AddBotCounters | src/components/AdminPanel.tsx:148-166 | adding a bot raises the active count by one and keeps the message total |
| Admin.ToggleMovesActiveCountByOne | src/components/AdminPanel.tsx:175-180 | toggling a bot with a unique id moves the active count by exactly one, in the direction of its new state |
| Admin.AllActiveIffFullCount | src/components/AdminPanel.tsx:320 | the active count equals the number of bots exactly when every bot is active |
| Admin.MessageTotalNonNegative | src/components/AdminPanel.tsx:332 | with no negative counts the message total is not negative |
| Admin.Panel.constructor | src/components/AdminPanel.tsx:117-127 | the panel starts from the given state with an empty bot form and the reply dialog closed |
| Admin.Panel.HandleAddBot | src/components/AdminPanel.tsx:148-166 | adds exactly when the display name is not blank: appends `CreateBot`, resets and closes the form; otherwise nothing changes |
| Admin.Panel.AppendBot | src/components/AdminPanel.tsx:152-165 | the new bot built from the form is appended, the form is reset and closed |
| Admin.Panel.HandleDeleteBot | src/components/AdminPanel.tsx:169-172 | the registry loses exactly the bots with that id |
| Admin.Panel.ToggleBotActive | src/components/AdminPanel.tsx:175-180 | the registry becomes `ToggleActive` of the old one |
| Admin.Panel.TestTelegramConnection | src/components/AdminPanel.tsx:183-196 | with a token the connection is marked up; without one nothing changes |
| Admin.Panel.OpenReplyDialog | src/components/AdminPanel.tsx:215-218 | the message is selected and the dialog opened |
| Admin.Panel.SendReply | src/components/AdminPanel.tsx:198-213 | sends exactly when a message, a bot and a non-blank reply are present: marks it replied and clears the dialog; otherwise nothing changes |
| Admin.Panel.ApplyPreset | src/components/AdminPanel.tsx:229-235 | the design takes the colours of the chosen preset from the five offered |
| Admin.Panel.ActiveBots | src/components/AdminPanel.tsx:320 | the card shows the number of active bots (`ActiveCount`); it equals the number of bots exactly when all are active |
| Admin.Panel.MessagesToday | src/components/AdminPanel.tsx:332 | the card shows the sum of the bots' message counts (`MessageTotal`), not negative when no count is |
| Chat.QuoteSnapshot | src/pages/Index.tsx:138-143 | a visitor's quote keeps author and id and cuts the text to 50 characters plus `...` |
| Chat.ComposeUserMessage | src/pages/Index.tsx:133-144 | the visitor's message has id `user_`+stamp, the name, the input, the clock, and a quote exactly when one was chosen |
| Chat.Toggle | src/pages/Index.tsx:171-181 | the id's membership flips and every other id keeps its membership |
| Chat.QuoteDisplay | src/pages/Index.tsx:194-198 | an expanded or short quote is shown whole; a collapsed one over 100 characters shows its first 100 and `...` |
| Chat.OffersShowMore | src/pages/Index.tsx:196 | defines `shouldTruncate`: the quote is longer than 100 characters |
| Chat.ToggleTwice | src/pages/Index.tsx:171-181 | expanding and collapsing a quote restores the set |
| Chat.VisitorQuoteShownInFull | src/pages/Index.tsx:138-143 | a visitor's quote (at most 53 characters) is never cut for display and never offers "show more" |
| Chat.ChatPage.constructor | src/pages/Index.tsx:40-49 | the page starts with nothing revealed, the saved name, no messages and no quote |
| Chat.ChatPage.PlaybackStep | src/pages/Index.tsx:109-118 | reveals the next scripted message exactly when one is left; the revealed list stays the script's prefix |
| Chat.ChatPage.Playback | src/pages/Index.tsx:109-118 | the chain of timers ends with the whole script revealed in order, one step per remaining message |
| Chat.ChatPage.HandleSendMessage | src/pages/Index.tsx:125-153 | the outcome and the new composer state are exactly those of `Send` on the old state |
| Chat.SendDecision | src/pages/Index.tsx:126-132 | a blank input is ignored, a non-blank one without a name asks for the name, otherwise it is sent; a non-blank name never leads to the prompt |
| Chat.Send | src/pages/Index.tsx:125-153 | a blank input changes nothing; with no name only the prompt opens; otherwise the composed message is appended and input and quote are cleared, the name kept |
| Chat.SaveName | src/pages/Index.tsx:155-161 | a blank name changes nothing; otherwise the prompt closes, the result is never a new prompt, and the pending input is sent exactly when it is not blank |
| Chat.ChatPage.HandleSaveUserName | src/pages/Index.tsx:155-161 | the outcome and the new composer state are exactly those of `SaveName` on the old state, reached by calling the send handler |
| Chat.ChatPage.HandleQuoteMessage | src/pages/Index.tsx:163-165 | the quote is set to the chosen message |
| Chat.ChatPage.CancelQuote | src/pages/Index.tsx:167-169 | the quote is cleared |
| Chat.ChatPage.ToggleQuoteExpansion | src/pages/Index.tsx:171-181 | the expanded set becomes `Toggle` of the old one |
| Chat.ChatPage.QuoteText | src/pages/Index.tsx:194-198 | an expanded quote or one of at most 100 characters is shown whole; a longer collapsed one shows its first 100 characters followed by `...` |
| Privacy.ComputeStats | src/components/PrivacySystem.tsx:149-157 | totals are the list lengths; active, visible and replied counts never exceed them |
| Privacy.RepliedCount | src/components/PrivacySystem.tsx:155 | the replied counter is the number of replied messages, at most the number of messages |
| Privacy.SessionMessages | src/components/PrivacySystem.tsx:266-268 | exactly the messages of that session, every copy of each, in list order |
| Privacy.DeviceType | src/components/PrivacySystem.tsx:274-278 | mobile exactly when the agent names iPhone or Android; tablet exactly when it names neither but names iPad or tablet; desktop otherwise |
| Privacy.NotificationText | src/components/PrivacySystem.tsx:202 | defines the Telegram notification: the bell, the visitor's name, the text and the local time |
| Privacy.FindMessage | src/components/PrivacySystem.tsx:212 | the first message with that id, or none when no message has it |
| Privacy.MarkAnswered | src/components/PrivacySystem.tsx:229-236 | messages with that id become replied by that bot at that time; all others are unchanged |
| Privacy.AdminReply | src/components/PrivacySystem.tsx:211-250 | an unknown or answered message leaves everything; otherwise it is marked answered and a reply to its session, with id `tg_`+stamp and the reply time, heads the log |
| Privacy.ToggleVisibility | src/components/PrivacySystem.tsx:253-257 | only `isVisible` changes, and it flips exactly on that id |
| Privacy.Deactivate | src/components/PrivacySystem.tsx:260-264 | only `isActive` changes, and it is cleared exactly on that session |
| Privacy.AnsweredAtMostOnce | src/components/PrivacySystem.tsx:212-213 | a second reply to the same message, by any bot, changes nothing |
| Privacy.ToggleVisibilityTwice | src/components/PrivacySystem.tsx:253-257 | hiding and showing a message restores the list |
| Privacy.DeactivateIdempotent | src/components/PrivacySystem.tsx:260-264 | deactivating a session twice is the same as once |
| Privacy.DeactivateLowersActive | src/components/PrivacySystem.tsx:152 | deactivating never raises the active-session count |
| Privacy.MarkAnsweredRaisesReplied | src/components/PrivacySystem.tsx:155 | marking answered raises the replied count when an open message has that id |
| Privacy.MarkAnsweredKeepsReplied | src/components/PrivacySystem.tsx:155 | marking answered never lowers the replied count |
| Privacy.NewMessageStats | src/components/PrivacySystem.tsx:149-197 | a simulated message raises every counter but the replied one by exactly one |
| Privacy.AdminReplyStats | src/components/PrivacySystem.tsx:211-236 | a reply that goes through raises the replied count; one that does not leaves it |
| Privacy.NewSessionListsOnlyItsMessage | src/components/PrivacySystem.tsx:176-197 | a new session's message list is exactly its one message |
| Privacy.IPhoneAgentIsMobile | src/components/PrivacySystem.tsx:72 | any agent naming an iPhone, such as the seeded one, is classified mobile |
| Privacy.Console.constructor | src/components/PrivacySystem.tsx:43-157 | the console starts from the given lists with counters that match them |
| Privacy.Console.SimulateNewMessage | src/components/PrivacySystem.tsx:160-208 | a new active session, its open visible message and a notification each head their list; the counters stay current |
| Privacy.Console.SimulateAdminReply | src/components/PrivacySystem.tsx:211-250 | messages and log become `AdminReply` of the old ones; reports whether the message was open; the counters stay current |
| Privacy.Console.ToggleMessageVisibility | src/components/PrivacySystem.tsx:253-257 | the messages become `ToggleVisibility` of the old ones; the counters stay current |
| Privacy.Console.DeactivateSession | src/components/PrivacySystem.tsx:260-264 | the sessions become `Deactivate` of the old ones; the counters stay current |
| Privacy.Console.GetSessionMessages | src/components/PrivacySystem.tsx:266-268 | the messages of `privateMessages` that belong to the session, every copy of each, in their order |

## Left out

- Persistence is not modelled: the reads from and writes to `localStorage` by `saveConversation` and `saveSettings`, the read of the saved name on load, and the write of the name in `handleSaveUserName` (src/pages/Index.tsx:158), which stores the current name. The writes by `saveConversation` and `saveSettings` use the state from before the update, so what is stored can lag one change behind.
- Timers, `Math.random`, the clock and `confirm` are left out; their values are method parameters. The playback delay of 2–3 seconds is not modelled, only the order of reveals. One handler's several clock reads (`Date.now()` for ids, `toISOString` for timestamps) are taken to be one instant.
- Playback uses the page's constant script in array order. It does not sort by time and does not reset when a store changes, because the page has no such code.
- `JSON.parse` is left out. The import takes its outcome: a parse error, a value without a `conversation` array, or that array. The elements of the array are not validated, as in the component.
- The Telegram API probe, the DOM, scrolling, styling, `applyDesign`, CSV/JSON export, the colour and font pickers and analytics are left out. `testTelegramConnection`'s probe is a stub, so its failure branch (src/components/AdminPanel.tsx:193-195) is reached only when `saveSettings` throws, for instance when `localStorage` is full or disabled; that persistence is left out, so the model always reports the connection as made.
- Common.LowerChar: lower-cases only U+0041-U+005A, U+00C0-U+00DE except U+00D7, and U+0400-U+042F. Other capitals that `toLowerCase` maps, such as U+0490 or the Greek capitals, are kept as they are.
- Common.Shorten: lengths count Dafny characters (code points), not UTF-16 code units as JavaScript does. Texts outside the Basic Multilingual Plane can be cut at a different place.
- Conversation.MoveDownThenUp: requires the lower neighbour to carry another id. With duplicate ids the source moves whichever message comes first.
- Admin.Panel.ApplyPreset: requires an index into the five presets, because the page offers only those.
- Privacy.Console.SimulateNewMessage: the session suffix, the name, the address and the text are parameters, not drawn from the source's fixed lists.
