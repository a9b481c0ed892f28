# A verified model of the admissions chatbot core

This project models, in Dafny, the rule-bearing core of an admissions
consulting chatbot. It has two halves:

- **The Python RAG service** is the retrieval-augmented answering service.
  The model covers:
  - the session registry that maps a user to a conversation id;
  - the per-conversation context window and the cache of context managers;
  - the query analyser and the out-of-domain filter;
  - the prompt builder and the chat orchestration around a token stream;
  - the chat-history cache and the conversation memory, with its
    ISO-timestamp round trip;
  - follow-up suggestions;
  - the backend-configuration overlay and the model-name tables.
- **The NestJS admin server** contributes:
  - the chatbot-configuration merge;
  - the human-handoff state machine (waiting, connected, ended, timed out);
  - working-hours validation and checks;
  - the keyword rules of the smart analytics.

The model is one Dafny module per source file. Shared string helpers live in
`Text` (text.dfy). Substring search, Python slicing, `strip`, `split`,
`join`, lower-casing, JavaScript string comparison and `split(/\s+/)` are
written out there, and their properties are proved there.

The Vietnamese literals of the analytics service file are the UTF-8 bytes
of the Vietnamese words read back one byte per character through the Thai
code page 874, so each holds characters of the Thai block (U+0E00 to
U+0E7F). `SmartAnalyticsAsWritten` (smart_analytics_as_written.dfy) holds
the keyword table, the sentiment lists, the display names and the accent
class exactly as written, and proves what the rules then do: on text
without Thai characters only the plain-ASCII keywords ("thi", "khoa",
"job", "career", "hay", "ok", "good", "thanks", "bad", "difficult") can
match. `SmartAnalytics` holds the decoded Vietnamese, the evidently
intended tables, and the rest of the model uses those (see Findings).

The prompt engine's two instance attributes, the base prompt and the table
of specialised prompts, are the fields of a `PromptEngine.Engine` value.
The source never changes them after `__init__`. `NewEngine` builds the
value with the built-in texts, and the prompt builders take it as their
first argument.

Only the logic is modelled, not the interfaces. These become parameters:

- clocks (an integer `now`);
- generated ids (`freshId`);
- replies from the language model or the database;
- the event lists the analytics read.

Objects that the source updates in place are classes with `modifies`
clauses. Loops are methods whose invariants tie them to specification
functions. Pure rules are functions with lemmas.

## Model

| member | source | states |
|---|---|---|
| SessionManagement.SessionManager.constructor | rag_admissions_consulting/src/core/session_manager.py:17-21 | a new registry holds no sessions |
| SessionManagement.SessionManager.GetOrCreateConversationId | rag_admissions_consulting/src/core/session_manager.py:23-63 | returns the id `Resolve` chooses (the supplied one, the live session's one, or the fresh one) and afterwards binds exactly this user to that id at `now` |
| SessionManagement.SessionManager.UpdateSession | rag_admissions_consulting/src/core/session_manager.py:65-70 | overwrites this user's entry with the id and `now`; every other entry is unchanged |
| SessionManagement.SessionManager.ClearSession | rag_admissions_consulting/src/core/session_manager.py:72-76 | removes exactly this user's entry, and does nothing when there is none |
| SessionManagement.SessionManager.CleanupExpiredSessions | rag_admissions_consulting/src/core/session_manager.py:78-97 | the collect-then-delete loops leave exactly `Swept(old, now)` |
| SessionManagement.SessionManager.GetAllSessions | rag_admissions_consulting/src/core/session_manager.py:103-118 | `total_sessions` is the number of registered users; there is one entry per user, with its id, its last activity time and the minutes since its last activity |
| SessionManagement.ProvidedIdWins | rag_admissions_consulting/src/core/session_manager.py:28-34 | a non-empty supplied id is returned verbatim, whatever the registry holds |
| SessionManagement.SessionStable | rag_admissions_consulting/src/core/session_manager.py:39-55 | a second request less than 3600 s after the first, with no supplied id, gets the same id |
| SessionManagement.SessionExpiry | rag_admissions_consulting/src/core/session_manager.py:57-63 | once 3600 s have passed, the fresh id is returned, not the old one |
| SessionManagement.SweptExactly | rag_admissions_consulting/src/core/session_manager.py:83-93 | the sweep removes exactly the sessions idle for more than 3600 s, keeps the others unchanged, and never grows the registry |
| SessionManagement.ResolveThenSweepKeeps | rag_admissions_consulting/src/core/session_manager.py:23-97 | a session just resolved at `now` survives a sweep at `now` with its id |
| ConversationContext.RoleValue | rag_admissions_consulting/src/core/context_manager.py:163-166 | each role has one of the three string values the role enum compares by |
| ConversationContext.NewerThan | rag_admissions_consulting/src/core/context_manager.py:65-67 | the time filter keeps only messages strictly newer than the cutoff and never grows the list |
| ConversationContext.NewerThanCount | rag_admissions_consulting/src/core/context_manager.py:65-67 | a message is kept as often as it occurred if it is newer than the cutoff, otherwise not at all (so order-preserving filtering loses nothing else) |
| ConversationContext.NewerThanAppend | rag_admissions_consulting/src/core/context_manager.py:150 | filtering distributes over concatenation |
| ConversationContext.TrimmedBounds | rag_admissions_consulting/src/core/context_manager.py:143-154 | after cleanup at most 40 messages remain, all newer than `now − 3600 s`, and they are the newest such messages in their original order |
| ConversationContext.AppendThenTrimKeepsNewest | rag_admissions_consulting/src/core/context_manager.py:26-56 | the message just added at `now` survives the cleanup as the last message |
| ConversationContext.CountCapDominates | rag_admissions_consulting/src/core/context_manager.py:150-154 | when every message is inside the extended window, cleanup is exactly the last-40 cut |
| ConversationContext.AllNewerKept | rag_admissions_consulting/src/core/context_manager.py:150 | the time filter is the identity on messages that are all newer than the cutoff |
| ConversationContext.Project | rag_admissions_consulting/src/core/context_manager.py:78-85 | each returned record carries exactly the role, content and timestamp of the message at the same position |
| ConversationContext.UserQuestionsCount | rag_admissions_consulting/src/core/context_manager.py:120-122 | the user questions are exactly as many as the user messages |
| ConversationContext.RoleCountsBounded | rag_admissions_consulting/src/core/context_manager.py:163-166 | user and assistant counts together never exceed the message count |
| ConversationContext.TopicLines | rag_admissions_consulting/src/core/context_manager.py:138-139 | topic line `i` is numbered from the given start and shows question `i` |
| ConversationContext.SummaryShape | rag_admissions_consulting/src/core/context_manager.py:115-141 | with user questions present, the summary has the three header lines plus one numbered line for each of the last (at most three) questions, oldest first |
| ConversationContext.ContextManager.GetConversationSummary | rag_admissions_consulting/src/core/context_manager.py:115-141 | the fixed no-conversation sentence without messages and the fixed no-question sentence without user messages; otherwise the summary lines joined by newlines: three header lines and one line for each of the last (at most three) user questions |
| ConversationContext.ContextManager.constructor | rag_admissions_consulting/src/core/context_manager.py:13-24 | stores the ids and the e-mail and starts with no messages |
| ConversationContext.ContextManager.AddMessage | rag_admissions_consulting/src/core/context_manager.py:26-56 | the new list is the old list plus the new message, cleaned up at `now`; the new message is last |
| ConversationContext.ContextManager.CleanupOldMessages | rag_admissions_consulting/src/core/context_manager.py:143-154 | the new list is `Trimmed(old, now)` |
| ConversationContext.ContextManager.GetContextMessages | rag_admissions_consulting/src/core/context_manager.py:58-113 | the result is the newest messages inside the 30-minute window, in their original order, projected to role, content and time. A positive limit (the default when none or 0 is given) returns that many, or all of them when fewer are in the window; a negative limit drops that many of the oldest, as `[-limit:]` does |
| ConversationContext.ContextManager.ClearContext | rag_admissions_consulting/src/core/context_manager.py:156-159 | empties the list |
| ConversationContext.ContextManager.GetContextStats | rag_admissions_consulting/src/core/context_manager.py:161-175 | the total is the list length; the user and assistant counts are the numbers of messages with those roles, and together never exceed it; oldest and newest are present exactly when the list is non-empty, and are the first and last timestamps |
| ContextCaching.FreshStoreSurvives | rag_admissions_consulting/src/core/context_cache.py:57-67 | a conversation whose last message was added no more than 7200 s ago is not stale |
| ContextCaching.Summarise | rag_admissions_consulting/src/core/context_cache.py:84-100 | a conversation's cache entry repeats all five of its context statistics (total, user and assistant counts, oldest and newest time) and drops only the conversation id |
| ContextCaching.ContextCache.constructor | rag_admissions_consulting/src/core/context_cache.py:19-24 | starts empty |
| ContextCaching.ContextCache.GetOrCreateContextManager | rag_admissions_consulting/src/core/context_cache.py:26-44 | returns the cached manager unchanged when there is one; otherwise a fresh empty manager for these ids, added under the conversation id |
| ContextCaching.ContextCache.RemoveContextManager | rag_admissions_consulting/src/core/context_cache.py:46-50 | removes exactly that conversation |
| ContextCaching.ContextCache.CleanupExpiredContexts | rag_admissions_consulting/src/core/context_cache.py:52-78 | keeps exactly the managers that have messages and whose last message is at most 7200 s old |
| ContextCaching.ContextCache.GetCacheStats | rag_admissions_consulting/src/core/context_cache.py:80-102 | there is one entry per cached conversation; each is the summary of that conversation's own context statistics: its message count, and its user and assistant counts, which are the numbers of messages with those roles and stay within that count |
| ContextCaching.ContextCache.ClearAllContexts | rag_admissions_consulting/src/core/context_cache.py:104-107 | empties the cache |
| QueryAnalysis.QueryPatternsShape | rag_admissions_consulting/src/core/query_analyzer.py:11-131 | the category tables come in declaration order; each has keywords and regular expressions, so its ratios are defined |
| QueryAnalysis.CountSearch | rag_admissions_consulting/src/core/query_analyzer.py:203-205 | the pattern-match count is bounded by the number of patterns, and is positive exactly when some pattern matches somewhere in the query |
| QueryAnalysis.ConfidenceBounds | rag_admissions_consulting/src/core/query_analyzer.py:190-211 | the weighted confidence (0.7 × keyword ratio + 0.3 × pattern ratio) lies in [0, 1], and is positive exactly when a keyword occurs or a pattern matches |
| QueryAnalysis.CalculateTypeConfidence | rag_admissions_consulting/src/core/query_analyzer.py:190-211 | the two counting loops compute `TypeConfidence`, which lies in [0, 1] |
| QueryAnalysis.ExtractKeywords | rag_admissions_consulting/src/core/query_analyzer.py:213-223 | the loops collect exactly the set of table keywords that occur in the query |
| QueryAnalysis.AnalyzeIntent | rag_admissions_consulting/src/core/query_analyzer.py:225-259 | a question word always gives information seeking. Each other intent holds exactly when its word list matches and no earlier list does. Follow-up also needs context |
| QueryAnalysis.KhacIsNeverFollowUp | rag_admissions_consulting/src/core/query_analyzer.py:248-257 | "khác" is a comparison word checked first, so a query containing it is never classified as a follow-up |
| QueryAnalysis.RequiresContext | rag_admissions_consulting/src/core/query_analyzer.py:261-283 | context is required exactly when the query has at most three words, or contains a pronoun, a follow-up word or a clarification word |
| QueryAnalysis.ContextTypeOf | rag_admissions_consulting/src/core/query_analyzer.py:285-297 | follow-up exactly when a follow-up word occurs; clarification exactly when none does and a clarification word occurs; comparison exactly when neither does and a comparison marker occurs; none otherwise |
| QueryAnalysis.ContextTypeImpliesRequired | rag_admissions_consulting/src/core/query_analyzer.py:261-297 | a follow-up or clarification context type always comes with "requires context" |
| QueryAnalysis.DetermineComplexity | rag_admissions_consulting/src/core/query_analyzer.py:299-318 | complex exactly when "và", "hoặc" or "?" occurs or there are more than 15 words; medium exactly when it is not complex and has more than 8 words and more than two distinct keywords; simple otherwise |
| QueryAnalysis.VaMarksFollowUp | rag_admissions_consulting/src/core/query_analyzer.py:133-138 | "và" makes a query complex, a follow-up context and context-requiring at once |
| QueryAnalysis.BestType | rag_admissions_consulting/src/core/query_analyzer.py:158-166 | the strict `>` scan returns the maximum confidence and the FIRST table reaching it; "general" with 0 exactly when every confidence is 0 |
| QueryAnalysis.FirstMaxAtIndex | rag_admissions_consulting/src/core/query_analyzer.py:158-166 | the winner of the scan is the first best category: no category scores more, the general type exactly when all score zero, otherwise every earlier category scores strictly less |
| QueryAnalysis.AnalyzeQuery | rag_admissions_consulting/src/core/query_analyzer.py:140-188 | on the lower-cased query, the analysis holds the first best type over the pattern tables (no type scores more, earlier types score strictly less, general exactly when nothing matches) and its confidence, the keyword set, the intent, the context flags and the complexity, each as specified above |
| Regex.SearchFindsIndex | rag_admissions_consulting/src/core/query_analyzer.py:204 | `re.search` succeeds exactly when the pattern matches a prefix of some suffix of the query |
| Regex.LiteralSearch | rag_admissions_consulting/src/core/query_analyzer.py:204 | a pattern made of one literal word is found exactly when the word is a substring |
| OutOfDomain.TopScore | rag_admissions_consulting/src/ood_agent.py:117-139 | the score at the head of the descending sort is the maximum, and it is some document's score |
| OutOfDomain.Fixed2 | rag_admissions_consulting/src/ood_agent.py:150 | the `:.2f` rendering is a minus sign exactly for a negative number, then digits, a point and exactly two digits; the digits before the point times 100 plus the two after it are the magnitude in hundredths, rounded half up |
| OutOfDomain.CentsRendering | rag_admissions_consulting/src/ood_agent.py:150 | a number of hundredths renders as its whole part, a point and its last two digits |
| OutOfDomain.IsEducationRelated | rag_admissions_consulting/src/ood_agent.py:35-80 | related exactly when some education keyword occurs in the lower-cased question |
| OutOfDomain.IsOutOfDomain | rag_admissions_consulting/src/ood_agent.py:82-157 | not out of domain when disabled or when the question is education-related. With no documents it is out of domain with the no-documents reason. A non-numeric score ends in the except branch as in domain. Otherwise it is out of domain exactly when the top score is below the threshold, with that score in the reason |
| OutOfDomain.GetOodResponse | rag_admissions_consulting/src/ood_agent.py:159-169 | the response never depends on the question: it is always the configured default |
| PromptEngine.RoleLabel | rag_admissions_consulting/src/core/prompt_engine.py:161 | the user label is chosen exactly for the role "USER" |
| PromptEngine.NewEngine | rag_admissions_consulting/src/core/prompt_engine.py:9-82 | the engine built with the base prompt and the specialised prompts has no specialised prompt for the empty type name |
| PromptEngine.Lines | rag_admissions_consulting/src/core/prompt_engine.py:160-162 | one line per recent message, in order, each the role label and the content |
| PromptEngine.HistoryLinesSnoc | rag_admissions_consulting/src/core/prompt_engine.py:160-162 | one more message adds exactly its own line at the end |
| PromptEngine.HistoryLinesAppend | rag_admissions_consulting/src/core/prompt_engine.py:160-162 | the per-message lines of a concatenation are the lines of the parts |
| PromptEngine.RecentSix | rag_admissions_consulting/src/core/prompt_engine.py:155-158 | at most six messages, and they are the last ones; the list itself when it has six or fewer |
| PromptEngine.HistoryIgnoresOlder | rag_admissions_consulting/src/core/prompt_engine.py:155-158 | messages before the last six never reach the prompt |
| PromptEngine.BuildConversationContextPrompt | rag_admissions_consulting/src/core/prompt_engine.py:144-166 | the loop builds `HistoryBlock`, which starts with the history title whenever there are messages |
| PromptEngine.TypeGuidance | rag_admissions_consulting/src/core/prompt_engine.py:97-100 | query-type guidance is added exactly when an analysis with a specialised query type is present |
| PromptEngine.ContextGuidance | rag_admissions_consulting/src/core/prompt_engine.py:102-106 | context guidance is added exactly when an analysis with a specialised context type is present |
| PromptEngine.SystemPrompt | rag_admissions_consulting/src/core/prompt_engine.py:94-126 | the system prompt starts with the base prompt and ends with the document-use block |
| PromptEngine.CreateContextAwarePrompt | rag_admissions_consulting/src/core/prompt_engine.py:84-142 | four parts: three system parts, the first holding the system prompt, then the human `{input}` part |
| PromptEngine.UnspecialisedTypes | rag_admissions_consulting/src/core/prompt_engine.py:32-82 | "general_info" and "comparison" have no specialised prompt, so they add no guidance |
| PromptEngine.CreateSimplePrompt | rag_admissions_consulting/src/core/prompt_engine.py:168-182 | three parts; the system text is the base prompt, with the specialised prompt appended exactly when the type has one |
| ChatOrchestration.Deltas | rag_admissions_consulting/src/services/chat_service.py:81 | the streamed items carry the tokens one by one, in order |
| ChatOrchestration.SummaryLines | rag_admissions_consulting/src/services/chat_service.py:106-115 | one summary line for each of the last six context messages (all of them when there are six or fewer), in order |
| ChatOrchestration.EnhanceQueryWithContext | rag_admissions_consulting/src/services/chat_service.py:99-128 | with no context the query is the message itself; otherwise it starts with the context title and ends with the message and the closing instruction |
| ChatOrchestration.EnhanceIgnoresOlder | rag_admissions_consulting/src/services/chat_service.py:106-109 | context messages before the last six do not change the enhanced query |
| ChatOrchestration.AddedMessageIsRead | rag_admissions_consulting/src/services/chat_service.py:60-64 | the user message just added is the newest message the context read returns |
| ChatOrchestration.StreamTokens | rag_admissions_consulting/src/services/chat_service.py:74-81 | the accumulated response is the concatenation of the tokens; one item per token, each tagged with the conversation id |
| ChatOrchestration.ChatService.constructor | rag_admissions_consulting/src/services/chat_service.py:14-49 | the conversation id is the supplied one when non-empty, else the fresh id. The context manager is the cached one for that id, or a new one registered for it |
| ChatOrchestration.StreamedDeltas | rag_admissions_consulting/src/services/chat_service.py:72-97 | without failure the deltas are the tokens; after a failure they are a prefix of the tokens (as many as were produced) followed by the error text |
| ChatOrchestration.ChatService.StreamAndStore | rag_admissions_consulting/src/services/chat_service.py:72-97 | every item carries the conversation id and the deltas are the streamed deltas; the assistant turn stored last is the concatenated answer without failure and the error text after one, added and trimmed as `add_message` does |
| ChatOrchestration.ChatService.ProcessMessageStream | rag_admissions_consulting/src/services/chat_service.py:55-97 | the user turn is added and the context is read; the enhanced query is built from that read. Without failure the assistant turn is the full concatenated response. After a failure mid-stream, the tokens already yielded are followed by the error text, which is also stored as the assistant turn. Every item carries the conversation id |
| SuggestionFilter.LineSuggestion | rag_admissions_consulting/src/services/suggestion_service.py:112-141 | a kept line, stripped and cleaned of list markers, is non-empty, at most 50 characters and a question by `?` or by a question word |
| SuggestionFilter.Views | rag_admissions_consulting/src/services/suggestion_service.py:111 | the per-line verdicts are in line order |
| SuggestionFilter.Present | rag_admissions_consulting/src/services/suggestion_service.py:141 | the kept suggestions are never more than the lines |
| SuggestionFilter.PresentAcceptable | rag_admissions_consulting/src/services/suggestion_service.py:119-141 | every kept suggestion is acceptable |
| SuggestionFilter.PresentAppend | rag_admissions_consulting/src/services/suggestion_service.py:111-143 | scanning a concatenation keeps the suggestions of the first part, then those of the second |
| SuggestionFilter.Candidates | rag_admissions_consulting/src/services/suggestion_service.py:108-141 | every candidate of the reply is acceptable |
| SuggestionFilter.FourFoundSuffice | rag_admissions_consulting/src/services/suggestion_service.py:142-146 | once four suggestions are found, later lines cannot change the first four |
| SuggestionFilter.EndsWithQuestionMark | rag_admissions_consulting/src/services/suggestion_service.py:121 | a string ending in `?` contains `?` |
| SuggestionFilter.ScanComplete | rag_admissions_consulting/src/services/suggestion_service.py:111-146 | the early break at four suggestions yields the same result as the full scan cut to four |
| Suggestions.ContextLines | rag_admissions_consulting/src/services/suggestion_service.py:74-77 | one role-labelled line per message, in order |
| Suggestions.BuildContext | rag_admissions_consulting/src/services/suggestion_service.py:67-79 | no messages give the fixed "new conversation" sentence; otherwise the lines of the last five messages, joined by newlines |
| Suggestions.ContextUsesLastFive | rag_admissions_consulting/src/services/suggestion_service.py:74 | messages before the last five do not change the context |
| Suggestions.DefaultsAcceptable | rag_admissions_consulting/src/services/suggestion_service.py:203-210 | each default suggestion would itself pass the line filter's question test |
| Suggestions.CollectSuggestions | rag_admissions_consulting/src/services/suggestion_service.py:111-143 | the loop stops at the fourth suggestion found or at the end, and holds the suggestions of the lines it read |
| Suggestions.ParseSuggestions | rag_admissions_consulting/src/services/suggestion_service.py:105-150 | the first four candidates of the reply, or the defaults when there are none; always one to four acceptable suggestions |
| Suggestions.LastUserContentSpec | rag_admissions_consulting/src/services/suggestion_service.py:159-164 | the lower-cased content of the newest user message, or "" when there is none |
| Suggestions.KeywordSuggestions | rag_admissions_consulting/src/services/suggestion_service.py:166-201 | IT, then tourism, then economics keywords select their lists, in that order of precedence; otherwise the defaults |
| Suggestions.GetFallbackSuggestions | rag_admissions_consulting/src/services/suggestion_service.py:152-201 | four suggestions. No messages give the defaults. Otherwise the backward search over the last three messages selects the keyword rule from the newest user message |
| Suggestions.FallbackLooksAtLastThree | rag_admissions_consulting/src/services/suggestion_service.py:161 | a user message more than three messages back never affects the fallback |
| Suggestions.GenerateSuggestions | rag_admissions_consulting/src/services/suggestion_service.py:35-65 | with no model or a failed call, the fallback suggestions; otherwise the parsed reply; always one to four suggestions |
| ChatHistory.GroupEnd | rag_admissions_consulting/src/shared/chat_history_manager.py:52 | the greedy `(.+)` group ends at the LAST position where "@example.com" follows and the group is non-empty and free of newlines; there is none when no position qualifies |
| ChatHistory.GuestUserForm | rag_admissions_consulting/src/shared/chat_history_manager.py:42-44 | an e-mail is a guest's exactly when it is `guest-` followed by the rest of it; every such string is one |
| ChatHistory.ExtractGuestId | rag_admissions_consulting/src/shared/chat_history_manager.py:46-58 | a non-guest e-mail is returned unchanged. A guest e-mail without the domain loses the six-character prefix. With the domain, the greedy group is returned, or the e-mail itself when the pattern fails |
| ChatHistory.GuestIdRoundTrip | rag_admissions_consulting/src/shared/chat_history_manager.py:46-58 | for a non-empty id without newlines, building `guest-<id>@example.com` and extracting gives the id back |
| ChatHistory.ShortGuestIdRoundTrip | rag_admissions_consulting/src/shared/chat_history_manager.py:56-57 | `guest-<id>` without the domain extracts to the id |
| ChatHistory.Projected | rag_admissions_consulting/src/shared/chat_history_manager.py:175-180 | the read keeps exactly role and content, message by message |
| ChatHistory.ChatHistoryManager.constructor | rag_admissions_consulting/src/shared/chat_history_manager.py:16-24 | a guest is a `guest-` e-mail or user id 0, and a guest gets the extracted guest id; the cache and queue start empty |
| ChatHistory.ChatHistoryManager.EntryFor | rag_admissions_consulting/src/shared/chat_history_manager.py:65-83 | a queued record carries exactly one of guest id (for guests) and user id (for registered users), with the role value, content and conversation id |
| ChatHistory.ChatHistoryManager.AppendMessage | rag_admissions_consulting/src/shared/chat_history_manager.py:60-91 | the message is appended to the session cache and its record to the save queue |
| ChatHistory.ChatHistoryManager.GetConversationContext | rag_admissions_consulting/src/shared/chat_history_manager.py:173-181 | the last `limit` cached messages, all of them for `limit` 0 (Python's `[-0:]`), projected to role and content |
| ChatHistory.ChatHistoryManager.ClearHistory | rag_admissions_consulting/src/shared/chat_history_manager.py:183-186 | empties the session cache and leaves the save queue alone |
| ChatHistory.AppendedTurnIsRead | rag_admissions_consulting/src/shared/chat_history_manager.py:60-181 | a message just appended is the newest message every read returns |
| ConversationMemoryModel.Pad | rag_admissions_consulting/src/shared/conversation_memory.py:19 | zero padding yields exactly the width, in digits |
| ConversationMemoryModel.PadValue | rag_admissions_consulting/src/shared/conversation_memory.py:19-25 | reading a padded field back gives the number |
| ConversationMemoryModel.IsoFormat | rag_admissions_consulting/src/shared/conversation_memory.py:19 | `isoformat()` is 19 characters, or 26 with microseconds |
| ConversationMemoryModel.FromIsoFormat | rag_admissions_consulting/src/shared/conversation_memory.py:25 | whatever `fromisoformat` accepts is a valid date and time |
| ConversationMemoryModel.PadField | rag_admissions_consulting/src/shared/conversation_memory.py:25 | a padded field parses back to its number |
| ConversationMemoryModel.IsoRoundTrip | rag_admissions_consulting/src/shared/conversation_memory.py:15-26 | `fromisoformat(isoformat(d)) == d` for every valid date and time |
| ConversationMemoryModel.ToDict | rag_admissions_consulting/src/shared/conversation_memory.py:15-21 | the dictionary keeps role, content and metadata |
| ConversationMemoryModel.FromDict | rag_admissions_consulting/src/shared/conversation_memory.py:23-26 | fails exactly when the timestamp does not parse; otherwise keeps role, content and metadata |
| ConversationMemoryModel.MessageRoundTrip | rag_admissions_consulting/src/shared/conversation_memory.py:15-26 | `from_dict(to_dict(m)) == m` |
| ConversationMemoryModel.Kept | rag_admissions_consulting/src/shared/conversation_memory.py:42-44 | the trim as written keeps a suffix. With a positive cap it holds at most `max` messages. Nothing is trimmed when the list already fits. A negative cap drops that many of the oldest messages |
| ConversationMemoryModel.ZeroCapNeverTrims | rag_admissions_consulting/src/shared/conversation_memory.py:43-44 | with `max_messages == 0` the trim keeps every message (see Findings) |
| ConversationMemoryModel.NegativeCapDropsOldest | rag_admissions_consulting/src/shared/conversation_memory.py:43-44 | with `max_messages == -1`, adding `b` to `[a]` leaves `[b]` and adding it to `[]` leaves `[]`, where the corrected trim keeps nothing (see Findings) |
| ConversationMemoryModel.KeptIntended | rag_admissions_consulting/src/shared/conversation_memory.py:42-44 | the intended trim keeps the newest `max` messages, none for a cap of zero or below |
| ConversationMemoryModel.KeptAgreesAboveZero | rag_admissions_consulting/src/shared/conversation_memory.py:42-44 | for positive caps the intended and the written trim agree |
| ConversationMemoryModel.ConversationMemory.constructor | rag_admissions_consulting/src/shared/conversation_memory.py:30-35 | stores the cap and the user, and starts with empty history, preferences and variables |
| ConversationMemoryModel.ConversationMemory.AddMessage | rag_admissions_consulting/src/shared/conversation_memory.py:37-46 | the history becomes the old history plus the new message, trimmed by the corrected rule `KeptIntended` (see Findings, for caps of zero and below). With a positive cap it stays within the cap and ends with the new message. A cap of zero or below leaves it empty. Preferences and variables are unchanged |
| ConversationMemoryModel.ConversationMemory.GetRecentMessages | rag_admissions_consulting/src/shared/conversation_memory.py:48-52 | no `n`, or `n == 0`, gives the whole history; a positive `n` gives the last `n` messages |
| ConversationMemoryModel.ConversationMemory.GetFormattedHistory | rag_admissions_consulting/src/shared/conversation_memory.py:54-56 | role and content of each message, in order |
| ConversationMemoryModel.ConversationMemory.UpdateUserPreferences | rag_admissions_consulting/src/shared/conversation_memory.py:58-61 | the preferences are updated with the new entries winning; nothing else changes |
| ConversationMemoryModel.ConversationMemory.AddContextVariable | rag_admissions_consulting/src/shared/conversation_memory.py:63-66 | sets one variable; nothing else changes |
| ConversationMemoryModel.ConversationMemory.ClearHistory | rag_admissions_consulting/src/shared/conversation_memory.py:78-81 | empties the history and keeps preferences and variables |
| ModelConstants.GetActualModelName | rag_admissions_consulting/src/shared/constant.py:94-116 | a known key gives its mapped name. Otherwise the result is the default model of the given provider, or Gemini's for any other provider. Every result is a name some provider serves |
| ModelConstants.GetModelType | rag_admissions_consulting/src/shared/constant.py:119-129 | a mapped key gives its provider, any other key Gemini; never an unlisted provider |
| ModelConstants.ModelNameMatchesType | rag_admissions_consulting/src/shared/constant.py:13-31 | for every key, the name chosen for the key's provider is served by that provider: the two tables agree |
| ModelConstants.GetPersonalityStyle | rag_admissions_consulting/src/shared/constant.py:132-142 | a listed personality gives its style; any other gives the non-empty default style |
| BackendConfig.MappedModel | rag_admissions_consulting/src/config/backend_config.py:137 | a mapped model key is translated; anything else passes through unchanged |
| BackendConfig.Overlay | rag_admissions_consulting/src/config/backend_config.py:183-189 | a listed key whose backend value is truthy takes that value; every other key keeps its presence and value |
| BackendConfig.OverlayIdempotent | rag_admissions_consulting/src/config/backend_config.py:176-204 | merging the same personality or contact section twice changes nothing more |
| BackendConfig.OverlayKeepsOthers | rag_admissions_consulting/src/config/backend_config.py:183-189 | a key that is unlisted, missing or falsy in the backend section keeps its old value |
| BackendConfig.Applied | rag_admissions_consulting/src/config/backend_config.py:117-210 | every field of the new settings is determined. A truthy default model is mapped and applied. Each of the token limit, the temperature and the four chat fields, and the debug flag, is replaced exactly when the backend value is not None. A truthy environment replaces it. A non-empty personality or contact section is overlaid key by key on the old dictionary (reset to empty when missing); an empty one leaves that section as it was |
| BackendConfig.AppliedIdempotent | rag_admissions_consulting/src/config/backend_config.py:117-210 | applying the same backend configuration twice is the same as applying it once |
| BackendConfig.Settings.constructor | rag_admissions_consulting/src/config/backend_config.py:117-127 | a settings object holding the given state |
| BackendConfig.MergeKeys | rag_admissions_consulting/src/config/backend_config.py:183-204 | the key-by-key loop computes `Overlay` |
| BackendConfig.UpdateLlm | rag_admissions_consulting/src/config/backend_config.py:132-145 | the settings become `ApplyLlm` of the old settings |
| BackendConfig.UpdateChat | rag_admissions_consulting/src/config/backend_config.py:147-166 | the settings become `ApplyChat` of the old settings |
| BackendConfig.UpdateEnvironment | rag_admissions_consulting/src/config/backend_config.py:168-173 | the settings become `ApplyEnvironment` of the old settings |
| BackendConfig.UpdatePersonality | rag_admissions_consulting/src/config/backend_config.py:175-189 | the settings become `ApplyPersonality` of the old settings (a missing dictionary starts empty) |
| BackendConfig.UpdateContactInfo | rag_admissions_consulting/src/config/backend_config.py:191-204 | the settings become `ApplyContact` of the old settings |
| BackendConfig.ApplyBackendConfigToSettings | rag_admissions_consulting/src/config/backend_config.py:117-210 | the settings become `Applied` of the old settings |
| ChatbotConfig.GetDefaultConfig | server/src/modules/chatbots/chatbot-config.service.ts:29-89 | the built-in configuration is of the default type, active and without an id |
| ChatbotConfig.MergedOnNothing | server/src/modules/chatbots/chatbot-config.service.ts:96 | before any override key is merged, the copy equals the default |
| ChatbotConfig.MergeStep | server/src/modules/chatbots/chatbot-config.service.ts:99-109 | merging one more override key into the partial merge extends it by exactly that key |
| ChatbotConfig.MergeConfigs | server/src/modules/chatbots/chatbot-config.service.ts:93-112 | the per-key loop computes `Merged`: the default for no override, else every override key merged in |
| ChatbotConfig.EmptyOverrideKeepsDefault | server/src/modules/chatbots/chatbot-config.service.ts:94-96 | no override, or an empty one, leaves the default unchanged |
| ChatbotConfig.NestedObjectMergedOneLevel | server/src/modules/chatbots/chatbot-config.service.ts:100-105 | an object override is merged one level deep: its fields win, and the default's other fields stay |
| ChatbotConfig.OverrideReplacesOrKeeps | server/src/modules/chatbots/chatbot-config.service.ts:99-109 | any other defined override value replaces the default's. A missing or `undefined` one keeps the default. No other key appears |
| ChatbotConfig.MergeIdempotent | server/src/modules/chatbots/chatbot-config.service.ts:93-112 | merging the same override twice changes nothing more |
| ChatbotConfig.ActiveConfig | server/src/modules/chatbots/chatbot-config.service.ts:168-208 | with an active override: the stored or built-in default merged with the newest override, carrying that override's id and the override type. Otherwise: the stored default, or the built-in one |
| HumanHandoffs.NewestActive | server/src/modules/human-handoffs/human-handoffs.service.ts:92-98 | finds the newest waiting or connected session of the conversation, or reports that there is none |
| HumanHandoffs.FirstConnected | server/src/modules/human-handoffs/human-handoffs.service.ts:289-294 | finds a connected session of the conversation, or reports that there is none |
| HumanHandoffs.Remaining | server/src/modules/human-handoffs/human-handoffs.service.ts:112-115 | `max(0, 60000 − elapsed)`: never negative; zero exactly when 60 s have elapsed; otherwise, together with the elapsed time, exactly 60000 ms |
| HumanHandoffs.Report | server/src/modules/human-handoffs/human-handoffs.service.ts:107-135 | never both waiting and connected. Connected exactly for a connected session. Waiting exactly for a waiting session whose time has not run out. A remaining time is reported only while waiting, and is positive. An admin name only when an admin is set |
| HumanHandoffs.HumanHandoffsService.constructor | server/src/modules/human-handoffs/human-handoffs.service.ts:23-28 | no sessions, history or notifications |
| HumanHandoffs.HumanHandoffsService.Create | server/src/modules/human-handoffs/human-handoffs.service.ts:30-84 | an active session of the same user or guest (any session when neither is set) rejects the request and changes nothing. Otherwise one new waiting session is appended with `now` as its request time and the admins are notified; no session is reopened |
| HumanHandoffs.HumanHandoffsService.GetStatus | server/src/modules/human-handoffs/human-handoffs.service.ts:86-136 | no active session reports both flags false. Otherwise the report of the newest active session. A waiting session whose 60 s have run out becomes timed out with `endedAt = now`. Nothing else changes |
| HumanHandoffs.HumanHandoffsService.AcceptHandoff | server/src/modules/human-handoffs/human-handoffs.service.ts:147-182 | an unknown id is not found; a session that is not waiting is a bad request; otherwise exactly that session becomes connected with the admin and `connectedAt = now`, and the user is notified |
| HumanHandoffs.HumanHandoffsService.EndHandoff | server/src/modules/human-handoffs/human-handoffs.service.ts:184-209 | an unknown id is not found; any existing session becomes ended at `now`, whatever its state, and the user is notified |
| HumanHandoffs.HumanHandoffsService.SendUserMessage | server/src/modules/human-handoffs/human-handoffs.service.ts:284-329 | without a connected session of the conversation, a bad request. Otherwise the message is recorded as a user turn of that session and forwarded to its admin when one is set. Sessions never change |
| HumanHandoffs.HumanHandoffsService.SendMessage | server/src/modules/human-handoffs/human-handoffs.service.ts:331-387 | an unknown id is not found; a session that is not connected is a bad request. Otherwise the message is recorded with the role of its sender. An admin's message goes to the user (named "Admin" by default); a user's message goes to the admin when one is set. Sessions never change |
| HumanHandoffs.CreatedSessionWaitsSixtySeconds | server/src/modules/human-handoffs/human-handoffs.service.ts:62-70 | a session just created is the one the status lookup finds; it reports waiting exactly during its first 60 s, and never connected |
| HumanHandoffs.NewSessionKeepsUnique | server/src/modules/human-handoffs/human-handoffs.service.ts:30-70 | a create that passes the duplicate check keeps every user and guest to at most one active session |
| HumanHandoffs.DeactivateKeepsUnique | server/src/modules/human-handoffs/human-handoffs.service.ts:119-122 | ending or timing out a session keeps every user and guest to at most one active session |
| WorkingHours.Minutes | server/src/modules/human-handoffs/utils/working-hours.util.ts:163 | a time in `H:mm` or `HH:mm` form denotes a minute of the day below 1440 |
| WorkingHours.TimeFormatIsClockTime | server/src/modules/human-handoffs/utils/working-hours.util.ts:162 | every time the format accepts is the `HH:mm` rendering of its own minutes, after a leading zero for a one-digit hour, so the format accepts exactly the times of a day |
| WorkingHours.AllDayErrorsSnoc | server/src/modules/human-handoffs/utils/working-hours.util.ts:155-175 | the errors of one more day are appended after the others |
| WorkingHours.DayErrorsEmptyIff | server/src/modules/human-handoffs/utils/working-hours.util.ts:155-175 | as written, a day adds no error exactly when it has hours, both times match the time format, and start < end as strings |
| WorkingHours.DayErrors | server/src/modules/human-handoffs/utils/working-hours.util.ts:155-175 | as written: a missing day gets the not-configured error; a configured one gets one error per malformed time plus the ordering error, last, exactly when the end is not after the start as strings |
| WorkingHours.AllDayErrorsEmptyIff | server/src/modules/human-handoffs/utils/working-hours.util.ts:155-175 | the day checks add no error exactly when every listed day is valid by minutes |
| WorkingHours.CollectDayErrors | server/src/modules/human-handoffs/utils/working-hours.util.ts:155-175 | the `forEach` loop collects the per-day errors of the corrected check in day order |
| WorkingHours.ValidateWorkingHours | server/src/modules/human-handoffs/utils/working-hours.util.ts:143-181 | the errors are the no-day error for an empty list, then the per-day errors; well-formed times are compared in minutes and malformed ones as strings, as in the source (see Findings); valid exactly when there are none |
| WorkingHours.ValidationIff | server/src/modules/human-handoffs/utils/working-hours.util.ts:143-181 | a configuration is valid exactly when at least one day is listed and every listed day has hours, well-formed times and a start before the end |
| WorkingHours.PaddedTimesCompareAsMinutes | server/src/modules/human-handoffs/utils/working-hours.util.ts:172 | for zero-padded `HH:mm` times, string order is time order |
| WorkingHours.SingleDigitStartRejected | server/src/modules/human-handoffs/utils/working-hours.util.ts:172 | "9:00"–"17:00" passes the format check and is a real interval, yet it is rejected as "start not before end" (see Findings) |
| WorkingHours.DayErrorsIntended | server/src/modules/human-handoffs/utils/working-hours.util.ts:155-175 | the corrected day check adds no error exactly when the day is valid by minutes; it differs from the check as written only in comparing two well-formed times by minutes |
| WorkingHours.IntendedAgreesOnPaddedTimes | server/src/modules/human-handoffs/utils/working-hours.util.ts:172 | when both times have five characters, well formed or not, the corrected check reports exactly the errors of the check as written, so the two agree on validity |
| WorkingHours.MalformedStartKeepsOrderingError | server/src/modules/human-handoffs/utils/working-hours.util.ts:164-174 | monday "25:00"–"17:00" gets both the format error and the ordering error, from the check as written and the corrected one alike |
| WorkingHours.IntendedAcceptsSingleDigitStart | server/src/modules/human-handoffs/utils/working-hours.util.ts:172 | the corrected check accepts "9:00"–"17:00" |
| WorkingHours.Capitalize | server/src/modules/human-handoffs/utils/working-hours.util.ts:132 | the first character is upper-cased (ASCII letters only, see Left out) and the rest is kept, so the length does not change |
| WorkingHours.ConfiguredDays | server/src/modules/human-handoffs/utils/working-hours.util.ts:129-135 | the schedule's days are exactly the listed days that have hours |
| WorkingHours.ScheduleEntries | server/src/modules/human-handoffs/utils/working-hours.util.ts:129-135 | one `Day: start - end` entry per configured day, in input order |
| WorkingHours.ScheduleEntriesSnoc | server/src/modules/human-handoffs/utils/working-hours.util.ts:129-135 | one more day adds its entry at the end exactly when it has hours |
| WorkingHours.FormatWorkingSchedule | server/src/modules/human-handoffs/utils/working-hours.util.ts:123-138 | the loop builds the entries, joined by ", " |
| WorkingHours.BeforeSign | server/src/modules/human-handoffs/utils/working-hours.util.ts:189 | the first piece of `split(/[+-]/)` is the prefix before the first sign |
| WorkingHours.ParseTimezone | server/src/modules/human-handoffs/utils/working-hours.util.ts:186-192 | a timezone with a sign is cut before its first `+` or `-`; one without is returned unchanged |
| WorkingHours.ParseTimezoneIdempotent | server/src/modules/human-handoffs/utils/working-hours.util.ts:186-192 | parsing twice changes nothing more |
| WorkingHours.Pad2 | server/src/modules/human-handoffs/utils/working-hours.util.ts:46 | `padStart(2, '0')` gives two digits with the same value |
| WorkingHours.ClockTime | server/src/modules/human-handoffs/utils/working-hours.util.ts:46 | the current time is rendered as five-character `HH:mm` denoting that minute of the day |
| WorkingHours.IsWorkingTime | server/src/modules/human-handoffs/utils/working-hours.util.ts:45-59 | as written: working time only on a listed day that has hours, with the padded current time between start and end as strings |
| WorkingHours.WorkingTimeIsInterval | server/src/modules/human-handoffs/utils/working-hours.util.ts:45-59 | with zero-padded hours, it is working time exactly when the day is listed and start ≤ now ≤ end in minutes |
| WorkingHours.TenAfterSingleDigitStartIsOff | server/src/modules/human-handoffs/utils/working-hours.util.ts:59 | Monday 10:00 with hours "9:00"–"17:00" is reported as outside working hours (see Findings) |
| WorkingHours.IsWorkingTimeIntended | server/src/modules/human-handoffs/utils/working-hours.util.ts:45-59 | the corrected check compares minutes: for a listed, valid day it is working time exactly when start ≤ now ≤ end |
| WorkingHours.IntendedTenAfterSingleDigitStartIsOn | server/src/modules/human-handoffs/utils/working-hours.util.ts:59 | the corrected check puts Monday 10:00 inside "9:00"–"17:00" |
| SmartAnalytics.UserContents | server/src/modules/analytics/smart-analytics.service.ts:169-172 | only message-sent events contribute contents (a missing content is ""), so there are never more contents than events |
| SmartAnalytics.FirstMatching | server/src/modules/analytics/smart-analytics.service.ts:259-263 | the scan stops at the first category whose keywords occur, and no earlier category matches |
| SmartAnalytics.DetectCategory | server/src/modules/analytics/smart-analytics.service.ts:250-266 | over the decoded keyword table (the corrected definition; see Findings): "general" exactly when no declared category's keywords occur; otherwise a category whose keywords occur and before which no category matches |
| SmartAnalytics.FeeQuestionsAreTuition | server/src/modules/analytics/smart-analytics.service.ts:252 | with the decoded keyword table (the corrected definition; see Findings), any content containing "phí" is classified as tuition fees, whatever else it mentions |
| SmartAnalytics.TranslateInjective | server/src/modules/analytics/smart-analytics.service.ts:309-320 | distinct categories have distinct display names, so translation keeps the grouping |
| SmartAnalytics.Translate | server/src/modules/analytics/smart-analytics.service.ts:309-320 | with the decoded display names (the corrected definition; see Findings), every category has a non-empty display name, so the fallback to the raw category key never applies |
| SmartAnalytics.DetectSentiment | server/src/modules/analytics/smart-analytics.service.ts:268-278 | over the decoded word lists (the corrected definition; see Findings): neutral exactly when as many positive as negative words occur; positive or negative by strict majority |
| SmartAnalytics.NoListedWordIsNeutral | server/src/modules/analytics/smart-analytics.service.ts:272-277 | content with no listed word is neutral |
| SmartAnalytics.OneSidedWordsDecide | server/src/modules/analytics/smart-analytics.service.ts:272-277 | only positive words give positive; only negative words give negative |
| SmartAnalytics.ContainsPrefixOf | server/src/modules/analytics/smart-analytics.service.ts:270 | content containing a word contains each of its prefixes |
| SmartAnalytics.CountContainedTwo | server/src/modules/analytics/smart-analytics.service.ts:272-273 | two distinct listed words that both occur count at least two |
| SmartAnalytics.NotUnderstoodOutweighsOnePositive | server/src/modules/analytics/smart-analytics.service.ts:270-276 | with the decoded negative list (the corrected definition; see Findings), "không hiểu" counts twice (it contains "không"), so it outweighs a single positive word |
| SmartAnalytics.AppendingNeverSimplifies | server/src/modules/analytics/smart-analytics.service.ts:280-289 | making a message longer never lowers its complexity |
| SmartAnalytics.DetectComplexity | server/src/modules/analytics/smart-analytics.service.ts:280-289 | complex exactly when the message is longer than 200 characters, has more than 30 words or more than one '?'; medium exactly when it is not complex and is longer than 50 characters or has more than 10 words |
| SmartAnalytics.TwoQuestionsAreComplex | server/src/modules/analytics/smart-analytics.service.ts:283-286 | any message with two question marks is complex |
| SmartAnalytics.MessageAccuracy | server/src/modules/analytics/smart-analytics.service.ts:291-307 | with the decoded accent class (the corrected definition; see Findings), the accuracy lies in [0.75, 1]; it is 0.75 with none of the three features and 1 with all of them |
| SmartAnalyticsAsWritten.DetectCategoryAsWritten | server/src/modules/analytics/smart-analytics.service.ts:250-266 | over the keyword table as written: "general" exactly when no category's written keywords occur; any other result has one of its written keywords in the content |
| SmartAnalyticsAsWritten.MarkedWordsAbsent | server/src/modules/analytics/smart-analytics.service.ts:252-256 | a written keyword holding a Thai character never occurs in a message without Thai characters |
| SmartAnalyticsAsWritten.ThaiFreeCategoryAsWritten | server/src/modules/analytics/smart-analytics.service.ts:250-266 | on text without Thai characters the table as written gives admissions exactly when "thi" occurs, else programs when "khoa" occurs, else career when "job" or "career" occurs, else "general"; tuition fees and facilities are never chosen |
| SmartAnalyticsAsWritten.AdmissionsAsWritten | server/src/modules/analytics/smart-analytics.service.ts:253 | on text without Thai characters the written admissions row matches exactly when "thi" occurs |
| SmartAnalyticsAsWritten.ProgramsAsWritten | server/src/modules/analytics/smart-analytics.service.ts:254 | on text without Thai characters the written programs row matches exactly when "khoa" occurs |
| SmartAnalyticsAsWritten.CareerAsWritten | server/src/modules/analytics/smart-analytics.service.ts:256 | on text without Thai characters the written career row matches exactly when "job" or "career" occurs |
| SmartAnalyticsAsWritten.FeeQuestionAsWrittenIsGeneral | server/src/modules/analytics/smart-analytics.service.ts:252 | "học phí" is classified "general" as written and as tuition fees with the decoded table |
| SmartAnalyticsAsWritten.FeeQuestionFacts | server/src/modules/analytics/smart-analytics.service.ts:252-256 | "học phí" has no Thai character, contains "phí" and none of "thi", "khoa", "job", "career" |
| SmartAnalyticsAsWritten.DetectSentimentAsWritten | server/src/modules/analytics/smart-analytics.service.ts:268-278 | over the word lists as written: positive, negative or neutral exactly as the written positive count is greater than, less than or equal to the written negative count |
| SmartAnalyticsAsWritten.ThaiFreeSentimentAsWritten | server/src/modules/analytics/smart-analytics.service.ts:269-273 | on text without Thai characters the written lists count only "hay", "ok", "good", "thanks" and "bad", "difficult" |
| SmartAnalyticsAsWritten.NotUnderstoodAsWrittenIsNeutral | server/src/modules/analytics/smart-analytics.service.ts:270-277 | "không hiểu" is neutral as written and negative with the decoded lists |
| SmartAnalyticsAsWritten.TranslateAsWritten | server/src/modules/analytics/smart-analytics.service.ts:309-320 | every display name as written is non-empty, and equals the decoded name only for "general" |
| SmartAnalyticsAsWritten.LettersAsWrittenAreMarks | server/src/modules/analytics/smart-analytics.service.ts:302 | every character of the accent class as written is a Thai character, a C1 control or a no-break space |
| SmartAnalyticsAsWritten.MessageAccuracyAsWritten | server/src/modules/analytics/smart-analytics.service.ts:291-307 | with the accent class as written, the accuracy still lies in [0.75, 1] |
| SmartAnalyticsAsWritten.AccentBonusNeedsMarks | server/src/modules/analytics/smart-analytics.service.ts:302-303 | a message without Thai characters, C1 controls or no-break spaces never earns the accent bonus as written |
| SmartAnalyticsAsWritten.AccentBonusLostAsWritten | server/src/modules/analytics/smart-analytics.service.ts:302-303 | the message "á" scores 0.75 as written and 0.8 with the decoded class |
| SmartAnalytics.FirstSeenSpec | server/src/modules/analytics/smart-analytics.service.ts:187 | the entries of the counting map, in insertion order, are the distinct keys and nothing else |
| SmartAnalytics.CountOfPositive | server/src/modules/analytics/smart-analytics.service.ts:178-184 | a key's count is positive exactly when it occurs |
| SmartAnalytics.FirstSeenCounted | server/src/modules/analytics/smart-analytics.service.ts:187-191 | every grouped key has a positive count, so the average is defined |
| SmartAnalytics.ScoreSumAbsent | server/src/modules/analytics/smart-analytics.service.ts:183 | a key not yet seen has an accuracy sum of 0 |
| SmartAnalytics.ScoreSumBounds | server/src/modules/analytics/smart-analytics.service.ts:178-184 | a key's accuracy sum lies between count × the lowest and count × the highest score |
| SmartAnalytics.GroupTally | server/src/modules/analytics/smart-analytics.service.ts:171-185 | the `forEach` over a `Map` leaves exactly the occurring keys, in first-seen order, each with its count and accuracy sum |
| SmartAnalytics.GroupRows | server/src/modules/analytics/smart-analytics.service.ts:187-192 | one row per distinct key in first-seen order, with its positive count |
| SmartAnalytics.EntryRows | server/src/modules/analytics/smart-analytics.service.ts:171-192 | the tally and the entry map compute `GroupRows` |
| SmartAnalytics.GroupRowsAverageBounds | server/src/modules/analytics/smart-analytics.service.ts:191 | every average lies within the range of the scores |
| SmartAnalytics.InsertByCountPermutes | server/src/modules/analytics/smart-analytics.service.ts:193 | inserting adds exactly the row |
| SmartAnalytics.InsertByCountBounded | server/src/modules/analytics/smart-analytics.service.ts:193 | inserting keeps an upper bound on the counts |
| SmartAnalytics.InsertByCountDescending | server/src/modules/analytics/smart-analytics.service.ts:193 | inserting into a list in descending count order keeps that order |
| SmartAnalytics.InsertByCountStable | server/src/modules/analytics/smart-analytics.service.ts:193 | among rows of one count, the inserted row goes first; since insertion runs from the back, that is its original place |
| SmartAnalytics.SortByCountSpec | server/src/modules/analytics/smart-analytics.service.ts:193 | `sort((a, b) => b.count - a.count)` yields descending counts and a permutation, and it is stable: rows of equal count keep their order |
| SmartAnalytics.CategoryKeys | server/src/modules/analytics/smart-analytics.service.ts:172-173 | each user message is classified on its lower-cased content |
| SmartAnalytics.CategoryScores | server/src/modules/analytics/smart-analytics.service.ts:172-176 | each user message is scored on its lower-cased content |
| SmartAnalytics.Translated | server/src/modules/analytics/smart-analytics.service.ts:189 | translation renames the keys and keeps counts and averages |
| SmartAnalytics.CategorizeQuestions | server/src/modules/analytics/smart-analytics.service.ts:166-195 | the method computes `TopCategories` |
| SmartAnalytics.TopOfSorted | server/src/modules/analytics/smart-analytics.service.ts:193-194 | the first `n` of the sorted rows: at most `n`, descending, drawn from the rows, and no row left out has a higher count than a row kept |
| SmartAnalytics.PrefixOfDescending | server/src/modules/analytics/smart-analytics.service.ts:194 | a prefix of a descending list is descending and dominates what it leaves out |
| SmartAnalytics.CategoryRowsBounds | server/src/modules/analytics/smart-analytics.service.ts:187-192 | every category row has a positive count and an average accuracy in [0.75, 1] |
| SmartAnalytics.TopCategoriesSpec | server/src/modules/analytics/smart-analytics.service.ts:166-195 | at most five categories, in descending count order, taken from the grouped rows, each with positive count and average in [0.75, 1]; no category left out has a higher count than one kept |
| SmartAnalytics.CategoryRowsCount | server/src/modules/analytics/smart-analytics.service.ts:178-192 | each category row counts exactly the user messages detected as that category |
| SmartAnalytics.ComplexityKeys | server/src/modules/analytics/smart-analytics.service.ts:229-230 | each user message is classified on its content as written, not lower-cased |
| SmartAnalytics.ComplexityScores | server/src/modules/analytics/smart-analytics.service.ts:229-231 | each user message is scored on its content as written |
| SmartAnalytics.AnalyzeComplexity | server/src/modules/analytics/smart-analytics.service.ts:223-247 | the grouped complexity rows in first-seen order, never more than three |
| SmartAnalytics.AtMostThreeLevels | server/src/modules/analytics/smart-analytics.service.ts:280-289 | distinct complexity levels number at most three |
| SmartAnalytics.SentimentTalliesSum | server/src/modules/analytics/smart-analytics.service.ts:205-209 | each user message is counted under exactly one sentiment |
| SmartAnalytics.AnalyzeSentiment | server/src/modules/analytics/smart-analytics.service.ts:200-218 | three rows: positive, neutral, negative. Each has its tally of the user messages (the loop's counts) and that tally's percentage of them (of 1 when there are none). The counts sum to the number of user messages |
| SmartAnalytics.PercentagesSumToHundred | server/src/modules/analytics/smart-analytics.service.ts:211-217 | the three percentages sum to 100, or to 0 when there are no user messages |
| SmartAnalytics.AnalysisPercentagesInRange | server/src/modules/analytics/smart-analytics.service.ts:211-217 | each percentage lies in [0, 100] |
| SmartAnalytics.CalculateSatisfaction | server/src/modules/analytics/smart-analytics.service.ts:413-425 | the result lies in [0, 1]; it is the raw weighted score when that is in range, else clamped to the nearer bound |
| SmartAnalytics.SatisfactionNeverClampedToZero | server/src/modules/analytics/smart-analytics.service.ts:415-424 | with percentages in [0, 100] and accuracy and helpfulness in [0, 1], satisfaction is at least 0.3 |
| SmartAnalytics.PercentageOfInRange | server/src/modules/analytics/smart-analytics.service.ts:415-416 | a looked-up percentage (0 when missing) stays in [0, 100] |
| SmartAnalytics.SatisfactionMonotoneInAccuracy | server/src/modules/analytics/smart-analytics.service.ts:421-424 | higher accuracy never lowers satisfaction |
| Text.ContainsIff | rag_admissions_consulting/src/core/query_analyzer.py:199 | Python's `sub in s` holds exactly when `sub` occurs at some index of `s` |
| Text.CountContained | server/src/modules/analytics/smart-analytics.service.ts:272-273 | `words.filter(w => content.includes(w)).length` is at most the number of words, and positive exactly when some word occurs |
| Text.ContainedWordChars | server/src/modules/analytics/smart-analytics.service.ts:260 | every character of a word that occurs in `s` occurs in `s` |
| Text.NoWordOccurs | server/src/modules/analytics/smart-analytics.service.ts:260 | no word of a list occurs when each has a character missing from `s` |
| Text.ContainsAnyAppend | server/src/modules/analytics/smart-analytics.service.ts:260 | some word of `a + b` occurs exactly when some word of `a` or of `b` does |
| Text.CountContainedConcat | server/src/modules/analytics/smart-analytics.service.ts:272-273 | the count over `a + b` is the count over `a` plus the count over `b` |
| Text.CountContainedAppend | rag_admissions_consulting/src/core/query_analyzer.py:198-200 | counting over one more keyword adds one exactly when that keyword occurs |
| Text.PyTail | rag_admissions_consulting/src/shared/conversation_memory.py:44 | Python's `s[-n:]` is a suffix: the last `n` elements for positive `n`, everything for `n == 0`, and it drops `−n` leading elements for negative `n` |
| Text.Take | server/src/modules/analytics/smart-analytics.service.ts:194 | `slice(0, n)` is the prefix of length `min(n, len(s))` |
| Text.TrimStartSpec | rag_admissions_consulting/src/services/suggestion_service.py:112 | the left trim removes exactly a run of leading whitespace |
| Text.TrimEndSpec | rag_admissions_consulting/src/services/suggestion_service.py:112 | the right trim removes exactly a run of trailing whitespace |
| Text.StripSpec | rag_admissions_consulting/src/services/suggestion_service.py:108-112 | `strip()` is the middle slice with whitespace removed from both ends, and starts and ends in non-whitespace |
| Text.LStripCharsSpec | rag_admissions_consulting/src/services/suggestion_service.py:115 | `lstrip(chars)` removes exactly the longest prefix made of those characters |
| Text.SplitOn | rag_admissions_consulting/src/services/suggestion_service.py:108 | `split("\n")` yields at least one piece and no piece contains the separator |
| Text.SkipSpacesAppend | server/src/modules/analytics/smart-analytics.service.ts:282 | skipping leading whitespace that ends inside `s` is unaffected by what follows `s` |
| Text.SpaceRunsAppend | server/src/modules/analytics/smart-analytics.service.ts:282 | extending a string never lowers its `split(/\s+/)` piece count |
| Text.Lower | rag_admissions_consulting/src/core/query_analyzer.py:155 | lower-casing keeps the length and maps each character separately |
| Text.NatToString | rag_admissions_consulting/src/core/context_manager.py:138-139 | a decimal rendering is non-empty and all digits |
| Text.NatToStringValue | rag_admissions_consulting/src/ood_agent.py:150 | reading a decimal rendering back as digits gives the number it was written from |
| Text.LexLeTotal | server/src/modules/human-handoffs/utils/working-hours.util.ts:172 | JavaScript string comparison is total |
| Text.LexLeAntisym | server/src/modules/human-handoffs/utils/working-hours.util.ts:172 | JavaScript string comparison is antisymmetric |
| Text.ConcatEnds | rag_admissions_consulting/src/core/prompt_engine.py:95-126 | a concatenation starts with its first part and ends with its second |
| Text.ConcatAppend | rag_admissions_consulting/src/services/chat_service.py:74-80 | accumulating the pieces of two lists one after the other gives the accumulation of the first followed by that of the second |

## Left out

- Clocks, uuid4, the network, the database, the WebSocket gateway and the language model are not called. Each becomes a parameter:
  - `now` (seconds in the Python service, milliseconds in the server);
  - `freshId`;
  - the model's reply or its absence;
  - the token stream together with the position of a failure;
  - the stored sessions and configurations.
- Logging, `print` debugging and `async` scheduling are left out; each modelled call completes before the next starts.
- Floating point: Python floats and JavaScript numbers are modelled as exact reals. Rounding of `x / n * 0.7`, of percentages and of satisfaction is not modelled.
- OutOfDomain.Fixed2: `:.2f` is modelled as rounding half up, so its behaviour on exact binary ties is not captured.
- PromptEngine.CreateContextAwarePrompt: the system text is handed to `ChatPromptTemplate.from_messages` as an f-string template, and it holds the stored message contents (prompt_engine.py:129-136, 162). A stored message with an unmatched `{` or `}` makes `from_messages` raise `ValueError`, and one with a balanced `{name}` adds a template variable that the later formatting call does not supply, so the chain fails there. The model always returns the four parts; this failure and the un-escaping of `{{`/`}}` in the rendered text are not captured.
- Characters:
  - lower-casing covers ASCII and the Vietnamese capitals;
  - upper-casing (WorkingHours.Capitalize, through Text.UpperChar) covers the ASCII letters `a`–`z` only; JavaScript's `toUpperCase` maps other letters too and can lengthen a character (`ß` becomes `SS`), which is not captured;
  - whitespace is the six ASCII whitespace characters (space, `\t`, `\n`, `\v`, `\f`, `\r`) and U+00A0; Python's `strip` also removes `\x1c`–`\x1f`, U+0085 and the other Unicode spaces, and JavaScript's `\s` the other Unicode spaces, which is not captured;
  - `\w` in the query patterns covers ASCII letters, digits, `_` and the Vietnamese letters.
  Other Unicode behaviour is not captured. JavaScript string length is taken as the number of characters, not of UTF-16 units.
- SmartAnalytics.MessageAccuracy: `Math.min(accuracy, 1.0)` is modelled on exact reals. In floating point 0.75 + 0.1 + 0.1 + 0.05 may differ from 1 in the last bit.
- The sources of the role and model-type enumerations and of the out-of-domain settings are not part of this model:
  - `shared/enum.py`;
  - `ood_config.py`;
  - the server's configuration-type enumeration.
  The role values "USER", "ASSISTANT" and "SYSTEM" and the configuration types "default" and "override" are assumed. The out-of-domain default response and threshold are parameters.
- `ood_agent.py` checks education relevance a second time after a low score (lines 140-145). By then the first check has already returned, so that code is dead and is not modelled separately.
- ConversationContext: the optional backend history manager is always absent in the source, so its branches are not modelled.
- ContextCaching: `get_context_summary` is not modelled; it is logging-oriented text.
- ConversationMemoryModel:
  - `get_context_summary`, `save_to_file` and `load_from_file` (JSON files) are not modelled;
  - metadata is a map from strings to strings;
  - `fromisoformat` is modelled only for the three forms `isoformat()` writes;
  - `from_dict` also mutates its argument dictionary, and that is not captured.
- ChatHistory: the background save queue processing (`_process_save_queue`), `get_conversation_context_async`'s API read, and `get_conversation_id`/`set_conversation_id` are not modelled. The queue is only appended to.
- ChatOrchestration: `get_conversation_summary` and `clear_context` of `chat_service.py` (lines 130-137) are one-line delegations to the context manager operations modelled in ConversationContext. The RAG engine itself is not part of this model; its output is the token parameter.
- Suggestions:
  - the text of the suggestion prompt is not modelled;
  - GenerateSuggestions computes the context it would send but does not model the prompt built from it.
- BackendConfig:
  - `fetch_config`, `fetch_config_sync` and the two `load_config_from_backend` wrappers (HTTP reads) are not modelled;
  - a settings object whose `personality` or `contact_info` is not a dictionary is modelled as one without that dictionary.
- ChatbotConfig:
  - repository reads are parameters, `storedDefault` and `newestOverride`;
  - spreading a string or an array (`{ ...v }` over their indices) is modelled as contributing no properties;
  - the default configuration object is a value, so the merge cannot mutate it.
- HumanHandoffs:
  - the repository is a sequence of sessions whose position is the session id;
  - `findOne` with an order picks the newest matching session, and without an order the oldest, which is assumed;
  - an empty `where` array matches any session;
  - failures of the history save are swallowed in the source and not modelled;
  - `end` (lines 389-415) repeats `endHandoff` with another not-found message and is not modelled separately;
  - `getAdminNotifications`, `getAdminSessions`, `findAll`, `findById`, `update` and `remove` are not modelled; they are repository queries.
- HumanHandoffs.HumanHandoffsService.AcceptHandoff: like the source, it does not check whether the 60-second wait has run out.
- WorkingHours:
  - `getNextWorkingTime`, `getOutsideWorkingHoursMessage` and the time-zone conversion of `isWorkingTime` depend on `Date` and are not modelled; `isWorkingTime` takes the local day and time as inputs;
  - its `catch` branch is not modelled;
  - day names that coincide with `Object.prototype` properties are not modelled.
- SmartAnalytics: these parts are not modelled:
  - `calculateAccuracy`, `calculateRelevance`, `calculateHelpfulness`, `calculateMetrics` (quality score and trend) and `getDefaultMetrics`;
  - `generateSatisfactionStats`, which is randomised;
  - the SQL queries and the response-time percentiles.
  Events are given as a list.

## Findings

| source | as written | input that shows it | evidently intended | confidence | as-written member | corrected member |
|---|---|---|---|---|---|---|
| rag_admissions_consulting/src/shared/conversation_memory.py:43-44 | the trim slices `messages[-max_messages:]` | `max_messages = 0`, one message added: `[-0:]` keeps the whole list | a cap of zero keeps no messages | not executed | ConversationMemoryModel.ZeroCapNeverTrims | ConversationMemoryModel.KeptIntended |
| rag_admissions_consulting/src/shared/conversation_memory.py:43-44 | the trim slices `messages[-max_messages:]` for a negative cap as well | `max_messages = -1`, `b` added to `[a]`: `[1:]` keeps `[b]`, dropping the oldest message instead of capping | a negative cap, like zero, keeps no messages | not executed | ConversationMemoryModel.NegativeCapDropsOldest | ConversationMemoryModel.KeptIntended |
| server/src/modules/human-handoffs/utils/working-hours.util.ts:172 | start and end are compared as strings, while the format check at line 163 accepts one-digit hours | monday "9:00"–"17:00": "9:00" >= "17:00" as strings, so a valid schedule is rejected | compare well-formed times in minutes; malformed ones keep the string comparison, so their errors are unchanged | not executed | WorkingHours.SingleDigitStartRejected | WorkingHours.DayErrorsIntended |
| server/src/modules/human-handoffs/utils/working-hours.util.ts:59 | the zero-padded current time is compared as a string with a possibly one-digit start | Monday 10:00 with hours "9:00"–"17:00": "10:00" < "9:00" as strings, so the check reports outside working hours | compare the times in minutes | not executed | WorkingHours.TenAfterSingleDigitStartIsOff | WorkingHours.IsWorkingTimeIntended |
| server/src/modules/analytics/smart-analytics.service.ts:252-256 | the keyword literals are Vietnamese UTF-8 read through code page 874, so every Vietnamese keyword holds a Thai character; only "thi", "khoa", "job" and "career" can match real text | "học phí": no written keyword occurs, so the question is classified "general" | classify it as tuition fees, as the decoded table does | not executed | SmartAnalyticsAsWritten.FeeQuestionAsWrittenIsGeneral | SmartAnalytics.FeeQuestionsAreTuition |
| server/src/modules/analytics/smart-analytics.service.ts:269-270 | the sentiment words are garbled the same way; only the English words can match | "không hiểu": no written word occurs, so it is neutral | negative, as the decoded lists give | not executed | SmartAnalyticsAsWritten.NotUnderstoodAsWrittenIsNeutral | SmartAnalytics.NotUnderstoodOutweighsOnePositive |
| server/src/modules/analytics/smart-analytics.service.ts:302 | the accent class is garbled the same way: it holds only Thai characters, C1 controls and U+00A0 | "á": no character of the written class occurs, so the accuracy is 0.75 | 0.8, with the 0.05 bonus for Vietnamese letters | not executed | SmartAnalyticsAsWritten.AccentBonusLostAsWritten | SmartAnalytics.MessageAccuracy |
| server/src/modules/analytics/smart-analytics.service.ts:311-315 | the display names are garbled the same way | category "tuition_fees": the name shown differs from "Học phí" | the Vietnamese names, distinct per category | not executed | SmartAnalyticsAsWritten.TranslateAsWritten | SmartAnalytics.TranslateInjective |
