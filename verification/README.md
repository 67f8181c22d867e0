# Verification of the Jira agent's protocols

The server answers Jira questions for an MCP host. Most of what can go wrong in it is protocol:
a question is asked, remembered, answered in a later call and learned for the team; a briefing
stops at any topic and resumes in a later call; concurrent fetches share caches, locks and a
semaphore. This project models these protocols in Dafny and proves what they keep, over all
inputs, all replies of the language model, Jira, Confluence and the user, and all runs or
interleavings.

Everything outside the server is an argument: one `World` holds every reply a query call can
consume (clock, language model, elicitation, backend), a `Turn` does so for a briefing call, a
schedule of actions stands for the event loop. Code that updates state is a class whose methods
are proved against functions on values; the properties are lemmas about these functions.

| modules | subject |
|---|---|
| `Collections`, `Text` | Python slices, insertion-ordered dicts, deduplication, ASCII case folding |
| `TtlStores`, `Conventions`, `Sessions` | the session stores, the learned conventions, the clarification states |
| `Clarification`, `ClarificationFacts`, `ClarificationHints`, `ClarificationReplies`, `ClarificationRuns`, `ClarificationExamples`, `Orchestrators` | one query call, what it guarantees, the meanings it sends, what the caller is told, runs of calls under both stores, concrete runs, the orchestrator over mutable sessions |
| `Briefings`, `BriefingRuns`, `BriefingTraces`, `BriefingProgress`, `BriefingOrchestrators` | the resumable topic loop, its composition with the query calls, the calls each turn makes, progress, the briefing orchestrator |
| `SingleFlight`, `SingleFlightRuns`, `SingleFlightOrigins`, `ResearchPools` | page and extraction caches under locks and a semaphore, as interleaved steps, and where their contents come from |
| `IssueAnalysis`, `IssueCacheLaws`, `IssueAnalysers` | facts, the FIFO analysis cache, when it answers, concurrent analysis |
| `Sorting`, `Ranking`, `Sections`, `SectionFacts`, `SectionBuilders` | stable top-N ranking, the issue budget, the sections of a briefing |
| `SearchMerge`, `SearchFacts`, `ReportTable` | merging pinned pages with keyword hits, the markdown issue table |

## Findings

Where the code does less than its documentation or the obvious claim, the code is modelled as it
is, the exact condition is proved, and a concrete input shows the failure.

- `StateTransitionError` (RESOLVED to RESOLVED) is raised exactly when a session that is RESOLVED,
  because it just consumed an answer or because an earlier call left it so, has an open term and
  rounds left and its next question is answered by elicitation (`TransitionErrorExactly`). Two
  calls reach it with either store (`TransitionErrorReachable`); with live objects a call without
  an answer reaches it after one that raised (`LiveSessionLeftResolved`). Without elicitation no
  run raises it (`NoElicitationNoTransitionError`).
- The two session stores differ exactly after a call that raised, before its request to the
  backend, having formulated a question for the session it read (`StoresAgreeExactly`,
  `StoreRefinement`). A live object then keeps what no call would store: RESOLVED with its old
  question and part of its budget used (`SessionOk`, `LiveSessionLeftResolved`).
- A call can also raise after it stored its session: the backend client refuses a limit below 1
  outside its error handling. That is the outcome `InvalidRequest`.
- "Never asked twice" holds for new questions. A question about a known term is put exactly when a
  call repeats a pending query without an answer (`KnownTermReissuedExactly`,
  `LearnedTermAskedAgain`).
- With live objects one session has at most as many useful answers as the vocabulary has terms.
  With a serialising store this holds for the calls that wrote the session; calls that raise
  before that can consume answers and put questions without any bound (`RaisedCallsUnbounded`).
- An elicited answer that also gives a new meaning to a term that was not asked about is learned,
  but the query goes out with the old meaning of that term. Otherwise every settled term is sent
  with the meaning that session and team hold after the call (`TermsSentAsMeant`, `OldHintSent`).
- The answer to a zero-result or execution-error re-ask is not consumed
  (`ReaskStoresDispatched`, `AnswerConsumedOnlyWhenAwaiting`), so one topic for which the backend
  keeps finding nothing blocks a briefing for ever, whichever turns raise and are tried again
  (`StuckTopicNeverReady`).
- A briefing's answer goes to whatever question the topic's session still has pending, also one
  about another query; the reply to that query then counts as the topic's answer. In every other
  case a final answer is the reply to the topic's own query (`FinalAnswerIsForTopic`,
  `OldQueryAnswered`).
- A resumed briefing loses the top-level errors of topics finished in earlier turns
  (`ErrorsSurviveExactly`, `WarningLost`).
- Without a forced refresh the page cache is read by page id alone, so an extraction can be filed
  under a newer last-modified stamp than that of the HTML it was made from
  (`OldHtmlUnderNewStamp`); a forced one is made from the page that the same call fetched
  (`ResultsAreOwnAndFresh`).
- `days_blocked` is documented as the continuously blocked time; a move from one blocked status
  to another restarts it (`DaysBlockedVersusStretch`, `MoveRestartsCount`).
- Overwriting an entry of a full analysis cache evicts another one as well (`SizeAfterWrite`), and
  a hit does not notice a change of assignee (`ReassignmentIsNotNoticed`).
- A negative cap, limit or row maximum is a Python slice from the end, so the limit is exceeded
  (`CapHonouredExactly`, `NegativeCapKeepsOne`, `NegativeLimit`, `NegativeLimitExample`,
  `RowsAddUpExactly`, `NegativeMaximum`).

## Model

| member | source | states |
|---|---|---|
| TtlStores.TtlStore.Get | memory/session_store.py:122-130 | returns the value if it is not expired at the time of the read, and drops an expired entry |
| TtlStores.TtlStore.Set | memory/session_store.py:132-133 | the entry is replaced and its lifetime starts again; other entries stay |
| TtlStores.TtlStore.Delete | memory/briefing_session_store.py:79-80 | the entry is gone, the others stay; absent ids are ignored |
| TtlStores.GetRefinesHistory | memory/session_store.py:117-136 | with a monotone clock a read returns a value if and only if the last write of the id set it less than the ttl ago |
| TtlStores.LazyDeletionUnobservable | memory/briefing_session_store.py:66-80 | removing every earlier read, with its lazy deletion, changes no later read |
| TtlStores.ClockMustNotGoBack | memory/session_store.py:127-129 | with a clock that goes back a remembered value can be missed |
| Conventions.Load | memory/conventions_store.py:67-76 | whatever the list holds, each convention ends up under its own normalised key |
| Conventions.ConventionsStore.constructor | memory/conventions_store.py:59-61 | a new store is the persisted list, loaded |
| Conventions.ConventionsStore.Persist | memory/conventions_store.py:78-84 | the persisted list is the stored values in insertion order |
| Conventions.ConventionsStore.Get | memory/conventions_store.py:86-90 | the project's convention, else the instance default |
| Conventions.ConventionsStore.Set | memory/conventions_store.py:92-95 | records the convention under its key and persists |
| Conventions.ConventionsStore.ListAll | memory/conventions_store.py:97-98 | all conventions in insertion order |
| Conventions.ConventionsStore.Delete | memory/conventions_store.py:100-104 | removes the key, says whether it was there, and persists only then |
| Conventions.EditsKeepFiled | memory/conventions_store.py:63-104 | after any sets and deletes every key is the normalised key of its value |
| Conventions.PersistLoadRoundTrip | memory/conventions_store.py:67-84 | loading what was persisted rebuilds the same map, order included |
| Conventions.RestartKeepsLookups | memory/conventions_store.py:86-90 | after any run a restart changes no project-then-default lookup |
| Conventions.LastEditWins | memory/conventions_store.py:92-104 | an exact lookup gives the last convention set under the key since its last delete, else the loaded one |
| Conventions.LookupPrefersProject | memory/conventions_store.py:63-90 | after any edits a lookup gives what was last said about the term in the project, and only if that is nothing, what was last said about it for the instance; upper and lower case are the same |
| Conventions.LoadedInOrder | memory/conventions_store.py:67-76 | the loaded conventions are listed in the order in which their keys first occur |
| Sessions.SessionState.Transition | memory/session_store.py:86-92 | moves to the new state if the table allows it and otherwise changes nothing |
| Sessions.RefusedExactly | memory/session_store.py:31-60 | the table refuses only to make an idle or resolved session idle and to resolve a resolved one |
| Clarification.FilterProperties | core/intent_classifier.py:23-25 | detection gives exactly the matching vocabulary terms, without duplicates if the vocabulary has none |
| Clarification.SplitProperties | core/orchestrator.py:224-244 | detected terms are partitioned into settled and unresolved; a session resolution wins over a learned convention |
| ClarificationFacts.LearnInSessionProperties | core/orchestrator.py:261-267 | an answer settles exactly its own terms in the session and touches no other |
| ClarificationFacts.LearnForTeamProperties | core/orchestrator.py:268-277 | an answer makes exactly its own terms known to the team |
| ClarificationFacts.LearnTheSame | core/orchestrator.py:261-277 | session and team learn the last answer about a term, as a clarified resolution and as an instance-wide convention; other terms keep what they had |
| ClarificationFacts.SettledAfterLearning | core/orchestrator.py:246-278 | a term is settled after an answer if and only if it was settled before or was answered |
| ClarificationFacts.StoredInvariant | core/orchestrator.py:146-305 | every call stores its session unless it raises before the request to the backend; what it stores is AWAITING, with query, question, distinct unresolved terms and 1 to max_rounds rounds, or DISPATCHED and cleared; what it leaves in a live object is within the budget too |
| ClarificationFacts.TransitionErrorExactly | core/orchestrator.py:159-217 | for any session read, StateTransitionError is raised if and only if the session is RESOLVED or consumes an answer, leaves a term open below max_rounds, and elicitation then succeeds in the same call; and then from RESOLVED to RESOLVED |
| ClarificationFacts.AnswerConsumedOnlyWhenAwaiting | core/orchestrator.py:159-165 | an answer is learned when the session awaits one; otherwise the call is the same as without it |
| ClarificationFacts.ReaskStoresDispatched | core/orchestrator.py:300-371 | a clarifying question leaves the session AWAITING with nothing sent; a re-ask about a sent query leaves it DISPATCHED |
| ClarificationFacts.DispatchAccountsForTerms | core/orchestrator.py:175-222 | every detected term of a sent query is hinted if and only if it is settled; an unhinted one is reported or was just asked about |
| ClarificationHints.MeaningAfterLearning | core/orchestrator.py:246-278 | an answered term means what the last answer about it says, every other term what it meant before |
| ClarificationHints.TermsSentAsMeant | core/orchestrator.py:204-222 | a settled term of a sent query is hinted with the meaning that session and team hold after the call if and only if no elicited answer gave another meaning to it without its being asked about; then with the old meaning |
| ClarificationFacts.DispatchIsReportedHonestly | core/orchestrator.py:280-398 | a sending call asks again if and only if nothing was found or interpreted terms failed to execute; what it reports as applied is what was sent; answer, JQL, counts, issues and failures of the backend reach the caller |
| ClarificationReplies.CallCarriesVerdict | core/orchestrator.py:146-398 | a flat table of inputs decides what every call does: which exception it raises, which question about which terms it asks and stores, or which query it sends and with exactly which warnings the backend's reply is passed on |
| ClarificationReplies.AppliedExactly | core/orchestrator.py:224-294 | a sending call reports as applied first the settled terms of its query, then the terms resolved by elicitation, in vocabulary order and each with its source |
| ClarificationFacts.StepLearns | core/orchestrator.py:146-278 | known terms stay known, a newly asked term was unknown, an answered term becomes known and is resolved by one answer only |
| ClarificationFacts.OnlyVocabulary | core/orchestrator.py:175-220 | only vocabulary terms are asked about or counted as resolved |
| ClarificationFacts.LiveTrace | core/orchestrator.py:157-173 | the call works on the stored session unless there is none or another query abandons the pending question |
| ClarificationFacts.StepTrace | core/orchestrator.py:179-305 | for any session read: a new question uses one round and fits the budget, also if the call then raises; a dispatch frees the budget, a repetition changes nothing, a call that raises before asking changes nothing |
| ClarificationFacts.KnownTermAskedExactly | core/orchestrator.py:166-193 | a question is about a term the team knew when the call began if and only if the call repeats the pending query without an answer and the term was pending |
| ClarificationRuns.RunInvariant | core/orchestrator.py:146-305 | in every run, under either store, with any expiry and any exceptions, every kept session is within its budget and an AWAITING one waits for its open terms; with a serialising store each is as a call stored it |
| ClarificationRuns.FoundAfterCall | memory/session_store.py:122-136 | a later read finds what the call wrote for the lifetime from its write on, else what was there before, changed by the call only in a store of live objects; other sessions stay |
| ClarificationRuns.StoresAgreeExactly | memory/valkey_stores.py:54-67 | from any state, one call leaves live-object and copying store alike if and only if it did not raise, before its request, after asking on the session it read |
| ClarificationRuns.StoreRefinement | memory/valkey_stores.py:41-67 | both stores hold the same after every call of a run if and only if no call of the run makes them differ, as in every exception-free run; then every call has the same step and response |
| ClarificationRuns.NoElicitationNoTransitionError | core/orchestrator.py:204-220 | in a run without elicitation, under either store, a call raises only when its answer cannot be resolved or its request is invalid, and the stores agree throughout |
| ClarificationRuns.KnownGrows | core/orchestrator.py:268-277 | under either store, what the team knows only grows along a run, whatever raises |
| ClarificationRuns.NeverAskedAgain | core/orchestrator.py:224-278 | under either store, a term known after some calls of a run, in whatever session, is in no later new question |
| ClarificationRuns.KnownTermReissuedExactly | core/orchestrator.py:166-169 | under either store, a later call puts a question about such a term if and only if it repeats the pending query of its session without an answer and the term was pending there |
| ClarificationRuns.UsefulAnswersBounded | core/orchestrator.py:159-278 | in any run one session id has at most as many useful answers as the vocabulary has terms: with live objects over all calls, raised ones included, with a serialising store over the calls that wrote the session |
| ClarificationRuns.RaisedCallIsForgotten | core/orchestrator.py:160-164 | with a serialising store a call that raises before its request leaves the session as it was, so the same call resolves the same terms a second time |
| ClarificationRuns.QuestionBudget | core/orchestrator.py:179-220 | under either store the round counter counts the open questions of the session, with live objects also those of calls that raised; they never exceed max_rounds, and any new question still fits |
| ClarificationRuns.RepetitionIsFree | core/orchestrator.py:166-169 | under either store, repeating the pending query re-issues the cached question and changes only the expiry |
| ClarificationExamples.TransitionErrorReachable | core/orchestrator.py:204-211 | with either store two concrete calls from a fresh server raise the transition error, after which the stores differ |
| ClarificationExamples.LiveSessionLeftResolved | core/orchestrator.py:206-211 | with live objects a concrete call that raised leaves the session RESOLVED with its old question, and a further call without an answer raises the transition error |
| ClarificationExamples.RaisedCallsUnbounded | memory/valkey_stores.py:54-67 | with a serialising store n concrete calls that raise consume n useful answers about two terms and put n further questions with a budget of three, without a dispatch |
| ClarificationExamples.LearnedTermAskedAgain | core/orchestrator.py:166-169 | with either store, session a waits, session b teaches the terms, and a's repeated query is asked about them again |
| ClarificationExamples.OldHintSent | core/orchestrator.py:206-211 | with either store a concrete call tells the backend that a term means old while session and team learn that it means new |
| Orchestrators.Orchestrator.constructor | core/orchestrator.py:117-144 | the orchestrator works on the given store and conventions |
| Orchestrators.Orchestrator.Save | memory/session_store.py:132-133 | the in-memory store keeps the object itself, the other one its content |
| Orchestrators.Orchestrator.SplitResolved | core/orchestrator.py:224-244 | the loop computes the partition of SplitProperties |
| Orchestrators.Orchestrator.Learn | core/orchestrator.py:246-278 | session and conventions change as in LearnInSession and LearnForTeam |
| Orchestrators.Orchestrator.AddElicited | core/orchestrator.py:208-210 | the asked terms that are now resolved become active |
| Orchestrators.Orchestrator.Dispatch | core/orchestrator.py:280-398 | transition, clearing, storing, the request that may raise after the store, and the response are those of the dispatch step |
| Orchestrators.Orchestrator.Elicited | core/orchestrator.py:206-211 | learning an elicited answer and dispatching is the elicited step |
| Orchestrators.Orchestrator.AskOrDispatch | core/orchestrator.py:175-222 | detection to question or dispatch is the corresponding step on the object's content |
| Orchestrators.Orchestrator.HandleQuery | core/orchestrator.py:146-222 | on live objects or on copies, one call is one step of the run model: outcome, what was sent, sessions with their expiry, conventions |
| Briefings.LoopStops | core/briefing_orchestrator.py:177-210 | the loop pauses at the first topic that needs input, with exactly the topics before it completed, or finishes all |
| Briefings.LoopIsFold | core/briefing_orchestrator.py:175-210 | the completed map is the left fold of the final answers and the errors are theirs |
| Briefings.ResumptionEqualsOnePass | core/briefing_orchestrator.py:173-212 | however split into turns, with failures and pauses, a briefing ends as one pass over the last outcome of each topic; the one pass has the errors of earlier turns in addition |
| Briefings.ErrorsSurviveExactly | core/briefing_orchestrator.py:145-197 | the errors equal those of one pass if and only if no topic finished in an earlier turn had any |
| Briefings.WarningLost | core/briefing_orchestrator.py:145-197 | a concrete briefing of two topics loses the warning of the first when the second is answered in a later turn |
| Briefings.FoldKeepsEachTopic | core/briefing_orchestrator.py:207 | with distinct ids every topic keeps its own answer |
| Briefings.SharedIdLosesAnswer | core/briefing_orchestrator.py:207 | with a shared id the earlier answer is lost |
| BriefingRuns.TopicLoopIsLoop | core/briefing_orchestrator.py:177-210 | the loop over real query calls is the abstract loop on their outcomes, and no topic before the start is queried |
| BriefingRuns.TurnKeepsPending | memory/briefing_session_store.py:17-30 | every saved briefing has completed exactly the topics before the one it waits for; a ready one has all |
| BriefingRuns.TurnsRefineLoop | core/briefing_orchestrator.py:147-212 | turns of a briefing over the stores are turns of the abstract loop |
| BriefingRuns.ComposedResumption | core/briefing_orchestrator.py:173-212 | when a briefing is ready its map is the fold of the handler's last outcomes, all final, each under its own topic |
| BriefingTraces.LoopMakesCalls | core/briefing_orchestrator.py:177-212 | the loop queries exactly the topics from the resume point on, in order, each with its own query and session and only the first with the user's answer, until one asks, raises, or all are answered; responses and warnings are recorded under their topics |
| BriefingTraces.TurnTrace | core/briefing_orchestrator.py:134-215 | a turn goes on from the saved briefing or the decomposed agenda; it reports the asking topic with its question and saves that point, reports all answers and drops the briefing, or raises and saves nothing; other briefings stay |
| BriefingTraces.OwnSessions | core/briefing_orchestrator.py:179 | two topics of a briefing are queried in the same session if and only if they have the same id |
| BriefingTraces.FinalAnswerIsForTopic | core/briefing_orchestrator.py:184-207 | a final answer is the backend's reply to a query sent in its call; it is the topic's own query if and only if the user's answer does not go to a question still pending about another query, which only the first call of a turn can do |
| BriefingTraces.OldQueryAnswered | core/orchestrator.py:159-165 | a concrete waiting session turns the user's answer into the reply to its old query |
| BriefingProgress.LoopBenign | core/briefing_orchestrator.py:177-212 | from any state, whatever questions are pending from earlier briefings, a benign loop finishes or pauses at a topic whose session waits within its budget |
| BriefingProgress.LoopFromWaiting | core/orchestrator.py:159-220 | answering the topic at which the briefing paused finishes, moves on, or uses one more of its rounds |
| BriefingProgress.TurnFromWaiting | core/briefing_orchestrator.py:177-212 | an answering turn makes the briefing ready or lowers the remaining budget |
| BriefingProgress.CallsKeepWaiting | core/briefing_orchestrator.py:177-212 | whatever calls other sessions make, and however they fail, a waiting briefing keeps waiting at its topic |
| BriefingProgress.FirstTurn | core/briefing_orchestrator.py:134-212 | the first turn of a benign client makes the briefing ready or leaves it waiting with fewer than topics * max_rounds questions to come |
| BriefingProgress.ComposedProgress | core/briefing_orchestrator.py:134-212 | from any state of the protocol, with any topic ids and leftover questions, and with any calls of other sessions between the turns, a client that answers every question in time finishes a new briefing within 1 + topics * max_rounds turns, whatever the language model returns |
| BriefingProgress.StuckTopicNeverReady | core/orchestrator.py:344-371 | with one topic for which the backend keeps finding nothing no turn makes the briefing ready, in any number of turns, whatever the client answers, whichever turns raise, and whatever the other topics find and other calls do in between |
| BriefingOrchestrators.BriefingOrchestrator.QueryTopics | core/briefing_orchestrator.py:177-210 | the loop over the orchestrator object is the topic loop of the run model |
| BriefingOrchestrators.BriefingOrchestrator.Conclude | core/briefing_orchestrator.py:192-212 | a pause saves the briefing with its index and completed map, the end drops it, an exception saves nothing |
| BriefingOrchestrators.BriefingOrchestrator.GenerateBriefing | core/briefing_orchestrator.py:134-212 | one call is one turn of the run model: outcome, saved briefings, sessions, conventions |
| SingleFlight.StepKeepsInv | confluence/client/client.py:157-224 | every step keeps the locks, the permits and the caches consistent, and a lock holder that may use the cache holds a missing key |
| SingleFlightRuns.RunKeepsInv | core/briefing_orchestrator.py:545-555 | so does every interleaving |
| SingleFlightRuns.OneInFlight | confluence/client/client.py:174-216 | at most one fetch per page and one extraction per (page, last_modified) is in flight |
| SingleFlightRuns.FetchBound | confluence/client/client.py:169-182 | successful fetches of a page by cache-using calls are at most one plus the losses of its entry |
| SingleFlightRuns.ExtractBound | confluence/extraction/extractor.py:83-113 | the same for extractions of one content |
| SingleFlightRuns.ResultsAreOwnAndFresh | confluence/client/client.py:167-182 | a finished call has data of its own page and content, extracted from HTML of that page; with force_refresh the data was produced after the call began, the extraction from the HTML that the call fetched |
| SingleFlightRuns.OldHtmlUnderNewStamp | confluence/client/client.py:169-172 | after two concrete reads of one page under two stamps the extraction under the newer stamp is made from the HTML fetched for the older one |
| SingleFlightOrigins.RunKeepsOrigins | confluence/client/client.py:157-216 | in every run each cached or returned page is one that was cached from the start or that a fetch of the run brought, with the time at which it began; likewise each extraction; a call failed if and only if a fetch or extraction of its own failed |
| SingleFlightOrigins.OwnFetchIsUsed | confluence/client/client.py:179-182 | a call that fetched its page itself works with what it fetched, or fails |
| SingleFlightOrigins.CacheHitTakesNoLock | confluence/client/client.py:169-172 | a call that finds its page cached takes no lock, and is done at once if the extraction is cached too |
| SingleFlightRuns.PermitsBounded | core/briefing_orchestrator.py:130-132 | the semaphore is never held by more tasks than its capacity |
| SingleFlightRuns.NoDeadlock | core/briefing_orchestrator.py:719-721 | in every reachable state an unfinished task can step, unless all are finished |
| SingleFlightRuns.FuelFalls | core/briefing_orchestrator.py:545-555 | every step lowers a measure of the remaining work |
| SingleFlightRuns.RunsTerminate | core/briefing_orchestrator.py:545-555 | the length of every run is bounded by that measure of its initial state |
| ResearchPools.ResearchPool.constructor | confluence/client/client.py:83-114 | a new pool is an initial state with one task per job |
| ResearchPools.ResearchPool.Begin | confluence/client/client.py:184-200 | the code up to the first suspension is the start step |
| ResearchPools.ResearchPool.Admitted | confluence/client/client.py:169-174 | the lock-free look into the page cache is the admission step |
| ResearchPools.ResearchPool.PageLocked | confluence/client/client.py:174-179 | the second look under the page lock is the lock step |
| ResearchPools.ResearchPool.Fetched | confluence/client/client.py:179-182 | cache write and lock release are one step, followed by the look into the extraction cache |
| ResearchPools.ResearchPool.FetchedUnusable | confluence/client/client.py:214-224 | a metadata record without its fields fails the call but still caches the page |
| ResearchPools.ResearchPool.FetchFailed | confluence/client/client.py:297-324 | a failed fetch releases lock and permit and writes nothing |
| ResearchPools.ResearchPool.ContentLocked | confluence/extraction/extractor.py:89-97 | the second look under the content lock is the lock step |
| ResearchPools.ResearchPool.Extracted | confluence/extraction/extractor.py:106-113 | the extraction is cached, and lock and permit are released |
| ResearchPools.ResearchPool.ExtractionFailed | confluence/extraction/extractor.py:101-104 | a failed extraction releases lock and permit and writes nothing |
| ResearchPools.ResearchPool.Lose | confluence/extraction/extractor.py:54-56 | an entry is lost and nothing else changes |
| ResearchPools.ResearchPool.Perform | confluence/client/client.py:157-224 | the object takes exactly the enabled steps of the state machine |
| ResearchPools.ResearchPool.RunSchedule | core/briefing_orchestrator.py:552-555 | whatever the event loop proposes, the object performs a legal run |
| IssueAnalysis.ComputeDaysBlocked | core/issue_analyser.py:230-255 | the loop computes the days since the latest status change if that led into a blocked status |
| IssueAnalysis.DaysBlockedVersusStretch | core/issue_analyser.py:235-255 | for any changelog the days count from the last change of the blocked stretch; with readable stamps they equal the continuously blocked time if and only if the stretch began on the day of its last change or neither is before today, and in ascending order they are never more |
| IssueAnalysis.MoveRestartsCount | core/issue_analyser.py:241-247 | a concrete issue blocked for ten days is reported with one |
| IssueAnalysis.NewestIsFirstMaximum | core/issue_analyser.py:160-172 | the comment quoted is the first among the newest |
| Text.NormalisedWord | core/issue_analyser.py:220-242 | blanks around a status and the case of its letters do not matter |
| IssueAnalysis.AnalysisOfIssue | core/issue_analyser.py:147-197 | field by field what an analysis says about its issue, with the newest comment by its position and the days blocked by the last change |
| IssueAnalysis.Build | core/issue_analyser.py:177-192 | a completed analysis has the facts of the issue and the suggestions of the language model |
| IssueAnalysis.SizeAfterWrite | core/issue_analyser.py:140-145 | only the oldest entry of a full cache is lost, the size stays within the maximum, and it shrinks if and only if a full cache overwrites a key that is not the oldest |
| IssueAnalysis.CacheHoldsLatest | core/issue_analyser.py:130-145 | after any interleaving the size is bounded and each entry is the latest analysis written under its key, about that key's issue |
| IssueAnalysis.HitAgreesWithRecomputation | core/issue_analyser.py:130-138 | apart from re-attached references a hit is the latest write, and its facts are those of a recomputation if and only if the issue then and now agree field by field: assignee, priority, links, due date, flag, quoted newest comment, days blocked; the days agree if and only if there are none to count either time or as many after the stamp then as now; so the facts do for an unchanged issue and day |
| IssueCacheLaws.HitSawLastChange | core/issue_analyser.py:130-138 | after any writes a hit is the latest analysis of the issue that saw the same last change, with the current references if it had none; a forced call never hits |
| IssueCacheLaws.ChangedIssueMisses | core/issue_analyser.py:130-138 | after a change that no analysis saw the cache does not answer |
| IssueCacheLaws.UnchangedIssueHits | core/issue_analyser.py:130-145 | an analysis written on a miss answers for the unchanged issue while fewer than the maximum of other analyses were written after it |
| IssueAnalysis.ReassignmentIsNotNoticed | core/issue_analyser.py:130-132 | after a reassignment without a changelog entry a hit names the old owner |
| IssueAnalysers.IssueAnalyser.constructor | core/issue_analyser.py:55-70 | a new analyser has an empty cache |
| IssueAnalysers.IssueAnalyser.Insert | core/issue_analyser.py:141-144 | the write-back is the one of SizeAfterWrite |
| IssueAnalysers.IssueAnalyser.Admit | core/issue_analyser.py:125-138 | a missing issue or a hit finishes at once, anything else waits for the language model |
| IssueAnalysers.IssueAnalyser.Complete | core/issue_analyser.py:140-145 | a reply is written back and returned, a failure gives a degraded result |
| IssueAnalysers.IssueAnalyser.Advance | core/issue_analyser.py:97-99 | one step of one key leaves all other keys as they are; a waiting key is admitted if and only if the permits held by this call and the others allow it |
| IssueAnalysers.IssueAnalyser.WriteBack | core/issue_analyser.py:140-145 | a write-back of another call on the same analyser leaves this call's results justified |
| IssueAnalysers.IssueAnalyser.Analyse | core/issue_analyser.py:72-115 | one result per key, in order, about its key and justified by a missing detail, a hit during the call, its own analysis or its own failure; with any write-backs of other calls in between, the cache has all write-backs in the order they were made, each of them this call's or one of the others, and none of those missing |
| IssueAnalysers.JustifiedKey | core/issue_analyser.py:104-115 | every result carries the key it was requested for |
| IssueAnalysers.ResultSawLastChange | core/issue_analyser.py:104-145 | each result says that the details are missing or the model failed, or is the new analysis of the issue, or else, unless forced, an earlier one that saw the same last change |
| IssueAnalysers.LastDetailCounts | core/issue_analyser.py:94 | of the details with one key the last one counts |
| Sorting.SortIsStable | core/ranking_engine.py:61-67 | the sort is descending and a permutation that keeps the order of equal scores |
| Sorting.SortUnique | core/ranking_engine.py:67 | a sequence is the sort if and only if it is descending and such a permutation |
| Sorting.SortArranges | core/ranking_engine.py:67 | the sort has each position of the input once, those of greater keys first and of equal keys the earlier first |
| Sorting.TopConcat | core/ranking_engine.py:67 | the top n of a concatenation is the top n of the two top n |
| Sorting.TopTop | core/ranking_engine.py:67 | the top m of the top n is the top min(n, m) |
| Ranking.Score | core/ranking_engine.py:69-107 | the accumulated total is the sum of the component scores |
| Ranking.ScoreMeans | core/ranking_engine.py:69-107 | the contributions of priority, capped days, capped dependents, the 7 and 14 day windows and the flag |
| Ranking.DegradedScore | core/issue_analyser.py:317-330 | an issue that could not be analysed scores what an unknown priority scores |
| Ranking.ScoreBounds | core/ranking_engine.py:69-107 | with non-negative weights a score lies between zero and the sum of the component maxima |
| Ranking.RankIssues | core/ranking_engine.py:56-67 | scoring, sorting and cutting give the ranking |
| Ranking.RankIsStableTop | core/ranking_engine.py:56-67 | the ranking is the prefix of the stable descending permutation of the scored input, of length min(n, input) |
| Ranking.RankingMeans | core/ranking_engine.py:56-67 | higher scores come first, of equal scores the earlier input; what is left out does not beat anything shown; the length for any n |
| Ranking.RankTwice | core/ranking_engine.py:56-67 | ranking a ranking gives the shorter top |
| Ranking.RankConcatenation | core/ranking_engine.py:56-67 | the top of two lists together is the top of their two tops |
| Ranking.RankedFrom | core/ranking_engine.py:66-67 | every ranked analysis is an input with its score set |
| Sections.DropAccounting | core/briefing_orchestrator.py:610-614 | surviving and dropped occurrences add up to the topic's keys |
| Collections.DedupDistinct | core/briefing_orchestrator.py:605 | deduplication leaves each key once and changes nothing that is already distinct |
| Collections.DedupPrefix | core/briefing_orchestrator.py:605 | keys of earlier topics come first: the result for a prefix is a prefix of the result |
| Sections.CapConservation | core/briefing_orchestrator.py:605-621 | the keys analysed are the first max_analysed_issues distinct keys of the concatenated topics, and per topic kept plus dropped occurrences are all its keys |
| Sections.CapHonouredExactly | core/briefing_orchestrator.py:608-621 | the cap bounds the keys if and only if it is not negative or the slice is empty |
| Sections.NegativeCapKeepsOne | core/briefing_orchestrator.py:608-621 | with a cap of -1 one of two concrete issues is still analysed |
| Sections.SkippedExactly | core/briefing_orchestrator.py:610-620 | the all-skipped error appears if and only if a topic has keys and none of them was kept |
| SectionFacts.SkipErrorsInOrder | core/briefing_orchestrator.py:610-620 | with distinct topic ids one error with the number of its keys per topic that has keys of which none was kept, in topic order |
| Sections.MapCovers | core/briefing_orchestrator.py:656 | with one analysis per kept key the map has exactly the kept keys, each with an analysis of its own issue |
| Sections.SelectedKeys | core/briefing_orchestrator.py:663 | the analyses selected for a topic are, in order, those of its surviving key occurrences |
| Sections.SectionContents | core/briefing_orchestrator.py:660-682 | a section has only kept keys of its own topic, min(top_n, surviving occurrences) of them, its topic's own warnings, and the partial notice if and only if an occurrence was dropped |
| SectionFacts.KeysOfTopics | core/briefing_orchestrator.py:587-605 | the keys are those of all topics' issues in order, under either spelling of the field |
| SectionFacts.SummariesOfTopics | core/briefing_orchestrator.py:587-603 | the summaries are those of all topics' issues in order |
| SectionFacts.LastSummaryCounts | core/briefing_orchestrator.py:587-603 | the last summary given for a key counts |
| SectionFacts.SectionShowsRanking | core/briefing_orchestrator.py:660-682 | a section shows the best scores among its topic's kept keys, each with the analysis of its key, earlier keys first on equal scores, and the JQL and total of the topic's answer |
| SectionBuilders.Collect | core/briefing_orchestrator.py:587-605 | the loops gather the distinct keys in first-seen order, the summaries and each topic's keys |
| SectionBuilders.DetailErrors | core/briefing_orchestrator.py:622-641 | with keys the failure of the details request or the error it reports, without keys none |
| SectionBuilders.ApplyCap | core/briefing_orchestrator.py:606-621 | the loops compute the kept keys, the dropped counts and the skip errors |
| SectionBuilders.Select | core/briefing_orchestrator.py:663 | the loop selects the analyses of a topic, one per occurrence of an analysed key |
| SectionBuilders.MapAnalyses | core/briefing_orchestrator.py:656 | the loop builds the map of MapCovers |
| SectionBuilders.BuildSection | core/briefing_orchestrator.py:660-682 | selection, ranking and errors give the section of SectionContents |
| SectionBuilders.AnalyseKept | core/briefing_orchestrator.py:642-654 | one analysis per kept key, each justified |
| SectionBuilders.BuildSections | core/briefing_orchestrator.py:578-684 | the analyses cover exactly the kept keys, so SectionContents holds of every section; the errors are the skip errors and those of the details request |
| SearchMerge.SearchPagesMulti | confluence/client/client.py:135-155 | failed searches are skipped and the first page of every id is kept |
| SearchMerge.SearchIsDistinct | confluence/client/client.py:142-155 | every found id is returned once, with a page that was found |
| SearchFacts.HitsJoin | confluence/client/client.py:142-155 | the hits are those of the searches one after the other |
| SearchFacts.SearchKeepsFirst | confluence/client/client.py:142-155 | the merged search has, in the order found, the first hit of every page id |
| SearchMerge.FewRemoved | core/briefing_orchestrator.py:541-542 | pigeonhole: of pages with distinct ids, dropping the pinned ids removes at most as many pages as there are pinned ids |
| SearchMerge.EarlyTruncationLossless | core/briefing_orchestrator.py:523-542 | cutting the hits before removing pinned pages gives the same list as cutting once at the end |
| SearchMerge.RepeatedHitsLosePages | core/briefing_orchestrator.py:523 | with repeated hits it would not |
| SearchMerge.SkipLosslessExactly | core/briefing_orchestrator.py:520-524 | skipping the search changes nothing if and only if the pinned pages fill the limit or every hit is pinned |
| SearchMerge.PinsAreProper | core/briefing_orchestrator.py:498-510 | each page id is pinned once, by a URL that names it |
| SearchFacts.EveryPagePinned | core/briefing_orchestrator.py:501-510 | every page that some URL names is pinned, with the first such URL and in URL order |
| SearchFacts.BadUrlsReported | core/briefing_orchestrator.py:504-507 | each URL without a page id is reported, in order |
| SearchFacts.PinsFetched | core/briefing_orchestrator.py:531-536 | one page for every pin fetched and one error with its URL for every failure |
| SearchMerge.MergeIsNaive | core/briefing_orchestrator.py:498-542 | at most limit pages, pinned ones first; the plain merge if and only if the search ran, the fetched pins fill the limit or every hit is pinned; so always when every pin was fetched |
| SearchMerge.NegativeLimit | core/briefing_orchestrator.py:520-542 | a negative limit skips the search and drops that many pinned pages from the end |
| SearchMerge.NegativeLimitExample | core/briefing_orchestrator.py:520-542 | with a limit of -1 the first of two pinned pages is returned |
| SearchMerge.ParseUrls | core/briefing_orchestrator.py:501-510 | the loop finds the pins of PinsAreProper and reports every URL without a page id |
| SearchMerge.FetchPins | core/briefing_orchestrator.py:531-536 | fetched pins in order, one error per failure, cancelled ones silently dropped |
| SearchMerge.Unseen | core/briefing_orchestrator.py:541-542 | the hits that are not pinned, in order |
| SearchFacts.UnpinnedHits | core/briefing_orchestrator.py:541-542 | the added hits are exactly those that are not pinned |
| SearchMerge.ExtractPages | core/briefing_orchestrator.py:557-569 | one result per extracted page in page order, one error per failure |
| SearchFacts.ResultsOfPages | core/briefing_orchestrator.py:557-569 | the results are the merged pages that were extracted, in page order, each with its own extraction and none left out |
| SearchFacts.PagesExtracted | core/briefing_orchestrator.py:557-569 | likewise one error with its page for every failed extraction |
| SearchMerge.SearchContext | core/briefing_orchestrator.py:498-576 | results, page count and errors are those of the merged pages, in order |
| ReportTable.CellRoundTrip | core/report_synthesiser.py:230-234 | unescaping a cell gives back the value with its line breaks as spaces |
| ReportTable.RowSplits | core/report_synthesiser.py:169-176 | a row of escaped cells splits at its free pipes into exactly these cells |
| ReportTable.SeparatorSplits | core/report_synthesiser.py:170 | the separator has one group of dashes per column |
| ReportTable.IssuesTable | core/report_synthesiser.py:165-179 | the loops build header, separator, the rows of the first issues and the omission line |
| ReportTable.TableIsWellFormed | core/report_synthesiser.py:165-179 | for any values the header and every row are single lines with exactly one cell per column, in place |
| ReportTable.CellsCarryValues | core/report_synthesiser.py:174 | what is read back from a cell is the issue's value for that column |
| ReportTable.HeaderCarriesNames | core/report_synthesiser.py:169 | what is read back from a header cell is the name of its column |
| ReportTable.ColumnsShown | core/report_synthesiser.py:166-183 | the display fields if there are any, else the first eight fields of the first issue |
| ReportTable.TableEnds | core/report_synthesiser.py:172-179 | the rows are those of the first issues, followed, if issues are left, by an empty line and one with their number |
| ReportTable.DecimalRoundTrip | core/report_synthesiser.py:178 | the number in the omission line reads back as the number of issues left |
| ReportTable.RowsAddUpExactly | core/report_synthesiser.py:173-179 | rendered rows plus the omitted count are all issues if and only if the maximum is not negative |
| ReportTable.NegativeMaximum | core/report_synthesiser.py:173-179 | with a maximum of -1, three issues give two rows and four omitted ones |
| ReportTable.ValueIsFirstNonNull | core/report_synthesiser.py:186-203 | the value is the first non-null one among the three forms of the column name |

## Left out

- Rendered text: questions, warnings and hints are datatypes with the values the text is made of; the display_fields of a response are an argument of the table only.
- Report delivery, the JSON sidecar, get_briefing_report, chart specifications, display in the browser (show_in_ui) and their warnings: output only.
- Prompts and the calls to the language model, HTTP retries, the Valkey protocol and cachetools: replies are arguments, lost cache entries are explicit steps.
- The vocabulary matcher's regular expressions, the URL parser and HTML extraction: arbitrary functions.
- Case folding and stripping beyond ASCII, learned_at stamps, and the JSON encoding of sessions and conventions.
- Failures of the convention file: unreadable payloads and write errors.
- Calls that overlap on one session id, and overlapping convention writes: the code promises nothing there.
- Valkey's expiry is modelled as lazy expiry at the time of a read, and its whole-second lifetime as any real.
- The Confluence research of a briefing (_run_confluence_research, find_pages_mentioning_keys): references are an argument of the analysis, so duplicate references from two topics are not modelled.
- Cancellation inside a fetch, and the fairness of asyncio locks: any waiter may go next.
- Expiry between the membership test and the read of a cache.
- Issue values other than strings and null, and dates other than day numbers with a parse failure.
- The limit argument of a query: only its refusal below 1 is modelled, as the backend outcome InvalidRequest.
- IssueAnalysers.IssueAnalyser.Analyse: with keys to analyse it needs a positive concurrency limit, because with zero no key is ever admitted (Advance) and the source's call never returns; likewise SectionBuilders.BuildSections when a key is kept.
- BriefingOrchestrators.BriefingOrchestrator.GenerateBriefing: ends when all topics are answered; the sections that follow are SectionBuilders.BuildSections.
- ClarificationRuns.UsefulAnswersBounded: with a serialising store counts only the calls that wrote the session, because RaisedCallsUnbounded shows that the others are unbounded.
