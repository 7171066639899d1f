# A model of the WhatsApp order assistant

The repository runs the WhatsApp service of a confectioner: a webhook queues the messages of each
phone, gates decide whether a message reaches the assistant, the assistant talks to a language
model and calls tools that store orders, and people take over when needed. This project models the
stateful core of that service and proves what it promises.

Each file is one module and follows one part of the source:

| file | what it models |
|---|---|
| `ChatHistory.dfy` | the chat history and its one-pass repair |
| `AiTurn.dfy` | one turn of the assistant against an arbitrary model: early replies, retry guards, tool calls, orders |
| `PhoneLocks.dfy` | the reference-counted lock of each phone, over all schedules of concurrent requests |
| `Inbound.dfy` | the gates of an inbound message: opt-out, duplicates, human handoff, acknowledgements, replies |
| `Opening.dfy` | the opening hour that a handed-over customer is told |
| `FailureAlerts.dfy` | sliding-window alerts on repeated failures |
| `Calendar.dfy` | Gregorian dates and the dates named in a message |
| `Wrappers.dfy` | a value that may be missing |
| `Clock.dfy` | `HH:MM` times, their parser and their string order |
| `Capacity.dfy` | slot capacities and the schedule check of an order |
| `AiSchedule.dfy` | the weekly hours in which the assistant is off |
| `CestaFlow.dfy` | the step-by-step order of a gift basket |
| `ClientMerge.dfy` | merging clients that share a phone |
| `ReplayCache.dfy` | the webhook replay cache |
| `Money.dfy` | Brazilian amounts, printed and read back |
| `Payment.dfy` | payment corrections and payment rules |
| `CafeteriaItems.dfy` | merging equal lines of a cafeteria order |

How the parts are stated:

- Code that updates objects is a class (`Session`, `Conversations`, `PhoneLockRegistry`,
  `CestaConversation`, `Database`, `Cache`, `AlertState`, `CorrectionMemory`) whose methods follow
  the source branch by branch. Each is proved against a function of the old state, and the
  lemmas are about that function: invariants over every run, refinement of the full history,
  round trips.
- The language model, the text policies and the outcomes of tools are inputs with arbitrary
  values. Running out of model answers stands for a request that raises, so interruptions at any
  point of earlier turns are covered.
- A run is a sequence of steps, messages or calls of any length. Time is an integer that never
  decreases.
- `Inbound` keeps a log of everything that happened. `EveryRun` shows that the stored maps hold
  exactly what the log says and that the log is legal, each event being allowed by the ones
  before it; the promises (`HandoffHolds`, `OptOutHolds`, …) are then about every legal log.
- What a step does is stated a second time, apart from the function that the code is tied to: over
  the fields of the state before it, with words, hours and limits written out (`WordOptsOut`,
  `AcceptedIff`, `AnswerTurns`, `ValidIff`, …).
- Automatic induction is off in every lemma, so each inductive step is written out.

Where the code does not do what its names and messages suggest, the model follows the code and the
exact condition is proved:

- The 30-minute handoff clock and the 15-minute acknowledgement throttle write through
  `estados_atendimento[phone][...]`. Only the in-memory backend returns the stored object; the
  SQLite and Redis backends decode a copy, so these writes are lost. `RefreshHoldsIff` and
  `AcksHoldIff` show that refresh and throttle work over all runs if and only if references are
  live; with copies a handoff ends 30 minutes after it began and every absorbed message is
  acknowledged.
- A draft summary in the middle of several tool calls ends the turn with calls unanswered; the
  next turn's repair then drops the whole round (`PartialRoundRepair`, `LeftToNextTurn`).
- Requests cancelled while they wait for a phone's lock never decrement the counter, so the entry
  stays for good (`EntryIff`); mutual exclusion and order survive.
- A day and month without a year are looked for in two years only, which misses 29 February
  (`FutureDateMissedIff`).
- An order's hour is parsed for the check but stored as it was written, and the capacity query
  compares the texts. So "9:30" is checked as half past nine and counted after "18:00"; such texts,
  missing or unreadable hours and days without a store window can oversell a slot, and
  `AcceptedOversellsIff` says exactly when. With canonical hours on days with a window no slot is
  ever oversold (`NeverOversold`).
- The gift-basket flow accepts a NaN as change (`CashChangeIff`). It checks the slot at the hour step
  and not again when the order is sent; the slot is then still good exactly when day and hour have
  room left (`SlotStillFreeIff`), and `FilledSlotIsStillSold` is a conversation in which they do not.
  In SQLite it stores its dates as DD/MM/AAAA, which the capacity query never finds, so its orders
  fill no slot
  (`BasketsFillNoSlot`).
- Naming cash again without an amount forgets the change named before (`RepeatingCashForgetsChange`).
- An arbitrary moment with enough failures in its window may lack an alert in that window, for every
  setting the code allows (`EveryMomentIff`); at the failures themselves none is missing, and in
  between two windows suffice (`EveryRun`, `RunWithinTwoWindows`).

## Model

| member | source | states |
|---|---|---|
| `ChatHistory.SanitizeSessionMessages` | `app/ai/runner.py:423-466` | the one-pass automaton returns exactly the sound positions of any history (messages of their own and complete call/result blocks), in order, and kept + dropped = length |
| `ChatHistory.RepairedIsComplete` | `app/ai/runner.py:423-466` | whatever was stored, the repaired history answers every tool call at once by exactly its results and holds no lone result |
| `ChatHistory.BlockAnswersEveryCallOnce` | `app/ai/runner.py:444-455` | a complete block has, for every call id, exactly one result |
| `ChatHistory.RepairedIdentityIff` | `app/ai/runner.py:423-466` | a history comes back unchanged if and only if it is tool-complete |
| `ChatHistory.RepairIdempotent` | `app/ai/runner.py:481-484` | the second repair of a turn (732-735) never drops anything |
| `ChatHistory.RepairedAfterComplete` | `app/ai/runner.py:423-466` | repair distributes over appending anything to a tool-complete history |
| `ChatHistory.BlockSurvives` | `app/ai/runner.py:423-466` | every complete block of the input is a contiguous slice of the output |
| `ChatHistory.CutBlockVanishes` | `app/ai/runner.py:461-466` | nothing is kept of a block whose last results are missing |
| `ChatHistory.RepairOfPrefix` | `app/ai/runner.py:423-466` | cutting a tool-complete history anywhere costs at most the one block the cut runs through |
| `ChatHistory.CompleteConcat` | `app/ai/runner.py:423-466` | behind a tool-complete history, an addition keeps it so if and only if the addition is tool-complete by itself |
| `AiTurn.RoundCompleteIff` | `app/ai/runner.py:1184-1297` | an assistant answer recorded with all its results is tool-complete if and only if its call ids are distinct and non-empty |
| `AiTurn.PartialRoundRepair` | `app/ai/runner.py:732-746` | of a turn that stopped after k results, the next turn's repair keeps the whole round if k was the last call and nothing of it otherwise |
| `AiTurn.TranscriptComplete` | `app/ai/runner.py:1009-1036` | all rounds that a turn accepted are tool-complete together |
| `AiTurn.FewRejections` | `app/ai/runner.py:1009-1183` | with each guard rejecting at most once, requests = tool rounds + guards that fired |
| `AiTurn.RejectStep` | `app/ai/runner.py:1037-1183` | a rejected reply leaves no trace in the history and uses up its guard |
| `AiTurn.AcceptStep` | `app/ai/runner.py:1184-1297` | an accepted answer extends the history by itself and all its results, nothing else |
| `AiTurn.OpeningReady` | `app/ai/runner.py:732-746` | the history with which the loop starts is tool-complete and its latest user message is this turn's text |
| `AiTurn.CallComesTo` | `app/ai/tool_execution.py:291-494` | what each call comes to: without a confirmation an order call records its draft, with one it persists and ends the turn if the result is a saved order and records the result or the error otherwise; an escalation ends the turn with the gateway's text, or the handoff text for none or an "ok"; a recorded draft ends the round |
| `AiTurn.SavesIff` | `app/ai/tool_execution.py:122-128` | a call persists an order exactly under a confirmation, when it is an order call whose result begins with one of the four success texts |
| `AiTurn.LatestUserFound` | `app/ai/tool_execution.py:85-90` | a confirmation is looked for in the last user message with any text |
| `AiTurn.NobodySpoke` | `app/ai/tool_execution.py:85-90` | and without one there is no confirmation |
| `AiTurn.ClaimIsReplaced` | `app/ai/runner.py:609-631` | a reply that claims a saved order gives way to the last draft of the history; every other reply goes out as it is |
| `AiTurn.LastTransferTakesOver` | `app/ai/tool_execution.py:291-494` | of several transfers in one round the last one to an agent that exists decides who is in charge |
| `AiTurn.NoTransferStays` | `app/ai/tool_execution.py:291-494` | and without one the agent stays |
| `AiTurn.RequestDressed` | `app/ai/runner.py:1009-1026` | a request as it is built carries the prompt of the agent in charge and exactly the notes there are, in order |
| `AiTurn.Session.HandleToolCall` | `app/ai/tool_execution.py:291-494` | an order is persisted exactly for an order call under an explicit confirmation of the latest user message whose result is a saved order; then the session is emptied and the customer gets the final message of that result; an escalation empties it too and answers with the handoff message |
| `AiTurn.Session.RunToolCalls` | `app/ai/runner.py:1200-1290` | the calls are answered in order up to the first that raises, shows a draft or ends the turn; the history and the saved order are exactly those |
| `AiTurn.Session.RunLoop` | `app/ai/runner.py:1009-1297` | every request is the opening history, the rounds accepted so far and at most three system notes; rejected answers never enter the history; each guard rejects once. A guard rejects an answer exactly when the answer has no calls, the policy of the guard objects, the guard is unused, no guard before it in source order is live, and, for the combo guard, no catalogue tool has just answered; answers that go on have calls that all do; and a plain answer that ends the loop has no live guard (`JudgedAt`, `EndJudged`). Each request begins with the prompt of the agent then in charge and ends with the notes on the date, on corrections and on the last rejection (`DressedAt`) |
| `AiTurn.Session.RepairAndBootstrap` | `app/ai/runner.py:472-486` | loading a session gives the repaired history or a fresh prompt |
| `AiTurn.Session.Intercept` | `app/ai/runner.py:785-1001` | opt-out, seasonal and human requests empty the history, the notes and the greeting; other replies without the model leave the history as it is; which agent is then in charge |
| `AiTurn.Session.ProcessMessage` | `app/ai/runner.py:707-1297` | one turn from any stored history: all requests tool-complete, at most tool rounds + 7 of them, each with the prompt of its agent and its notes; every rejected and accepted answer judged as the guards demand, and the final one too; at most one order, only by a confirmation in this turn's text, answered by its final message and leaving an empty history; and in every other case, how the turn ended and what history it leaves |
| `AiTurn.LeftToNextTurn` | `app/ai/runner.py:732-746` | however the loop ended a turn, the repair of the next one leaves nothing after an order or handoff and otherwise the whole history, except the last round when a call of it raised or a draft was shown before its last call; only then is anything dropped |
| `AiTurn.NextTurnOpens` | `app/ai/runner.py:732-779` | the next turn opens with exactly that, or a fresh prompt, and its own text |
| `AiTurn.Session.RunTurns` | `app/ai/runner.py:707-1297` | over any turns, every request ever sent is tool-complete, and every order was confirmed by the text of some turn, one order a turn at most |
| `PhoneLocks.StepKeeps` | `app/api/routes/webhook.py:36-60` | registering, granting, releasing and cancelling keep the registry, the locks and the history in agreement |
| `PhoneLocks.EveryRun` | `app/api/routes/webhook.py:36-60` | the same over every schedule of any number of requests |
| `PhoneLocks.MutualExclusion` | `app/api/routes/webhook.py:131-140` | at most one request of a phone is being dispatched; two requests share a lock object if and only if they share the phone, although entries are deleted and recreated |
| `PhoneLocks.EntryIff` | `app/api/routes/webhook.py:36-60` | an entry exists if and only if a request of the phone is under way or one was cancelled at the lock; the counter is their number |
| `PhoneLocks.ReleaseBranches` | `app/api/routes/webhook.py:48-60` | the missing-entry branch and the clamp of the counter never act |
| `PhoneLocks.ServedInOrder` | `app/api/routes/webhook.py:36-60` | requests of a phone enter in arrival order, the i-th after exactly i releases |
| `PhoneLocks.EntersAfterThoseAhead` | `app/api/routes/webhook.py:36-60` | a request that finds k others is dispatched after exactly k releases, without cancellation |
| `PhoneLocks.NeverStuck` | `app/api/routes/webhook.py:131-140` | while a request waits, its phone has one inside or a lock that can be granted |
| `PhoneLocks.AheadCount` | `app/api/routes/webhook.py:36-60` | arrivals = releases + requests under way |
| `PhoneLocks.PhoneLockRegistry.AcquireInboundPhoneLock` | `app/api/routes/webhook.py:36-45` | the code of the guarded section and the acquire is the register step |
| `PhoneLocks.PhoneLockRegistry.ReleaseInboundPhoneLock` | `app/api/routes/webhook.py:48-60` | the code of the release, with its defensive branches, is the release step |
| `Inbound.EveryRun` | `app/application/use_cases/process_inbound_message.py:99-438` | over every timed run, each stored map holds exactly what the log of events says, and every event was allowed by the ones before it |
| `Inbound.HandoffHolds` | `app/application/use_cases/process_inbound_message.py:344-358` | after a handoff starts (and, with live references, after each message during it) the assistant is reached only more than 30 minutes later, unless a word or the panel ended it |
| `Inbound.AcksApart` | `app/application/use_cases/process_inbound_message.py:372-396` | with live references, acknowledgements of one handoff are more than 15 minutes apart |
| `Inbound.RefreshHoldsIff` | `app/application/use_cases/process_inbound_message.py:371` | messages keep the 30 minutes running, over all runs, if and only if the state backend hands out live references |
| `Inbound.AcksHoldIff` | `app/application/use_cases/process_inbound_message.py:383` | acknowledgements are throttled, over all runs, if and only if the state backend hands out live references |
| `Inbound.CopiesAlwaysAck` | `app/infrastructure/state/conversation_state_store.py:143-152` | with a backend that decodes a copy, no absorbed message goes without an acknowledgement |
| `Inbound.CopiesBreakRefresh` | `app/application/use_cases/process_inbound_message.py:344-371` | with copies, a message at any moment of the first 30 minutes and one after them, close together: the second reaches the assistant |
| `Inbound.OptOutHolds` | `app/application/use_cases/process_inbound_message.py:238-277` | an opted-out phone reaches the assistant only after a reactivation word, or once the automatic interval has passed since it opted out |
| `Inbound.RepliesApart` | `app/application/use_cases/process_inbound_message.py:403-423` | two replies sent in a row with equal hash are more than 10 seconds apart |
| `Inbound.ContentsApart` | `app/application/use_cases/process_inbound_message.py:310-320` | two messages admitted in a row with equal text are at least 2 seconds apart |
| `Inbound.IdsApart` | `app/infrastructure/state/conversation_state_store.py:322-370` | one message id is accepted at most once in 60 seconds, across phones |
| `Inbound.ReachesAiIff` | `app/application/use_cases/process_inbound_message.py:117-401` | a message asks the assistant once if and only if it passes all the gates, read off the state before it |
| `Inbound.CommandTurns` | `app/application/use_cases/process_inbound_message.py:117-141` | an administrator's "pausar bot" and the like turn the bot off, "ativar bot" and the like on, and change nothing else |
| `Inbound.UnheardIsStored` | `app/application/use_cases/process_inbound_message.py:143-236` | a message that some switch or missing field keeps out changes nothing of the phone; its id is remembered for a minute exactly where messages are only stored |
| `Inbound.OutStaysOut` | `app/application/use_cases/process_inbound_message.py:238-277` | a message of an opted-out phone, before the interval and without a reactivation word, changes nothing at all |
| `Inbound.WordOptsIn` | `app/application/use_cases/process_inbound_message.py:254-273` | a reactivation word of an opted-out phone ends the opt-out and nothing else |
| `Inbound.WordOptsOut` | `app/application/use_cases/process_inbound_message.py:279-289` | an opt-out word of a heard phone opts it out from this moment |
| `Inbound.OptOutWordHolds` | `app/application/use_cases/process_inbound_message.py:238-289` | in every run, after an opt-out word no message of that phone asks the assistant before a reactivation word or the end of the interval |
| `Inbound.RepetitionDropped` | `app/application/use_cases/process_inbound_message.py:293-319` | an id seen within a minute or the same text within two seconds changes nothing of the phone |
| `Inbound.IdRemembered` | `app/application/use_cases/process_inbound_message.py:293-308` | whose ids are remembered, for a minute, over all heard messages |
| `Inbound.ClosedStoreRecords` | `app/application/use_cases/process_inbound_message.py:331-342` | while the store is closed an admitted message is only recorded |
| `Inbound.WordEndsHandoff` | `app/application/use_cases/process_inbound_message.py:360-369` | a reactivation word within the half hour ends the handoff |
| `Inbound.HumanKeepsMessage` | `app/application/use_cases/process_inbound_message.py:371-398` | any other message within the half hour stays with the human, renews the clock and is acknowledged when no acknowledgement went out in the last 15 minutes, as far as the backend sees the writes |
| `Inbound.AssistantAnswers` | `app/application/use_cases/process_inbound_message.py:400-438` | otherwise the assistant is asked once, its turn may opt out or hand over, and its reply goes out unless it repeats the last one within ten seconds |
| `Inbound.PanelMoves` | `app/application/use_cases/manage_human_handoff.py:531-641` | the panel starts a handoff with a fresh clock, ends it, and touches no other phone |
| `Inbound.OthersUntouched` | `app/application/use_cases/process_inbound_message.py:99-438` | a message leaves everything stored for every other phone unchanged, and the global switch too unless it is an administrator's command |
| `Inbound.EmitKeeps` | `app/application/use_cases/process_inbound_message.py:99-438` | the maps and the log move together, one event at a time |
| `Inbound.Conversations.MarkProcessedMessageIfNew` | `app/infrastructure/state/conversation_state_store.py:359-370` | true exactly when no unexpired mark of the id is stored |
| `Inbound.Conversations.WriteInicio` | `app/application/use_cases/process_inbound_message.py:371` | the nested write is seen by the store only through a live reference |
| `Inbound.Conversations.AttendMessage` | `app/application/use_cases/process_inbound_message.py:344-438` | the handoff branch, the acknowledgement and the assistant do what the specification says |
| `Inbound.Conversations.ProcessInboundMessage` | `app/application/use_cases/process_inbound_message.py:99-438` | the code, gate by gate and early return by early return, is the step about which the lemmas from `CommandTurns` to `AssistantAnswers` say what each message does |
| `Opening.NextBusinessOpening` | `app/application/use_cases/manage_human_handoff.py:443-455` | the result is the first opening of all at or after the moment, and None means that none of the 14 days has one |
| `Opening.HandoffExpectation` | `app/application/use_cases/manage_human_handoff.py:458-476` | an answer in 20 minutes is promised exactly while the store is open, by the minute; otherwise the first opening to come |
| `Opening.OpensWithinAWeek` | `app/application/use_cases/manage_human_handoff.py:443-455` | a store with a weekly window opens within seven days unless a closed day intervenes |
| `FailureAlerts.WellAlertedGrows` | `app/application/use_cases/manage_human_handoff.py:193-228` | an event that alerts exactly when its window is full and holds no alert keeps: alerts more than a window apart, never unfounded, never missing at an event |
| `FailureAlerts.PruneTwice` | `app/application/use_cases/manage_human_handoff.py:193-210` | pruning an already pruned list is pruning the whole history |
| `FailureAlerts.RecordKeeps` | `app/application/use_cases/manage_human_handoff.py:193-228` | each record keeps, for every topic, the stored samples equal to the events of the trailing window and the stored alert to the last one |
| `FailureAlerts.EveryRun` | `app/application/use_cases/manage_human_handoff.py:193-228` | the same over every timed run from the empty state, with alerts apart, founded and never missing at a failure |
| `FailureAlerts.RunWithinTwoWindows` | `app/application/use_cases/manage_human_handoff.py:193-228` | in every run, any moment with enough failures in its window has an alert at most two windows back |
| `FailureAlerts.EveryMomentIff` | `app/application/use_cases/manage_human_handoff.py:193-228` | that every moment with a full window has an alert in that window holds over all runs if and only if the window has no length, so for none of the code's windows |
| `FailureAlerts.BurstAlerts` | `app/application/use_cases/manage_human_handoff.py:193-228` | of two bursts one window apart the recorder alerts the first, with the failure that fills the window, and not the second |
| `FailureAlerts.FullWindowWithoutAlert` | `app/application/use_cases/manage_human_handoff.py:193-228` | for every threshold and window, such a run and a moment with a full window and no alert in it |
| `FailureAlerts.AlertState.RecordFailure` | `app/application/use_cases/manage_human_handoff.py:193-228` | the code keeps and alerts as specified, from the pruned list and the last alert alone |
| `FailureAlerts.AlertState.RecordAll` | `app/application/use_cases/manage_human_handoff.py:193-228` | recording any timed list of failures is the run |
| `Calendar.OrdinalOrder` | `app/services/store_schedule.py:183-185` | the day count orders dates as Python compares them |
| `Calendar.ValidIff` | `app/services/store_schedule.py:152-163` | the dates that exist, month by month with the length of each, leap years spelled out, years 1 to 9999 |
| `Calendar.MonthStarts` | `app/services/store_schedule.py:152-163` | the day of the year on which each month begins, in common and leap years |
| `Calendar.ConsecutiveIff` | `app/services/store_schedule.py:183-185` | two dates have consecutive numbers exactly when no date lies between them |
| `Calendar.Anchor` | `app/services/store_schedule.py:183-185` | 1 January 2000 is day 730120 and a Saturday, which fixes all the others |
| `Calendar.ResolveDayOfMonth` | `app/services/store_schedule.py:166-180` | the earliest date from the reference on with that day; None if and only if no such date exists, which for days 1 to 31 needs the last year of the calendar |
| `Calendar.BuildFutureDate` | `app/services/store_schedule.py:152-163` | with a written year that date or None; without one, the earliest candidate of this and the next year |
| `Calendar.FutureDateMissedIff` | `app/services/store_schedule.py:152-163` | a date that exists is missed if and only if it is 29 February with no leap day up to the end of the next year |
| `Calendar.FutureDateMissesLeapDay` | `app/services/store_schedule.py:152-163` | 1 March 2024 is a reference that misses it |
| `Calendar.WeekdayUnique` | `app/services/store_schedule.py:183-185` | the weekday helper returns the only day of that name in the week from the reference |
| `Calendar.AddDays` | `app/services/store_schedule.py:183-185` | adding days moves the ordinal by exactly that number and stays a valid date |
| `Calendar.ResolveServiceDateReference` | `app/services/store_schedule.py:193-261` | which date each kind of mention gives: the first of today, tomorrow, numeric date, named month, day alone and weekday that comes to a date decides, and it comes to the earliest one, or the written year's; never before the reference unless a year was written |
| `Clock.WholeHourRead` | `app/services/encomendas_utils.py:116-146` | an hour of one or two digits is read as that hour, with or without an `h` |
| `Clock.HourMinuteRead` | `app/services/encomendas_utils.py:116-146` | hour and two minute digits are read as that time, with an `h`, a colon or nothing between them |
| `Clock.OnlyTimesRead` | `app/services/encomendas_utils.py:116-146` | whatever is read is, up to case and blanks, one of the written forms of a time, and is read as that time |
| `Clock.EveryTimeRead` | `app/services/encomendas_utils.py:116-146` | every written form is read, so the two describe the parser exactly |
| `Clock.ParseStable` | `app/services/encomendas_utils.py:116-146` | a canonical time parses to itself |
| `Clock.ClockOrder` | `app/services/store_schedule.py:427-512` | comparing canonical times as strings is comparing minutes |
| `Clock.HorarioEntregaPermitido` | `app/services/encomendas_utils.py:149-153` | true exactly for readable times up to 17:30 |
| `Capacity.CapacityViolation` | `app/services/store_schedule.py:463-512` | the first slot that applies to the day, time and mode and is full, if and only if there is one |
| `Capacity.WindowIs` | `app/services/store_schedule.py:564-579` | the hours of a day: none on a closed one, its own if both can be read, otherwise those of its weekday |
| `Capacity.DayAcceptedIff` | `app/services/store_schedule.py:582-607` | a day is accepted exactly when it is not blocked, not closed, no Sunday without hours of its own, and no slot of the whole day is full |
| `Capacity.AcceptedIff` | `app/services/store_schedule.py:610-632` | a date and hour are accepted exactly when the day is, and, for a readable hour on a day with hours, opening and closing enclose it by the minute and no slot around it is full |
| `Capacity.FirstReason` | `app/services/store_schedule.py:582-632` | the reason given is the first that holds: blocked, closed, Sunday, full for the day, outside the hours, full at the hour |
| `Capacity.CountIsCardinal` | `app/services/store_schedule.py:427-460` | the count of a slot is the number of the orders that fall into it |
| `Capacity.CountedIsLooked` | `app/services/store_schedule.py:427-512` | a slot that counts an order with a canonical time was looked at when the order was checked |
| `Capacity.AcceptedFits` | `app/services/store_schedule.py:610-632` | an accepted request with a canonical time on a day with a window oversells no slot |
| `Capacity.NeverOversold` | `app/services/store_schedule.py:610-632` | over any run of such requests every slot stays within its limit |
| `Capacity.AcceptedOversellsIff` | `app/services/store_schedule.py:427-460` | an accepted request oversells a slot exactly when the slot was at its limit and counts the raw text of the hour, but the check passed it by: it has a bound, and the request gets no timed check or its parsed hour lies outside the bounds |
| `Capacity.UnpaddedHourOversells` | `app/services/store_schedule.py:463-512` | "9:30" is such a text for a slot that begins at 18:00 |
| `Capacity.UntimedOrderOversells` | `app/services/store_schedule.py:463-512` | a concrete request without a time that does |
| `Capacity.ScopeInMinutes` | `app/services/store_schedule.py:427-460` | the orders with a canonical time that a slot counts, in minutes |
| `Capacity.RecheckIff` | `app/services/store_schedule.py:610-632` | once a slot passed the check, it passes again with other orders if and only if day and hour have room |
| `Capacity.OtherDatesUnseen` | `app/services/store_schedule.py:427-460` | an order whose date is not stored as AAAA-MM-DD changes the answer of no check |
| `AiSchedule.InWindowIsCircular` | `app/services/store_schedule.py:647-681` | the three-way comparison is (now-off) mod W < (on-off) mod W, for every W |
| `AiSchedule.OneWindowPerWeek` | `app/services/store_schedule.py:647-681` | any W minutes in a row hold exactly (on-off) mod W inactive ones |
| `AiSchedule.InactiveIff` | `app/services/store_schedule.py:643-698` | with the schedule enabled the assistant is off exactly inside that window |
| `AiSchedule.InRange` | `app/services/store_schedule.py:643-644` | the number of a minute in a week that begins on Monday 00:00 |
| `AiSchedule.TakenRound` | `app/services/store_schedule.py:643-644` | values out of range are taken round |
| `CestaFlow.StepKeeps` | `app/application/use_cases/process_cesta_box_flow.py:241-546` | every message keeps the invariant of the stages |
| `CestaFlow.EveryRun` | `app/application/use_cases/process_cesta_box_flow.py:241-546` | any conversation keeps the invariant of the stages |
| `CestaFlow.EveryOrder` | `app/application/use_cases/process_cesta_box_flow.py:151-181` | any conversation sends at most one order, with the step that ends it: a catalogue basket at its price, a date and hour that passed the schedule check in the world of one of its messages, fee, address and hour up to 17:30 exactly for deliveries, a payment form with change exactly for cash |
| `CestaFlow.EveryOrderConfirmed` | `app/application/use_cases/process_cesta_box_flow.py:422-457` | every order was confirmed: there is a yes to the summary with no fresh start after it, and basket, date, hour, mode, address and total of the order are those of that summary |
| `CestaFlow.AnswerTurns` | `app/application/use_cases/process_cesta_box_flow.py:422-457` | the summary is left for the payment exactly on "1", "sim" or "confirmar", and for a fresh start without any answers exactly on "2", "nao", "não" or "corrigir"; anything else changes nothing and nothing is sent |
| `CestaFlow.ChoiceTurns` | `app/application/use_cases/process_cesta_box_flow.py:257-286` | the numbers 1 to 6 choose their baskets at their prices, anything else changes nothing |
| `CestaFlow.DateTurns` | `app/application/use_cases/process_cesta_box_flow.py:288-314` | a date is kept exactly when it is one and its day is accepted |
| `CestaFlow.HourTurns` | `app/application/use_cases/process_cesta_box_flow.py:316-342` | an hour is kept exactly when it is one and the schedule check takes it |
| `CestaFlow.ModeTurns` | `app/application/use_cases/process_cesta_box_flow.py:344-394` | a pickup goes to the summary without an address; a delivery goes to the address with the fee up to 17:30 and past it back to the hour with nothing changed |
| `CestaFlow.AddressTurns` | `app/application/use_cases/process_cesta_box_flow.py:398-420` | any address but a blank one is kept |
| `CestaFlow.FormTurns` | `app/application/use_cases/process_cesta_box_flow.py:459-512` | "1" and "2" send the order by PIX and card, "3" asks for the change, anything else changes nothing |
| `CestaFlow.RefusedChangeStays` | `app/application/use_cases/process_cesta_box_flow.py:514-546` | a refused change changes nothing, and neither does any message after the end |
| `CestaFlow.ConfirmOpensPayment` | `app/application/use_cases/process_cesta_box_flow.py:422-444` | confirming with the payment already opened never happens, so its fall-through is dead |
| `CestaFlow.CashChangeIff` | `app/application/use_cases/process_cesta_box_flow.py:514-544` | a cash order is sent if and only if the change reads as a positive number or a NaN, and its change is positive exactly if it is no NaN |
| `CestaFlow.EveryWishGetsThrough` | `app/application/use_cases/process_cesta_box_flow.py:241-546` | every valid set of answers, for pickup or delivery and PIX, card or cash, ends in exactly the order wanted |
| `CestaFlow.SlotStillFreeIff` | `app/application/use_cases/process_cesta_box_flow.py:316-342` | the slot of a sent order would pass the check in a later world of the same shop if and only if day and hour still have room |
| `CestaFlow.FilledSlotIsStillSold` | `app/application/use_cases/process_cesta_box_flow.py:316-342` | a whole conversation in which the slot fills up after the hour step and the order is sent all the same |
| `CestaFlow.BasketsFillNoSlot` | `app/application/use_cases/process_cesta_box_flow.py:151-163` | however many orders this flow stored, with their dates as DD/MM/AAAA, every schedule check answers as if there were none |
| `CestaFlow.CestaConversation.Process` | `app/application/use_cases/process_cesta_box_flow.py:241-546` | the code over its mutable state is the step about which the lemmas from `ChoiceTurns` to `RefusedChangeStays` say what each message does, and it ends the flow exactly when it sends an order |
| `ClientMerge.OneRowPerPhone` | `app/models/clientes.py:12-66` | after the merge a non-blank phone has one row, the one with its smallest id, unchanged |
| `ClientMerge.BlankIff` | `app/models/clientes.py:13-24` | the phones left out are exactly those that trimming leaves empty |
| `ClientMerge.MergedIff` | `app/models/clientes.py:12-66` | a client stays, unchanged, exactly when its phone is blank or its id the smallest of its phone |
| `ClientMerge.EveryRowKept` | `app/models/clientes.py:33-60` | the same tables and rows are there afterwards, each belonging to nobody, to the same missing or blank client, or to the client kept for the same phone |
| `ClientMerge.ReferencesKeepPhone` | `app/models/clientes.py:33-60` | every reference to an existing client still leads to an existing client with the same phone |
| `ClientMerge.OthersUntouched` | `app/models/clientes.py:13-24` | rows with a blank or unshared phone are untouched |
| `ClientMerge.MergeIdempotent` | `app/models/clientes.py:12-66` | a second run changes nothing |
| `ClientMerge.Database.MergeGroup` | `app/models/clientes.py:26-66` | one group: its child rows are repointed and its duplicates deleted, no row is lost |
| `ClientMerge.Database.DedupeClientesPorTelefone` | `app/models/clientes.py:12-66` | the loop over the groups, in any order, gives the merged tables |
| `ReplayCache.AcceptancesApart` | `app/security.py:155-171` | two acceptances of one id are more than the window apart |
| `ReplayCache.ReplayHasOriginal` | `app/security.py:155-171` | every refused call has an accepted original inside the window |
| `ReplayCache.PrunedLookup` | `app/security.py:160-166` | pruning never changes an answer |
| `ReplayCache.TracksCall` | `app/security.py:160-171` | each call keeps everything that can still matter in the cache |
| `ReplayCache.Cache.IsReplayEvent` | `app/security.py:155-171` | true exactly when the same id was accepted at most a window ago, by the full history |
| `Money.FormatShape` | `app/ai/tools/_common.py:63-64` | the three replacements give points between thousands and a comma before the cents |
| `Money.GroupAt` | `app/ai/tools/_common.py:63-64` | every fourth place from the right of a grouped number is a separator and the others are the digits in order |
| `Money.NoLeadingZero` | `app/ai/tools/_common.py:63-64` | no number but zero is printed with a leading zero |
| `Money.OrderValueRoundTrip` | `app/infrastructure/repositories/postgres_order_repository.py:148-153` | reading a printed amount with the order parser gives the amount, for every number of cents |
| `Money.CatalogRoundTrip` | `app/services/precos.py:302-306` | so does the catalogue parser on the text without R$ |
| `Money.FormatInjective` | `app/ai/tools/_common.py:63-64` | no two amounts are printed alike |
| `Payment.AcceptedPaymentRules` | `app/ai/tools/_common.py:102-171` | which payments are accepted, and as what: change exactly for cash, instalments only for a card order above R$ 100 and then two |
| `Payment.CheckIdempotent` | `app/ai/tools/_common.py:102-171` | checking accepted data again changes nothing |
| `Payment.CorrectionMemory.Update` | `app/ai/runner.py:560-591` | one message overwrites exactly what it mentions, payment as one block |
| `Payment.CorrectionMemory.UpdateAll` | `app/ai/runner.py:560-591` | over any messages each field is what the last one mentioning it said |
| `Payment.LastMention` | `app/ai/runner.py:560-591` | what is remembered of a subject is what the last message about it said, change only with cash and instalments only with a card |
| `Payment.NoMention` | `app/ai/runner.py:560-591` | and nothing if no message was about it |
| `Payment.LastWordDecidesOrder` | `app/ai/tool_execution.py:251-281` | the last word on mode and hour decides too: a pickup drops address and fee, a delivery leaves them to the model, and what was never mentioned stays as proposed |
| `Payment.LastWordDecidesPayment` | `app/ai/tool_execution.py:251-281` | whatever the model proposes, the order is paid as the customer last said, or refused |
| `Payment.RepeatingCashForgetsChange` | `app/ai/runner.py:571-583` | naming cash again without an amount forgets the change named before, and the order is refused |
| `CafeteriaItems.MergeValidatedItems` | `app/ai/tools/cafeteria.py:313-329` | one line per key in order of first occurrence, with quantity and price summed and the other fields of the first |
| `CafeteriaItems.LineOfItem` | `app/ai/tools/cafeteria.py:305-329` | each item goes into exactly one line, the one with the same name, variant and remark up to blanks at the ends |
| `CafeteriaItems.SubtotalConserved` | `app/ai/tools/cafeteria.py:439-440` | merging loses nothing: the subtotal charged, and the number of pieces, are the sums of the original lines |
| `CafeteriaItems.MergeIsDistinct` | `app/ai/tools/cafeteria.py:305-329` | a merge has one line per key |
| `CafeteriaItems.MergeOfDistinct` | `app/ai/tools/cafeteria.py:313-329` | merging lines that are already distinct, and so merging again, changes nothing |
## Left out

- AiTurn.Session.ProcessMessage: assumes that the call ids inside one model answer are distinct and non-empty; `RoundCompleteIff` shows that this is exactly what a complete round needs.
- AiTurn.Session.Intercept: the replies without the model are one parameter of the turn; which intent wins is decided by the text policies, which are not modelled.
- Capacity.NeverOversold: needs hours written as HH:MM and days with a store window, because the code oversells without them (`AcceptedOversellsIff`); it is about the count of the capacity query, and each check and its insert count as one step.
- CestaFlow.EveryOrder: the slot passed the check when the hour was given, not when the order was sent, because the code does not repeat the check (`SlotStillFreeIff`).
- FailureAlerts.RunWithinTwoWindows: two windows instead of one for moments between events, because one is false (`EveryMomentIff`).
- Inbound.HandoffHolds: the refresh by a message needs live references, because copies lose it.
- PhoneLocks.EntersAfterThoseAhead: schedules with a cancellation are excluded; the other theorems include them.
- Calendar.ResolveServiceDateReference: away from the last two weeks of year 9999, where Python raises.
- Cancellation while a request waits for the registry guard itself.
- Which protocol number a saved order's result carries is a parameter; so is the wording of the handoff message.
- Regex intent policies, prompts, agents and the wording of all texts: parameters or not modelled.
- What a removed extra does to the text of an order (`app/ai/tool_execution.py:283-288`).
- Fuzzy catalogue search and the catalogue files.
- Messaging and HTTP gateways, the panel's screens, metrics, logging and audit files.
- Database connections, migrations and the Postgres cutover; SQL is modelled by its effect on rows.
- Duplicate and persisted handoff requests, escalation categories and the handoff context: they change what is recorded, not who is answered.
- The trimming of stored maps to their newest entries (2000 message ids, 5000 replies and texts, 10000 opt-outs).
- Time that passes inside one message: a message has one moment, also for the side effects of the assistant's turn.
- Concurrent messages of different phones are interleaved message by message.
- Tenants.
- Float rounding: amounts are whole cents; the change of a gift basket is a real number, NaN or an infinity.
- Non-ASCII digits, letters and white space in times and amounts, daylight saving in openings.
- Failures after an order was stored: a gateway error answers the customer and ends the gift-basket flow all the same.
- The older menu scripts for custom cakes and deliveries, whose steps the gift-basket flow represents.
