# Group activity planner: a verified model of its workflow core

The planner coordinates one group event. An organizer creates a planning
session with a list of participants. The assistant introduces itself to each
participant and asks how they would like to be reached: text, e-mail or a
phone call. It then asks each participant questions about their preferences,
one at a time. From the fifth answer on, it asks whether they want to go on.
From the collected preferences a plan is written and sent to the organizer.
Once the organizer approves it, the plan goes out to every participant. A
participant who rejects it with feedback causes the organizer to be notified,
and the plan can then be revised from that feedback.

The model covers the orchestration layer (`CorePlanner`), the
preference-collection dialogue (`PreferenceCollector`), the routing and
wording of every outgoing message (`CommunicationHandler`), and the plan
generator's preference aggregation and keyword-driven revision
(`PlanGenerator`). It also covers the web layer's reply dispatcher and its
session-status query.

Layout:

- `wrappers.dfy`: `Option`, `Result` and `Outcome`.
- `sequences.dfy`: small facts about sequences.
- `text.dfy`: the Python string behaviour the code relies on: `strip`, `lower`, `in`, `endswith` and `join`.
- `plan_values.dfy`: plan dictionaries, and how Python prints their values.
- `communication_handler.dfy`: one routing function per send operation. Each returns the single delivery (SMS, e-mail or call) it makes, or none.
- `database.dfy`: the store the planner talks to.
  - Its implementation is not part of this model. The store is a class whose methods state what the planner's calls assume of it.
  - Ids are positions into its sequences.
  - Its `outbox` records every delivery.
- `preference_collector.dfy`: pure `Step` functions saying what one reply does to a participant and which message it sends. The handler methods update the store and are proved against these functions.
- `plan_generator.dfy`: the preference map and the revision of a plan.
- `core_planner.dfy`: the session workflow. Each loop over participants is a method whose outbox is proved equal to the list of the per-participant routing decisions. The routing properties are proved about that list.

## Model

| member | source | states |
|---|---|---|
| Text.TrimStart | app/preference_collector.py:52 | the leading run of whitespace is removed: the result is a suffix of the input, everything dropped is whitespace, and the result does not start with whitespace |
| Text.TrimEnd | app/preference_collector.py:52 | the trailing run of whitespace is removed: the result is a prefix of the input, everything dropped is whitespace, and the result does not end with whitespace |
| Text.Trim | app/preference_collector.py:52 | `str.strip()`: no longer than the input, and neither end of the result is whitespace |
| Text.TrimKeepsMiddle | app/preference_collector.py:52 | `str.strip()` keeps exactly the middle of the input: the result sits at a position of the input with only whitespace before it and after it |
| Text.TrimIdempotent | app/preference_collector.py:121 | stripping a stripped reply changes nothing |
| Text.Lower | app/preference_collector.py:52 | `str.lower()`: same length, each character lowered in place |
| Text.LowerIdempotent | app/plan_generator.py:225 | lowering a lowered text changes nothing |
| Text.TrimLower | app/preference_collector.py:121 | stripping and lowering commute, so the order of `.strip().lower()` does not matter |
| Text.ContainsAt | app/plan_generator.py:225 | `sub in s` holds whenever `sub` occurs at some position of `s` |
| Text.ContainsWitness | app/plan_generator.py:225 | conversely, when `sub in s` holds there is a position of `s` where `sub` occurs |
| CommunicationHandler.DetectContactType | app/communication_handler.py:76-82 | the type is "email" exactly when the contact contains "@", and "phone" otherwise |
| CommunicationHandler.ByContactFormat | app/communication_handler.py:158-165 | the shared ladder: SMS to a phone-like contact when SMS is on, e-mail to an "@" contact when e-mail is on, otherwise nothing, and never a call; the body is the message, and an e-mail carries the subject |
| CommunicationHandler.IntroMessageAsWritten | app/communication_handler.py:58-63 | the introduction the code sends greets the participant with the organizer and event, and ends by offering "or A3 for a phone call." |
| CommunicationHandler.IntroMessage | app/communication_handler.py:58-63 | the corrected introduction has the same greeting and ends by offering "or 3 for a phone call." |
| CommunicationHandler.IntroMessagesDifferOnlyInPhoneCode | app/communication_handler.py:58-63 | the as-written and corrected texts agree up to the offered code, and the as-written one is one character longer |
| CommunicationHandler.InitiateContactRouting | app/communication_handler.py:54-74 | first contact is routed on the contact format only; it carries the introduction as written, and an e-mail carries the "Help Plan: ..." subject |
| CommunicationHandler.SendQuestion | app/communication_handler.py:123-132 | a question is delivered exactly when the stored method is sms, email or phone and that channel is switched on; it goes to the contact, over that method, with the e-mail subject or the spoken greeting; there is no fallback |
| CommunicationHandler.FormatPlanShowsOnlyItsKeys | app/communication_handler.py:235-246 | two plans that agree on event_name, date, time, location, activities and notes format to the same text |
| CommunicationHandler.FormatPlanNotesSection | app/communication_handler.py:237-246 | the text always begins with the five fixed lines; an ADDITIONAL NOTES section with the notes follows exactly when the plan has truthy notes |
| CommunicationHandler.FormatPlanDefaults | app/communication_handler.py:237-241 | a plan with none of the keys reads "Event" for the name and "TBD" for date, time, location and activities |
| CommunicationHandler.SendPlanToOrganizer | app/communication_handler.py:145-165 | the proposed plan goes to the organizer by contact format only, with the approval text and the "Proposed Plan for ..." subject |
| CommunicationHandler.SendPlanToParticipantRouting | app/communication_handler.py:181-206 | when the preferred method is recognised and switched on, the plan goes to the participant's contact over exactly that method; otherwise it goes by contact format; a call carries the spoken script, and any other channel the written message |
| CommunicationHandler.NotifyOrganizerOfRejection | app/communication_handler.py:220-233 | the rejection notice goes to the organizer by contact format only, with the participant's feedback and the "Feedback on Plan for ..." subject |
| Database.MembersOf | app/core_planner.py:70 | every listed id is a stored participant of the session |
| Database.MembersOfComplete | app/core_planner.py:70 | every participant of the session is listed, in strictly increasing insertion order |
| Database.ParticipantsIn | app/core_planner.py:95 | the session's participant records, one per listed id, in order |
| Database.LatestPlanOf | app/core_planner.py:145 | the last stored plan of the session, or none when the session has no plan |
| Database.LatestApprovedOf | app/core_planner.py:209 | the last approved plan of the session, or none when no plan of the session is approved |
| Database.Store.CreateSession | app/core_planner.py:43-48 | appends one session and returns its position as the new id; nothing else changes |
| Database.Store.AddParticipant | app/core_planner.py:52-56 | appends a participant with no method, no questions, no responses and neither flag set; nothing else changes |
| Database.Store.SetPreferredMethod | app/preference_collector.py:68 | sets that participant's preferred method and changes nothing else |
| Database.Store.SetAwaitingContinuation | app/preference_collector.py:105 | sets or clears that participant's flag and changes nothing else |
| Database.Store.MarkComplete | app/preference_collector.py:131 | marks that participant complete and changes nothing else |
| Database.Store.StoreResponse | app/preference_collector.py:85 | appends the response to that participant only; earlier responses are untouched |
| Database.Store.StoreQuestion | app/preference_collector.py:165 | appends the question to that participant and returns its position |
| Database.Store.StorePlan | app/core_planner.py:132 | appends one undecided plan for the session and returns its position as the plan id; nothing else changes |
| Database.Store.UpdatePlanStatus | app/core_planner.py:166 | overwrites the plan's status and organizer feedback, whatever they were |
| Database.Store.RecordFeedback | app/core_planner.py:211-216 | appends one feedback record for the participant and plan |
| Database.Store.Send | app/communication_handler.py:66-74 | what one routing decision hands to `_send_sms`, `_send_email` or `_make_phone_call` is appended to the outbox, and nothing when it decides not to send; nothing else changes |
| PreferenceCollector.ReplyListsDisjoint | app/preference_collector.py:55-60 | no reply word selects two channels, so the order of the tests does not matter |
| PreferenceCollector.ResolveMethod | app/preference_collector.py:52-64 | the chosen channel is always sms, email or phone; each word list selects its channel; an unrecognised reply falls back to email for an "@" contact and to sms otherwise |
| PreferenceCollector.ResolveMethodPhoneExactly | app/preference_collector.py:52-64 | both directions: phone exactly for a phone word; sms exactly for an sms word or an unrecognised reply without "@"; email exactly for an email word or an unrecognised reply with "@" |
| PreferenceCollector.ResolveMethodIgnoresPaddingAndCase | app/preference_collector.py:52 | stripping and lower-casing a reply first never changes the channel it selects |
| PreferenceCollector.NormalizeIdempotent | app/preference_collector.py:121 | normalising a normalised reply changes nothing |
| PreferenceCollector.NextQuestion | app/preference_collector.py:187-213 | after n responses, the base question at position n (counting from 0) while n < 10, then the fixed follow-up question |
| PreferenceCollector.AskNext | app/preference_collector.py:155-173 | sends the next question for the stored responses and appends exactly that question to the participant's questions |
| PreferenceCollector.OnMethodReply | app/preference_collector.py:52-71 | stores the resolved channel, then asks the next question; nothing else about the participant changes |
| PreferenceCollector.OnAnswer | app/preference_collector.py:84-108 | the answer is appended first; with five or more responses the continuation prompt is sent, the flag is set and no question is stored; below five the next base question is asked and stored |
| PreferenceCollector.OnContinuation | app/preference_collector.py:121-145 | always clears the flag; an affirmative reply asks the next question; any other reply completes the participant and sends the thank-you, storing no question |
| PreferenceCollector.SendNextQuestion | app/preference_collector.py:147-173 | the participant's record becomes AskNext's, and the outbox grows by that step's single delivery |
| PreferenceCollector.ProcessPreferredCommMethod | app/preference_collector.py:41-71 | the store changes exactly as OnMethodReply says: one participant record and one delivery |
| PreferenceCollector.ProcessQuestionResponse | app/preference_collector.py:73-108 | the store changes exactly as OnAnswer says |
| PreferenceCollector.ProcessContinuationResponse | app/preference_collector.py:110-145 | the store changes exactly as OnContinuation says |
| PreferenceCollector.AsWrittenPhoneCodeMisrouted | app/communication_handler.py:62 | the "A3" reply the introduction offers is read as unrecognised: it selects email or sms by contact format, never phone |
| PreferenceCollector.IntroductionOffersMisroutedCode | app/communication_handler.py:62 | every introduction outreach delivers ends by offering "A3", and that reply selects e-mail or SMS by the contact's format, never a call |
| PreferenceCollector.AdvertisedCodesSelectTheirChannels | app/preference_collector.py:55-60 | with the corrected introduction, "1" selects sms, "2" email and "3" phone |
| PreferenceCollector.AnswerAllAppendsResponses | app/preference_collector.py:85 | over any run of answers, the responses are only appended to, and one message is sent per answer |
| PreferenceCollector.AnswerAllSplit | app/preference_collector.py:73-108 | answering xs and then ys is the same as answering xs + ys |
| PreferenceCollector.AnswersBelowThreshold | app/preference_collector.py:90-108 | below five responses, each answer is followed by the next base question in list order, and only the responses and the asked questions change |
| PreferenceCollector.FifthAnswerPrompts | app/preference_collector.py:90-105 | the answer that brings the responses to five sends only the prompt and sets the flag |
| PreferenceCollector.FiveAnswersReachThePrompt | app/preference_collector.py:88-105 | a new participant who names a channel and gives five answers awaits the continuation decision, having been asked the first five base questions |
| PreferenceCollector.FiveAnswersMessages | app/preference_collector.py:88-105 | that participant receives the first five base questions in order, then the continuation prompt |
| PreferenceCollector.FiveAnswersThenDecline | app/preference_collector.py:124-145 | declining after five answers completes the participant with the thank-you, and no further question is stored |
| PreferenceCollector.ContinuingAsksOneQuestion | app/preference_collector.py:90-128 | agreeing to continue buys exactly one question: the next answer brings the prompt back |
| PlanGenerator.AggregateKeys | app/plan_generator.py:173-179 | the preference map has one entry per distinct participant name, and no other |
| PlanGenerator.AggregateLastWins | app/plan_generator.py:173-179 | a name's entry holds the responses and method of the last participant with that name |
| PlanGenerator.CollectPreferences | app/plan_generator.py:42-48 | the loop builds exactly the aggregate of the session's participants |
| PlanGenerator.RevisionReason | app/plan_generator.py:244-246 | the fixed reason, followed by " from <name>" exactly when a non-empty participant name is known |
| PlanGenerator.RewriteField | app/plan_generator.py:225-229 | one rewrite sets the field and appends the note to the notes; it fails with a type error exactly when the existing notes are not a string |
| PlanGenerator.MockRevisedPlan | app/plan_generator.py:208-248 | the result is the revision relation: it fails exactly when a field is mentioned and the notes are not text; otherwise every key holds its revised value |
| PlanGenerator.RevisionIsDetermined | app/plan_generator.py:222-248 | the revision relation has at most one result, so it fully describes the copy-then-rewrite code |
| PlanGenerator.MentionsIgnoreCase | app/plan_generator.py:225-237 | keyword matching gives the same answer on the feedback and on its lower-cased form |
| PlanGenerator.RevisionWithoutKeywords | app/plan_generator.py:222-248 | feedback naming no field leaves the plan as it was, plus the revision reason |
| PlanGenerator.RevisionExtendsNotes | app/plan_generator.py:228-241 | a successful revision keeps the old notes as a prefix of the new notes |
| PlanGenerator.RevisePlan | app/plan_generator.py:154-206 | a named participant who is not stored raises the TypeError, even when the plan is missing too, since the name is read first; otherwise a missing plan raises when it is copied; otherwise the stored plan is revised with the participant's name, if one was given |
| CorePlanner.Enrolled | app/core_planner.py:51-56 | one new, uncontacted participant record per entry, in the order given |
| CorePlanner.SessionRoster | app/core_planner.py:43-57 | a fresh session's participants are exactly its entries, in order |
| CorePlanner.CreatePlanningSession | app/core_planner.py:29-59 | adds one session and its participants, and reports the new id; the session's roster is its entries; plans, feedback and outbox are unchanged |
| CorePlanner.StartOutreach | app/core_planner.py:61-83 | the outbox grows by the introduction decisions for the session's participants, in order; nothing else changes |
| CorePlanner.OutreachRoutedByContact | app/core_planner.py:75-83 | outreach never places a call and makes at most one delivery per participant; each delivery goes to a participant's contact, as an e-mail exactly when that contact has "@" |
| CorePlanner.OutreachReachesEveryone | app/core_planner.py:75-83 | with SMS and e-mail on, each participant gets exactly one introduction, in order, to their contact, by its format, with the introduction text as written |
| CorePlanner.CompletedIn | app/core_planner.py:96 | the completed list keeps every complete record as often as it occurs and no other record, so its length counts records, not distinct values |
| CorePlanner.CompletedCountsRecords | app/core_planner.py:96 | two equal complete records are counted twice |
| CorePlanner.Percentage | app/core_planner.py:102 | between 0 and 100; 0 for no participants; otherwise the completed count scaled to 100 over the total |
| CorePlanner.PercentageInRange | app/core_planner.py:102 | the source's (completed / total) * 100 lies in [0, 100] and scales back to completed * 100 |
| CorePlanner.StatusOf | app/core_planner.py:95-111 | the counts add up and completed counts the complete participants; there is one row per participant, in order, "complete" exactly for complete ones, with their stored method |
| CorePlanner.CheckPreferencesStatus | app/core_planner.py:85-111 | the report is the status report of the session's participants, in order, so every property of StatusOf holds of it |
| CorePlanner.StatusOfThree | app/core_planner.py:98-111 | with three participants, one of them done: 1 completed, 2 pending, 100/3 percent |
| CorePlanner.GeneratePlan | app/core_planner.py:124-135 | stores one new undecided plan whatever the collection status; it becomes the session's latest plan |
| CorePlanner.SubmitPlanToOrganizer | app/core_planner.py:137-154 | the session's latest plan goes to its organizer; an unknown session, or a session without a plan, is an error that sends nothing |
| CorePlanner.DistributePlanToParticipants | app/core_planner.py:174-196 | the outbox grows by the plan-copy decisions for the session's participants, in order, each with that participant's current method |
| CorePlanner.DistributionReachesEveryone | app/core_planner.py:186-194 | with SMS and e-mail on, each participant gets exactly one copy, to their contact, over their preferred method whenever it is usable |
| CorePlanner.DistributionAtMostOncePerParticipant | app/core_planner.py:186-194 | distribution makes at most one delivery per participant |
| CorePlanner.RecordOrganizerDecision | app/core_planner.py:166-172 | overwrites status and feedback; approval distributes the plan; rejection sends nothing and stores no new plan |
| CorePlanner.ApprovalIsVisible | app/core_planner.py:166 | after approving one of its plans, the session has an approved plan |
| CorePlanner.CollectParticipantFeedback | app/core_planner.py:209-229 | the answer is recorded against the latest approved plan; exactly a rejection with non-empty feedback notifies the organizer; a missing session or participant for the notice is an error that sends nothing |
| CorePlanner.ProcessReply | app/main.py:162-174 | a reply while the prompt is pending goes to the continuation handler, otherwise to the answer handler; the store changes as that step says |
| CorePlanner.PromptedReplyIsADecision | app/main.py:162-174 | the reply after the prompt is taken as the decision: it is not stored as an answer, and it clears the flag |
| CorePlanner.DeclinedParticipantIsPromptedAgain | app/main.py:162-174 | a participant who declined can still answer: the reply is stored, and the prompt goes out again |
| CorePlanner.PlanStatusOf | app/main.py:117-127 | there is a plan exactly when the session has a stored plan and its latest plan is a non-empty (truthy) dictionary; it is approved exactly when one of the session's plans is approved; the details are the latest plan's |
| CorePlanner.ApprovedPlanIsReported | app/main.py:117-127 | a session with an approved plan has a latest plan; it is reported, and as approved, exactly unless that latest plan is empty |
| CorePlanner.GetSessionStatus | app/main.py:104-136 | an unknown session is "not found"; otherwise the report names the event and organizer and counts the session's participants; there is a plan exactly when the latest plan exists and is not empty, and it is approved exactly when the session has an approved plan; the whole report is the preference report and the plan status of the session |

## Left out

- Transport: `_send_sms`, `_send_email` and `_make_phone_call` only log in the source. Here, a send appends the delivery to the store's outbox.
- Logging is not modelled. Neither are the API key, the environment lookup, or session timestamps (`datetime.now()`).
- LLM, Twilio and SendGrid calls are placeholders in the source and are not modelled.
  - `create_plan`'s authoring of a new plan, including `_create_mock_plan` and `_construct_planning_prompt`, is not modelled: `GeneratePlan` takes the plan content as an input.
  - The LLM branch of `_generate_next_question` is not modelled; the model keeps its fixed fallback question.
- The database module is not part of this model. `Database.Store` states what the planner's calls assume of it:
  - identifiers are positions;
  - lists keep insertion order;
  - `get_question_count` is the number of stored responses.
- PreferenceCollector.ProcessPreferredCommMethod, PreferenceCollector.ProcessQuestionResponse, PreferenceCollector.ProcessContinuationResponse and CorePlanner.ProcessReply require a stored participant id. What the store does for an unknown id is not part of this model.
- CorePlanner.DistributePlanToParticipants and CorePlanner.RecordOrganizerDecision require a stored plan id, for the same reason.
- Database.Store.RecordFeedback appends a record. Whether the store replaces an earlier record for the same participant and plan depends on the store, which is not part of this model.
- The FastAPI layer is not modelled beyond the reply dispatcher and the status query: request parsing, HTTP status codes, background-task scheduling and the other routes.
- CorePlanner.StatusOf: dictionary key order and the JSON shape of the reports are not modelled, and neither is Python's float rounding. `complete_percentage` is an exact real, and the integer 0 for an empty session is the real 0.0.
- PlanGenerator.CollectPreferences: the map is a Dafny map, so the insertion order of the Python dict is not kept.
- PlanGenerator.RevisePlan: `if participant_id:` (app/plan_generator.py:186) also treats an empty-string id as "no participant". Ids are positions here and the optional id is an `Option<nat>`, so a present but falsy id cannot occur.
- Text.Lower models `str.lower()` for `A`-`Z` and the Kelvin sign only (the characters that lower to ASCII). Every other character is kept as it is, so reply matching is exact for ASCII replies only.
- PlanValues.Show prints a string inside a list or a dictionary in single quotes, always. Python's `repr` switches to double quotes for a string holding a single quote, and it escapes backslashes and control characters. Neither is modelled.
- A plan is a Dafny map, so the key order of a plan dictionary is lost. This affects the status query's plan details and revised plans, which Python would print in insertion order.
- CorePlanner.GeneratePlan requires an id of a stored session. The one call site, the generate route (app/main.py:185-187), checks this first.
- CorePlanner.OutreachReachesEveryone and CorePlanner.DistributionReachesEveryone assume SMS and e-mail are switched on, as they are in the handler the planner builds (app/core_planner.py:24). With a channel off, CorePlanner.OutreachRoutedByContact and CorePlanner.DistributionAtMostOncePerParticipant still apply.
- Concurrency is not modelled: each operation runs to completion before the next one starts.

The code makes no state checks and takes a few narrower choices; the model keeps each of them as written:

- Answers are accepted in any state: after the prompt has been declined, or while the prompt is pending if the dispatcher is bypassed.
- The prompt goes out after every answer from the fifth on, even when no base questions remain.
- `record_organizer_decision` overwrites a plan's status in any state and raises no state error.
- `send_question` has no contact-format fallback. Only the plan distribution falls back.
- The status query's "approved" means the session has an approved plan. It does not mean the plan was distributed.

## Findings

| source | as written | input that shows it | evidently intended | confidence | as-written member | corrected member |
|---|---|---|---|---|---|---|
| app/communication_handler.py:62 | the introduction asks for "A3" to choose a phone call, but the method parser (app/preference_collector.py:59) only knows "3", "phone", "call" and "voice"; CommunicationHandler.IntroMessageAsWritten is the text as sent | a participant at "555-0100" replies "A3": it normalises to "a3", is unrecognised, and falls back to sms | the offered code is "3", which selects the phone; CommunicationHandler.IntroMessage is the corrected text | not executed | PreferenceCollector.IntroductionOffersMisroutedCode | PreferenceCollector.AdvertisedCodesSelectTheirChannels |
