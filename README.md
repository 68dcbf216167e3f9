# TwiliTransit conversation state machine in Dafny

TwiliTransit is an SMS travel assistant. Each inbound message on `POST /webhook`
is routed by its sender's phone number to a per-sender session. The message
text is upper-cased and trimmed. The session's `step` then decides what the
text means: a trip-planning request, a yes or no to the bus reminder, a
journey update (boarded the bus, at the ferry, at the metro, rideshare,
reroute), or a rating and "next trip" once the journey is complete. A handler
moves the session to its next step, sends at most one canned reply and may schedule a
delayed notice with `setTimeout`. When the journey-completion notice fires it
marks the sender's stored session `completed`. `GET /analytics` counts the
stored sessions per step, and `POST /clear-sessions` empties the store.

The model has these modules:

- `Text` (text.dfy): JavaScript's `toUpperCase`, `trim` and `includes`, and
  the rating pattern `/^[1-5]$/`, on `seq<char>`.
- `Keywords` (keywords.dfy): the trip-planning request, the one test on the
  text that is not an exact match.
- `Conversation` (conversation.dfy): `handleUserMessage` and its four
  handlers as pure functions. Each one maps a session and a text to an
  `Outcome`: the updated session, the replies sent (a tag per canned message,
  with the name or rating substituted into it) and the notices scheduled (kind,
  name, delay in milliseconds). `UserEdge` is a transition table written
  independently of the handlers, and every handler is proved to follow it.
- `Dispatch` (dispatch.dfy): the `send*` helpers' choice between a content
  template, the plain text, and the shorter plain text sent when the
  templated request fails.
- `Store` (store.dfy): the `userSessions` map and what the webhook, a firing
  notice and the analytics loop do to it, as functions of the map.
- `Server` (server.dfy): the class `TransitServer`. It holds the sessions
  map, the log of sends (`outbox`) and the notices still waiting to fire
  (`pending`). Its methods update these fields in place and are proved
  against the `Store` functions.
- `Scenarios` (scenarios.dfy): conversations traced through the store.

Sends and `setTimeout` calls are appended events. A pending notice fires
only when `FireNotice` is called on it. Timestamps are abstract stamps that
the caller passes in. A failed send to the provider is a boolean argument.

## Model

| member | source | states |
|---|---|---|
| Text.UpperChar | server.js:625 | Every letter `toUpperCase` maps to an ASCII capital becomes that capital: a to z become A to Z in alphabet order, the dotless i becomes I and the long s becomes S; nothing else changes; no such letter is left; white space stays white space |
| Text.IsSpace | server.js:625 | The characters `trim` removes: ECMAScript WhiteSpace and LineTerminator (definition) |
| Text.Upper | server.js:625 | Upper-casing keeps the length of the text (`Text.UpperAt` gives each character) |
| Text.UpperAt | server.js:625 | Upper-casing works character by character |
| Text.UpperAppend | server.js:625 | Upper-casing a concatenation concatenates the upper-cased parts |
| Text.UpperHasNoLower | server.js:625 | Upper-casing leaves no letter that upper-cases to an ASCII capital |
| Text.TrimStart | server.js:625 | Everything dropped from the front is white space, and the result does not start with white space |
| Text.TrimEnd | server.js:625 | Everything dropped from the back is white space, and the result does not end with white space |
| Text.TrimStartIsSuffix | server.js:625 | What `trimStart` leaves is a suffix of its input |
| Text.TrimEndIsPrefix | server.js:625 | What `trimEnd` leaves is a prefix of its input |
| Text.TrimSpan | server.js:625 | The trimmed text is the block of the input that starts after the leading white space, with only white space around it |
| Text.Trim | server.js:625 | The trimmed text neither starts nor ends with white space |
| Text.Normalise | server.js:625 | The text the state machine matches on has no white space at either end |
| Text.NormaliseHasNoLower | server.js:625 | The text the state machine matches on has no letter that upper-cases to an ASCII capital |
| Text.NormalisedIsUpper | server.js:625 | The text the state machine matches on is its own upper-case form |
| Text.UpperFixesUpper | server.js:625 | Text without lower-case letters is its own upper-case form |
| Text.TrimFixesTrimmed | server.js:625 | Text without white space at either end is its own trimmed form |
| Text.NormaliseIdempotent | server.js:625 | Normalising an already normalised text changes nothing |
| Text.ContainsIff | server.js:629 | `includes` is true exactly when the word occurs at some index |
| Text.Contains | server.js:629 | `includes`, defined by recursion on the text; its meaning is stated by `Text.ContainsIff` (definition) |
| Text.TrimKeepsWords | server.js:625-629 | A word without white space is found after trimming exactly when it is found before |
| Text.WordSurvivesNormalise | server.js:625-629 | A word without white space is found in the normalised text exactly when it is found in the upper-cased text |
| Text.RatingIsOneToFive | server.js:769 | The rating pattern accepts exactly "1" to "5" |
| Text.IsRating | server.js:769 | `/^[1-5]$/`: one character from 1 to 5 (definition; `Text.RatingIsOneToFive` states it) |
| Text.WordSurvivesTrim | server.js:625-629 | A word without white space found in the input lies inside the trimmed block, at the same place |
| Text.WordPrecedesTrim | server.js:625-629 | A word found in the trimmed block is found in the input, shifted by the leading white space |
| Keywords.PlanTripSurvivesTrim | server.js:625-629 | Whether the text asks for a trip plan does not depend on the white space around it |
| Keywords.PlanTripRequested | server.js:629 | The text contains PLAN and TRIP once upper-cased (definition; `Keywords.PlanTripSurvivesTrim` shows trimming does not change it) |
| Conversation.HandleUserMessage | server.js:624-674 | Every inbound text follows the `UserEdge` table. Name and stamps are kept. `completed` is never entered by a message. No reply is sent exactly for an unrecognised answer to the reminder question (`Conversation.Ignored`). At most one reply and one notice. Coherence is kept. Notices carry the session's name |
| Conversation.Ignored | server.js:637-648 | The message left without a reply: the reminder question is pending and the text is none of YES, REMIND_YES, NO, REMIND_NO (definition) |
| Conversation.EntryTimer | server.js:643-724 | A step has a notice exactly when entering it schedules one (`HasEntryTimer`), and the notice carries the given name |
| Conversation.Transition | server.js:627-673 | The dispatch on the step, on the normalised text. The reminder flag is only switched on by moving from the reminder question to `reminder_set`. Each scheduled notice is the one that belongs to the step entered. Entering a step that schedules a notice always schedules it |
| Conversation.HandleStart | server.js:628-635 | Moves to `awaiting_reminder_choice` exactly when the text contains PLAN and TRIP, otherwise stays; one reply, no notice |
| Conversation.HandleReminderChoice | server.js:637-648 | `reminder_set` exactly on YES/REMIND_YES, with the flag switched on and the bus notice scheduled; `no_reminder` exactly on NO/REMIND_NO; no reply exactly when the answer is neither |
| Conversation.HandleJourneyUpdates | server.js:676-738 | One reply. The step stays or moves to a journey target. A notice is scheduled exactly for the commands that schedule one. Every move other than a reroute schedules a notice |
| Conversation.HandleReroute | server.js:740-747 | Moves to `rerouting` with the reroute prompt and no notice, changing nothing else |
| Conversation.HandlePostJourneyMessage | server.js:749-781 | NEXT/NEXT_TRIP restarts at `initial`, anything else stays `completed`. One reply. The rating thanks are sent exactly for a rating and echo it |
| Conversation.HandleGeneralMessage | server.js:783-793 | Never changes the session; SUPPORT gets the support text, anything else the fallback |
| Conversation.InitialTable | server.js:625-635 | From `initial`, text containing PLAN and TRIP in any letter case and with any padding gets one trip-planning message and moves on; any other text gets the welcome message and stays |
| Conversation.ReminderChoiceTable | server.js:637-648 | The full outcome for YES/REMIND_YES (flag on, `reminder_set`, confirmation, bus notice at 5000 ms), NO/REMIND_NO (`no_reminder`, one reply, no notice) and anything else (nothing) |
| Conversation.JourneyTable | server.js:650-665 | The full outcome of every journey command in the five journey steps: ferry notice at 10000 ms, metro notice at 15000 ms, completion notice at 10000 ms after METRO and BOOK, reroute, and the unchanged step for RIDESHARE and other text |
| Conversation.PostJourneyTable | server.js:667-669 | The full outcome of NEXT/NEXT_TRIP, FEEDBACK, a rating and any other text in `completed` |
| Conversation.GeneralTable | server.js:671-673 | `rerouting` and `rideshare_booked` never move; SUPPORT gets the support text, anything else the fallback |
| Dispatch.Deliver | server.js:418-442 | Templated exactly when the helper has a template and its SID is set (non-empty) and the request succeeds. The shorter text exactly when the templated request fails. The plain text exactly when there is no SID |
| Dispatch.IsSet | server.js:418-596 | `if (CONTENT_SIDS.x)` as the six template-backed helpers test it: JavaScript truthiness, so a missing or empty SID counts as unset (definition) |
| Dispatch.TemplateSid | server.js:420 | The `CONTENT_SIDS` entry a reply's helper tests; only the template-backed helpers test one |
| Dispatch.HasTemplate | server.js:418-596 | The replies whose helper tries a content template first: trip planning, ferry welcome and the four timed notices (definition) |
| Dispatch.SendAll | server.js:418-442 | One send per reply, in order, each addressed to the sender, carrying that reply and going out as `Dispatch.Deliver` chooses |
| Dispatch.UnconfiguredIsPlain | server.js:420-433 | With no SID configured every reply goes out as plain text |
| Dispatch.FailureDegrades | server.js:434-441 | With the SID set, success sends the template and failure the shorter plain text |
| Store.Receive | server.js:807-830 | A missing body leaves the store unchanged and sends one fallback. Otherwise the sender's key is added and nobody else's session changes. A new session starts at `initial` as Alex with the reminder off, stamped now. An existing session follows `UserEdge`. No reply exactly when a stored sender's unrecognised answer is pending (`Store.Unanswered`); otherwise exactly one |
| Store.Unanswered | server.js:812-823 | The delivery the webhook leaves without a reply: a stored sender whose message is ignored (definition) |
| Store.NewSession | server.js:814-819 | The session created for a new sender is at `initial`, stamped now, named Alex and coherent |
| Store.NoticeReply | server.js:643-724 | The message each `setTimeout` callback sends; every one goes through a template-backed helper |
| Store.Fire | server.js:543-548 | Only a completion notice for a stored sender changes the store: that session becomes `completed` with its stamp, keeping name, flag and creation stamp; no key is added or removed |
| Store.ReceiveKeepsWellFormed | server.js:812-824 | Every stored session stays coherent and named Alex, and every scheduled notice is addressed to Alex |
| Store.FireKeepsWellFormed | server.js:543-548 | A firing notice keeps every stored session coherent |
| Store.ScheduleKeepsDefaultName | server.js:643 | Scheduling notices addressed to Alex keeps every waiting notice addressed to Alex |
| Store.SaveKeepsWellFormed | server.js:812-824 | Saving a handled session keeps every stored session coherent and named Alex; its notices are addressed to Alex |
| Store.CountAmongAdd | server.js:841-844 | Counting one more sender adds one to its step's count and nothing to the others |
| Store.CountOneMore | server.js:841-844 | One loop iteration keeps the per-step counts equal to the counts over the senders seen so far, all positive |
| Store.Get | server.js:843 | The count `journeySteps` holds for a step, or 0 when the step has none yet (definition) |
| Store.StepIndex | server.js:841-844 | Every step has a place among the ten steps, and `Store.StepAt` gives back the step at each place |
| Store.FromSplit | server.js:841-844 | The senders at a step or a later one are those at the step plus those at later steps, with no overlap |
| Store.SumFromCounts | server.js:841-844 | Per-step counts sum, from any step on, to the number of senders at those steps |
| Store.TallyIsTotal | server.js:835-844 | Per-step counts add up to the number of stored sessions |
| Server.TransitServer.constructor | server.js:16 | The server starts with an empty store, no sends and no notices pending |
| Server.TransitServer.Webhook | server.js:807-830 | Answers 200. Stores what `Store.Receive` stores. Appends its replies as sends to the sender and its notices as pending. Keeps the store well formed |
| Server.TransitServer.FireNotice | server.js:521-548 | Removes the fired notice from the pending list, sends it through its template or text, and updates the store as `Store.Fire` does |
| Server.TransitServer.Analytics | server.js:833-847 | `totalUsers` is the number of stored sessions. Each step's count is the number of sessions at that step. Only steps with a session appear. The counts add up to `totalUsers` |
| Server.TransitServer.ClearSessions | server.js:872-875 | Empties the store and leaves sends and pending notices as they were, so the next analytics reports 0 users |
| Scenarios.PlanFromNew | server.js:812-823 | A new sender whose text asks for a trip plan is stored at `awaiting_reminder_choice` as Alex with the reminder off, and gets one trip-planning reply |
| Scenarios.TripToMarketRequested | server.js:629 | "plan my trip to market" asks for a trip plan |
| Scenarios.TripToMarketFromNew | server.js:812-823 | From a fresh store, "plan my trip to market" stores the sender at `awaiting_reminder_choice` and sends one trip-planning message naming Alex |
| Scenarios.YesToReminder | server.js:637-643 | A yes to the reminder question, in any letter case and padding, stores `reminder_set` with the flag on, sends one confirmation and schedules the bus notice at 5000 ms |
| Scenarios.MetroDuringJourney | server.js:697-706 | METRO during the journey stores `at_metro` and schedules the completion notice at 10000 ms |
| Scenarios.RatingAfterJourney | server.js:767-773 | A rating after the journey is echoed back and leaves the store as it is |
| Scenarios.MetroThenRating | server.js:543-548 | METRO, then the completion notice firing, then a rating: the journey ends `completed` with its stamp and the rating is echoed |
| Scenarios.LongSYes | server.js:625-638 | "yeſ", with the long s, normalises to YES and so answers the reminder question |
| Scenarios.StLigatureKept | server.js:625-629 | "plan ﬆrip" is not a trip request in the model, although `toUpperCase` makes it PLAN STRIP and the source plans the trip; this is the ligature gap named under Left out |


## Left out

- Text.UpperChar, Text.Upper: upper-case only the letters whose capital is a single ASCII letter: a to z, the dotless i (U+0131, to I) and the long s (U+017F, to S). The rest of JavaScript's Unicode case mapping is left out. That covers letters whose capital is another non-ASCII letter (é to É), and the mappings that lengthen the text: ß to SS, the ligatures U+FB00 to U+FB06 (to FF, FI, FL, FFI, FFL, ST and ST), and the letters that become an ASCII capital with a combining mark or modifier next to it (ŉ, ǰ, ẖ, ẗ, ẘ, ẙ, ẚ). Only the two ST ligatures, U+FB05 ﬅ and U+FB06 ﬆ, change an outcome. Followed by "rip", their T starts TRIP in the source and not in the model. So a text such as "plan my ﬆrip" is a trip request in `initial` in the source: it gets the trip-planning message and moves to `awaiting_reminder_choice`. In the model it gets the welcome message and stays at `initial` (`Scenarios.StLigatureKept`). The other mappings change no outcome. A result holding a non-ASCII character equals no command. No command contains SS, FF, FI or FL, and neither do PLAN and TRIP. The mark or modifier sits where PLAN and TRIP need a letter: before the N, or after the A or T.
- Text: a JavaScript string is a sequence of UTF-16 code units, while a Dafny `char` is a Unicode scalar value. A character outside the Basic Multilingual Plane is one `char` here and two code units in the source. Every text is matched against ASCII words and one-character ratings, and no such character upper-cases to ASCII, so no step, reply or notice differs.
- A `Body` that is not a string is modelled as a missing body (`None`). Then `toUpperCase` throws before anything is changed. A missing `From` is just another key.
- Concurrency is not modelled. The handlers `await` their sends, and some of them change the step only after the send returns. Two webhooks for one sender, or a webhook and a firing notice, can interleave in the source. The model runs each request and each notice on its own.
- Real delays and clock time are not modelled. A pending notice fires when `FireNotice` picks it, in any order, whatever its delay. `Date` values are abstract stamps.
- Template creation through the Content API, messaging-service and phone-number provisioning, and `POST /setup-templates` are not modelled. `CONTENT_SIDS` is a constructor argument of the server.
- Express routing, body parsing, the health-check route, start-up and logging are not modelled. Of the HTTP responses, the model keeps the webhook's status 200 and the `totalUsers` and `journeySteps` fields of the analytics response. It leaves out the analytics `contentTemplates` and `timestamp` fields, the health-check body, and the JSON bodies of `/clear-sessions` and `/setup-templates`.
- Message wording is not modelled. A reply is the tag of the canned message, with the name or rating that is substituted into it.
- Sending is an appended record, not a network call. One `failed` flag per webhook or notice stands for the provider rejecting that request's templated send. A failure inside `sendMessage` is swallowed by the source and changes nothing.
- `userSessions` holds mutable session objects, which the handlers update in place. The model stores session values and writes the updated value back, which ends in the same state because handling either completes or throws before changing anything. A notice's `setTimeout` callback reads `session.name` when it fires; the model fixes the name when the notice is scheduled. The name is never reassigned, so both give the same name.
