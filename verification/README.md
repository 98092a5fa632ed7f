# OpenCord server: a verified model

A Dafny model of the stateful and textual cores of the OpenCord server, with proofs. The
in-memory stores are the model of storage; handlers that interleave in the server are steps
of a state machine, and code that updates variables or store fields in place is a class or a
method proved against functions on values.

- **Gateway** (`GatewayStore`, `GatewayProtocol`, `GatewayReplay`, `GatewayDispatch`,
  `GatewayCompleteness`, `GatewayLimit`, `GatewayNumbers`, `GatewaySocket`). A world holds the
  session store, any number of socket connections and, per session, what its client received. Every store call and every send is a
  step, a send may fail, and delivered frames may lag behind sent ones. The one hypothesis on
  the environment is the guard of the `Resume` step: a session is resumed only after its
  previous connection has ended. For a client that reports the last number it received it is
  proved exactly which logged events it misses; with at most 100 events logged above that
  number at each resume it misses none. Exactly the events that a session's own Identify asked for
  are forwarded, under consecutive numbers. The handlers of a socket are also modelled as the
  object they are, and tied to the steps of the machine.
- **Interactions** (`InteractionStore`, `Interactions`, `InteractionRuns`). Callback, deferral and follow-up
  requests read a snapshot and later write through the guarded store; the lifecycle is proved
  for every interleaving, and so is which route reaches a message; requests on one interaction
  that do not overlap lose none. Two overlapping callbacks are shown to lose a message. Every
  message was created for a holder of the interaction's token.
- **Rate limits** (`RateLimit`, `RateAnswers`). Exact counting bounds over whole runs, with runs that
  reach them, and what the answers mean for later calls.
- **Text** (`Calendar`, `InviteFields`, `Mentions`, `Embed`, `EmbedMeaning`, `EmbedForm`, `Moments`,
  over `Text` and `Json`). iCalendar escaping as five whole-string passes and invitations read back
  field by field, the mention scan and its policy, the embed normaliser told from its input, its
  budget and its timestamps.
- **Time and retention** (`Timestamps`, `TimestampFields`, `Retention`, `RetentionRuns`,
  `RetentionCounts`, `RetentionWorker`, `RetentionRecords`).
- **Permissions** (`Permissions`), on 64-bit words. The computation is written over any kind of
  word with a zero, an `or` and an `and not`, what it decides is proved from three laws about
  testing a word, and 64-bit words are shown to obey the laws at each of their bits.
- **Attachments** (`Attachments`, `AttachmentLedger`, `AttachmentHandlers`, `Sums`), **reminders** (`Reminders`,
  `ReminderRuns`, `ReminderWorker`), **jobs** (`Jobs`).
- `Lists`, `Numbers` and `Outcomes` hold what several of these share.

Where the code does not do what one would expect of it:

- A replay is cut at 100 events and RESUMED then takes a number at or above the whole log: a
  resume leaves the client with no gap if and only if there was none before and the backlog is at
  most 100 (`GatewayLimit.ResumeRunCompleteIff`, `GatewayLimit.EveryBacklog`). An event that was
  cut is missed for good exactly when a frame with its number or a higher one reaches the client
  afterwards; until then a further resume replays it (`GatewayCompleteness.MissingExactly`, `GatewayCompleteness.MissingForever`).
- RESUMED may carry the number of a logged event. It does so if and only if the last event was logged
  and its number never stored, and the backlog is above 100: then it is the number of that event,
  which is not sent (`GatewayNumbers.ReusedNumberIff`, and runs that reach it in
  `GatewayNumbers.EveryUnsent`).
- Of two callbacks that both read the pending interaction, one leaves a message that no route
  can edit or delete (`Interactions.OverlappingCallbacks`); `Interactions.RoutesUnderInterleaving`
  says exactly which messages are lost: those whose final write found the interaction responded.
- An embed whose timestamp falls outside the years 0 to 9999 in UTC, such as
  `0000-01-01T00:00:00+01:00` or `9999-12-31T23:30:00-01:00`, is accepted and stored in a form that
  normalisation refuses; otherwise normalisation is idempotent (`Embed.NormalizeTwice`,
  `Embed.RefusedAtTheEdge`).
- The rate limiter allows at most (k+1)·limit−1 calls in k windows, one less than the usual
  estimate, and there are runs that reach it (`RateLimit.AllowedBound`, `RateLimit.BoundIsReached`).
- A refused call is told the full seconds that are left of its window, which the Retry-After header
  repeats. Waiting that long is enough if and only if what was left were full seconds or less than
  one; a second more is always enough (`RateAnswers.WaitMeans`).
- Text order of timestamps breaks past year 9999: a reminder for a meeting that starts at
  `9999-12-31T23:30:00-01:00` is due from the moment it is created (`Reminders.DueExact`,
  `Reminders.LateReminderDueAtOnce`).
- A meeting cancelled after its reminder was listed is reminded of all the same
  (`ReminderRuns.CancelledAfterListing`): a delivery goes to a meeting that is not scheduled if and
  only if the last change of that meeting since the listing was its cancellation
  (`ReminderRuns.CancelledIff`).
- An attendee address with a line end is accepted and breaks the invitation into other lines
  (`Calendar.BrokenInvite`).
- The idempotency guard is never released: a key answered Retry is answered Duplicate from then
  on (`Jobs.HandledOnce`).

`dafny verify dfyconfig.toml` checks the whole project.

## Model

| member | source | states |
|---|---|---|
| `GatewayStore.MemoryGatewaySessionStore.Update` | src/repositories/compat_gateway_memory.rs:29-44 | the stored sequence becomes the larger of itself and the new one; other sessions stay |
| `GatewayStore.MemoryGatewaySessionStore.Resume` | src/repositories/compat_gateway_memory.rs:46-71 | an unknown session or another owner is not found, a sequence above the stored one is refused, otherwise the session is returned; the store stays as it is |
| `GatewayStore.MemoryGatewaySessionStore.Append` | src/repositories/compat_gateway_memory.rs:73-95 | replaces the first event with that number, or pushes the event and sorts by number |
| `GatewayStore.MemoryGatewaySessionStore.ListAfter` | src/repositories/compat_gateway_memory.rs:97-120 | at most the limit of logged events above the number, in log order; all of them when there is room, and in an ordered log the ones left out are the highest |
| `GatewayStore.AppendKeepsOrder` | src/repositories/compat_gateway_memory.rs:73-95 | on an ordered log an append keeps strict order and replaces exactly the event with that number |
| `GatewayStore.AppendAbove` | src/repositories/compat_gateway_memory.rs:73-95 | above the whole log an append is a plain push |
| `GatewayProtocol.IdentifyOutcomeExact` | src/controllers/compat_gateway_controller.rs:493-560 | exactly when an Identify is accepted, ignored or closes the socket with which code: intents outside bits 0, 1, 8, 9, 15 and outside bits 0, 1, 9, a shard that is not an index below a count, bot, identify limit and guild listing; an accepted one takes exactly the requested intents |
| `GatewayProtocol.StepKeeps` | src/controllers/compat_gateway_controller.rs:83-399 | every step of every handler keeps the invariant of sessions, logs and connections |
| `GatewayProtocol.RunKeeps` | src/controllers/compat_gateway_controller.rs:83-399 | the invariant holds in every reachable world |
| `GatewayReplay.LogNeverOverwritten` | src/controllers/compat_gateway_controller.rs:716-771 | in every run a session's log is at most one ahead of its stored sequence, and no step replaces or moves a logged event, whatever clients report and even when a replay is cut |
| `GatewayReplay.ConnectionNumbersIncrease` | src/controllers/compat_gateway_controller.rs:106-146 | on every connection dispatch numbers strictly increase, nothing is dispatched before an accepted Identify or Resume, and at most one of them is accepted |
| `GatewayReplay.IntentsSurviveResumes` | src/controllers/compat_gateway_controller.rs:521-597 | across any chain of resumes a session keeps the intents of the Identify that created it, inside the supported mask, and every dispatch for it was asked for there, bit 9 for messages, bit 0 for channels and guilds, bit 1 for members, by the same application, organization and bot user |
| `GatewayProtocol.GateIsAsked` | src/controllers/compat_gateway_controller.rs:132-377 | the gate of a dispatch lets through exactly the kinds whose bit was asked for; interactions need none |
| `GatewayDispatch.ForwardedExactly` | src/controllers/compat_gateway_controller.rs:106-399 | in every reached world an event is logged and then sent, under the number after that of the last frame, exactly on a connection that is idle after READY or RESUMED and if its kind was asked for by the Identify of the session, its bot may receive it and it has a payload; any other event changes nothing |
| `GatewayDispatch.IdentifyExactly` | src/controllers/compat_gateway_controller.rs:493-602 | in every reached world an Identify that passes every check creates its session under number 1; an unreadable one, and one whose guilds cannot be listed, changes nothing; every other, and any on an identified connection, closes it |
| `GatewayDispatch.ResumeExactly` | src/controllers/compat_gateway_controller.rs:626-700 | in every reached world a Resume takes over the session exactly on a connection that is not identified, for the bot of the session and a number not above the stored one; an unreadable one changes nothing, and every other closes the connection |
| `GatewayDispatch.OriginsAsked` | src/controllers/compat_gateway_controller.rs:521-597 | the bot and the intents a session carries are those of the Identify step that created it in the run |
| `GatewayDispatch.ConnectionNumbersConsecutive` | src/controllers/compat_gateway_controller.rs:103-399 | on every connection READY is the first frame and numbered 1, and from READY or RESUMED on every frame has the next number |
| `GatewayCompleteness.ReplayComplete` | src/controllers/compat_gateway_controller.rs:626-771 | after any drops and resumes an honest client whose backlogs stay within the limit has received every logged event up to its current number exactly once and in order |
| `GatewayCompleteness.HonestResumeAccepted` | src/repositories/compat_gateway_memory.rs:46-71 | the number an honest client reports is never refused by the store, however long the backlogs are |
| `GatewayCompleteness.MissingExactly` | src/controllers/compat_gateway_controller.rs:626-771 | after any run with honest reports, whatever the backlogs, the client has passed a logged event without receiving it if and only if a replay on one of its connections was cut before that event and a frame with its number or a higher one was then received there |
| `GatewayCompleteness.MissingForever` | src/controllers/compat_gateway_controller.rs:626-771 | an event that an honest client has passed is never delivered to it in any later run |
| `GatewayLimit.ResumeCompleteIff` | src/controllers/compat_gateway_controller.rs:702-740 | a resume whose frames all arrive leaves no gap if and only if there was none before and at most 100 events were logged above the reported number |
| `GatewayNumbers.ReusedNumberIff` | src/controllers/compat_gateway_controller.rs:702-740 | from every reached world, whatever was reported before, RESUMED carries the number of a logged event if and only if the last event was logged without its number being stored and the backlog is above 100; then it is that event's number and the event is not sent |
| `GatewayNumbers.TakenIff` | src/controllers/compat_gateway_controller.rs:716-720 | the same for any session and any strictly ordered log at most one ahead of it |
| `GatewayNumbers.EveryUnsent` | src/controllers/compat_gateway_controller.rs:626-781 | for every m a run is reached that loses m events and logs one more without sending it; the resume after it takes the number of that event exactly from m = 100 on |
| `GatewayLimit.ResumeRunCompleteIff` | src/controllers/compat_gateway_controller.rs:626-740 | the same from every world an honest run reaches, also after replays that were cut, as a run of the machine |
| `GatewayLimit.EveryBacklog` | src/controllers/compat_gateway_controller.rs:493-781 | for every m there is a reached honest run that leaves a backlog of m events, and the resume after it is complete exactly for m up to 100 |
| `GatewayLimit.OneEventTooMany` | src/controllers/compat_gateway_controller.rs:44-44 | for every m above 100 a reached run: m messages lost on their way after READY, and the resume that follows leaves a gap |
| `GatewaySocket.Socket.IdentifyBot` | src/controllers/compat_gateway_controller.rs:493-602 | the new socket variables, the created session and the READY frame for every outcome of the checks |
| `GatewaySocket.Socket.ResumeBot` | src/controllers/compat_gateway_controller.rs:626-740 | the frames sent and the state left for every point at which a send can fail, and for every refusal |
| `GatewaySocket.Socket.SendSessionDispatch` | src/controllers/compat_gateway_controller.rs:746-781 | a live dispatch is logged, then sent; only after a successful send does the stored sequence move; without a session the frame is sent and nothing is logged |
| `GatewaySocket.IdentifyIsSteps` | src/controllers/compat_gateway_controller.rs:493-602 | in any world of the machine the steps of an Identify lead to the store, variables, frames and open or closed socket that the handler computes |
| `GatewaySocket.ResumeIsSteps` | src/controllers/compat_gateway_controller.rs:626-740 | the same for a Resume, for every point at which a send can fail and every refusal |
| `GatewaySocket.DispatchIsSteps` | src/controllers/compat_gateway_controller.rs:746-781 | the same for a forwarded realtime event |
| `InteractionStore.MemoryCommandStore.FindByToken` | src/repositories/command_memory.rs:77-90 | an interaction holding the token is found if there is one |
| `InteractionStore.MemoryCommandStore.DeferInteraction` | src/repositories/command_memory.rs:92-112 | a pending interaction becomes deferred with its time and is returned; an unknown one is not found and any other is already responded, with nothing changed |
| `InteractionStore.MemoryCommandStore.RespondInteraction` | src/repositories/command_memory.rs:114-138 | a pending or deferred interaction becomes responded, with the given message if there is one and otherwise the one it had; an unknown one is not found and a responded one refused, with nothing changed |
| `InteractionStore.MemoryCommandStore.RecordFollowupMessage` | src/repositories/command_memory.rs:140-157 | a message is added to the follow-ups of a known interaction |
| `Interactions.LifecycleForward` | src/repositories/command_memory.rs:92-138 | under every interleaving a status only moves forward, a response is present exactly when responded, and never changes once set |
| `Interactions.StepKeeps` | src/controllers/command_controller.rs:232-351 | every handler step keeps the invariant of interactions, follow-ups, snapshots and messages |
| `Interactions.RoutesUnderInterleaving` | src/controllers/command_controller.rs:353-550 | once its request is done an undeleted message is reached by exactly one edit route, unless its callback's final write was made when the interaction already had a response, and then by none |
| `Interactions.MessagesPartitioned` | src/controllers/command_controller.rs:289-376 | when requests on an interaction do not overlap, every undeleted message is editable through exactly one of the two routes, the response through the original one |
| `Interactions.FirstFollowup` | src/controllers/command_controller.rs:297-351 | the first follow-up after a deferral is recorded as a follow-up and set as the response, and in every continuation it stays both and is reached as the original only |
| `Interactions.OverlappingCallbacks` | src/controllers/command_controller.rs:232-295 | a run of two overlapping callbacks that loses a message |
| `InteractionRuns.CallbackAnswer` | src/domain/command.rs:307-327 | a callback without the token of the interaction is unauthorized, with it one that is not pending is already responded, and otherwise the interaction is returned |
| `InteractionRuns.FollowupAnswer` | src/domain/command.rs:329-353 | a follow-up from another application is unauthorized, from its own while pending already responded, and otherwise accepted |
| `InteractionRuns.OriginalAnswer` | src/domain/command.rs:355-379 | the original response is unauthorized for another application and not found without a response |
| `InteractionRuns.ProducedByHolder` | src/domain/command.rs:307-353 | under every interleaving, whatever message was created for an interaction, its request had presented the token of that interaction and, for a follow-up, came from its application |
| `InteractionRuns.DeferralAlone` | src/controllers/command_controller.rs:232-248 | in every reached world a deferral with the token leaves exactly the pending interaction deferred |
| `InteractionRuns.CallbackAlone` | src/controllers/command_controller.rs:249-295 | with nothing in between an answered callback leaves one new message of the application in the channel of the interaction, its response, reached as the original |
| `InteractionRuns.FollowupAlone` | src/controllers/command_controller.rs:297-351 | with nothing in between a follow-up leaves one new message, recorded; after a deferral it becomes the response and is reached as the original, after a response it is reached as a follow-up |
| `InteractionRuns.RefusedCallback` | src/domain/command.rs:307-327 | a callback that is not let in changes nothing |
| `InteractionRuns.RefusedFollowup` | src/domain/command.rs:329-353 | a follow-up that is not let in changes nothing |
| `InteractionRuns.RoutesExactly` | src/controllers/command_controller.rs:353-550 | in every reached world the two routes reach exactly the undeleted response, and the undeleted follow-ups other than the response |
| `InteractionRuns.FirstFollowupReached` | src/controllers/command_controller.rs:232-351 | a run that defers an interaction and is about to make a first follow-up its response |
| `RateLimit.FixedWindowRateLimiter.CheckBucket` | src/domain/rate_limit.rs:92-133 | a call is allowed exactly while its window, new if the old one is over, holds fewer than the limit; what remains, when the window ends in full seconds and at least one, and the new bucket state |
| `RateLimit.FixedWindowRateLimiter.Clear` | src/domain/rate_limit.rs:135-143 | all buckets are forgotten and counted |
| `RateLimit.BucketIsolated` | src/domain/rate_limit.rs:92-133 | the decisions on a bucket are those of the run restricted to that bucket |
| `RateLimit.AllowedBound` | src/domain/rate_limit.rs:92-133 | in any half-open interval of k windows at most (k+1)·limit−1 calls on a bucket are allowed |
| `RateLimit.BoundIsReached` | src/domain/rate_limit.rs:92-133 | for every limit from 1 on, every window of at least two nanoseconds and every k some run reaches that bound |
| `RateAnswers.RemainingMeans` | src/domain/rate_limit.rs:125-132 | after an allowed call exactly as many further calls at the same instant are allowed as it was told remain |
| `RateAnswers.WaitMeans` | src/domain/rate_limit.rs:109-123 | after a refused call the next one is allowed exactly from the end of the window on; a second longer than told is always enough, as long as told exactly when what was left were full seconds or less than one |
| `RateLimit.GatewayClientFrameRateLimiter.Allow` | src/controllers/compat_gateway_controller.rs:408-422 | a frame is accepted exactly while its second holds fewer than five; the new window |
| `RateLimit.FrameBound` | src/controllers/compat_gateway_controller.rs:396-422 | a socket accepts at most 5·(k+1) client frames in any k seconds |
| `RateLimit.FrameBoundIsReached` | src/controllers/compat_gateway_controller.rs:396-422 | for every k some run of frames reaches that bound |
| `Calendar.FivePassesAreOne` | src/domain/calendar.rs:87-94 | the five successive replacements equal one left-to-right pass |
| `Calendar.EscapeRoundTrip` | src/domain/calendar.rs:87-94 | unescaping by section 3.3.11 of RFC 5545 returns the text with CRLF and lone CR as LF |
| `Calendar.EscapedHasNoLineBreak` | src/domain/calendar.rs:87-94 | escaped text holds no raw CR or LF |
| `Calendar.EscapeInjective` | src/domain/calendar.rs:87-94 | texts have the same escaped form if and only if they differ at most in their line ends |
| `Calendar.MeetingInviteIcs` | src/domain/calendar.rs:5-66 | the document is its content lines joined by CRLF, with the two time errors in their order |
| `Calendar.LinesReadBackIff` | src/domain/calendar.rs:65-65 | the lines of a document are the lines it was written from exactly when none of them holds a CRLF |
| `Calendar.InviteReadsBack` | src/domain/calendar.rs:32-65 | whatever title and description hold, the document splits into its own lines if and only if id, times, URL and attendee addresses hold no CRLF; then SUMMARY and DESCRIPTION unescape to the title and the description text |
| `InviteFields.PropertiesReadBack` | src/domain/calendar.rs:15-45 | under that condition the document gives back by property name its id, times, link and status, and title, description and location unescaped |
| `InviteFields.AttendeesReadBack` | src/domain/calendar.rs:47-63 | and after the properties one line for each attendee with an address, in order, which gives back role, name and address |
| `InviteFields.ParameterRoundTrip` | src/domain/calendar.rs:96-104 | a quoted parameter is read back as the name with its line ends as spaces, whatever follows it |
| `InviteFields.JoinUrlExact` | src/domain/calendar.rs:78-85 | the link is the public address without the slashes at its end, then the path |
| `Calendar.BrokenInvite` | src/domain/meeting.rs:401-410 | an address that is accepted and, on any meeting, makes the invitation split into other lines |
| `Text.TrimIsTrimmed` | src/domain/message.rs:390-390 | trimming leaves no white space at either end, and trimming again changes nothing |
| `Text.TrimExact` | src/domain/message.rs:390-390 | a string is its trimmed form between two runs of white space, and no other trimmed string is |
| `Mentions.ExtractMentionIds` | src/controllers/compat_controller.rs:1119-1149 | the scan ends on every content and returns the ids of its tokens in order |
| `Mentions.SplitSplits` | src/controllers/compat_controller.rs:1119-1149 | every content is marker-free texts and complete tokens in turn, and a tail without a complete mention |
| `Mentions.SplitUnique` | src/controllers/compat_controller.rs:1119-1149 | a content has one decomposition into texts and tokens |
| `Mentions.RenderedReadBack` | src/controllers/compat_controller.rs:1119-1149 | from marker-free texts interleaved with rendered mentions the scan returns exactly the ids of the asked kind, in order |
| `Mentions.TokenExact` | src/controllers/compat_controller.rs:1128-1141 | a token names a user by an id, with or without `!`, that does not start with `&`, and a role by an id after `&` |
| `Mentions.PolicyExact` | src/controllers/compat_controller.rs:1017-1056 | which member of `allowed_mentions` lets which users, roles and everyone count; without it all count |
| `Mentions.ResolveUsers` | src/controllers/compat_controller.rs:986-997 | the first occurrences of the allowed members' ids; it fails exactly when an allowed member's record cannot be read |
| `Mentions.ResolveRoles` | src/controllers/compat_controller.rs:1005-1012 | the first occurrences of the allowed ids that are roles of the space |
| `Mentions.ResolveAllowedMentions` | src/controllers/compat_controller.rs:974-1015 | users, roles and everyone of a message: each once, exactly those named in the content that the policy allows and the services know, and exactly when the request fails |
| `Mentions.NormalizeMentionIds` | src/domain/message.rs:727-730 | keeps the first occurrence of each id |
| `Mentions.FirstOccurrencesMeaning` | src/domain/message.rs:727-730 | the result has the same ids, each once, in the order of their first occurrence |
| `Mentions.FirstOccurrencesIdempotent` | src/domain/message.rs:727-730 | normalising twice changes nothing more |
| `Embed.NormalizeEmbed` | src/domain/message.rs:265-356 | accepts and returns exactly what normalisation means, and an accepted embed has at most 6000 counted characters |
| `EmbedMeaning.AcceptedIff` | src/domain/message.rs:265-671 | an embed is accepted if and only if it is an object of known members, each missing or as it must be by its own limits, some member besides the type is kept, and its texts have at most 6000 characters after trimming |
| `EmbedMeaning.AcceptedBecomes` | src/domain/message.rs:265-671 | what an accepted embed becomes: each text and link trimmed, or left out exactly when it is missing or blank, a missing or null member left out, the timestamp rendered in UTC, the color as it is, `inline` as given or false, the fields in order, and always type rich |
| `Embed.NormalizeFooter` | src/domain/message.rs:470-511 | the footer and the total grown by its counted text |
| `Embed.NormalizeAuthor` | src/domain/message.rs:551-599 | the author and the total grown by the counted name |
| `Embed.NormalizeFields` | src/domain/message.rs:601-667 | the fields in order and the total grown by their names and values |
| `Embed.MembersChars` | src/domain/message.rs:265-356 | the running total over the members is the character count of the text in the output |
| `Embed.NormalizeTwice` | src/domain/message.rs:265-447 | normalising an accepted embed again returns it if and only if its timestamp, if any, falls in a UTC year from 0 to 9999; otherwise it is refused |
| `Embed.RefusedAtTheEdge` | src/domain/message.rs:426-447 | an embed accepted with the timestamp `0000-01-01T00:00:00+01:00` or `9999-12-31T23:30:00-01:00`, for a parser that meets the assumptions, is refused by a second normalisation |
| `Moments.RenderReadBack` | src/domain/message.rs:439-446 | a timestamp as it is rendered is parsed again, to the millisecond, and rendered the same, exactly in the UTC years 0 to 9999 |
| `EmbedForm.FixedPoints` | src/domain/message.rs:265-671 | normalisation leaves an embed as it is exactly when it is well-formed: known members, each trimmed and within its own limit and shape, the type and at least one more, at most 6000 counted characters |
| `EmbedForm.AcceptedIsWellFormed` | src/domain/message.rs:265-671 | what is accepted comes out well-formed, a timestamp outside the years of four digits excepted |
| `Timestamps.FourDigitYears` | src/domain/retention.rs:280-282 | the UTC year of an instant has at most four digits exactly before the start of year 10000 |
| `Timestamps.DateRoundTrip` | src/domain/retention.rs:280-282 | the calendar gives back the date of every day number |
| `Timestamps.MillisTextOrder` | src/domain/retention.rs:280-282 | up to year 9999 texts with milliseconds compare as the instants do, to the millisecond (section 5.1 of RFC 3339) |
| `Timestamps.SecondsTextOrder` | src/domain/reminder.rs:152-154 | up to year 9999 texts with seconds compare as the instants do, to the second |
| `TimestampFields.MillisTextReads` | src/domain/retention.rs:280-282 | up to year 9999 the text has the form `YYYY-MM-DDThh:mm:ss.mmmZ` and its fields give the instant back, to the millisecond |
| `TimestampFields.SecondsTextReads` | src/domain/reminder.rs:152-154 | the same for `YYYY-MM-DDThh:mm:ssZ`, to the second |
| `TimestampFields.MonthStarts` | src/domain/retention.rs:280-282 | the known number of days before each month of the calendar |
| `Timestamps.LateYearsSortFirst` | src/domain/retention.rs:280-282 | past year 9999 a later text comes before an earlier one |
| `Timestamps.EarlyYearsSortFirst` | src/domain/reminder.rs:152-154 | a text from before year 0, with its minus sign, comes before every text of the years 0 to 9999, as the instant does |
| `Timestamps.DayBeforeYearZero` | src/domain/retention.rs:280-282 | the signed text of the day before year 0 names 31 December of the year -1 |
| `Timestamps.HalfPastMidnightText` | src/domain/reminder.rs:152-154 | the instant of 9999-12-31T23:30:00-01:00 is printed as +10000-01-01T00:30:00Z |
| `Retention.CutoffExact` | src/domain/retention.rs:280-282 | for every run time that RFC 3339 text can name, a cutoff selects exactly the records more than the period older than now |
| `Retention.CutoffsLater` | src/domain/retention.rs:247-282 | later cutoffs select whatever earlier ones did, among the texts the service writes at any run time, and among all texts once cutoffs fall after the start of year 0 |
| `RetentionRuns.RunsCompose` | src/domain/retention.rs:185-244 | running at t1 and then at a later t2, any run times that RFC 3339 text can name, leaves the same three stores and purges the same totals as running at t2 only, also when an unacceptable policy ends the runs |
| `RetentionRuns.DryRunReports` | src/domain/retention.rs:185-244 | a dry run changes no data and reports the counts a real run would |
| `RetentionRuns.OthersUntouched` | src/domain/retention.rs:201-241 | everything of an organization without a policy stays |
| `RetentionRuns.RunOkIff` | src/domain/retention.rs:201-202 | a run goes through exactly when every period of every policy is from 1 to 3650 days |
| `RetentionCounts.CountsAreRemovals` | src/domain/retention.rs:226-228 | the reported totals are the messages, the attachments and the audit events of all spaces that are gone, also when a policy ends the run |
| `RetentionRecords.RecordsAreRemovals` | src/domain/retention.rs:230-241 | a run adds one record for an organization whose policy it comes to, with the numbers of its own messages, attachments and events that a real run removes; the others get none |
| `RetentionCounts.KeptOfParts` | src/repositories/audit_memory.rs:76-110 | the events that stay keep their order: what is kept of a log is what is kept of its parts |
| `RetentionRuns.MessageKeptIff` | src/repositories/message_memory.rs:112-148 | a run keeps a message, deleted or not, if and only if it ends before the policy of its organization, or neither its age nor, if it is deleted, the time since then exceeds that policy's periods |
| `RetentionRuns.AttachmentKeptIff` | src/repositories/attachment_memory.rs:148-178 | the same for attachments and the period for files |
| `RetentionRuns.AuditEventKeptIff` | src/repositories/audit_memory.rs:76-110 | the same for audit events in every space |
| `RetentionWorker.MemoryMessageStore.PurgeForRetention` | src/repositories/message_memory.rs:112-148 | counts the expired messages and, unless dry, removes exactly them |
| `RetentionWorker.MemoryAuditStore.PurgeForRetention` | src/repositories/audit_memory.rs:76-110 | counts the expired events of all spaces and, unless dry, keeps the others in order |
| `RetentionWorker.MemoryRetentionStore.UpsertPolicy` | src/domain/retention.rs:129-134 | stores a policy whose periods are within 1 to 3650 days and no other |
| `RetentionWorker.MemoryRetentionStore.ListPolicies` | src/repositories/retention_memory.rs:49-61 | every policy once, by organization |
| `RetentionWorker.Worker.RunOnceAt` | src/domain/retention.rs:185-244 | the new stores, the run records and the summary or error of a run; it fails exactly for an unreadable time or a policy out of range, a dry run changes nothing, and the summary counts what is gone from each store |
| `Permissions.ApplyChannelOverrides` | src/domain/permission.rs:431-462 | every one of the 64 bits of the effective word follows the rule: member deny, member allow, role deny, role allow, base |
| `Permissions.RuleRefined` | src/domain/permission.rs:431-462 | over any kind of word, collecting the four masks and applying them decides every test that obeys the three laws by the rule |
| `Permissions.WordLaws` | src/domain/permission.rs:456-459 | 64-bit `or` and `and not` obey the laws at each bit |
| `Permissions.OrderIrrelevant` | src/domain/permission.rs:431-462 | reordering, repeating or adding overrides for other targets gives the same word |
| `Permissions.MemoryPermissionStore.ChannelOverridesForUser` | src/repositories/permission_memory.rs:142-163 | the channel's overrides whose target is the user or one of the role ids |
| `Permissions.CanInChannel` | src/domain/permission.rs:361-392 | owners and admins may, under any denial; for others the rule at the permission's bit decides, applied to all overrides that the store holds for the channel, over what the membership (members see and send, guests see, others nothing) and the assigned roles grant; what is denied to them as members they may not |
| `Permissions.CanInSpace` | src/domain/permission.rs:394-415 | owners and admins may everything, members see and send, guests see, and anyone what an assigned role grants |
| `Permissions.PermissionNamesRoundTrip` | src/domain/permission.rs:100-118 | parsing the printed names of any 64-bit word gives it back restricted to the known bits |
| `Permissions.NameOfBit` | src/domain/permission.rs:100-118 | the word with only bit i set is printed as the i-th name |
| `Permissions.ParseExact` | src/domain/permission.rs:80-97 | a text is read as a permission exactly when it spells its name, in any case and between white space |
| `Permissions.ListExact` | src/domain/permission.rs:495-499 | a list of names is accepted exactly when each is read, and gives exactly their bits |
| `Attachments.MemoryAttachmentStore.Upload` | src/repositories/attachment_memory.rs:43-62 | writes the caller's record back as uploaded together with its content |
| `Attachments.MemoryAttachmentStore.LinkToMessage` | src/repositories/attachment_memory.rs:75-96 | links exactly the ids before the first that is not there, changes nothing else, and succeeds exactly when all are there |
| `Attachments.MemoryAttachmentStore.StoredBytesForOrganization` | src/repositories/attachment_memory.rs:125-146 | the sum of the declared sizes of the organization's uploaded and linked attachments |
| `Attachments.MemoryAttachmentStore.PurgeForRetention` | src/repositories/attachment_memory.rs:148-178 | counts the expired attachments and, unless dry, removes exactly their records and contents |
| `AttachmentLedger.ValidateForMessage` | src/domain/attachment.rs:225-262 | accepts exactly at most ten distinct ids of unlinked uploads by this user in this channel, and answers not found exactly when the first id at fault is unknown |
| `AttachmentLedger.LedgerHolds` | src/domain/attachment.rs:148-276 | in every run content exists exactly when past Pending and has the declared length, Linked means a message id, and the reported bytes are the bytes held per organization |
| `AttachmentLedger.LinksNeverChange` | src/controllers/message_controller.rs:49-76 | between two points of a run an attachment keeps its place, size, type and link, and ids are not reused |
| `AttachmentHandlers.PresignExact` | src/domain/attachment.rs:148-169 | exactly the files with a usable name and type and from one byte to ten mebibytes are presigned, as pending |
| `AttachmentHandlers.UploadExact` | src/domain/attachment.rs:177-216 | an upload by anyone but the uploader finds nothing, once linked or with another size or type it is refused, with nothing changed, and otherwise exactly the bytes sent are stored |
| `AttachmentHandlers.MessageExact` | src/controllers/message_controller.rs:49-76 | a message links exactly its at most ten distinct ids if all are free uploads of its user in its channel and it is accepted, and otherwise changes nothing |
| `AttachmentHandlers.BotMessageExact` | src/controllers/compat_controller.rs:643-677 | exactly the files before the first bad one are stored, and linked exactly when all are good and the message is accepted |
| `AttachmentHandlers.ContentFromUploader` | src/domain/attachment.rs:177-216 | in every run the content of an attachment is what its own uploader sent for it in some step |
| `AttachmentLedger.UploadBytes` | src/domain/attachment.rs:177-216 | a first upload adds its length to its own organization, an upload again adds nothing |
| `AttachmentLedger.PurgeBytes` | src/repositories/attachment_memory.rs:148-178 | a purge takes exactly the bytes of the attachments it removes, all of one organization |
| `AttachmentLedger.MessageBytes` | src/controllers/message_controller.rs:49-76 | linking moves no bytes |
| `AttachmentLedger.BotMessageKeeps` | src/controllers/compat_controller.rs:643-677 | a bot message with files, whether it fails at a file, later or not at all, keeps the ledger |
| `Reminders.DueExact` | src/repositories/meeting_memory.rs:126-126 | on a clock before year 10000 a reminder, also one scheduled before year 0, is due by its text exactly when it is due on the clock, to the second, if and only if it is scheduled before year 10000 |
| `Reminders.LateReminderDueAtOnce` | src/domain/meeting.rs:344-371 | a reminder for a meeting at 9999-12-31T23:30:00-01:00 is due at once |
| `ReminderRuns.DeliveredAtMostOnce` | src/domain/reminder.rs:79-114 | over any series of listings, deliveries, marks, additions, cancellations and reinstatements no reminder is delivered twice, each delivered one was due and its meeting scheduled when it was listed, a mark always finds its reminder pending, and exactly the delivered ones stop being pending |
| `ReminderRuns.RunIsSteps` | src/domain/reminder.rs:79-114 | the steps of a run with nothing in between leave the state and the deliveries of one run of the worker |
| `ReminderRuns.CancelledIff` | src/domain/reminder.rs:79-114 | in every run a delivery goes to a meeting that is not scheduled if and only if the last change of that meeting since the listing was its cancellation |
| `ReminderRuns.CancelledAfterListing` | src/domain/reminder.rs:79-114 | a run in which a meeting cancelled between listing and delivery is reminded of all the same |
| `Reminders.DrainsInOrder` | src/domain/reminder.rs:79-114 | runs with their own clock times from a time on and their own delivery answers deliver the reminders due by that time in order before anything else, a batch in each run |
| `Reminders.DrainsCompletely` | src/domain/reminder.rs:79-114 | the n reminders due by that time are gone after ceil(n/batch) such runs and not after fewer |
| `Reminders.ScannedIsSentPlusFailed` | src/domain/reminder.rs:90-113 | scanned is sent plus failed |
| `Reminders.RunExact` | src/domain/reminder.rs:79-114 | the same of a run on values |
| `ReminderWorker.MemoryMeetingStore.ListDueReminders` | src/repositories/meeting_memory.rs:109-145 | the pending reminders not after the given time whose meetings are scheduled, by time and then id, cut at the limit: what is left out comes later |
| `ReminderWorker.MemoryMeetingStore.UpdateReminderStatus` | src/repositories/meeting_memory.rs:181-198 | marks the pending reminder with that id wherever it is filed, and changes no other |
| `ReminderWorker.MeetingReminderWorker.WithBatchSize` | src/domain/reminder.rs:70-73 | the batch size is at least one |
| `ReminderWorker.MeetingReminderWorker.RunOnceAt` | src/domain/reminder.rs:79-114 | a run marks exactly the reminders it lists, by the answer of each delivery, and reports as scanned, sent and failed how many stopped being pending, became sent and became failed |
| `Jobs.BackoffExact` | src/jobs/mod.rs:16-34 | before the last attempt the backoff is the smaller of initial·2^(attempt−1) and the largest 64-bit number, afterwards the job is dead |
| `Jobs.BackoffNeverDecreases` | src/jobs/mod.rs:24-34 | later attempts never wait less |
| `Jobs.Worker.Claim` | src/jobs/mod.rs:48-55 | the first claim of a key succeeds and no other |
| `Jobs.Worker.ProcessJob` | src/jobs/mod.rs:178-222 | the outcome, the claimed keys and the dead letters after a call |
| `Jobs.HandledOnce` | src/jobs/mod.rs:178-222 | over any calls the handler runs at most once per key; the first call is completed if it succeeds, dead if it fails on the last attempt or later and otherwise retried after min(initial·2^(attempt−1), 2^64−1); every later call is a duplicate |
| `Jobs.DeadLettersExact` | src/jobs/mod.rs:198-222 | the dead letters are, in order, one for each first call on its key that fails on the last attempt or later with a sink |

## Left out

- Postgres repositories, Kafka, HTTP, WebSocket and multipart decoding, response models and error-to-status mappings.
- A poisoned store lock: the in-memory stores of the model never answer that they are unavailable.
- Concurrent resumes of one session by two sockets: the code does not exclude them; the guard of the Resume step does.
- Heartbeats, pings, undecodable frames and the close codes of the socket loop that neither dispatch nor touch a session.
- The close codes of a refused Resume and the invalid-session frames: a refused connection is only closed.
- Error message texts: embed, attachment and retention errors are one value each.
- Ids, tokens, payloads, idempotency keys, content types and bucket names are numbers that are only compared; hashes are injective.
- UUID parsing and RFC 3339 parsing are parameters of the mention and embed models, with what is used of them written out as `Mentions.CodecOk` and `Moments.ParserOk`; `Mentions.CodecExists` and `Moments.EdgeParserOk` show that this can be met.
- Leap seconds: an instant has none, so an embed timestamp with second 60 is not modelled.
- Concurrent edits of one message by two edit handlers, and message content edits as such.
- Interleaved uploads of one attachment: each attachment handler is one step, since the store writes back the caller's snapshot.
- Widths of counters: sequence numbers, counts and sizes are unbounded; only the job backoff saturates.
- RetentionRuns.RunsCompose: for records with texts that the service does not write, asks for a first run at least 3650 days after the start of year 0, since earlier cutoffs are not in text order.
- More than one reminder worker at a time, and a worker that stops between a delivery and its mark.
- Run history listing, data exports between two timestamps, attachment listing and the sorting of message lists.
- Line folding and e-mail text of invitations.
- Rescheduling of reminders when a meeting moves: an update leaves scheduled times as they are.
- The list limit of ten embeds, message content and component checks, and name, slug, plan and role normalisers.
- SCIM, organization, space, webhook and billing services.
