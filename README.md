# Voice-session tracker of the Discord time-stamp bot

This project models the part of `DiscordService` that tracks how long members
spend in one configured voice channel (`channelIds.voiceChannel`). It covers three
pieces:

- The `voiceStateUpdate` handler's three tests on a member's old and new channel id.
  These are join, disconnect-leave and same-channel update.
- The in-memory `inVoiceChannel` map from member id to the start of the open session.
  `startUserTotalTime`, `stopUserTotalTime` and the same-channel branch update it in place.
- `calculateTotalTime`, which splits elapsed milliseconds into hours, minutes and seconds.

Modules, leaf first:

- `Wrappers` (wrappers.dfy): `Option` and `Lookup`. `Lookup` is `Map.get`.
- `TotalTime` (total_time.dfy): `calculateTotalTime`, with the clock passed in as `now`.
  It also holds JavaScript's sign-keeping `%` and the second-precision timestamps that the map stores.
- `VoiceEvents` (voice_events.dfy): the three channel-id tests. They use JavaScript truthiness,
  so `!channelId` is true of a missing id and of the empty string.
- `Sessions` (sessions.dfy): the tracker's state as values and the handler as a function `Handle`.
  `Run` handles a stream of notifications, each one to completion.
- `SessionLemmas` (session_lemmas.dfy): what one event does in each case.
  It also shows that a clock that never goes back keeps every stored total normal, and works through end-to-end scenarios.
- `Service` (service.dfy): the class `DiscordService`.
  Its fields `inVoiceChannel` and `userTotalTimes` are updated in place.
  Each of its methods is proved to give the state and effects that the matching `Sessions` function gives.

Timestamps are integer milliseconds. The map stores `dayjs().format()` text, which carries whole seconds.
So a stored start is the event time rounded down to the second (`Stamp`).
A start that does not parse is `None`. Because sessions are a map keyed by member id, a member never has
more than one open session. Effects are recorded in order as a ghost sequence:
audit documents, join/leave messages and total-time messages.

The model follows the code where the code behaves in ways a reader might not expect:

- A leave is recognised only on a disconnect (new channel absent or empty).
  A move from the tracked channel into another channel leaves the session open and the record untouched.
  A later rejoin therefore keeps the first start (`RejoinAfterMoveKeepsFirstStart`).
- Every join is logged and announced, even when a session is already open. Only the session start is guarded.
- A record is created without any `totalTime`. Creation passes `totalTimestamp`, which is not a field of the schema.
  The record first gets a total when a session closes.
- Closing a session overwrites `totalTime` with that session's elapsed time. It does not add to the old value
  (`SecondSessionOverwritesTotal`).
- An update inside the tracked channel re-stamps the session start with the current time.
- `% 60` is JavaScript's remainder. If the start is later than now, minutes and seconds come out negative
  (`ClockSkewExample`).
- With an empty tracked id, all three tests can fire on one event, and `logLeave` closes the session itself
  (`EmptyTrackedIdOverlap`, `EmptyTrackedIdClosesInLogLeave`). The order of effects there holds when each call
  runs to completion; see "Left out". With a real id, at most one test fires.

## Model

| member | source | states |
|---|---|---|
| `TotalTime.JsRemainder60` | src/discord/discord.service.ts:194-195 | the result has the dividend's sign, its magnitude is below 60, and it differs from the dividend by a multiple of 60 |
| `TotalTime.Stamp` | src/discord/discord.service.ts:156 | a formatted-and-reparsed instant is a whole second, at most the instant and less than a second before it |
| `TotalTime.CalculateTotalTime` | src/discord/discord.service.ts:174-197 | an unparsable start gives zeros; a non-negative elapsed time gives h >= 0, m and s in [0,59] with h*3600+m*60+s = floor(ms/1000); a negative one gives negative hours and minutes and seconds in (-60,0] |
| `TotalTime.ShiftInvariant` | src/discord/discord.service.ts:186-187 | the split depends only on the difference between now and the start |
| `TotalTime.UnderOneSecondIsZero` | src/discord/discord.service.ts:188-196 | less than 1000 ms gives the zero duration |
| `TotalTime.ElapsedExamples` | src/discord/discord.service.ts:186-196 | 3661000 ms gives (1,1,1) and 125000 ms gives (0,2,5), from any start |
| `TotalTime.ClockSkewExample` | src/discord/discord.service.ts:186-196 | a start one second after now gives (-1,-1,-1) |
| `TotalTime.SplitRoundTrip` | src/discord/discord.service.ts:187-196 | every normal duration is what the split returns for its number of seconds plus any leftover milliseconds (the split is inverted by h*3600+m*60+s) |
| `TotalTime.StampedElapsed` | src/discord/discord.service.ts:175-188 | from a stored (whole-second) start, the elapsed seconds are the difference of the two instants' second counts |
| `VoiceEvents.Falsy` | src/discord/discord.service.ts:79 | JavaScript's `!channelId`: true of an absent id and of "", so a non-empty id is never falsy |
| `VoiceEvents.IsJoin` | src/discord/discord.service.ts:59-63 | the join test: new id equals the tracked one, and old id differs from it or is falsy; a join always ends in the tracked channel and, for a non-empty tracked id, never starts there |
| `VoiceEvents.IsDisconnect` | src/discord/discord.service.ts:79 | the leave test: old id is the tracked one and new id is falsy; a leave never has a non-empty new id |
| `VoiceEvents.IsSameChannel` | src/discord/discord.service.ts:98 | the same-channel test: both ids equal the tracked one, so old and new are the same |
| `VoiceEvents.AtMostOneBranch` | src/discord/discord.service.ts:59-98 | with a non-empty tracked id, no two of join, disconnect-leave and same-channel hold together |
| `VoiceEvents.JoinExactly` | src/discord/discord.service.ts:59-63 | with a non-empty tracked id, join holds exactly when new = tracked and old differs from tracked, absent included |
| `VoiceEvents.LeaveOnlyOnDisconnect` | src/discord/discord.service.ts:79 | leave holds exactly when old = tracked and the new id is absent or empty; never for a move into another non-empty channel id |
| `VoiceEvents.LogLeaveCloseUnreachable` | src/discord/discord.service.ts:118-120 | on a recognised leave with a non-empty tracked id, logLeave's own close condition is false |
| `VoiceEvents.EmptyTrackedIdOverlap` | src/discord/discord.service.ts:59-98 | with tracked id "" and both ids "", all three tests hold |
| `Wrappers.Lookup` | src/discord/discord.service.ts:128 | `Map.get`: a value exactly when the key is present, and then the stored one |
| `Sessions.Closes` | src/discord/discord.service.ts:130 | the guard of `stopUserTotalTime`: the user has a stored start and the old channel is the tracked one |
| `Sessions.StartTotalTime` | src/discord/discord.service.ts:149-172 | afterwards the user has a session and a record; an existing start and an existing record are kept; a new session is stamped now; a new record has no total; other users unchanged |
| `Sessions.StopTotalTime` | src/discord/discord.service.ts:126-147 | when the user has a session and left the tracked channel, the session is removed and an existing record's total becomes the elapsed time of that session (the total-time message is emitted only then); otherwise nothing changes; other users unchanged |
| `Sessions.JoinBranch` | src/discord/discord.service.ts:59-77 | only the acting user's session and record can change |
| `Sessions.LeaveBranch` | src/discord/discord.service.ts:79-96 | only the acting user's session and record can change |
| `Sessions.SameChannelBranch` | src/discord/discord.service.ts:98-100 | only the acting user's session and record can change |
| `Sessions.Handle` | src/discord/discord.service.ts:57-101 | every write or delete touches only the acting user's key: other users' sessions and records are unchanged |
| `Sessions.Run` | src/discord/discord.service.ts:57-101 | over any stream of notifications, a user none of them is about keeps their session and record |
| `SessionLemmas.JoinOpensOrKeepsSession` | src/discord/discord.service.ts:71-76 | a join always emits the join audit entry and join message; an open session is left as it was (never overwritten); otherwise a session stamped now is opened and the record exists afterwards |
| `SessionLemmas.DisconnectWithoutSessionIsNoop` | src/discord/discord.service.ts:81 | a disconnect without an open session emits nothing and changes neither map |
| `SessionLemmas.DisconnectClosesSession` | src/discord/discord.service.ts:81-142 | a disconnect with an open session removes it, replaces (not increments) an existing record's total by the session's elapsed time, and emits leave audit, leave message and, only if a record exists, the total-time message |
| `SessionLemmas.MoveAwayKeepsSession` | src/discord/discord.service.ts:79 | moving from the tracked channel to another channel changes nothing and emits nothing |
| `SessionLemmas.UnrelatedUpdateIsNoop` | src/discord/discord.service.ts:57-101 | an update with neither id equal to the tracked one changes nothing and emits nothing |
| `SessionLemmas.SameChannelRestamps` | src/discord/discord.service.ts:98-100 | an update inside the tracked channel sets the user's start to now, whether or not a session existed, and changes nothing else |
| `SessionLemmas.EmptyTrackedIdClosesInLogLeave` | src/discord/discord.service.ts:113-124 | with an empty tracked id, a disconnect closes the session inside logLeave; with each call run to completion, the total-time message comes before the leave message and the second close does nothing |
| `SessionLemmas.StopKeepsSound` | src/discord/discord.service.ts:126-143 | closing at time now keeps every start at most now and every stored total normal |
| `SessionLemmas.HandleKeepsSound` | src/discord/discord.service.ts:57-101 | an event no earlier than every stored start keeps starts at most its time and totals normal |
| `SessionLemmas.RunKeepsSound` | src/discord/discord.service.ts:136 | under a clock that never goes back, every total the tracker stores has h >= 0 and m, s in [0,59] |
| `SessionLemmas.EnterThenLeave` | src/discord/discord.service.ts:57-101 | enter at t0 and disconnect 125 s later: join and leave audit entries, join, leave and total-time messages, no open session, record total (0,2,5) |
| `SessionLemmas.RejoinAfterMoveKeepsFirstStart` | src/discord/discord.service.ts:59-79 | join, move away, join again: the session keeps the first join's start and both joins are logged and announced |
| `SessionLemmas.SecondSessionOverwritesTotal` | src/discord/discord.service.ts:136 | after two complete sessions the record holds only the second session's time |
| `Service.DiscordService.constructor` | src/discord/discord.service.ts:21-26 | the service starts with no open sessions and no effects, over whatever records the persistent collection already holds |
| `Service.DiscordService.StartUserTotalTime` | src/discord/discord.service.ts:149-172 | the new state is `StartTotalTime` of the old one and no effect is emitted |
| `Service.DiscordService.StopUserTotalTime` | src/discord/discord.service.ts:126-147 | the new state and effects are `StopTotalTime` of the old ones |
| `Service.DiscordService.LogLeave` | src/discord/discord.service.ts:113-124 | the leave audit entry is appended, then the session is closed only when the old channel is absent or not the tracked one |
| `Service.DiscordService.OnVoiceStateUpdate` | src/discord/discord.service.ts:57-101 | the new maps are `Handle`'s and its effects are appended, and stored starts stay whole seconds |

## Left out

- Client construction, gateway intents, login and the ready hook (discord.service.ts:28-53): library plumbing.
- MongoDB persistence. The audit documents of `logEntry`/`logLeave` name `.save` without calling it (106, 115),
  so an `Audit` effect means the document was built and logged, not stored. `findOne` and `save` on the total-time
  collection are reads and writes of the `userTotalTimes` map.
  Persistence failures and the `try`/`catch` logging around them are not modelled: every call succeeds.
- Message sending and text (198-231). Only which message is sent, and for whom, is kept.
  `sendTotalTimeMessage` recomputes a duration from the record's `timestamp` field for display. The core never writes that field.
- dayjs parsing, the Asia/Bangkok time zone and wall-clock sampling: replaced by integer milliseconds and a caller-supplied `now`.
  One event uses one `now` throughout.
- The `toString` of hours, minutes and seconds: durations hold integers.
- Async interleaving across the `await`s (71, 89, 131, 151), including the un-awaited calls to `startUserTotalTime` and `stopUserTotalTime`.
  Each notification is processed to completion before the next one.
- The `newState` object tests (60, 92): the gateway always supplies both states, so `newState &&` at 60 always passes and
  the `!newState` disjunct at 92 is always false. The rest of line 92, `newState.channelId !== tracked`, is modelled.
- Console logging.
- `SessionLemmas.EmptyTrackedIdClosesInLogLeave` holds only when each call runs to completion. In the code, `logLeave` calls
  `stopUserTotalTime` without `await` (119), and that call pauses at `findOne` (131) before writing the total or deleting
  the entry. The leave message (90) is then sent first. The second `stopUserTotalTime` (93) still finds the entry, so with a
  record the total is saved and announced twice, after the leave message. This arises only with an empty tracked id.
- src/discord/schema/user-total-tiem.schema.ts: `Record` mirrors `discordName` and `totalTime`. `discordId` is the map key.
  `timestamp` is left out because the core never writes it.
