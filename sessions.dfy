/**
 * The session tracker of `DiscordService` as values: the `inVoiceChannel` map,
 * the per-user total-time records, and what one `voiceStateUpdate` event does
 * to them. The class in module Service is proved against these functions.
 */
module Sessions {
  import opened Wrappers
  import opened TotalTime
  import opened VoiceEvents

  /** A Discord member id. */
  type UserId = string

  datatype Action = Join | Leave

  /** The audit document `logEntry` and `logLeave` build: who, what, and the formatted time. */
  datatype AuditEntry = AuditEntry(username: string, userId: UserId, action: Action, timestamp: int)

  /** What the handler hands to its collaborators, in order. */
  datatype Effect =
    | Audit(entry: AuditEntry)          // an audit document built and logged
    | JoinMessage(username: string)     // sendJoinMessage
    | LeaveMessage(username: string)    // sendLeaveMessage
    | TotalTimeMessage(userId: UserId)  // sendTotalTimeMessage

  /**
   * A `UserTotalTime` document as the core sees it. `totalTime` is `None`
   * until a session of the user is first closed.
   */
  datatype Record = Record(discordName: string, totalTime: Option<Duration>)

  /** One `voiceStateUpdate` notification, with the clock reading `now` in milliseconds. */
  datatype Event = VoiceStateUpdate(user: UserId, username: string, oldChannel: ChannelId, newChannel: ChannelId, now: int)

  /**
   * `sessions` is `inVoiceChannel`: user id to the start of the open session.
   * `records` is the collection of total-time documents, keyed by `discordId`.
   */
  datatype State = State(sessions: map<UserId, int>, records: map<UserId, Record>)

  /** A state together with the effects emitted so far. */
  datatype Outcome = Outcome(state: State, effects: seq<Effect>)

  const Initial := State(map[], map[])

  /** `u`'s session entry and record are the same in `a` and `b`. */
  predicate SameEntries(a: State, b: State, u: UserId)
  {
    Lookup(a.sessions, u) == Lookup(b.sessions, u) && Lookup(a.records, u) == Lookup(b.records, u)
  }

  /**
   * `startUserTotalTime`: opens a session stamped `now` unless one is open,
   * and creates the user's record unless it exists.
   */
  function StartTotalTime(s: State, user: UserId, username: string, now: int): (r: State)
    ensures user in r.sessions && user in r.records
    ensures user in s.sessions ==> r.sessions[user] == s.sessions[user]
    ensures user !in s.sessions ==> r.sessions[user] == Stamp(now)
    ensures user in s.records ==> r.records[user] == s.records[user]
    ensures user !in s.records ==> r.records[user] == Record(username, None)
    ensures forall u :: u != user ==> SameEntries(s, r, u)
  {
    var sessions := if user !in s.sessions then s.sessions[user := Stamp(now)] else s.sessions;
    var records := if user !in s.records then s.records[user := Record(username, None)] else s.records;
    State(sessions, records)
  }

  /** `stopUserTotalTime` acts only when the user has a session and left the tracked channel. */
  predicate Closes(s: State, user: UserId, oldChannel: ChannelId, tracked: string)
    ensures Closes(s, user, oldChannel, tracked) ==> user in s.sessions && oldChannel.Some?
  {
    user in s.sessions && oldChannel == Some(tracked)
  }

  /**
   * `stopUserTotalTime`: removes the user's session and, when the user has a
   * record, overwrites its `totalTime` with this session's elapsed time and
   * announces it.
   */
  function StopTotalTime(o: Outcome, user: UserId, oldChannel: ChannelId, tracked: string, now: int): (r: Outcome)
    ensures Closes(o.state, user, oldChannel, tracked) ==> user !in r.state.sessions
    ensures Closes(o.state, user, oldChannel, tracked) && user in o.state.records ==>
              && user in r.state.records
              && r.state.records[user].discordName == o.state.records[user].discordName
              && r.state.records[user].totalTime == Some(CalculateTotalTime(Some(o.state.sessions[user]), now))
              && r.effects == o.effects + [TotalTimeMessage(user)]
    ensures user !in o.state.records ==> user !in r.state.records && r.effects == o.effects
    ensures !Closes(o.state, user, oldChannel, tracked) ==> r == o
    ensures forall u :: u != user ==> SameEntries(o.state, r.state, u)
  {
    var s := o.state;
    if Closes(s, user, oldChannel, tracked) then
      var closed := s.(sessions := s.sessions - {user});
      if user in s.records then
        var total := CalculateTotalTime(Some(s.sessions[user]), now);
        Outcome(closed.(records := s.records[user := s.records[user].(totalTime := Some(total))]),
                o.effects + [TotalTimeMessage(user)])
      else
        Outcome(closed, o.effects)
    else
      o
  }

  /** The join branch of the handler, from a fresh event (no effects yet). */
  function JoinBranch(s: State, tracked: string, ev: Event): (r: Outcome)
    ensures forall u :: u != ev.user ==> SameEntries(s, r.state, u)
  {
    if IsJoin(ev.oldChannel, ev.newChannel, tracked) then
      var entry := AuditEntry(ev.username, ev.user, Join, Stamp(ev.now));
      var started := if ev.user !in s.sessions then StartTotalTime(s, ev.user, ev.username, ev.now) else s;
      Outcome(started, [Audit(entry), JoinMessage(ev.username)])
    else
      Outcome(s, [])
  }

  /**
   * The leave branch, with `logLeave`'s own close (taken only when the old
   * channel is absent or not the tracked one) and the close guarded by the
   * new channel not being the tracked one.
   */
  function LeaveBranch(o: Outcome, tracked: string, ev: Event): (r: Outcome)
    ensures forall u :: u != ev.user ==> SameEntries(o.state, r.state, u)
  {
    if IsDisconnect(ev.oldChannel, ev.newChannel, tracked) && ev.user in o.state.sessions then
      var entry := AuditEntry(ev.username, ev.user, Leave, Stamp(ev.now));
      var logged := Outcome(o.state, o.effects + [Audit(entry)]);
      var afterLog :=
        if Falsy(ev.oldChannel) || ev.oldChannel != Some(tracked)
        then StopTotalTime(logged, ev.user, ev.oldChannel, tracked, ev.now)
        else logged;
      var told := Outcome(afterLog.state, afterLog.effects + [LeaveMessage(ev.username)]);
      if ev.newChannel != Some(tracked)
      then StopTotalTime(told, ev.user, ev.oldChannel, tracked, ev.now)
      else told
    else
      o
  }

  /** The same-channel branch: the session start is set to `now`. */
  function SameChannelBranch(o: Outcome, tracked: string, ev: Event): (r: Outcome)
    ensures forall u :: u != ev.user ==> SameEntries(o.state, r.state, u)
  {
    if IsSameChannel(ev.oldChannel, ev.newChannel, tracked)
    then Outcome(o.state.(sessions := o.state.sessions[ev.user := Stamp(ev.now)]), o.effects)
    else o
  }

  /**
   * The whole `voiceStateUpdate` handler: the three branches in source order,
   * each seeing the state the previous one left. Only the acting user's
   * entries can change.
   */
  function Handle(s: State, tracked: string, ev: Event): (r: Outcome)
    ensures forall u :: u != ev.user ==> SameEntries(s, r.state, u)
  {
    SameChannelBranch(LeaveBranch(JoinBranch(s, tracked, ev), tracked, ev), tracked, ev)
  }

  /** The users the events are about. */
  function ActingUsers(evs: seq<Event>): set<UserId>
  {
    if evs == [] then {} else {evs[0].user} + ActingUsers(evs[1..])
  }

  /**
   * A stream of notifications handled one after another, each to completion.
   * A user none of the events is about keeps their session and record.
   */
  function Run(s: State, tracked: string, evs: seq<Event>): (r: Outcome)
    ensures forall u :: u !in ActingUsers(evs) ==> SameEntries(s, r.state, u)
    decreases |evs|
  {
    if evs == [] then
      Outcome(s, [])
    else
      var first := Handle(s, tracked, evs[0]);
      var rest := Run(first.state, tracked, evs[1..]);
      Outcome(rest.state, first.effects + rest.effects)
  }
}
