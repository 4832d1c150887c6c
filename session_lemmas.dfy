/** What one `voiceStateUpdate` event, and a stream of them, does to the tracker. */
module SessionLemmas {
  import opened Wrappers
  import opened TotalTime
  import opened VoiceEvents
  import opened Sessions

  /**
   * Every join is logged and announced. A session is opened, stamped with the
   * join time, only when the user has none, so an open session's start is
   * never overwritten by a join; a user's record is created on their first join.
   */
  lemma JoinOpensOrKeepsSession(s: State, tracked: string, ev: Event)
    requires tracked != ""
    requires IsJoin(ev.oldChannel, ev.newChannel, tracked)
    ensures var r := Handle(s, tracked, ev);
      && r.effects == [Audit(AuditEntry(ev.username, ev.user, Join, Stamp(ev.now))), JoinMessage(ev.username)]
      && (ev.user in s.sessions ==> r.state == s)
      && (ev.user !in s.sessions ==>
            && r.state.sessions == s.sessions[ev.user := Stamp(ev.now)]
            && (ev.user in s.records ==> r.state.records == s.records)
            && (ev.user !in s.records ==> r.state.records == s.records[ev.user := Record(ev.username, None)]))
  {
  }

  /** A disconnect by a user without an open session does nothing at all. */
  lemma DisconnectWithoutSessionIsNoop(s: State, tracked: string, ev: Event)
    requires tracked != ""
    requires IsDisconnect(ev.oldChannel, ev.newChannel, tracked)
    requires ev.user !in s.sessions
    ensures Handle(s, tracked, ev) == Outcome(s, [])
  {
  }

  /**
   * A disconnect by a user with an open session logs and announces the leave
   * and removes the session. The user's `totalTime` becomes the elapsed time
   * of that session alone (the previous total is discarded) when the record
   * exists, and only then is the total announced.
   */
  lemma DisconnectClosesSession(s: State, tracked: string, ev: Event)
    requires tracked != ""
    requires IsDisconnect(ev.oldChannel, ev.newChannel, tracked)
    requires ev.user in s.sessions
    ensures var r := Handle(s, tracked, ev);
      var elapsed := CalculateTotalTime(Some(s.sessions[ev.user]), ev.now);
      var announced := [Audit(AuditEntry(ev.username, ev.user, Leave, Stamp(ev.now))), LeaveMessage(ev.username)];
      && r.state.sessions == s.sessions - {ev.user}
      && (ev.user in s.records ==>
            && r.state.records == s.records[ev.user := s.records[ev.user].(totalTime := Some(elapsed))]
            && r.effects == announced + [TotalTimeMessage(ev.user)])
      && (ev.user !in s.records ==> r.state.records == s.records && r.effects == announced)
  {
  }

  /**
   * Moving from the tracked channel into another channel is not a leave: the
   * session stays open, the record is untouched and nothing is emitted.
   */
  lemma MoveAwayKeepsSession(s: State, tracked: string, ev: Event, other: string)
    requires tracked != "" && other != "" && other != tracked
    requires ev.oldChannel == Some(tracked) && ev.newChannel == Some(other)
    ensures Handle(s, tracked, ev) == Outcome(s, [])
  {
  }

  /** An update that touches neither side of the tracked channel does nothing. */
  lemma UnrelatedUpdateIsNoop(s: State, tracked: string, ev: Event)
    requires ev.oldChannel != Some(tracked) && ev.newChannel != Some(tracked)
    ensures Handle(s, tracked, ev) == Outcome(s, [])
  {
  }

  /**
   * An update inside the tracked channel (mute, deafen, ...) re-stamps the
   * user's session start with `now`, opening one if none was open; nothing
   * else changes and nothing is emitted.
   */
  lemma SameChannelRestamps(s: State, tracked: string, ev: Event)
    requires tracked != ""
    requires IsSameChannel(ev.oldChannel, ev.newChannel, tracked)
    ensures Handle(s, tracked, ev) == Outcome(State(s.sessions[ev.user := Stamp(ev.now)], s.records), [])
  {
  }

  /**
   * With an empty tracked id, `logLeave` itself closes the session. Handling
   * the event to completion, that close runs before the leave is announced,
   * and the later close finds nothing left to do.
   */
  lemma EmptyTrackedIdClosesInLogLeave(s: State, ev: Event)
    requires ev.oldChannel == Some("") && ev.newChannel == None
    requires ev.user in s.sessions && ev.user in s.records
    ensures var r := Handle(s, "", ev);
      && ev.user !in r.state.sessions
      && r.effects == [Audit(AuditEntry(ev.username, ev.user, Leave, Stamp(ev.now))),
                       TotalTimeMessage(ev.user), LeaveMessage(ev.username)]
  {
  }

  /** Clock readings that never go back, starting no earlier than `clock`. */
  predicate NowsFrom(clock: int, evs: seq<Event>)
    decreases |evs|
  {
    evs == [] || (clock <= evs[0].now && NowsFrom(evs[0].now, evs[1..]))
  }

  /** The clock reading of the last event, or `clock` when there is none. */
  function LastNow(clock: int, evs: seq<Event>): int
    decreases |evs|
  {
    if evs == [] then clock else LastNow(evs[0].now, evs[1..])
  }

  /** No session started after `clock`, and every stored total is a normal h/m/s. */
  predicate Sound(s: State, clock: int)
  {
    && (forall u :: u in s.sessions ==> s.sessions[u] <= clock)
    && (forall u :: u in s.records && s.records[u].totalTime.Some? ==> Normal(s.records[u].totalTime.value))
  }

  /** Closing a session at `now` keeps every start at most `now` and every total normal. */
  lemma StopKeepsSound(o: Outcome, user: UserId, oldChannel: ChannelId, tracked: string, now: int)
    requires Sound(o.state, now)
    ensures Sound(StopTotalTime(o, user, oldChannel, tracked, now).state, now)
  {
  }

  /** Handling an event whose clock reading is not earlier keeps the state sound. */
  lemma HandleKeepsSound(s: State, clock: int, tracked: string, ev: Event)
    requires Sound(s, clock) && clock <= ev.now
    ensures Sound(Handle(s, tracked, ev).state, ev.now)
  {
  }

  /**
   * Under a clock that never goes back, every `totalTime` the tracker ever
   * stores has non-negative hours and minutes and seconds in [0, 59].
   */
  lemma {:induction false} RunKeepsSound(s: State, clock: int, tracked: string, evs: seq<Event>)
    requires Sound(s, clock) && NowsFrom(clock, evs)
    ensures Sound(Run(s, tracked, evs).state, LastNow(clock, evs))
    decreases |evs|
  {
    if evs != [] {
      HandleKeepsSound(s, clock, tracked, evs[0]);
      RunKeepsSound(Handle(s, tracked, evs[0]).state, evs[0].now, tracked, evs[1..]);
    }
  }

  /** Running a stream is handling its first event and then running the rest. */
  lemma RunFirst(s: State, tracked: string, ev: Event, evs: seq<Event>)
    ensures Run(s, tracked, [ev] + evs)
         == Outcome(Run(Handle(s, tracked, ev).state, tracked, evs).state,
                    Handle(s, tracked, ev).effects + Run(Handle(s, tracked, ev).state, tracked, evs).effects)
  {
  }

  /**
   * A user who enters at `t0` and disconnects 125 s later: one join and one
   * leave audit entry, the three messages, no open session, and a record of
   * 0 h 2 min 5 s.
   */
  lemma EnterThenLeave(user: UserId, name: string, tracked: string, t0: int)
    requires tracked != ""
    ensures Run(Initial, tracked, [VoiceStateUpdate(user, name, None, Some(tracked), t0),
                                   VoiceStateUpdate(user, name, Some(tracked), None, t0 + 125000)])
         == Outcome(State(map[], map[user := Record(name, Some(Duration(0, 2, 5)))]),
                    [Audit(AuditEntry(name, user, Join, Stamp(t0))), JoinMessage(name),
                     Audit(AuditEntry(name, user, Leave, Stamp(t0 + 125000))), LeaveMessage(name),
                     TotalTimeMessage(user)])
  {
    var enter := VoiceStateUpdate(user, name, None, Some(tracked), t0);
    var leave := VoiceStateUpdate(user, name, Some(tracked), None, t0 + 125000);
    JoinOpensOrKeepsSession(Initial, tracked, enter);
    var o1 := Handle(Initial, tracked, enter);
    assert o1.state == State(map[user := Stamp(t0)], map[user := Record(name, None)]);
    DisconnectClosesSession(o1.state, tracked, leave);
    var o2 := Handle(o1.state, tracked, leave);
    SplitRoundTrip(Duration(0, 2, 5), Stamp(t0), t0 % 1000);
    assert map[user := Stamp(t0)] - {user} == map[];
    assert o2.state == State(map[], map[user := Record(name, Some(Duration(0, 2, 5)))]);
    RunFirst(o1.state, tracked, leave, []);
    assert [leave] + [] == [leave];
    RunFirst(Initial, tracked, enter, [leave]);
    assert [enter] + [leave] == [enter, leave];
  }

  /**
   * A user who joins, moves to another channel and joins again keeps the
   * session stamped at the first join, and both joins are logged and announced.
   */
  lemma RejoinAfterMoveKeepsFirstStart(user: UserId, name: string, tracked: string, other: string,
                                       t0: int, t1: int, t2: int)
    requires tracked != "" && other != "" && other != tracked
    ensures var r := Run(Initial, tracked, [VoiceStateUpdate(user, name, None, Some(tracked), t0),
                                            VoiceStateUpdate(user, name, Some(tracked), Some(other), t1),
                                            VoiceStateUpdate(user, name, Some(other), Some(tracked), t2)]);
      && r.state.sessions == map[user := Stamp(t0)]
      && r.effects == [Audit(AuditEntry(name, user, Join, Stamp(t0))), JoinMessage(name),
                       Audit(AuditEntry(name, user, Join, Stamp(t2))), JoinMessage(name)]
  {
    var e0 := VoiceStateUpdate(user, name, None, Some(tracked), t0);
    var e1 := VoiceStateUpdate(user, name, Some(tracked), Some(other), t1);
    var e2 := VoiceStateUpdate(user, name, Some(other), Some(tracked), t2);
    JoinOpensOrKeepsSession(Initial, tracked, e0);
    var s1 := Handle(Initial, tracked, e0).state;
    assert s1.sessions == map[user := Stamp(t0)];
    MoveAwayKeepsSession(s1, tracked, e1, other);
    JoinOpensOrKeepsSession(s1, tracked, e2);
    RunFirst(s1, tracked, e2, []);
    assert [e2] + [] == [e2];
    RunFirst(s1, tracked, e1, [e2]);
    assert [e1] + [e2] == [e1, e2];
    RunFirst(Initial, tracked, e0, [e1, e2]);
    assert [e0] + [e1, e2] == [e0, e1, e2];
  }

  /**
   * Two complete sessions leave the second session's time in the record:
   * closing overwrites the total instead of adding to it.
   */
  lemma SecondSessionOverwritesTotal(user: UserId, name: string, tracked: string,
                                     t0: int, t1: int, t2: int, t3: int)
    requires tracked != ""
    ensures Run(Initial, tracked, [VoiceStateUpdate(user, name, None, Some(tracked), t0),
                                   VoiceStateUpdate(user, name, Some(tracked), None, t1),
                                   VoiceStateUpdate(user, name, None, Some(tracked), t2),
                                   VoiceStateUpdate(user, name, Some(tracked), None, t3)]).state
         == State(map[], map[user := Record(name, Some(CalculateTotalTime(Some(Stamp(t2)), t3)))])
  {
    var e0 := VoiceStateUpdate(user, name, None, Some(tracked), t0);
    var e1 := VoiceStateUpdate(user, name, Some(tracked), None, t1);
    var e2 := VoiceStateUpdate(user, name, None, Some(tracked), t2);
    var e3 := VoiceStateUpdate(user, name, Some(tracked), None, t3);
    JoinOpensOrKeepsSession(Initial, tracked, e0);
    var s1 := Handle(Initial, tracked, e0).state;
    assert s1 == State(map[user := Stamp(t0)], map[user := Record(name, None)]);
    DisconnectClosesSession(s1, tracked, e1);
    var s2 := Handle(s1, tracked, e1).state;
    assert map[user := Stamp(t0)] - {user} == map[];
    assert s2.sessions == map[] && s2.records.Keys == {user} && s2.records[user].discordName == name;
    JoinOpensOrKeepsSession(s2, tracked, e2);
    var s3 := Handle(s2, tracked, e2).state;
    assert s3 == State(map[user := Stamp(t2)], s2.records);
    DisconnectClosesSession(s3, tracked, e3);
    var s4 := Handle(s3, tracked, e3).state;
    assert map[user := Stamp(t2)] - {user} == map[];
    assert s4 == State(map[], map[user := Record(name, Some(CalculateTotalTime(Some(Stamp(t2)), t3)))]);
    RunFirst(s3, tracked, e3, []);
    assert [e3] + [] == [e3];
    RunFirst(s2, tracked, e2, [e3]);
    assert [e2] + [e3] == [e2, e3];
    RunFirst(s1, tracked, e1, [e2, e3]);
    assert [e1] + [e2, e3] == [e1, e2, e3];
    RunFirst(Initial, tracked, e0, [e1, e2, e3]);
    assert [e0] + [e1, e2, e3] == [e0, e1, e2, e3];
  }
}
