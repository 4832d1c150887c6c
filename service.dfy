/**
 * `DiscordService` as an object: the `inVoiceChannel` map and the total-time
 * records are fields its methods update in place, and every method is proved
 * to do what the corresponding function of module Sessions says.
 */
module Service {
  import opened Wrappers
  import opened TotalTime
  import opened VoiceEvents
  import opened Sessions

  class DiscordService {
    /** `channelIds.voiceChannel`: the id of the tracked voice channel. */
    const voiceChannel: string
    /** User id to the (whole-second) start of that user's open session. */
    var inVoiceChannel: map<UserId, int>
    /** The `UserTotalTime` documents, keyed by `discordId`. */
    var userTotalTimes: map<UserId, Record>
    /** Everything handed to the audit log and the text channels so far. */
    ghost var effects: seq<Effect>

    /**
     * Session starts are stored as formatted text, so they are whole seconds.
     * Every method preserves this invariant; no contract relies on it, and
     * `TotalTime.StampedElapsed` states what it means for elapsed seconds.
     */
    ghost predicate Valid()
      reads this
    {
      forall u :: u in inVoiceChannel ==> inVoiceChannel[u] % 1000 == 0
    }

    /** The tracker's state as a value. */
    function Snapshot(): State
      reads this
    {
      State(inVoiceChannel, userTotalTimes)
    }

    /**
     * A service starting with no open sessions over the records `stored` that
     * the total-time collection already holds (none on a fresh deployment).
     */
    constructor (voiceChannel: string, stored: map<UserId, Record>)
      ensures Valid()
      ensures this.voiceChannel == voiceChannel
      ensures Snapshot() == State(map[], stored) && effects == []
    {
      this.voiceChannel := voiceChannel;
      inVoiceChannel := map[];
      userTotalTimes := stored;
      effects := [];
    }

    /** `startUserTotalTime`: look up the record, open a session if none is open, create a missing record. */
    method StartUserTotalTime(user: UserId, username: string, now: int)
      requires Valid()
      modifies this
      ensures Valid()
      ensures Snapshot() == StartTotalTime(old(Snapshot()), user, username, now)
      ensures effects == old(effects)
    {
      var existing := Lookup(userTotalTimes, user);
      if user !in inVoiceChannel {
        inVoiceChannel := inVoiceChannel[user := Stamp(now)];
      }
      if existing.None? {
        userTotalTimes := userTotalTimes[user := Record(username, None)];
      }
    }

    /**
     * `stopUserTotalTime`: when the user has a session and the old channel is
     * the tracked one, overwrite the record's `totalTime` (if there is a record)
     * and delete the session.
     */
    method StopUserTotalTime(user: UserId, oldChannel: ChannelId, now: int)
      requires Valid()
      modifies this
      ensures Valid()
      ensures Outcome(Snapshot(), effects)
           == StopTotalTime(Outcome(old(Snapshot()), old(effects)), user, oldChannel, voiceChannel, now)
    {
      var joinTimestamp := Lookup(inVoiceChannel, user);
      if joinTimestamp.Some? && oldChannel == Some(voiceChannel) {
        var userTotalTime := Lookup(userTotalTimes, user);
        if userTotalTime.Some? {
          var total := CalculateTotalTime(joinTimestamp, now);
          userTotalTimes := userTotalTimes[user := userTotalTime.value.(totalTime := Some(total))];
          effects := effects + [TotalTimeMessage(user)];
        }
        inVoiceChannel := inVoiceChannel - {user};
      }
    }

    /** `logLeave`: record the leave entry; close the session if the old channel is absent or another one. */
    method LogLeave(user: UserId, username: string, oldChannel: ChannelId, now: int)
      requires Valid()
      modifies this
      ensures Valid()
      ensures var logged := Outcome(old(Snapshot()), old(effects) + [Audit(AuditEntry(username, user, Leave, Stamp(now)))]);
        Outcome(Snapshot(), effects)
          == if Falsy(oldChannel) || oldChannel != Some(voiceChannel)
             then StopTotalTime(logged, user, oldChannel, voiceChannel, now)
             else logged
    {
      effects := effects + [Audit(AuditEntry(username, user, Leave, Stamp(now)))];
      if Falsy(oldChannel) || oldChannel != Some(voiceChannel) {
        StopUserTotalTime(user, oldChannel, now);
      }
    }

    /** The `voiceStateUpdate` handler, run to completion for one notification. */
    method OnVoiceStateUpdate(ev: Event)
      requires Valid()
      modifies this
      ensures Valid()
      ensures Snapshot() == Handle(old(Snapshot()), voiceChannel, ev).state
      ensures effects == old(effects) + Handle(old(Snapshot()), voiceChannel, ev).effects
    {
      ghost var before := Outcome(Snapshot(), effects);
      ghost var joined := JoinBranch(before.state, voiceChannel, ev);
      if IsJoin(ev.oldChannel, ev.newChannel, voiceChannel) {
        effects := effects + [Audit(AuditEntry(ev.username, ev.user, Join, Stamp(ev.now))), JoinMessage(ev.username)];
        if ev.user !in inVoiceChannel {
          StartUserTotalTime(ev.user, ev.username, ev.now);
        }
      }
      assert Snapshot() == joined.state && effects == before.effects + joined.effects;

      ghost var left := LeaveBranch(joined, voiceChannel, ev);
      if IsDisconnect(ev.oldChannel, ev.newChannel, voiceChannel) {
        if ev.user in inVoiceChannel {
          LogLeave(ev.user, ev.username, ev.oldChannel, ev.now);
          effects := effects + [LeaveMessage(ev.username)];
          if ev.newChannel != Some(voiceChannel) {
            StopUserTotalTime(ev.user, ev.oldChannel, ev.now);
          }
        }
      }
      assert Snapshot() == left.state && effects == before.effects + left.effects;

      if IsSameChannel(ev.oldChannel, ev.newChannel, voiceChannel) {
        inVoiceChannel := inVoiceChannel[ev.user := Stamp(ev.now)];
      }
    }
  }
}
