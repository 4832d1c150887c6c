/**
 * The three tests the `voiceStateUpdate` handler applies to a user's old and
 * new voice channel ids and to the configured `channelIds.voiceChannel`.
 */
module VoiceEvents {
  import opened Wrappers

  /** A voice state's `channelId`: `None` when the user is in no voice channel. */
  type ChannelId = Option<string>

  /** JavaScript's `!channelId`: true of `null` and of the empty string. */
  predicate Falsy(c: ChannelId)
    ensures c.Some? && c.value != "" ==> !Falsy(c)
  {
    c == None || c == Some("")
  }

  /** The join test: the new channel is the tracked one, and the old one is another or none. */
  predicate IsJoin(oldChannel: ChannelId, newChannel: ChannelId, tracked: string)
    ensures IsJoin(oldChannel, newChannel, tracked) ==> newChannel == Some(tracked)
    ensures IsJoin(oldChannel, newChannel, tracked) && tracked != "" ==> oldChannel != Some(tracked)
  {
    newChannel == Some(tracked) && (oldChannel != Some(tracked) || Falsy(oldChannel))
  }

  /** The leave test: the old channel is the tracked one and the user is now in no channel. */
  predicate IsDisconnect(oldChannel: ChannelId, newChannel: ChannelId, tracked: string)
    ensures IsDisconnect(oldChannel, newChannel, tracked) ==>
              oldChannel == Some(tracked) && !(newChannel.Some? && newChannel.value != "")
  {
    oldChannel == Some(tracked) && Falsy(newChannel)
  }

  /** The same-channel test: both states are in the tracked channel (mute, deafen, stream). */
  predicate IsSameChannel(oldChannel: ChannelId, newChannel: ChannelId, tracked: string)
    ensures IsSameChannel(oldChannel, newChannel, tracked) ==> oldChannel == newChannel
  {
    newChannel == Some(tracked) && oldChannel == Some(tracked)
  }

  /** With a real (non-empty) tracked id, at most one of the three branches fires. */
  lemma AtMostOneBranch(oldChannel: ChannelId, newChannel: ChannelId, tracked: string)
    requires tracked != ""
    ensures !(IsJoin(oldChannel, newChannel, tracked) && IsDisconnect(oldChannel, newChannel, tracked))
    ensures !(IsJoin(oldChannel, newChannel, tracked) && IsSameChannel(oldChannel, newChannel, tracked))
    ensures !(IsDisconnect(oldChannel, newChannel, tracked) && IsSameChannel(oldChannel, newChannel, tracked))
  {
  }

  /**
   * With a non-empty tracked id, a join is recognised exactly when the user
   * arrives in the tracked channel from any other channel or from none.
   */
  lemma JoinExactly(oldChannel: ChannelId, newChannel: ChannelId, tracked: string)
    requires tracked != ""
    ensures IsJoin(oldChannel, newChannel, tracked) <==>
              newChannel == Some(tracked) && oldChannel != Some(tracked)
  {
  }

  /**
   * A leave is recognised only on a disconnect: moving from the tracked
   * channel into another (non-empty) channel id is not a leave.
   */
  lemma LeaveOnlyOnDisconnect(oldChannel: ChannelId, newChannel: ChannelId, tracked: string)
    requires tracked != ""
    ensures IsDisconnect(oldChannel, newChannel, tracked) <==>
              oldChannel == Some(tracked) && (newChannel == None || newChannel == Some(""))
    ensures forall other: string :: other != "" ==> !IsDisconnect(oldChannel, Some(other), tracked)
  {
  }

  /**
   * `logLeave` closes the session itself when the old channel is absent or not
   * the tracked one; on a recognised leave with a non-empty tracked id that
   * never holds.
   */
  lemma LogLeaveCloseUnreachable(oldChannel: ChannelId, newChannel: ChannelId, tracked: string)
    requires tracked != ""
    requires IsDisconnect(oldChannel, newChannel, tracked)
    ensures !(Falsy(oldChannel) || oldChannel != Some(tracked))
  {
  }

  /**
   * The tests compare ids with JavaScript truthiness, so an empty tracked id
   * lets all three branches fire on the same event.
   */
  lemma EmptyTrackedIdOverlap()
    ensures IsJoin(Some(""), Some(""), "")
    ensures IsDisconnect(Some(""), Some(""), "")
    ensures IsSameChannel(Some(""), Some(""), "")
  {
  }
}
