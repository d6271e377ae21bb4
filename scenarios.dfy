/** Concrete runs of the autoplay handler, as written and as intended. */
module AutoplayScenarios {
  import opened Wrappers
  import opened Tracks
  import opened AutoplayQuery
  import opened AutoplaySampling
  import opened PlayerHandler

  /** The track that just finished: a YouTube video without identifier. */
  function Finished(): Track {
    Track(TrackInfo(None, "youtube", "some artist"), "listener")
  }

  /** The search finds nothing while the text channel is not in the cache:
      the warning throws before `player.destroy()` is reached, so the player
      stays alive with an empty queue. */
  method EmptyReplyUncachedChannel() returns (outcome: Outcome, destroyed: bool, queued: nat)
    ensures outcome == SendFailed && !destroyed && queued == 0
  {
    var player := new Player([], []);
    outcome := player.Autoplay(Some(Finished()), false, Some([]), []);
    destroyed := player.destroyed;
    queued := |player.tracks|;
  }

  /** The same situation with the intended `channel?.safeSend`: the player is
      destroyed, and no warning can be shown. */
  method EmptyReplyUncachedChannelBounded() returns (outcome: Outcome, destroyed: bool, warned: bool)
    ensures outcome == NoResults && destroyed && !warned
  {
    var player := new Player([], []);
    outcome := player.AutoplayBounded(Some(Finished()), false, Some([]));
    destroyed := player.destroyed;
    warned := player.notices != [];
  }

  /** The only search result is the track that was just played: whatever the
      random draws, the loop as written never queues anything and never
      exits. */
  method OnlyReplayAvailable(draws: seq<nat>) returns (outcome: Outcome, queued: nat)
    requires ValidDraws(draws, 1)
    ensures outcome == StillDrawing && queued == 0
  {
    var t := Finished();
    var player := new Player([], [t]);
    assert t in [t];
    AllInHistoryNeverFills([t], [t], [], draws, 0);
    outcome := player.Autoplay(Some(t), true, Some([t]), draws);
    queued := |player.tracks|;
  }

  /** The intended handler takes the "No unique track found" path instead. */
  method OnlyReplayAvailableBounded() returns (outcome: Outcome, destroyed: bool, notices: seq<Notice>)
    ensures outcome == NoUniqueTrack && destroyed && notices == [NoUniqueNotice]
  {
    var t := Finished();
    var player := new Player([], [t]);
    assert t in [t];
    assert FreshIds([t], [t], []) == {};
    outcome := player.AutoplayBounded(Some(t), true, Some([t]));
    destroyed := player.destroyed;
    notices := player.notices;
  }
}
