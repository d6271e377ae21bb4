/** The autoplay handler (`autoplayFunction`) and the player state it changes.
    The search reply, whether the text channel is cached, and the random
    draws are inputs; the messages it posts are appended to a log. */
module PlayerHandler {
  import opened Wrappers
  import opened Tracks
  import opened AutoplayQuery
  import opened AutoplaySampling

  /** A warning posted to the player's text channel, deleted after
      `deleteAfter` seconds. */
  datatype Notice = Notice(text: string, deleteAfter: nat)

  const NoResultsNotice := Notice("> Autoplay, No results found", 10)
  const NoUniqueNotice := Notice("> Autoplay, No unique track found", 10)

  /** One call of `player.search(query, requester)`. */
  datatype SearchRequest = SearchRequest(query: SearchQuery, requester: string)

  /** How one autoplay pass ended.
      Skipped: a guard returned early. NoResults: warned and destroyed.
      SendFailed: the channel was not cached, so posting the warning threw
      before the player was destroyed. StillDrawing: the supplied draws ran
      out before three tracks were accepted (the handler would go on
      drawing). Queued: tracks were appended. NoUniqueTrack: the trailing
      branch warned and destroyed. */
  datatype Outcome = Skipped | NoResults | SendFailed | StillDrawing | Queued | NoUniqueTrack

  /** `!res || res.tracks.length === 0`. */
  predicate EmptyReply(reply: Option<seq<Track>>) {
    reply.None? || |reply.value| == 0
  }

  function Min(a: int, b: int): int {
    if a <= b then a else b
  }

  /** A lavalink-client player, reduced to what autoplay reads and changes. */
  class Player {
    /** `player.queue.tracks`: the upcoming tracks. */
    var tracks: seq<Track>
    /** `player.queue.previous`: the play history. */
    var previous: seq<Track>
    /** Set by `player.destroy()`. */
    var destroyed: bool
    /** The warnings posted to the player's text channel. */
    var notices: seq<Notice>
    /** The searches the player was asked to run. */
    var searches: seq<SearchRequest>

    constructor (tracks: seq<Track>, previous: seq<Track>)
      ensures this.tracks == tracks && this.previous == previous
      ensures !destroyed && notices == [] && searches == []
    {
      this.tracks := tracks;
      this.previous := previous;
      destroyed := false;
      notices := [];
      searches := [];
    }

    /** `autoplayFunction(client, track, player)` as written: when the queue
        has run dry, search for follow-ups of `track` and append three fresh
        results chosen by `draws`. */
    method Autoplay(track: Option<Track>, channelCached: bool, reply: Option<seq<Track>>, draws: seq<nat>)
      returns (outcome: Outcome)
      requires reply.Some? ==> ValidDraws(draws, |reply.value|)
      modifies this
      ensures previous == old(previous)
      // the guards
      ensures outcome == Skipped <==> |old(tracks)| > 0 || track.None?
      ensures outcome == Skipped ==> unchanged(this)
      // exactly one search, for the derived query, on behalf of the requester
      ensures outcome != Skipped ==>
        searches == old(searches) + [SearchRequest(DeriveQuery(track.value.info), track.value.requester)]
      // the empty-result path
      ensures outcome in {NoResults, SendFailed} <==> outcome != Skipped && EmptyReply(reply)
      ensures outcome == SendFailed <==> outcome != Skipped && EmptyReply(reply) && !channelCached
      ensures outcome == NoResults ==>
        notices == old(notices) + [NoResultsNotice] && destroyed && tracks == old(tracks)
      ensures outcome == SendFailed ==>
        notices == old(notices) && destroyed == old(destroyed) && tracks == old(tracks)
      // the sampling loop
      ensures outcome in {StillDrawing, Queued} ==>
        && reply.Some?
        && tracks == Sampled(reply.value, previous, [], draws, 0)
        && DistinctFresh(tracks, previous)
        && (forall t :: t in tracks ==> t in reply.value)
        && notices == old(notices) && destroyed == old(destroyed)
      ensures outcome == Queued <==>
        outcome != Skipped && !EmptyReply(reply) && |Sampled(reply.value, previous, [], draws, 0)| == 3
      // the trailing "No unique track found" branch is never taken
      ensures outcome != NoUniqueTrack
    {
      if |tracks| > 0 { return Skipped; }
      if track.None? { return Skipped; }
      var finished := track.value;

      var q := DeriveQuery(finished.info);
      searches := searches + [SearchRequest(q, finished.requester)];

      if reply.None? || |reply.value| == 0 {
        if !channelCached {
          // `channel.safeSend` on an undefined channel throws a TypeError
          return SendFailed;
        }
        notices := notices + [NoResultsNotice];
        destroyed := true;
        return NoResults;
      }

      var songs := SampleInto(reply.value, draws);
      SampledAppendsFresh(reply.value, previous, [], draws, 0);
      AppendedFreshIsDistinct(tracks, reply.value, previous);
      if songs < 3 {
        return StillDrawing;
      }

      if |tracks| == 0 {
        // The "No unique track found" warning and `player.destroy()`: the
        // loop only exits with three tracks queued, so this is dead code.
        assert false;
      }
      return Queued;
    }

    /** The handler as evidently intended: draw only among the results that
        are still fresh, stop once none is left, and post both warnings
        through `channel?.safeSend`. */
    method AutoplayBounded(track: Option<Track>, channelCached: bool, reply: Option<seq<Track>>)
      returns (outcome: Outcome)
      modifies this
      ensures previous == old(previous)
      ensures outcome != StillDrawing && outcome != SendFailed
      ensures outcome == Skipped <==> |old(tracks)| > 0 || track.None?
      ensures outcome == Skipped ==> unchanged(this)
      ensures outcome != Skipped ==>
        searches == old(searches) + [SearchRequest(DeriveQuery(track.value.info), track.value.requester)]
      ensures outcome == NoResults <==> outcome != Skipped && EmptyReply(reply)
      ensures outcome == NoResults ==>
        && notices == old(notices) + (if channelCached then [NoResultsNotice] else [])
        && destroyed && tracks == old(tracks)
      ensures outcome == NoUniqueTrack <==>
        outcome != Skipped && !EmptyReply(reply) && FreshIds(reply.value, previous, []) == {}
      ensures outcome == NoUniqueTrack ==>
        && notices == old(notices) + (if channelCached then [NoUniqueNotice] else [])
        && destroyed && tracks == []
      ensures outcome == Queued ==>
        && reply.Some?
        && |tracks| == Min(3, |FreshIds(reply.value, previous, [])|) > 0
        && DistinctFresh(tracks, previous)
        && (forall t :: t in tracks ==> t in reply.value)
        && notices == old(notices) && destroyed == old(destroyed)
    {
      if |tracks| > 0 { return Skipped; }
      if track.None? { return Skipped; }
      var finished := track.value;

      var q := DeriveQuery(finished.info);
      searches := searches + [SearchRequest(q, finished.requester)];

      if reply.None? || |reply.value| == 0 {
        if channelCached {
          notices := notices + [NoResultsNotice];
        }
        destroyed := true;
        return NoResults;
      }

      FillFresh(reply.value);

      if |tracks| == 0 {
        if channelCached {
          notices := notices + [NoUniqueNotice];
        }
        destroyed := true;
        return NoUniqueTrack;
      }
      return Queued;
    }

    /** The loop `for (let songs = 0; songs < 3; )` of the handler: draw a
        result, append it if fresh, count it. */
    method SampleInto(results: seq<Track>, draws: seq<nat>) returns (songs: nat)
      requires ValidDraws(draws, |results|)
      modifies this`tracks
      ensures tracks == Sampled(results, previous, old(tracks), draws, 0)
      ensures songs == |tracks| - |old(tracks)| <= 3
    {
      ghost var final := Sampled(results, previous, tracks, draws, 0);
      songs := 0;
      var k := 0;
      while songs < 3 && k < |draws|
        invariant 0 <= k <= |draws|
        invariant ValidDraws(draws[k..], |results|)
        invariant songs == |tracks| - |old(tracks)| <= 3
        invariant Sampled(results, previous, tracks, draws[k..], songs) == final
        decreases |draws| - k
      {
        var chosen := results[draws[k]];
        SampledStep(results, previous, tracks, draws[k..], songs);
        assert draws[k..][0] == draws[k] && draws[k..][1..] == draws[k + 1..];
        if !HasId(previous, chosen.info.identifier) && !HasId(tracks, chosen.info.identifier) {
          tracks := tracks + [chosen];
          songs := songs + 1;
        }
        k := k + 1;
      }
    }

    /** The intended loop: append fresh results, one at a time, until three
        are queued or none is left. */
    method FillFresh(results: seq<Track>)
      requires tracks == []
      modifies this`tracks
      ensures |tracks| == Min(3, |FreshIds(results, previous, [])|)
      ensures DistinctFresh(tracks, previous)
      ensures forall t :: t in tracks ==> t in results
    {
      ghost var available := FreshIds(results, previous, []);
      var songs := 0;
      while songs < 3 && exists t :: t in results && Fresh(t, previous, tracks)
        invariant songs == |tracks| <= 3
        invariant songs + Min(3 - songs, |FreshIds(results, previous, tracks)|) == Min(3, |available|)
        invariant DistinctFresh(tracks, previous)
        invariant forall t :: t in tracks ==> t in results
        decreases 3 - songs
      {
        var chosen :| chosen in results && Fresh(chosen, previous, tracks);
        FreshIdsAfterAppend(results, previous, tracks, chosen);
        DistinctFreshAppend(tracks, previous, chosen);
        tracks := tracks + [chosen];
        songs := songs + 1;
      }
      if songs < 3 {
        NoFreshCandidate(results, previous, tracks);
      }
    }
  }

  /** With no fresh candidate left, there is no fresh identifier either. */
  lemma NoFreshCandidate(results: seq<Track>, history: seq<Track>, queue: seq<Track>)
    requires forall t :: t in results ==> !Fresh(t, history, queue)
    ensures FreshIds(results, history, queue) == {}
  {
  }

  /** Appending a candidate that is fresh against the queue keeps the queue
      free of duplicates and of history entries. */
  lemma DistinctFreshAppend(queue: seq<Track>, history: seq<Track>, chosen: Track)
    requires DistinctFresh(queue, history)
    requires Fresh(chosen, history, queue)
    ensures DistinctFresh(queue + [chosen], history)
  {
    var q := queue + [chosen];
    forall i, j | 0 <= i < j < |q| ensures q[i].info.identifier != q[j].info.identifier {
      if j == |queue| { assert q[i] in queue; }
    }
  }
}
