/** The part of a lavalink-client track that the autoplay handler looks at. */
module Tracks {
  import opened Wrappers

  /** `track.info`: the provider-scoped identifier may be null. */
  datatype TrackInfo = TrackInfo(identifier: Option<string>, sourceName: string, author: string)

  /** A track and the user it was requested by (`track.requester`). */
  datatype Track = Track(info: TrackInfo, requester: string)

  /** `list.some(o => o.info.identifier === id)`. */
  predicate HasId(list: seq<Track>, id: Option<string>) {
    exists o :: o in list && o.info.identifier == id
  }

  /** The acceptance test of the sampling loop: the candidate's identifier is
      neither in the play history nor already queued. */
  predicate Fresh(t: Track, history: seq<Track>, queue: seq<Track>) {
    !HasId(history, t.info.identifier) && !HasId(queue, t.info.identifier)
  }
}
