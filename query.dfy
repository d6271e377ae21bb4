/** The first step of autoplay: turning the track that just finished into a
    follow-up search, keyed by the provider the track came from. */
module AutoplayQuery {
  import opened Wrappers
  import opened Tracks
  import Config

  /** `{ query, source }` as handed to `player.search`. */
  datatype SearchQuery = SearchQuery(query: string, source: string)

  /** Seeds used when the finished track has no identifier. */
  const SpotifyFallbackSeed := "11xbo8bGa5XTrXrGP77zwc"
  const YoutubeFallbackSeed := "lpeuIu-ZYJY"
  const JiosaavnFallbackSeed := "Hvma-gqd"

  const SpotifyPrefix := "seed_tracks="
  const SpotifySuffix := "&limit=20&min_popularity=30"
  const WatchPrefix := "https://youtube.com/watch?v="
  const ListParam := "&list="

  /** The `switch (track.info.sourceName)` of the autoplay handler. */
  function DeriveQuery(info: TrackInfo): (q: SearchQuery)
    ensures info.sourceName == "spotify" ==>
      q.source == "sprec" && SpotifySeed(q.query) == Some(info.identifier.Or(SpotifyFallbackSeed))
    ensures info.sourceName == "youtube" ==>
      && q.source == "ytsearch"
      && var seed := info.identifier.Or(YoutubeFallbackSeed);
         '&' !in seed ==> WatchParams(q.query) == Some((seed, "RD" + seed))
    ensures info.sourceName == "jiosaavn" ==>
      q.source == "jsrec" && q.query == info.identifier.Or(JiosaavnFallbackSeed)
    ensures info.sourceName !in {"spotify", "youtube", "jiosaavn"} ==>
      q.source == "scsearch" && q.query == info.author
  {
    match info.sourceName
    case "spotify" =>
      var seed := info.identifier.Or(SpotifyFallbackSeed);
      SpotifyRoundTrip(seed);
      SearchQuery(SpotifyPrefix + seed + SpotifySuffix, "sprec")
    case "youtube" =>
      var seed := info.identifier.Or(YoutubeFallbackSeed);
      WatchRoundTrip(seed);
      SearchQuery(WatchPrefix + seed + ListParam + "RD" + seed, "ytsearch")
    case "jiosaavn" =>
      SearchQuery(info.identifier.Or(JiosaavnFallbackSeed), "jsrec")
    case _ =>
      SearchQuery(info.author, Config.DefaultSource())
  }

  /** Reads the seed back out of a Spotify recommendation query. */
  function SpotifySeed(query: string): Option<string> {
    if |query| >= |SpotifyPrefix| + |SpotifySuffix|
       && query[..|SpotifyPrefix|] == SpotifyPrefix
       && query[|query| - |SpotifySuffix|..] == SpotifySuffix
    then Some(query[|SpotifyPrefix|..|query| - |SpotifySuffix|])
    else None
  }

  lemma SpotifyRoundTrip(seed: string)
    ensures SpotifySeed(SpotifyPrefix + seed + SpotifySuffix) == Some(seed)
  {
    var q := SpotifyPrefix + seed + SpotifySuffix;
    assert q[..|SpotifyPrefix|] == SpotifyPrefix;
    assert q[|q| - |SpotifySuffix|..] == SpotifySuffix;
    assert q[|SpotifyPrefix|..|q| - |SpotifySuffix|] == seed;
  }

  /** The value of a URL query parameter: everything up to the next '&'. */
  function ParamValue(s: string): (v: string)
    ensures |v| <= |s| && v == s[..|v|] && '&' !in v
    ensures |v| < |s| ==> s[|v|] == '&'
  {
    if s == [] || s[0] == '&' then [] else [s[0]] + ParamValue(s[1..])
  }

  lemma {:induction false} ParamValueStopsAtAmp(v: string, rest: string)
    requires '&' !in v
    requires rest == [] || rest[0] == '&'
    ensures ParamValue(v + rest) == v
  {
    if v != [] {
      assert (v + rest)[1..] == v[1..] + rest;
      ParamValueStopsAtAmp(v[1..], rest);
    }
  }

  /** Reads a watch URL back as its `v` (video) and `list` (playlist)
      parameters. */
  function WatchParams(url: string): Option<(string, string)> {
    if |url| >= |WatchPrefix| && url[..|WatchPrefix|] == WatchPrefix then
      var rest := url[|WatchPrefix|..];
      var video := ParamValue(rest);
      var after := rest[|video|..];
      if |after| >= |ListParam| && after[..|ListParam|] == ListParam
      then Some((video, after[|ListParam|..]))
      else None
    else None
  }

  lemma WatchRoundTrip(seed: string)
    ensures '&' !in seed ==> WatchParams(WatchPrefix + seed + ListParam + "RD" + seed) == Some((seed, "RD" + seed))
  {
    if '&' !in seed {
      var list := "RD" + seed;
      var tail := ListParam + list;
      var url := WatchPrefix + seed + ListParam + "RD" + seed;
      ConcatAssoc(WatchPrefix + seed + ListParam, "RD", seed);
      ConcatAssoc(WatchPrefix + seed, ListParam, list);
      ConcatAssoc(WatchPrefix, seed, tail);
      assert url == WatchPrefix + (seed + tail);
      SplitAt(WatchPrefix, seed + tail);
      var rest := url[|WatchPrefix|..];
      assert rest == seed + tail;
      assert tail[0] == '&';
      ParamValueStopsAtAmp(seed, tail);
      SplitAt(seed, tail);
      assert rest[|seed|..] == tail;
      SplitAt(ListParam, list);
    }
  }

  lemma SplitAt(a: string, b: string)
    ensures (a + b)[..|a|] == a && (a + b)[|a|..] == b
  {
  }

  lemma ConcatAssoc(a: string, b: string, c: string)
    ensures a + b + c == a + (b + c)
  {
  }
}
