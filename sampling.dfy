/** The dedup sampling loop of autoplay, as a function of the random draws it
    consumes. `Math.floor(Math.random() * res.tracks.length)` is an index in
    `[0, |results|)`; the k-th draw of the loop is `draws[k]`. */
module AutoplaySampling {
  import opened Wrappers
  import opened Tracks

  /** Every draw is an index into the search results. */
  predicate ValidDraws(draws: seq<nat>, n: nat) {
    forall k :: 0 <= k < |draws| ==> draws[k] < n
  }

  /** The queue after the loop `for (let songs = ...; songs < 3; )` has run
      on `queue` with the random draws `draws`: each draw picks a result,
      which is appended (and counted) only if fresh. When the draws run out
      first, this is the queue so far. */
  function Sampled(results: seq<Track>, history: seq<Track>, queue: seq<Track>, draws: seq<nat>, songs: nat)
    : (final: seq<Track>)
    requires ValidDraws(draws, |results|)
    ensures |queue| <= |final| && final[..|queue|] == queue
    ensures songs + (|final| - |queue|) <= 3 || final == queue
    decreases |draws|
  {
    if 3 <= songs || |draws| == 0 then queue
    else
      var chosen := results[draws[0]];
      if Fresh(chosen, history, queue) then
        Sampled(results, history, queue + [chosen], draws[1..], songs + 1)
      else
        Sampled(results, history, queue, draws[1..], songs)
  }

  /** One iteration of the loop: the first draw is appended when fresh, and
      the rest of the draws continue from there. */
  lemma SampledStep(results: seq<Track>, history: seq<Track>, queue: seq<Track>, draws: seq<nat>, songs: nat)
    requires ValidDraws(draws, |results|) && songs < 3 && draws != []
    ensures ValidDraws(draws[1..], |results|)
    ensures var chosen := results[draws[0]];
      Sampled(results, history, queue, draws, songs)
      == if Fresh(chosen, history, queue)
         then Sampled(results, history, queue + [chosen], draws[1..], songs + 1)
         else Sampled(results, history, queue, draws[1..], songs)
  {
  }

  /** Every track from position `from` on came from the results and was, when
      it was appended, neither in the history nor already queued. */
  predicate AppendedFresh(final: seq<Track>, results: seq<Track>, history: seq<Track>, from: nat) {
    forall i :: from <= i < |final| ==> final[i] in results && Fresh(final[i], history, final[..i])
  }

  /** The loop invariant holds of every track the loop appends. */
  lemma {:induction false} SampledAppendsFresh(results: seq<Track>, history: seq<Track>, queue: seq<Track>,
                                               draws: seq<nat>, songs: nat)
    requires ValidDraws(draws, |results|)
    ensures AppendedFresh(Sampled(results, history, queue, draws, songs), results, history, |queue|)
    decreases |draws|
  {
    var final := Sampled(results, history, queue, draws, songs);
    if songs < 3 && |draws| > 0 {
      var chosen := results[draws[0]];
      if Fresh(chosen, history, queue) {
        var longer := queue + [chosen];
        SampledAppendsFresh(results, history, longer, draws[1..], songs + 1);
        assert final[..|longer|] == longer;
        assert final[|queue|] == chosen;
        assert final[..|queue|] == queue;
      } else {
        SampledAppendsFresh(results, history, queue, draws[1..], songs);
      }
    }
  }

  /** The tracks appended one by one as fresh have pairwise distinct
      identifiers, none of which is in the history. */
  predicate DistinctFresh(added: seq<Track>, history: seq<Track>) {
    && (forall i :: 0 <= i < |added| ==> !HasId(history, added[i].info.identifier))
    && (forall i, j :: 0 <= i < j < |added| ==> added[i].info.identifier != added[j].info.identifier)
  }

  lemma AppendedFreshIsDistinct(final: seq<Track>, results: seq<Track>, history: seq<Track>)
    requires AppendedFresh(final, results, history, 0)
    ensures DistinctFresh(final, history)
  {
    forall i, j | 0 <= i < j < |final| ensures final[i].info.identifier != final[j].info.identifier {
      assert final[i] in final[..j];
    }
  }

  /** The distinct identifiers among the results that are neither in the
      history nor queued. */
  function FreshIds(results: seq<Track>, history: seq<Track>, queue: seq<Track>): set<Option<string>> {
    set t | t in results && Fresh(t, history, queue) :: t.info.identifier
  }

  /** The loop can only reach three appended tracks when the results hold at
      least three distinct identifiers absent from the history. */
  lemma FilledNeedsThreeFreshIds(results: seq<Track>, history: seq<Track>, draws: seq<nat>)
    requires ValidDraws(draws, |results|)
    ensures |Sampled(results, history, [], draws, 0)| == 3 ==> |FreshIds(results, history, [])| >= 3
  {
    var added := Sampled(results, history, [], draws, 0);
    SampledAppendsFresh(results, history, [], draws, 0);
    AppendedFreshIsDistinct(added, results, history);
    if |added| == 3 {
      var ids := {added[0].info.identifier, added[1].info.identifier, added[2].info.identifier};
      assert |ids| == 3;
      assert ids <= FreshIds(results, history, []) by {
        forall i | 0 <= i < 3 ensures added[i].info.identifier in FreshIds(results, history, []) {
          assert added[i] in results && Fresh(added[i], history, []);
        }
      }
      SubsetCardinality(ids, FreshIds(results, history, []));
    }
  }

  lemma SubsetCardinality<T>(a: set<T>, b: set<T>)
    requires a <= b
    ensures |a| <= |b|
  {
    assert b == a + (b - a);
  }

  /** Conversely, three distinct fresh identifiers are enough: some sequence
      of draws makes the loop append three tracks. */
  lemma ThreeFreshIdsCanFill(results: seq<Track>, history: seq<Track>) returns (draws: seq<nat>)
    requires |FreshIds(results, history, [])| >= 3
    ensures ValidDraws(draws, |results|)
    ensures |Sampled(results, history, [], draws, 0)| == 3
  {
    var freshIds := FreshIds(results, history, []);
    var a :| a in freshIds;
    assert |freshIds - {a}| == |freshIds| - 1;
    var b :| b in freshIds - {a};
    assert |freshIds - {a} - {b}| == |freshIds| - 2;
    var c :| c in freshIds - {a} - {b};
    var i :| 0 <= i < |results| && Fresh(results[i], history, []) && results[i].info.identifier == a;
    var j :| 0 <= j < |results| && Fresh(results[j], history, []) && results[j].info.identifier == b;
    var k :| 0 <= k < |results| && Fresh(results[k], history, []) && results[k].info.identifier == c;
    draws := [i, j, k];
    DrawThreeFresh(results, history, i, j, k);
  }

  /** Three draws that hit fresh results with distinct identifiers fill the
      queue. */
  lemma DrawThreeFresh(results: seq<Track>, history: seq<Track>, i: nat, j: nat, k: nat)
    requires i < |results| && j < |results| && k < |results|
    requires Fresh(results[i], history, []) && Fresh(results[j], history, []) && Fresh(results[k], history, [])
    requires results[i].info.identifier != results[j].info.identifier
    requires results[k].info.identifier !in {results[i].info.identifier, results[j].info.identifier}
    ensures Sampled(results, history, [], [i, j, k], 0) == [results[i], results[j], results[k]]
  {
    var ti, tj, tk := results[i], results[j], results[k];
    HasIdAppend([], ti, tj.info.identifier);
    HasIdAppend([ti], tj, tk.info.identifier);
    HasIdAppend([], ti, tk.info.identifier);
    assert [] + [ti] == [ti] && [ti] + [tj] == [ti, tj] && [ti, tj] + [tk] == [ti, tj, tk];
    assert [i, j, k][1..] == [j, k] && [j, k][1..] == [k] && [k][1..] == [];
    assert Sampled(results, history, [ti, tj], [k], 2) == [ti, tj, tk];
    assert Sampled(results, history, [ti], [j, k], 1) == [ti, tj, tk];
  }

  lemma HasIdAppend(queue: seq<Track>, t: Track, id: Option<string>)
    ensures HasId(queue + [t], id) <==> HasId(queue, id) || t.info.identifier == id
  {
    if t.info.identifier == id { assert t in queue + [t]; }
    if HasId(queue, id) {
      var o :| o in queue && o.info.identifier == id;
      assert o in queue + [t];
    }
  }

  /** When the identifier of every result is already in the history, no
      sequence of draws ever appends anything: the loop never reaches three. */
  lemma {:induction false} AllInHistoryNeverFills(results: seq<Track>, history: seq<Track>, queue: seq<Track>,
                                                 draws: seq<nat>, songs: nat)
    requires ValidDraws(draws, |results|)
    requires forall t :: t in results ==> HasId(history, t.info.identifier)
    ensures Sampled(results, history, queue, draws, songs) == queue
    decreases |draws|
  {
    if songs < 3 && |draws| > 0 {
      assert results[draws[0]] in results;
      AllInHistoryNeverFills(results, history, queue, draws[1..], songs);
    }
  }

  /** Appending a fresh candidate removes exactly its identifier from the
      fresh identifiers. */
  lemma FreshIdsAfterAppend(results: seq<Track>, history: seq<Track>, queue: seq<Track>, chosen: Track)
    requires chosen in results && Fresh(chosen, history, queue)
    ensures chosen.info.identifier in FreshIds(results, history, queue)
    ensures FreshIds(results, history, queue + [chosen])
         == FreshIds(results, history, queue) - {chosen.info.identifier}
  {
    var before, after := FreshIds(results, history, queue), FreshIds(results, history, queue + [chosen]);
    forall id | id in after ensures id in before - {chosen.info.identifier} {
      var t :| t in results && Fresh(t, history, queue + [chosen]) && t.info.identifier == id;
      assert chosen in queue + [chosen];
    }
    forall id | id in before - {chosen.info.identifier} ensures id in after {
      var t :| t in results && Fresh(t, history, queue) && t.info.identifier == id;
      assert Fresh(t, history, queue + [chosen]);
    }
  }
}
