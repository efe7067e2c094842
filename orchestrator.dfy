/** The search run behind the "Buscar" button: geocode the zone, search for
    nearby places, fetch the details of at most `max_resultados` candidates
    one after another, and keep the records of those that succeed. The
    providers' calls are inputs; the detail fetch is a function of the
    candidate. */
module Orchestrator {
  import opened Common
  import opened Details

  /** `xs[:n]` for a non-negative `n`. */
  function Take<T>(xs: seq<T>, n: nat): (r: seq<T>)
    ensures |r| <= n && |r| <= |xs|
    ensures |r| == n || |r| == |xs|
    ensures r == xs[..|r|]
  {
    if n < |xs| then xs[..n] else xs
  }

  /** The records the detail fetch yields for `candidates`, in candidate order,
      with the failed fetches left out. */
  function Collected<P, R>(candidates: seq<P>, fetch: P -> Option<R>): (r: seq<R>)
    ensures |r| <= |candidates|
  {
    if candidates == [] then []
    else
      var last := fetch(candidates[|candidates| - 1]);
      Collected(candidates[..|candidates| - 1], fetch) + (if last.Some? then [last.value] else [])
  }

  /** The positions, in increasing order, of the candidates whose fetch
      succeeded: every entry is such a position, and every such position is
      an entry. */
  function SuccessIndices<P, R>(candidates: seq<P>, fetch: P -> Option<R>): (ix: seq<nat>)
    ensures forall n :: 0 <= n < |ix| ==> ix[n] < |candidates| && fetch(candidates[ix[n]]).Some?
    ensures forall a, b :: 0 <= a < b < |ix| ==> ix[a] < ix[b]
    ensures forall k :: 0 <= k < |candidates| && fetch(candidates[k]).Some? ==> k in ix
  {
    if candidates == [] then []
    else
      var init := candidates[..|candidates| - 1];
      var rest := SuccessIndices(init, fetch);
      assert forall n :: 0 <= n < |rest| ==> candidates[rest[n]] == init[rest[n]];
      if fetch(candidates[|candidates| - 1]).Some? then rest + [|candidates| - 1] else rest
  }

  /** The collected records are exactly the values of the successful fetches,
      in the order of their candidates: an order-preserving selection with
      no `None` in it. */
  lemma {:induction false} CollectedIsOrderedSelection<P, R>(candidates: seq<P>, fetch: P -> Option<R>)
    ensures |Collected(candidates, fetch)| == |SuccessIndices(candidates, fetch)|
    ensures forall n :: 0 <= n < |Collected(candidates, fetch)| ==>
              Collected(candidates, fetch)[n] == fetch(candidates[SuccessIndices(candidates, fetch)[n]]).value
  {
    if candidates != [] {
      var init := candidates[..|candidates| - 1];
      CollectedIsOrderedSelection(init, fetch);
      var rs, ix := Collected(init, fetch), SuccessIndices(init, fetch);
      var rs', ix' := Collected(candidates, fetch), SuccessIndices(candidates, fetch);
      forall n | 0 <= n < |rs'|
        ensures rs'[n] == fetch(candidates[ix'[n]]).value
      {
        if n < |rs| {
          assert rs'[n] == rs[n] && ix'[n] == ix[n];
          assert candidates[ix[n]] == init[ix[n]];
        }
      }
    }
  }

  /** Collecting over two runs of candidates one after the other collects
      over each and concatenates. */
  lemma {:induction false} CollectedAppend<P, R>(a: seq<P>, b: seq<P>, fetch: P -> Option<R>)
    ensures Collected(a + b, fetch) == Collected(a, fetch) + Collected(b, fetch)
    decreases |b|
  {
    if b != [] {
      var b' := b[..|b| - 1];
      assert (a + b)[..|a + b| - 1] == a + b';
      CollectedAppend(a, b', fetch);
    } else {
      assert a + b == a;
    }
  }

  /** When every fetch succeeds, every candidate gives its record, in order. */
  lemma {:induction false} AllFetchesSucceed<P, R>(candidates: seq<P>, fetch: P -> Option<R>)
    requires forall k :: 0 <= k < |candidates| ==> fetch(candidates[k]).Some?
    ensures |Collected(candidates, fetch)| == |candidates|
    ensures forall k :: 0 <= k < |candidates| ==>
              Collected(candidates, fetch)[k] == fetch(candidates[k]).value
  {
    if candidates != [] {
      var init := candidates[..|candidates| - 1];
      AllFetchesSucceed(init, fetch);
    }
  }

  /** One failing candidate among successful ones is left out and nothing
      else is lost: the others' records appear, in order. */
  lemma OneFailureOmitted<P, R>(candidates: seq<P>, j: nat, fetch: P -> Option<R>)
    requires j < |candidates| && fetch(candidates[j]).None?
    requires forall k :: 0 <= k < |candidates| && k != j ==> fetch(candidates[k]).Some?
    ensures Collected(candidates, fetch) ==
              Collected(candidates[..j], fetch) + Collected(candidates[j + 1..], fetch)
    ensures |Collected(candidates, fetch)| == |candidates| - 1
  {
    var before, after := candidates[..j], candidates[j + 1..];
    assert candidates == before + [candidates[j]] + after;
    CollectedAppend(before + [candidates[j]], after, fetch);
    CollectedAppend(before, [candidates[j]], fetch);
    assert Collected([candidates[j]], fetch) == [];
    AllFetchesSucceed(before, fetch);
    AllFetchesSucceed(after, fetch);
  }

  /** The loop over `places_result['results'][:max_resultados]`: fetch each
      candidate's details and append the record when there is one. */
  method CollectBusinesses<P, R>(results: seq<P>, maxResultados: nat, fetch: P -> Option<R>)
    returns (businesses: seq<R>)
    ensures businesses == Collected(Take(results, maxResultados), fetch)
    ensures |businesses| <= maxResultados
  {
    businesses := [];
    var candidates := Take(results, maxResultados);
    for i := 0 to |candidates|
      invariant businesses == Collected(candidates[..i], fetch)
    {
      var details := fetch(candidates[i]);
      assert candidates[..i + 1][..i] == candidates[..i];
      if details.Some? {
        businesses := businesses + [details.value];
      }
    }
    assert candidates[..|candidates|] == candidates;
  }

  /** How a search run ends, one case per message the operator sees. */
  datatype SearchOutcome<R> =
    | SearchFailed          // a provider call raised: "Error durante la búsqueda"
    | LocationNotFound      // the geocoder found nothing for the zone
    | NoPlacesFound         // the nearby search returned no results
    | NoBusinessesFound     // every detail fetch failed
    | Found(businesses: seq<R>)

  /** One press of the search button. `geocode` says whether the geocoder
      returned any candidate (or raised), `nearby` is the nearby search's
      result list (or the exception it raised); the nearby search is only
      consulted once the zone was located. */
  method RunSearch<P, R>(geocode: Call<bool>, nearby: Call<seq<P>>, maxResultados: nat,
                         fetch: P -> Option<R>)
    returns (o: SearchOutcome<R>)
    ensures o == LocationNotFound <==> geocode == Returned(false)
    ensures o == SearchFailed <==> geocode.Raised? || (geocode == Returned(true) && nearby.Raised?)
    ensures o == NoPlacesFound <==> geocode == Returned(true) && nearby == Returned([])
    ensures o.Found? ==> o.businesses != [] && |o.businesses| <= maxResultados
    ensures geocode == Returned(true) && nearby.Returned? && nearby.value != [] ==>
              var collected := Collected(Take(nearby.value, maxResultados), fetch);
              o == if collected == [] then NoBusinessesFound else Found(collected)
  {
    match geocode
    case Raised =>
      o := SearchFailed;
    case Returned(located) =>
      if !located {
        o := LocationNotFound;
      } else {
        match nearby
        case Raised =>
          o := SearchFailed;
        case Returned(results) =>
          if results == [] {
            o := NoPlacesFound;
          } else {
            var businesses := CollectBusinesses(results, maxResultados, fetch);
            o := if businesses == [] then NoBusinessesFound else Found(businesses);
          }
      }
  }

  /** A fetch that never succeeds collects nothing. */
  lemma {:induction false} NothingCollected<P, R>(candidates: seq<P>, fetch: P -> Option<R>)
    requires forall c :: fetch(c).None?
    ensures Collected(candidates, fetch) == []
  {
    if candidates != [] {
      NothingCollected(candidates[..|candidates| - 1], fetch);
    }
  }

  /** With `get_business_details` as written, a search that reaches the loop
      always ends in "no businesses found", however the providers answer. */
  lemma AsWrittenSearchFindsNothing<P>(candidates: seq<P>, reply: P -> Option<PlaceResult>,
                                       response: P -> Option<string>)
    ensures Collected(candidates, c => BusinessDetailsAsWritten(reply(c), response(c))) == []
  {
    NothingCollected(candidates, c => BusinessDetailsAsWritten(reply(c), response(c)));
  }

  /** With the e-mail extractor in place, every candidate the provider answers
      for gives a row. */
  lemma CorrectedSearchKeepsAnswered<P>(candidates: seq<P>, reply: P -> Option<PlaceResult>,
                                        response: P -> Option<string>,
                                        extractEmails: string -> seq<string>)
    requires forall k :: 0 <= k < |candidates| ==> reply(candidates[k]).Some?
    ensures |Collected(candidates, c => BusinessDetails(reply(c), response(c), extractEmails))| == |candidates|
  {
    AllFetchesSucceed(candidates, c => BusinessDetails(reply(c), response(c), extractEmails));
  }
}
