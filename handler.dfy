/** The stream handler of index.js: the request id split into the IMDb id and
    the optional season and episode, and the `respondStreams` guard that lets
    the first of the search's end callback and the response timeout answer
    the request, and no later call. */
module Handler {
  import opened JsValues
  import opened Torznab
  import opened Ranking
  import opened Streams

  /** The configuration values the handler reads. */
  datatype Config = Config(minimumSeeds: Option<int>, maximumResults: Option<int>, dhtEnabled: Option<string>)

  /** What the metadata service returns for a title. */
  datatype Meta = Meta(name: string, year: Option<int>)

  /** The state of the promise the handler returns. `AwaitingDrain` is the
      state after ranking left no task for the queue: whether the queue's drain
      callback then resolves the promise is up to the queue library.
      `Stalled` is the state after `parseTorrent` threw inside the queue
      worker: the task never calls back, `drain` never runs and the promise
      stays unsettled. */
  datatype Response = Pending | AwaitingDrain | Stalled | Resolved(streams: seq<Stream>)

  /** `args.id.split(':')`, or `None` when the id is missing or empty and the
      request is rejected. */
  function IdParts(id: Option<string>): (parts: Option<seq<string>>)
    ensures parts.None? <==> !Truthy(id)
    ensures parts.Some? ==> |parts.value| >= 1 && Join(parts.value, ':') == id.value
    ensures parts.Some? ==> forall i :: 0 <= i < |parts.value| ==> ':' !in parts.value[i]
  {
    if Truthy(id) then JoinSplit(id.value, ':'); Some(Split(id.value, ':')) else None
  }

  /** The search query: name and year from the metadata, the request type,
      and season and episode only when the id had exactly three parts. */
  function SearchQuery(parts: seq<string>, meta: Meta, kind: string): (q: Query)
    requires |parts| >= 1
    ensures q.name == meta.name && q.year == meta.year && q.kind == Some(kind)
    ensures q.season.Some? <==> |parts| == 3
    ensures q.episode.Some? <==> |parts| == 3
    ensures |parts| == 3 ==> q.season == Some(parts[1]) && q.episode == Some(parts[2])
  {
    if |parts| == 3 then Query(meta.name, meta.year, Some(kind), Some(parts[1]), Some(parts[2]))
    else Query(meta.name, meta.year, Some(kind), None, None)
  }

  /** An episode id "tt:season:episode" gives back its three parts; a plain
      IMDb id gives a query without season or episode. */
  lemma EpisodeIdRoundTrip(imdb: string, season: string, episode: string, meta: Meta, kind: string)
    requires ':' !in imdb && ':' !in season && ':' !in episode && imdb != ""
    ensures IdParts(Some(imdb + ":" + season + ":" + episode)) == Some([imdb, season, episode])
    ensures IdParts(Some(imdb)) == Some([imdb])
    ensures SearchQuery([imdb], meta, kind).season.None?
  {
    var parts := [imdb, season, episode];
    assert Join(parts, ':') == imdb + ":" + season + ":" + episode by {
      assert Join(parts[1..], ':') == season + [':'] + Join(parts[2..], ':');
    }
    SplitJoin(parts, ':');
    SplitWithoutSeparator(imdb, ':');
  }

  /** What `respondStreams` resolves the promise with for the results it sees. */
  function Answer(results: seq<Record>, kind: string, config: Config, r: Resolver): Response
  {
    if |results| == 0 then Resolved([])
    else
      var ranked := Rank(results, config.minimumSeeds, config.maximumResults);
      var run := Queue(ranked, kind, config.dhtEnabled, r);
      if |ranked| == 0 then AwaitingDrain
      else if run.drained then Resolved(run.streams)
      else Stalled
  }

  /** The answer never has more streams than records, nor more than the
      configured maximum, and every stream has a lower-case info hash; the
      promise stalls exactly when a ranked record's `parseTorrent` throws. */
  lemma AnswerBounds(results: seq<Record>, kind: string, config: Config, r: Resolver)
    ensures Answer(results, kind, config, r).Resolved? ==>
      var streams := Answer(results, kind, config, r).streams;
      && |streams| <= |results|
      && (Configured(config.maximumResults) && config.maximumResults.value > 0 ==> |streams| <= config.maximumResults.value)
      && forall s :: s in streams ==> NoUpper(s.infoHash) && s.kind == kind
    ensures Answer(results, kind, config, r).Stalled? <==>
      exists rec :: rec in Rank(results, config.minimumSeeds, config.maximumResults) && Throws(rec, kind, config.dhtEnabled, r)
  {
    var ranked := Rank(results, config.minimumSeeds, config.maximumResults);
    if |results| > 0 {
      RankProperties(results, config.minimumSeeds, config.maximumResults);
      QueueProperties(ranked, kind, config.dhtEnabled, r);
      var finished := ranked[..FirstThrow(ranked, kind, config.dhtEnabled, r)];
      StreamsForProperties(finished, kind, config.dhtEnabled, r);
      assert |multiset(ranked)| <= |multiset(results)| by {
        MultisetSubsetSize(multiset(ranked), multiset(results));
      }
    }
  }

  lemma {:induction false} MultisetSubsetSize(a: multiset<Record>, b: multiset<Record>)
    requires a <= b
    ensures |a| <= |b|
    decreases |a|
  {
    if a != multiset{} {
      var x :| x in a;
      MultisetSubsetSize(a - multiset{x}, b - multiset{x});
    }
  }

  /** One stream request: the records gathered so far, the `sentResponse`
      flag, and the promise. */
  class StreamHandler {
    const kind: string
    const config: Config
    const resolver: Resolver
    var results: seq<Record>
    var sentResponse: bool
    var response: Response

    constructor (kind: string, config: Config, resolver: Resolver)
      ensures this.kind == kind && this.config == config && this.resolver == resolver
      ensures results == [] && !sentResponse && response == Pending
    {
      this.kind := kind;
      this.config := config;
      this.resolver := resolver;
      results := [];
      sentResponse := false;
      response := Pending;
    }

    /** The partial callback: appends an indexer's records. */
    method OnPartial(batch: seq<Record>)
      modifies this
      ensures results == old(results) + batch
      ensures sentResponse == old(sentResponse) && response == old(response)
    {
      results := results + batch;
    }

    /** `respondStreams`: the first call ranks the records, runs the queue and
      answers; every later call returns without effect. */
    method RespondStreams()
      modifies this
      ensures sentResponse && results == old(results)
      ensures old(sentResponse) ==> response == old(response)
      ensures !old(sentResponse) ==> response == Answer(results, kind, config, resolver)
    {
      if sentResponse {
        return;
      }
      sentResponse := true;
      if |results| > 0 {
        var ranked := Rank(results, config.minimumSeeds, config.maximumResults);
        var streams, drained := ProcessQueue(ranked, kind, config.dhtEnabled, resolver);
        if |ranked| == 0 {
          response := AwaitingDrain;
        } else if drained {
          response := Resolved(streams);
        } else {
          response := Stalled;
        }
      } else {
        response := Resolved([]);
      }
    }

    /** The end callback: replaces the records with the search's final list,
      then responds. */
    method OnEnd(all: seq<Record>)
      modifies this
      ensures results == all && sentResponse
      ensures old(sentResponse) ==> response == old(response)
      ensures !old(sentResponse) ==> response == Answer(all, kind, config, resolver)
    {
      results := all;
      RespondStreams();
    }

    /** The response timeout: responds with whatever has been gathered. */
    method OnTimeout()
      modifies this
      ensures results == old(results) && sentResponse
      ensures old(sentResponse) ==> response == old(response)
      ensures !old(sentResponse) ==> response == Answer(results, kind, config, resolver)
    {
      RespondStreams();
    }
  }

  /** Feeds the search's partial callbacks to the handler in order: every
      batch is appended, so the handler ends up holding exactly the records the
      search delivered, in the order it delivered them. */
  method DeliverPartials(h: StreamHandler, events: seq<Event>)
    modifies h
    ensures h.results == old(h.results) + Delivered(events)
    ensures h.sentResponse == old(h.sentResponse) && h.response == old(h.response)
  {
    var i := 0;
    while i < |events|
      invariant 0 <= i <= |events|
      invariant h.results == old(h.results) + Delivered(events[..i])
      invariant h.sentResponse == old(h.sentResponse) && h.response == old(h.response)
    {
      assert events[..i + 1][..i] == events[..i];
      if events[i].Partial? {
        h.OnPartial(events[i].records);
      }
      i := i + 1;
    }
    assert events[..i] == events;
  }

  /** Whichever of the end callback and the timeout fires first decides the
      answer; the other finds the flag set and changes nothing. */
  method FirstCallerWins(h: StreamHandler, all: seq<Record>, timeoutFirst: bool)
    requires !h.sentResponse
    modifies h
    ensures h.sentResponse
    ensures h.response == Answer(if timeoutFirst then old(h.results) else all, h.kind, h.config, h.resolver)
  {
    if timeoutFirst {
      h.OnTimeout();
      h.OnEnd(all);
    } else {
      h.OnEnd(all);
      h.OnTimeout();
    }
  }
}
