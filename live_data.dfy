/**
 * The process-wide snapshot store `liveData = { matches, odds }` and the three
 * operations on it: the matches tick, the odds tick and the odds query, plus the
 * greeting a newly connected subscriber receives. Upstream replies are parameters;
 * broadcasts are recorded in a ghost event log.
 */
module LiveStore {
  import opened Wrappers
  import opened Feed
  import opened OddsTick
  import opened OddsQuery

  /** A broadcast to every connected subscriber. */
  datatype Event = UpdateMatches(matches: seq<Match>) | UpdateOdds(odds: OddsMap)

  class LiveData {
    var matches: seq<Match>
    var odds: OddsMap
    /** Every broadcast so far, oldest first. */
    ghost var events: seq<Event>

    constructor ()
      ensures matches == [] && odds == map[] && events == []
    {
      matches := [];
      odds := map[];
      events := [];
    }

    /**
     * Matches tick: a reply without a body or without `data` (or no reply at all) is
     * rejected and changes nothing; otherwise the matches are replaced wholesale by the
     * projected list and broadcast. The odds are never touched.
     */
    method FetchOngoingMatches(reply: MatchListReply)
      modifies this
      ensures odds == old(odds)
      ensures match MatchListData(reply)
        case Some(data) =>
          && matches == ProjectAll(data)
          && events == old(events) + [UpdateMatches(matches)]
        case None =>
          && matches == old(matches)
          && events == old(events)
    {
      var data := MatchListData(reply);
      if data.None? {
        return;
      }
      matches := ProjectAll(data.value);
      events := events + [UpdateMatches(matches)];
    }

    /**
     * Odds tick: replies[i] is the reply to the request for the i-th match's marketId.
     * With no matches nothing happens. Otherwise the markets are visited in order, each
     * result is upserted, the first failing request ends the tick with the writes made
     * so far in place, and only a tick that visited every market broadcasts the map.
     */
    method FetchOdds(replies: seq<MarketReply>)
      requires |replies| == |matches|
      modifies this
      ensures matches == old(matches)
      ensures |old(matches)| == 0 ==> odds == old(odds) && events == old(events)
      ensures var out := Run(old(odds), old(matches), MarketIds(old(matches)), replies);
        && odds == out.odds
        && events == old(events) + (if |old(matches)| > 0 && out.Completed? then [UpdateOdds(odds)] else [])
    {
      var marketIds := MarketIds(matches);
      if |marketIds| == 0 {
        return;
      }
      var i := 0;
      while i < |marketIds|
        invariant 0 <= i <= |marketIds|
        invariant matches == old(matches) && events == old(events)
        invariant Run(old(odds), matches, marketIds[..i], replies[..i]) == Completed(odds)
      {
        var marketId := marketIds[i];
        match replies[i] {
          case Fail =>
            RunAbortsAt(old(odds), matches, marketIds, replies, i);
            return;
          case NoResult =>
            RunExtend(old(odds), matches, marketIds, replies, i, odds);
          case Result(res) =>
            RunExtend(old(odds), matches, marketIds, replies, i, odds);
            odds := odds[marketId := BuildEntry(matches, marketId, res)];
        }
        i := i + 1;
      }
      assert marketIds[..i] == marketIds && replies[..i] == replies;
      events := events + [UpdateOdds(odds)];
    }

    /** The `/api/odds` handler: a read of the current odds that changes nothing. */
    method QueryOdds(marketId: Option<string>) returns (resp: Response)
      ensures resp == Answer(odds, marketId)
    {
      resp := Answer(odds, marketId);
    }

    /** What a newly connected subscriber is sent at once: the current matches, then the current odds. */
    method Connect() returns (greeting: seq<Event>)
      ensures greeting == [UpdateMatches(matches), UpdateOdds(odds)]
    {
      greeting := [UpdateMatches(matches), UpdateOdds(odds)];
    }
  }
}
