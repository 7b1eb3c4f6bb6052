/** The pull endpoint `/api/odds?market_id=<id>`: a point lookup in the odds map. */
module OddsQuery {
  import opened Wrappers
  import opened Feed
  import opened OddsTick

  const NotFoundMessage := "No odds available"

  datatype ResponseBody = EntryBody(entry: OddsEntry) | ErrorBody(error: string)

  /** An HTTP reply: a status code and a JSON body. */
  datatype Response = Response(status: nat, body: ResponseBody)

  /**
   * The reply to a query whose `market_id` parameter is marketId (None when the query
   * has no such parameter): the stored entry, or 404 with the fixed error body when
   * the parameter is missing or empty or no entry is stored for it.
   */
  function Answer(odds: OddsMap, marketId: Option<string>): (resp: Response)
    ensures resp.status == 200 <==> marketId.Some? && marketId.value != "" && marketId.value in odds
    ensures resp.status == 200 ==> resp.body == EntryBody(odds[marketId.value])
    ensures resp.status != 200 ==> resp == Response(404, ErrorBody("No odds available"))
  {
    if marketId.None? || marketId.value == "" || marketId.value !in odds then
      Response(404, ErrorBody(NotFoundMessage))
    else
      Response(200, EntryBody(odds[marketId.value]))
  }

  /**
   * After a tick, a query for a non-empty marketId returns the last entry the tick wrote
   * for it, else what was stored before the tick, else 404.
   */
  lemma AnswerAfterTick(odds: OddsMap, lookup: seq<Match>, ids: seq<string>, replies: seq<MarketReply>, x: string)
    requires |ids| == |replies| && x != ""
    ensures var out := Run(odds, lookup, ids, replies);
      var n := Processed(out, |ids|);
      n <= |ids| &&
      Answer(out.odds, Some(x)) ==
        match Expected(odds, lookup, ids, replies, x, n)
        case Some(e) => Response(200, EntryBody(e))
        case None => Response(404, ErrorBody("No odds available"))
  {
    RunAt(odds, lookup, ids, replies, x);
  }
}
