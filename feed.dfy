/**
 * The records the two pollers receive and the records they store: raw upstream
 * matches, the projected Match kept in the snapshot, and the OddsEntry kept per
 * marketId, together with the pure helpers the pollers use to build them.
 */
module Feed {
  import opened Wrappers

  /** One element of the match-list reply; `extra` holds every upstream field the projection drops. */
  datatype RawMatch = RawMatch(
    eventId: string,
    matchName: string,
    matchDate: string,
    marketId: string,
    scoreIframe: string,
    extra: map<string, string>)

  /** A match as the snapshot stores it. */
  datatype Match = Match(
    eventId: string,
    matchName: string,
    matchDate: string,
    marketId: string,
    scoreIframe: string)

  /** One row of an odds table (a JSON object of the odds provider). */
  datatype Row = Row(fields: map<string, string>)

  /** The odds stored for one market. */
  datatype OddsEntry = OddsEntry(
    matchName: string,
    matchOdds: seq<Row>,
    fancyMarkets: seq<Row>,
    commissionFancy: seq<Row>,
    noCommissionFancy: seq<Row>)

  /** The body of a match-list reply; `data` is absent when the provider sent none. */
  datatype MatchListBody = MatchListBody(data: Option<seq<RawMatch>>)

  /** What the match-list request produced: a transport failure, or a reply whose body may be missing. */
  datatype MatchListReply = Unreachable | Received(body: Option<MatchListBody>)

  /** The `result` object of an odds reply; each table may be missing. */
  datatype OddsResult = OddsResult(
    teamData: Option<seq<Row>>,
    session: Option<seq<Row>>,
    commissionFancyData: Option<seq<Row>>,
    noCommissionFancyData: Option<seq<Row>>)

  /**
   * What one per-market odds request produced: a failure (a transport error, or a null
   * or undefined body, whose `.result` read throws), a reply whose `result` is missing
   * (including a body such as an empty string, on which `.result` is undefined), or a result.
   */
  datatype MarketReply = Fail | NoResult | Result(result: OddsResult)

  /** The raw matches of a reply, or None when the reply is to be rejected. */
  function MatchListData(reply: MatchListReply): (r: Option<seq<RawMatch>>)
    ensures r.None? <==> reply.Unreachable? || reply.body.None? || reply.body.value.data.None?
    ensures r.Some? ==> r.value == reply.body.value.data.value
  {
    match reply
    case Unreachable => None
    case Received(body) => if body.Some? then body.value.data else None
  }

  /** Field-by-field projection of one raw match. */
  function Project(r: RawMatch): Match
  {
    Match(r.eventId, r.matchName, r.matchDate, r.marketId, r.scoreIframe)
  }

  /** The projection of a whole match list, element by element and in order. */
  function ProjectAll(rs: seq<RawMatch>): (ms: seq<Match>)
    ensures |ms| == |rs|
    ensures forall i :: 0 <= i < |rs| ==>
      && ms[i].eventId == rs[i].eventId
      && ms[i].matchName == rs[i].matchName
      && ms[i].matchDate == rs[i].matchDate
      && ms[i].marketId == rs[i].marketId
      && ms[i].scoreIframe == rs[i].scoreIframe
  {
    if rs == [] then [] else [Project(rs[0])] + ProjectAll(rs[1..])
  }

  /** The marketId of every match, in match order (duplicates kept). */
  function MarketIds(ms: seq<Match>): (ids: seq<string>)
    ensures |ids| == |ms|
    ensures forall i :: 0 <= i < |ms| ==> ids[i] == ms[i].marketId
  {
    if ms == [] then [] else [ms[0].marketId] + MarketIds(ms[1..])
  }

  /** k is the index of the first match whose marketId is id. */
  predicate FirstWith(ms: seq<Match>, id: string, k: int)
  {
    && 0 <= k < |ms|
    && ms[k].marketId == id
    && forall j :: 0 <= j < k ==> ms[j].marketId != id
  }

  /** Linear search for the first match with marketId id (Array.prototype.find). */
  function FindByMarket(ms: seq<Match>, id: string): (r: Option<Match>)
    ensures r.None? <==> forall k :: 0 <= k < |ms| ==> ms[k].marketId != id
    ensures r.Some? ==> r.value in ms && r.value.marketId == id
    ensures forall k :: FirstWith(ms, id, k) ==> r == Some(ms[k])
  {
    if ms == [] then None
    else if ms[0].marketId == id then Some(ms[0])
    else
      assert forall k :: FirstWith(ms, id, k) ==> k > 0 && FirstWith(ms[1..], id, k - 1);
      FindByMarket(ms[1..], id)
  }

  /** The fallback label for a market that no match names. */
  function MarketLabel(id: string): string
  {
    "Market " + id
  }

  /** The entry written for market id. */
  function BuildEntry(lookup: seq<Match>, id: string, res: OddsResult): OddsEntry
  {
    var found := FindByMarket(lookup, id);
    var name := if found.Some? then found.value.matchName else MarketLabel(id);
    OddsEntry(
      name,
      res.teamData.GetOr([]),
      res.session.GetOr([]),
      res.commissionFancyData.GetOr([]),
      res.noCommissionFancyData.GetOr([]))
  }

  /**
   * The entry written for market id carries the name of the first match with that
   * marketId, or the fallback label, and each table of the result or [] when it is missing.
   */
  lemma BuildEntryFields(lookup: seq<Match>, id: string, res: OddsResult)
    ensures forall k :: FirstWith(lookup, id, k) ==> BuildEntry(lookup, id, res).matchName == lookup[k].matchName
    ensures (forall k :: 0 <= k < |lookup| ==> lookup[k].marketId != id) ==>
      BuildEntry(lookup, id, res).matchName == "Market " + id
    ensures BuildEntry(lookup, id, res).matchOdds == (if res.teamData.Some? then res.teamData.value else [])
    ensures BuildEntry(lookup, id, res).fancyMarkets == (if res.session.Some? then res.session.value else [])
    ensures BuildEntry(lookup, id, res).commissionFancy ==
      (if res.commissionFancyData.Some? then res.commissionFancyData.value else [])
    ensures BuildEntry(lookup, id, res).noCommissionFancy ==
      (if res.noCommissionFancyData.Some? then res.noCommissionFancyData.value else [])
  {
  }
}
