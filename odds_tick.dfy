/**
 * The odds tick as a specification: a left-to-right fold over the marketIds and their
 * replies that upserts one entry per `result`, and stops at the first failing request
 * with every write made so far kept in place.
 */
module OddsTick {
  import opened Wrappers
  import opened Feed

  type OddsMap = map<string, OddsEntry>

  /** How a tick ended: every request answered, or aborted by the request at index `at`. */
  datatype TickOutcome = Completed(odds: OddsMap) | Aborted(odds: OddsMap, at: nat)

  /** The entry stored under key x, if any. */
  function Get(odds: OddsMap, x: string): Option<OddsEntry>
  {
    if x in odds then Some(odds[x]) else None
  }

  /** One iteration of the loop: None when the request throws, otherwise the updated map. */
  function Step(odds: OddsMap, lookup: seq<Match>, id: string, reply: MarketReply): Option<OddsMap>
  {
    match reply
    case Fail => None
    case NoResult => Some(odds)
    case Result(res) => Some(odds[id := BuildEntry(lookup, id, res)])
  }

  /** The whole loop over ids, replies[i] being the reply to the request for ids[i]. */
  function Run(odds: OddsMap, lookup: seq<Match>, ids: seq<string>, replies: seq<MarketReply>): (out: TickOutcome)
    requires |ids| == |replies|
    ensures out.Aborted? ==> out.at < |ids|
    decreases |ids|
  {
    if |ids| == 0 then Completed(odds)
    else
      var n := |ids| - 1;
      match Run(odds, lookup, ids[..n], replies[..n])
      case Aborted(o, k) => Aborted(o, k)
      case Completed(o) =>
        match Step(o, lookup, ids[n], replies[n])
        case None => Aborted(o, n)
        case Some(o') => Completed(o')
  }

  /** A tick completes exactly when no request fails, and otherwise aborts at its first failing request. */
  lemma {:induction false} RunFailsFirst(odds: OddsMap, lookup: seq<Match>, ids: seq<string>, replies: seq<MarketReply>)
    requires |ids| == |replies|
    ensures var out := Run(odds, lookup, ids, replies);
      && (out.Completed? <==> forall j :: 0 <= j < |replies| ==> !replies[j].Fail?)
      && (out.Aborted? ==>
        && replies[out.at].Fail?
        && forall j :: 0 <= j < out.at ==> !replies[j].Fail?)
  {
    if |ids| > 0 {
      var n := |ids| - 1;
      RunFailsFirst(odds, lookup, ids[..n], replies[..n]);
      assert forall j :: 0 <= j < n ==> replies[..n][j] == replies[j];
    }
  }

  /** The number of requests whose outcome reached the map. */
  function Processed(out: TickOutcome, total: nat): nat
  {
    if out.Aborted? then out.at else total
  }

  /** Request j writes key x. */
  predicate WritesAt(ids: seq<string>, replies: seq<MarketReply>, x: string, j: int)
    requires |ids| == |replies|
  {
    0 <= j < |ids| && ids[j] == x && replies[j].Result?
  }

  /** The last of the first n requests that writes key x, if any. */
  function LastResult(ids: seq<string>, replies: seq<MarketReply>, x: string, n: nat): (r: Option<nat>)
    requires |ids| == |replies| && n <= |ids|
    ensures r.Some? ==>
      && r.value < n
      && WritesAt(ids, replies, x, r.value)
      && forall j :: r.value < j < n ==> !WritesAt(ids, replies, x, j)
    ensures r.None? ==> forall j :: 0 <= j < n ==> !WritesAt(ids, replies, x, j)
  {
    if n == 0 then None
    else if WritesAt(ids, replies, x, n - 1) then Some(n - 1)
    else LastResult(ids, replies, x, n - 1)
  }

  /** What key x holds after the first n requests: the last written entry, or what it held before. */
  function Expected(odds: OddsMap, lookup: seq<Match>, ids: seq<string>, replies: seq<MarketReply>, x: string, n: nat): Option<OddsEntry>
    requires |ids| == |replies| && n <= |ids|
  {
    match LastResult(ids, replies, x, n)
    case Some(j) => Some(BuildEntry(lookup, x, replies[j].result))
    case None => Get(odds, x)
  }

  lemma {:induction false} LastResultPrefix(ids: seq<string>, replies: seq<MarketReply>, x: string, n: nat, m: nat)
    requires |ids| == |replies| && m <= n <= |ids|
    ensures LastResult(ids[..n], replies[..n], x, m) == LastResult(ids, replies, x, m)
  {
    if m > 0 {
      LastResultPrefix(ids, replies, x, n, m - 1);
    }
  }

  /** Key by key, the map a tick leaves is the last entry written for that key, or its old value. */
  lemma {:induction false} RunAt(odds: OddsMap, lookup: seq<Match>, ids: seq<string>, replies: seq<MarketReply>, x: string)
    requires |ids| == |replies|
    ensures var out := Run(odds, lookup, ids, replies);
      Processed(out, |ids|) <= |ids| &&
      Get(out.odds, x) == Expected(odds, lookup, ids, replies, x, Processed(out, |ids|))
  {
    if |ids| > 0 {
      var n := |ids| - 1;
      var out := Run(odds, lookup, ids, replies);
      var prev := Run(odds, lookup, ids[..n], replies[..n]);
      RunAt(odds, lookup, ids[..n], replies[..n], x);
      LastResultPrefix(ids, replies, x, n, Processed(prev, n));
      if prev.Aborted? {
        assert out == prev;
      } else if replies[n].Fail? {
        assert out == Aborted(prev.odds, n);
      } else if replies[n].NoResult? {
        assert out == Completed(prev.odds);
        assert !WritesAt(ids, replies, x, n);
      } else {
        assert out == Completed(prev.odds[ids[n] := BuildEntry(lookup, ids[n], replies[n].result)]);
        if ids[n] != x {
          assert !WritesAt(ids, replies, x, n);
        }
      }
    }
  }

  /** One more successful request extends a completed tick by one Step. */
  lemma RunExtend(odds: OddsMap, lookup: seq<Match>, ids: seq<string>, replies: seq<MarketReply>, i: nat, o: OddsMap)
    requires |ids| == |replies| && i < |ids| && !replies[i].Fail?
    requires Run(odds, lookup, ids[..i], replies[..i]) == Completed(o)
    ensures Step(o, lookup, ids[i], replies[i]).Some?
    ensures Run(odds, lookup, ids[..i + 1], replies[..i + 1]) == Completed(Step(o, lookup, ids[i], replies[i]).value)
  {
    assert ids[..i + 1][..i] == ids[..i];
    assert replies[..i + 1][..i] == replies[..i];
  }

  /** An aborted tick leaves exactly what a completed tick over the markets before the failing one leaves. */
  lemma {:induction false} RunAbortedIsPrefix(odds: OddsMap, lookup: seq<Match>, ids: seq<string>, replies: seq<MarketReply>)
    requires |ids| == |replies|
    ensures var out := Run(odds, lookup, ids, replies);
      out.Aborted? ==> Run(odds, lookup, ids[..out.at], replies[..out.at]) == Completed(out.odds)
  {
    if |ids| > 0 {
      var n := |ids| - 1;
      RunAbortedIsPrefix(odds, lookup, ids[..n], replies[..n]);
      var out := Run(odds, lookup, ids, replies);
      var prev := Run(odds, lookup, ids[..n], replies[..n]);
      if prev.Aborted? {
        assert out == prev;
        assert ids[..n][..prev.at] == ids[..prev.at];
        assert replies[..n][..prev.at] == replies[..prev.at];
      } else if replies[n].Fail? {
        assert out == Aborted(prev.odds, n);
      }
    }
  }

  /** A tick whose first i requests complete and whose next one fails aborts at i with the map the first i built. */
  lemma RunAbortsAt(odds: OddsMap, lookup: seq<Match>, ids: seq<string>, replies: seq<MarketReply>, i: nat)
    requires |ids| == |replies| && i < |ids| && replies[i].Fail?
    requires Run(odds, lookup, ids[..i], replies[..i]).Completed?
    ensures Run(odds, lookup, ids, replies) == Aborted(Run(odds, lookup, ids[..i], replies[..i]).odds, i)
  {
    RunFailsFirst(odds, lookup, ids[..i], replies[..i]);
    assert forall j :: 0 <= j < i ==> replies[..i][j] == replies[j];
    RunFailsFirst(odds, lookup, ids, replies);
    RunAbortedIsPrefix(odds, lookup, ids, replies);
  }

  /**
   * On an aborted tick, a key that no request before the failing one wrote keeps its
   * old value (or stays absent): the markets from the failing one onward are untouched.
   */
  lemma RunAbortedUntouched(odds: OddsMap, lookup: seq<Match>, ids: seq<string>, replies: seq<MarketReply>, x: string)
    requires |ids| == |replies|
    requires Run(odds, lookup, ids, replies).Aborted?
    requires forall j :: 0 <= j < Run(odds, lookup, ids, replies).at ==> !WritesAt(ids, replies, x, j)
    ensures Get(Run(odds, lookup, ids, replies).odds, x) == Get(odds, x)
  {
    RunAt(odds, lookup, ids, replies, x);
  }

  /** When a key is written several times, the last processed write wins. */
  lemma RunLastWriteWins(odds: OddsMap, lookup: seq<Match>, ids: seq<string>, replies: seq<MarketReply>, n: nat, j: nat)
    requires |ids| == |replies|
    requires n == Processed(Run(odds, lookup, ids, replies), |ids|)
    requires j < n
    requires WritesAt(ids, replies, ids[j], j)
    requires forall l :: j < l < n ==> !WritesAt(ids, replies, ids[j], l)
    ensures ids[j] in Run(odds, lookup, ids, replies).odds
    ensures Run(odds, lookup, ids, replies).odds[ids[j]] == BuildEntry(lookup, ids[j], replies[j].result)
  {
    RunAt(odds, lookup, ids, replies, ids[j]);
    assert LastResult(ids, replies, ids[j], n) == Some(j);
  }

  /** A later write to the same key that an abort keeps from being sent does not displace the earlier one. */
  lemma AbortedLastWriteExample(r: OddsResult, r2: OddsResult)
    ensures var out := Run(map[], [], ["a", "b", "a"], [Result(r), Fail, Result(r2)]);
      out.Aborted? && out.at == 1 && "a" in out.odds && out.odds["a"] == BuildEntry([], "a", r)
  {
    RunLastWriteWins(map[], [], ["a", "b", "a"], [Result(r), Fail, Result(r2)], 1, 0);
  }

  /**
   * No key is ever removed: the keys after a tick are the old keys plus the marketIds
   * whose request returned a result before any failure.
   */
  lemma {:induction false} RunKeys(odds: OddsMap, lookup: seq<Match>, ids: seq<string>, replies: seq<MarketReply>)
    requires |ids| == |replies|
    ensures var out := Run(odds, lookup, ids, replies);
      var n := Processed(out, |ids|);
      n <= |ids| &&
      out.odds.Keys == odds.Keys + (set j | 0 <= j < n && replies[j].Result? :: ids[j])
  {
    var out := Run(odds, lookup, ids, replies);
    var n := Processed(out, |ids|);
    RunAt(odds, lookup, ids, replies, "");
    var written := set j | 0 <= j < n && replies[j].Result? :: ids[j];
    forall x
      ensures x in out.odds <==> x in odds || x in written
    {
      RunAt(odds, lookup, ids, replies, x);
      if x in written {
        var j :| 0 <= j < n && replies[j].Result? && ids[j] == x;
        assert WritesAt(ids, replies, x, j);
      }
    }
  }

  /** Two maps that agree on every key are equal. */
  lemma MapsAgree(a: OddsMap, b: OddsMap)
    requires forall x :: Get(a, x) == Get(b, x)
    ensures a == b
  {
    assert forall x :: x in a <==> x in b by {
      forall x ensures x in a <==> x in b { assert Get(a, x).Some? == Get(b, x).Some?; }
    }
    forall x | x in a ensures a[x] == b[x] { assert Get(a, x) == Get(b, x); }
  }

  /** Re-running a tick with identical replies changes nothing further. */
  lemma RunIdempotent(odds: OddsMap, lookup: seq<Match>, ids: seq<string>, replies: seq<MarketReply>)
    requires |ids| == |replies|
    ensures var out := Run(odds, lookup, ids, replies);
      Run(out.odds, lookup, ids, replies) == out
  {
    var out := Run(odds, lookup, ids, replies);
    var again := Run(out.odds, lookup, ids, replies);
    RunFailsFirst(odds, lookup, ids, replies);
    RunFailsFirst(out.odds, lookup, ids, replies);
    assert Processed(again, |ids|) == Processed(out, |ids|) by {
      if out.Aborted? && again.Aborted? && out.at != again.at {
        assert false;
      }
    }
    forall x ensures Get(again.odds, x) == Get(out.odds, x) {
      RunAt(odds, lookup, ids, replies, x);
      RunAt(out.odds, lookup, ids, replies, x);
    }
    MapsAgree(again.odds, out.odds);
  }

  /**
   * Every market whose request returned a result is stored under the name of the
   * first match with that marketId.
   */
  lemma RunNamesFromMatches(odds: OddsMap, ms: seq<Match>, replies: seq<MarketReply>, k: nat)
    requires |ms| == |replies|
    requires k < Processed(Run(odds, ms, MarketIds(ms), replies), |ms|)
    requires replies[k].Result?
    ensures ms[k].marketId in Run(odds, ms, MarketIds(ms), replies).odds
    ensures forall f :: FirstWith(ms, ms[k].marketId, f) ==>
      Run(odds, ms, MarketIds(ms), replies).odds[ms[k].marketId].matchName == ms[f].matchName
  {
    var ids := MarketIds(ms);
    RunAt(odds, ms, ids, replies, ms[k].marketId);
    assert WritesAt(ids, replies, ms[k].marketId, k);
    var j := LastResult(ids, replies, ms[k].marketId, Processed(Run(odds, ms, ids, replies), |ms|)).value;
    BuildEntryFields(ms, ms[k].marketId, replies[j].result);
  }
}
