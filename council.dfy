/** The council vote of processCouncilQuery (worker/chat.ts:80-159). Four model roles each
    answer with a vote; the replies, the number of configured NIM clients and the buzz score
    read from the sentiment summary are inputs, since obtaining them is network I/O and a
    regular-expression match. The model covers what happens to the replies: confidences are
    adjusted by the buzz, labels are counted, and the consensus and its majority are derived. */
module Council {
  import opened Wrappers
  import opened TradingTypes
  import opened Numbers

  /** One reply. `vote` is the field of the parsed JSON, which the model may have filled
      with any text. */
  datatype Vote = Vote(model: string, role: string, vote: string, confidence: real, rationale: string)

  /** The roles of the council (lines 95-100): every query collects exactly one reply per role. */
  const CouncilSize: nat := 4

  /** The labels in the order the consensus loop scans them. */
  const Labels: seq<string> := ["buy", "sell", "hold"]

  /** The adjustment of one vote (lines 131-136): a buzz above 0.5 raises the confidence of a
      buy or sell vote by 10 % up to 100, a buzz below -0.5 lowers it by 10 % down to 0; hold
      votes, and every vote when the buzz is in between, keep their confidence. Nothing but the
      confidence changes. */
  function Adjust(v: Vote, buzz: real): (r: Vote)
    ensures r == v.(confidence := r.confidence)
    ensures v.vote == "hold" || (-0.5 <= buzz <= 0.5) ==> r == v
    ensures v.vote != "hold" && buzz > 0.5 ==> r.confidence == MinReal(100.0, v.confidence * 1.1)
    ensures v.vote != "hold" && buzz < -0.5 ==> r.confidence == MaxReal(0.0, v.confidence * 0.9)
  {
    if v.vote != "hold" then
      var c := if buzz > 0.5 then MinReal(100.0, v.confidence * 1.1) else v.confidence;
      var c' := if buzz < -0.5 then MaxReal(0.0, c * 0.9) else c;
      v.(confidence := c')
    else v
  }

  /** A confidence within 0..100 stays within 0..100, moving up with a bullish buzz and down
      with a bearish one. */
  lemma AdjustKeepsRange(v: Vote, buzz: real)
    requires 0.0 <= v.confidence <= 100.0
    ensures 0.0 <= Adjust(v, buzz).confidence <= 100.0
    ensures buzz > 0.5 ==> Adjust(v, buzz).confidence >= v.confidence
    ensures buzz < -0.5 ==> Adjust(v, buzz).confidence <= v.confidence
  {
  }

  /** `votes.forEach(v => { ... v.confidence = ... })`: every vote object is updated in place. */
  method AdjustConfidences(votes: array<Vote>, buzz: real)
    modifies votes
    ensures forall i :: 0 <= i < votes.Length ==> votes[i] == Adjust(old(votes[i]), buzz)
  {
    for i := 0 to votes.Length
      invariant forall k :: 0 <= k < i ==> votes[k] == Adjust(old(votes[k]), buzz)
      invariant forall k :: i <= k < votes.Length ==> votes[k] == old(votes[k])
    {
      var v := votes[i];
      if v.vote != "hold" {
        if buzz > 0.5 { v := v.(confidence := MinReal(100.0, v.confidence * 1.1)); }
        if buzz < -0.5 { v := v.(confidence := MaxReal(0.0, v.confidence * 0.9)); }
      }
      votes[i] := v;
    }
  }

  /** The number of votes for `choice`. */
  function Count(votes: seq<Vote>, choice: string): (n: nat)
    ensures n <= |votes|
  {
    if |votes| == 0 then 0
    else Count(votes[..|votes| - 1], choice) + (if votes[|votes| - 1].vote == choice then 1 else 0)
  }

  /** Adjusting the confidences leaves every count as it was. */
  lemma {:induction false} CountIgnoresConfidence(votes: seq<Vote>, adjusted: seq<Vote>, choice: string)
    requires |votes| == |adjusted| && forall i :: 0 <= i < |votes| ==> adjusted[i].vote == votes[i].vote
    ensures Count(adjusted, choice) == Count(votes, choice)
  {
    if |votes| > 0 {
      CountIgnoresConfidence(votes[..|votes| - 1], adjusted[..|adjusted| - 1], choice);
    }
  }

  /** Three different labels are counted at most once each per vote, and all votes are counted
      exactly when every vote is for one of the three. */
  lemma {:induction false} CountsAtMostVotes(votes: seq<Vote>, a: string, b: string, c: string)
    requires a != b && b != c && a != c
    ensures Count(votes, a) + Count(votes, b) + Count(votes, c) <= |votes|
    ensures Count(votes, a) + Count(votes, b) + Count(votes, c) == |votes| <==>
              forall i :: 0 <= i < |votes| ==> votes[i].vote in {a, b, c}
  {
    if |votes| > 0 {
      var init := votes[..|votes| - 1];
      CountsAtMostVotes(init, a, b, c);
      assert forall i :: 0 <= i < |init| ==> init[i] == votes[i];
      if Count(votes, a) + Count(votes, b) + Count(votes, c) == |votes| {
        assert Count(init, a) + Count(init, b) + Count(init, c) == |init|;
      }
    }
  }

  /** The `voteCounts` dictionary (lines 137-144): each buy, sell or hold vote increments exactly
      its own counter, and votes for anything else are skipped. */
  method TallyVotes(votes: seq<Vote>) returns (voteCounts: map<string, nat>)
    ensures voteCounts.Keys == {"buy", "sell", "hold"}
    ensures forall l :: l in voteCounts ==> voteCounts[l] == Count(votes, l)
  {
    voteCounts := map["buy" := 0, "sell" := 0, "hold" := 0];
    for i := 0 to |votes|
      invariant voteCounts.Keys == {"buy", "sell", "hold"}
      invariant forall l :: l in voteCounts ==> voteCounts[l] == Count(votes[..i], l)
    {
      var v := votes[i];
      assert votes[..i + 1][..i] == votes[..i];
      if v.vote == "buy" || v.vote == "sell" || v.vote == "hold" {
        voteCounts := voteCounts[v.vote := voteCounts[v.vote] + 1];
      }
    }
    assert votes[..|votes|] == votes;
  }

  /** `vote` with `maxVotes` is what the consensus loop leaves after scanning `labels`: no label
      has more votes, and the vote is the first label with `maxVotes` votes, or `hold` when every
      count is 0. */
  ghost predicate IsLeader(counts: map<string, nat>, labels: seq<string>, vote: string, maxVotes: nat)
  {
    && (forall j :: 0 <= j < |labels| ==> labels[j] in counts && counts[labels[j]] <= maxVotes)
    && ((maxVotes == 0 && vote == "hold")
        || (exists k :: 0 <= k < |labels| && vote == labels[k] && counts[labels[k]] == maxVotes > 0
                        && forall j :: 0 <= j < k ==> counts[labels[j]] < maxVotes))
  }

  /** The leader is unique. */
  lemma LeaderUnique(counts: map<string, nat>, labels: seq<string>, v1: string, m1: nat, v2: string, m2: nat)
    requires IsLeader(counts, labels, v1, m1) && IsLeader(counts, labels, v2, m2)
    ensures v1 == v2 && m1 == m2
  {
    if m1 > 0 {
      var k1 :| 0 <= k1 < |labels| && v1 == labels[k1] && counts[labels[k1]] == m1 > 0
                && forall j :: 0 <= j < k1 ==> counts[labels[j]] < m1;
      if m2 > 0 {
        var k2 :| 0 <= k2 < |labels| && v2 == labels[k2] && counts[labels[k2]] == m2 > 0
                  && forall j :: 0 <= j < k2 ==> counts[labels[j]] < m2;
        assert m1 == m2;
        assert k1 == k2;
      }
    }
  }

  /** The consensus loop (lines 145-152), scanning buy, sell and hold with a strict `>`. */
  method Consensus(voteCounts: map<string, nat>) returns (consensusVote: string, maxVotes: nat)
    requires forall l :: l in Labels ==> l in voteCounts
    ensures IsLeader(voteCounts, Labels, consensusVote, maxVotes)
  {
    consensusVote := "hold";
    maxVotes := 0;
    for i := 0 to |Labels|
      invariant IsLeader(voteCounts, Labels[..i], consensusVote, maxVotes)
    {
      var vote := Labels[i];
      assert vote in Labels;
      if voteCounts[vote] > maxVotes {
        maxVotes := voteCounts[vote];
        consensusVote := vote;
        assert forall j :: 0 <= j < i ==> Labels[..i + 1][j] == Labels[..i][j];
        assert Labels[..i + 1][i] == vote;
      } else if maxVotes > 0 {
        var k :| 0 <= k < i && consensusVote == Labels[..i][k] && voteCounts[Labels[..i][k]] == maxVotes > 0
                 && forall j :: 0 <= j < k ==> voteCounts[Labels[..i][j]] < maxVotes;
        assert Labels[..i + 1][k] == Labels[..i][k];
        assert forall j :: 0 <= j < k ==> Labels[..i + 1][j] == Labels[..i][j];
      }
    }
    assert Labels[..|Labels|] == Labels;
  }

  /** `majority` in percent, and whether it reaches the 75 % threshold (lines 153-154). */
  datatype ConsensusResult = ConsensusResult(vote: string, thresholdMet: bool, majority: real)

  function Majority(maxVotes: nat, total: nat): (m: real)
    requires total > 0
    ensures m * total as real == maxVotes as real * 100.0
  {
    maxVotes as real / total as real * 100.0
  }

  /** For a council of four, the threshold is met exactly when three or four votes agree. */
  lemma ThresholdOfFour(maxVotes: nat)
    ensures Majority(maxVotes, CouncilSize) >= 75.0 <==> maxVotes >= 3
  {
  }

  /** Where processCouncilQuery stops with an exception before any vote is counted. */
  datatype CouncilError =
    | NotConfigured  // no NIM client (lines 89-91)
    | NoCandles      // the summary reads the last candle of an empty series (line 93)

  /** The `candles` argument: a series, or series keyed by timeframe of which `1h` is used. */
  datatype CandleInput = Series(candles: seq<Candle>) | ByTimeframe(byTimeframe: map<string, seq<Candle>>)

  /** `Array.isArray(candles) ? candles : candles['1h'] || []`; an array, even an empty one, is
      truthy, so a present `1h` series is always used. */
  function CandleData(input: CandleInput): (cs: seq<Candle>)
    ensures input.Series? ==> cs == input.candles
    ensures input.ByTimeframe? ==> (cs == [] <==> "1h" !in input.byTimeframe || input.byTimeframe["1h"] == [])
  {
    match input
    case Series(cs) => cs
    case ByTimeframe(m) => if "1h" in m then m["1h"] else []
  }

  /** Only the `1h` series is ever read: replacing or adding any other timeframe changes
      nothing, and a query given a map without `1h` sees no candles. */
  lemma OtherTimeframesIgnored(m: map<string, seq<Candle>>, tf: string, series: seq<Candle>)
    requires tf != "1h"
    ensures CandleData(ByTimeframe(m[tf := series])) == CandleData(ByTimeframe(m))
    ensures "1h" !in m ==> |CandleData(ByTimeframe(m))| == 0
  {
  }

  datatype CouncilOutcome = CouncilOutcome(votes: seq<Vote>, consensus: ConsensusResult)

  /** processCouncilQuery after the replies are in. */
  method CouncilQuery(nimClients: nat, candles: CandleInput, buzz: real, replies: seq<Vote>)
    returns (r: Result<CouncilOutcome, CouncilError>)
    requires |replies| == CouncilSize
    ensures nimClients == 0 ==> r == Err(NotConfigured)
    ensures nimClients > 0 && |CandleData(candles)| == 0 ==> r == Err(NoCandles)
    ensures nimClients > 0 && |CandleData(candles)| > 0 ==>
              && r.Ok?
              && |r.value.votes| == CouncilSize
              && (forall i :: 0 <= i < CouncilSize ==> r.value.votes[i] == Adjust(replies[i], buzz))
              && (exists maxVotes: nat ::
                    && IsLeader(map l | l in Labels :: Count(replies, l), Labels, r.value.consensus.vote, maxVotes)
                    && r.value.consensus.majority == Majority(maxVotes, CouncilSize))
              && (r.value.consensus.thresholdMet <==> r.value.consensus.majority >= 75.0)
  {
    if nimClients == 0 {
      return Err(NotConfigured);
    }
    var candleData := CandleData(candles);
    if |candleData| == 0 {
      return Err(NoCandles);
    }
    var votes := new Vote[|replies|](i requires 0 <= i < |replies| => replies[i]);
    AdjustConfidences(votes, buzz);
    var adjusted := votes[..];
    var voteCounts := TallyVotes(adjusted);
    var consensusVote, maxVotes := Consensus(voteCounts);
    var majority := Majority(maxVotes, |adjusted|);
    var thresholdMet := majority >= 75.0;
    forall l | l in Labels
      ensures voteCounts[l] == Count(replies, l)
    {
      CountIgnoresConfidence(replies, adjusted, l);
    }
    assert voteCounts == map l | l in Labels :: Count(replies, l);
    r := Ok(CouncilOutcome(adjusted, ConsensusResult(consensusVote, thresholdMet, majority)));
  }
}
