/** `calculateUserRiskScore`: a threshold classification of the trailing
    window of a user's sent transactions. The window start (now minus 30
    days) is the parameter `cutoff`. */
module Risk {
  import Seqs
  import opened Feed

  datatype RiskLevel = Low | Medium | High

  /** The string stored and returned for a level. */
  function LevelName(l: RiskLevel): string {
    match l
    case Low => "low"
    case Medium => "medium"
    case High => "high"
  }

  const LargeAmount: real := 10000.0
  const HighVolume: real := 50000.0
  const ElevatedVolume: real := 20000.0
  const HighFrequency: nat := 15
  const ElevatedFrequency: nat := 8
  const ManyLarge: nat := 2
  const HighAverage: real := 5000.0
  const HighPoints: nat := 4
  const MediumPoints: nat := 2

  /** The four risk signals. */
  datatype Signals = Signals(total: real, count: nat, large: nat, average: real)

  predicate InWindowSent(cutoff: int, it: FeedItem) {
    it.role == Sent && it.tx.date >= cutoff
  }

  predicate IsLarge(it: FeedItem) { it.tx.amount > LargeAmount }

  function InWindow(cutoff: int): FeedItem -> bool {
    it => InWindowSent(cutoff, it)
  }

  /** `allTransactions.filter(tx => tx.role === "sent" && date >= thirtyDaysAgo)`. */
  function RecentSent(items: seq<FeedItem>, cutoff: int): (r: seq<FeedItem>)
    ensures forall it :: it in r <==> it in items && InWindowSent(cutoff, it)
  {
    Seqs.Filter(items, InWindow(cutoff))
  }

  /** The signals of a set of in-window sent items: the sum, the count, the
      number strictly above 10000, and the mean (0 for no items). */
  function SignalsOf(recent: seq<FeedItem>): (g: Signals)
    ensures g.count == |recent|
    ensures g.large <= g.count
    ensures g.count == 0 ==> g == Signals(0.0, 0, 0, 0.0)
    ensures g.count > 0 ==> g.average * (g.count as real) == g.total
  {
    var total := Total(recent);
    var count := |recent|;
    var large := |Seqs.Filter(recent, IsLarge)|;
    if count > 0 then
      MeanTimesCount(total, count as real);
      Signals(total, count, large, total / (count as real))
    else Signals(total, count, large, 0.0)
  }

  lemma MeanTimesCount(total: real, count: real)
    requires count > 0.0
    ensures (total / count) * count == total
  {
  }

  /** Volume: above 50000 scores 2, above 20000 scores 1. */
  function VolumePoints(total: real): nat {
    if total > HighVolume then 2 else if total > ElevatedVolume then 1 else 0
  }

  /** Frequency: more than 15 transfers scores 2, more than 8 scores 1. */
  function FrequencyPoints(count: nat): nat {
    if count > HighFrequency then 2 else if count > ElevatedFrequency then 1 else 0
  }

  /** Large transfers: more than 2 scores 2, at least one scores 1. */
  function LargePoints(large: nat): nat {
    if large > ManyLarge then 2 else if large > 0 then 1 else 0
  }

  /** Average: above 5000 scores 1. */
  function AveragePoints(average: real): nat {
    if average > HighAverage then 1 else 0
  }

  function RiskPoints(g: Signals): (p: nat)
    ensures p <= 7
    ensures g.count == 0 && g.total == 0.0 && g.large == 0 && g.average == 0.0 ==> p == 0
  {
    VolumePoints(g.total) + FrequencyPoints(g.count) + LargePoints(g.large) + AveragePoints(g.average)
  }

  /** Four points or more is high, two or three medium, fewer low. */
  function Classify(points: nat): (l: RiskLevel)
    ensures l == High <==> points >= HighPoints
    ensures l == Medium <==> MediumPoints <= points < HighPoints
    ensures l == Low <==> points < MediumPoints
  {
    if points >= HighPoints then High
    else if points >= MediumPoints then Medium
    else Low
  }

  /** What fetching the history produced: no row, the row's item list, or an
      exception (query or computation failure). */
  datatype HistoryFetch = NoRecords | Records(items: seq<FeedItem>) | FetchFailed

  function ScoreItems(items: seq<FeedItem>, cutoff: int): RiskLevel {
    Classify(RiskPoints(SignalsOf(RecentSent(items, cutoff))))
  }

  /** `calculateUserRiskScore`; failures and an empty result fall back to low. */
  function CalculateUserRiskScore(fetch: HistoryFetch, cutoff: int): (l: RiskLevel)
    ensures !fetch.Records? ==> l == Low
    ensures fetch.Records? && RecentSent(fetch.items, cutoff) == [] ==> l == Low
  {
    match fetch
    case NoRecords => Low
    case FetchFailed => Low
    case Records(items) => ScoreItems(items, cutoff)
  }

  /** Received items and items older than the window never change the
      score, wherever they appear in the history. */
  lemma IrrelevantItemIgnored(xs: seq<FeedItem>, it: FeedItem, ys: seq<FeedItem>, cutoff: int)
    requires it.role == Received || it.tx.date < cutoff
    ensures CalculateUserRiskScore(Records(xs + [it] + ys), cutoff)
         == CalculateUserRiskScore(Records(xs + ys), cutoff)
  {
    IrrelevantItemFiltered(xs, it, ys, cutoff);
  }

  lemma IrrelevantItemFiltered(xs: seq<FeedItem>, it: FeedItem, ys: seq<FeedItem>, cutoff: int)
    requires it.role == Received || it.tx.date < cutoff
    ensures RecentSent(xs + [it] + ys, cutoff) == RecentSent(xs + ys, cutoff)
  {
    var p := InWindow(cutoff);
    Seqs.FilterAppend(xs + [it], ys, p);
    Seqs.FilterAppend(xs, [it], p);
    Seqs.FilterAppend(xs, ys, p);
    assert Seqs.Filter([it], p) == [] by {
      assert [it][1..] == [];
    }
    assert xs + [it] + ys == (xs + [it]) + ys;
  }

  /** A single in-window transfer scores high exactly when it exceeds 50000,
      and low exactly when it is at most 10000. */
  lemma SingleTransferRisk(it: FeedItem, cutoff: int)
    requires InWindowSent(cutoff, it)
    ensures CalculateUserRiskScore(Records([it]), cutoff) == High <==> it.tx.amount > HighVolume
    ensures CalculateUserRiskScore(Records([it]), cutoff) == Low <==> it.tx.amount <= LargeAmount
  {
    var recent := RecentSent([it], cutoff);
    assert [it][1..] == [];
    assert recent == [it];
    assert Total(recent) == it.tx.amount + Seqs.SumBy([it][1..], Amount);
    assert Seqs.Filter(recent, IsLarge) == (if IsLarge(it) then [it] else []) + Seqs.Filter([it][1..], IsLarge);
  }

  /** The worked example: nine in-window transfers totalling 25000 with
      exactly one above 10000 score 1 + 1 + 1 + 0 = 3 points, medium. */
  lemma NineTransfersAreMedium(items: seq<FeedItem>, cutoff: int)
    requires |RecentSent(items, cutoff)| == 9
    requires Total(RecentSent(items, cutoff)) == 25000.0
    requires |Seqs.Filter(RecentSent(items, cutoff), IsLarge)| == 1
    ensures RiskPoints(SignalsOf(RecentSent(items, cutoff))) == 3
    ensures CalculateUserRiskScore(Records(items), cutoff) == Medium
  {
    var g := SignalsOf(RecentSent(items, cutoff));
    assert g.average * 9.0 == 25000.0;
    assert g.average < HighAverage;
  }
}
