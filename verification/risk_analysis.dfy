/** The client-side recomputation of the risk signals shown next to the
    speedometer, and the description chosen for a stored risk level. */
module RiskAnalysis {
  import Seqs
  import opened Feed
  import Risk

  /** `t => new Date(t.tx.date) >= thirtyDaysAgo && t.role === "sent"`. */
  function RecentFilter(cutoff: int): FeedItem -> bool {
    (t: FeedItem) => t.tx.date >= cutoff && t.role == Sent
  }

  function OverLarge(t: FeedItem): bool { t.tx.amount > 10000.0 }

  /** The four values the component displays. */
  function ClientSignals(transactions: seq<FeedItem>, cutoff: int): (g: Risk.Signals)
    ensures g.large <= g.count
    ensures g.count == |Seqs.Filter(transactions, RecentFilter(cutoff))|
  {
    var recent := Seqs.Filter(transactions, RecentFilter(cutoff));
    var totalSent := Total(recent);
    var count := |recent|;
    var large := |Seqs.Filter(recent, OverLarge)|;
    Risk.Signals(totalSent, count, large, if count > 0 then totalSent / (count as real) else 0.0)
  }

  /** Client and server compute the same four signals for the same history
      and window start. */
  lemma ClientMatchesServer(transactions: seq<FeedItem>, cutoff: int)
    ensures ClientSignals(transactions, cutoff) == Risk.SignalsOf(Risk.RecentSent(transactions, cutoff))
  {
    Seqs.FilterExt(transactions, RecentFilter(cutoff), Risk.InWindow(cutoff));
    Seqs.FilterExt(Risk.RecentSent(transactions, cutoff), OverLarge, Risk.IsLarge);
  }

  const HighText := "Very active user with frequent large transactions."
  const MediumText := "Moderately active user with regular transaction patterns."
  const ConservativeText := "Conservative user with minimal transaction activity."

  /** `getRiskDescription`: a `switch` with a default branch. */
  function RiskDescription(level: string): (d: string)
    ensures d == HighText <==> level == "high"
    ensures d == MediumText <==> level == "medium"
    ensures d == ConservativeText <==> level != "high" && level != "medium"
  {
    if level == "high" then HighText
    else if level == "medium" then MediumText
    else ConservativeText
  }

  /** Each level the server computes gets its own text; low shares the
      default with every unrecognised string. */
  lemma DescriptionOfComputedLevel(l: Risk.RiskLevel)
    ensures RiskDescription(Risk.LevelName(l)) == ConservativeText <==> l == Risk.Low
    ensures forall m: Risk.RiskLevel :: RiskDescription(Risk.LevelName(m)) == RiskDescription(Risk.LevelName(l)) ==> m == l
  {
  }
}
