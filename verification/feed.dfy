/** The transaction feed item returned by the history endpoint and consumed
    by the frontend: `{ role, tx, to | from }`. */
module Feed {
  import opened Values
  import Seqs

  /** Role of the feed item relative to the user whose history it is. */
  datatype Role = Sent | Received

  /** The `tx` projection. `category` is absent when the history query does
      not select it; dates are instants on an integer time line. */
  datatype TxView = TxView(id: string, amount: real, description: string, date: int, category: Option<string>)

  /** The `to` (for sent items) or `from` (for received items) summary. */
  datatype Party = Party(id: string, name: string)

  datatype FeedItem = FeedItem(role: Role, tx: TxView, counterparty: Party)

  function Amount(it: FeedItem): real { it.tx.amount }
  function DateKey(it: FeedItem): real { it.tx.date as real }
  predicate IsSent(it: FeedItem) { it.role == Sent }
  predicate IsReceived(it: FeedItem) { it.role == Received }

  /** `items.filter(t => t.role === "sent")`. */
  function SentOnly(items: seq<FeedItem>): seq<FeedItem> { Seqs.Filter(items, IsSent) }
  /** `items.filter(t => t.role === "received")`. */
  function ReceivedOnly(items: seq<FeedItem>): seq<FeedItem> { Seqs.Filter(items, IsReceived) }

  /** `items.reduce((sum, t) => sum + t.tx.amount, 0)`. */
  function Total(items: seq<FeedItem>): real { Seqs.SumBy(items, Amount) }

  /** Every item is sent or received, so the two filters split the list:
      their counts add up to its length and their totals to its total. */
  lemma RolesPartition(items: seq<FeedItem>)
    ensures |SentOnly(items)| + |ReceivedOnly(items)| == |items|
    ensures Total(SentOnly(items)) + Total(ReceivedOnly(items)) == Total(items)
  {
    Seqs.FilterPartitionLength(items, IsSent, IsReceived);
    Seqs.FilterPartitionSum(items, IsSent, IsReceived, Amount);
  }
}
