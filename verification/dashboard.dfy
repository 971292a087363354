/** `useTransactionCalculations`: the dashboard's summary of a history. */
module Dashboard {
  import opened Values
  import Seqs
  import Sorting
  import opened Feed
  import Ledger

  const RecentCount: nat := 5

  datatype Calculations = Calculations(
    totalSent: real, totalReceived: real, recent: seq<FeedItem>,
    sentCount: nat, receivedCount: nat, netFlow: real)

  /** The summary: both role totals and counts, the first five items and
      the net flow, received minus sent. */
  function Calculate(items: seq<FeedItem>): (c: Calculations)
    ensures c.sentCount == |SentOnly(items)| && c.receivedCount == |ReceivedOnly(items)|
    ensures c.totalSent == Total(SentOnly(items)) && c.totalReceived == Total(ReceivedOnly(items))
    ensures c.sentCount + c.receivedCount == |items|
    ensures c.totalSent + c.totalReceived == Total(items)
    ensures c.netFlow == c.totalReceived - c.totalSent
    ensures |c.recent| == if |items| < RecentCount then |items| else RecentCount
    ensures forall i :: 0 <= i < |c.recent| ==> c.recent[i] == items[i]
  {
    RolesPartition(items);
    var sent, received := Total(SentOnly(items)), Total(ReceivedOnly(items));
    Calculations(sent, received, Seqs.Take(items, RecentCount),
                 |SentOnly(items)|, |ReceivedOnly(items)|, received - sent)
  }

  /** On a newest-first history the recent items are the newest ones: none
      of the items left out is later than any item shown. */
  lemma RecentAreNewest(items: seq<FeedItem>)
    requires Ledger.NewestFirst(items)
    ensures var r := Calculate(items).recent;
      forall i, j :: 0 <= i < |r| <= j < |items| ==> r[i].tx.date >= items[j].tx.date
  {
  }

  // ---------------------------------------------------------------------
  // Counts and totals against the ledger

  function TxAmount(t: Ledger.TxRecord): real { t.amount }

  /** The items of a history's sent part are all sent, those of its received
      part all received, so the role filters of the unsorted history pick
      out exactly the two parts. */
  lemma RoleFiltersPickParts(sent: seq<FeedItem>, received: seq<FeedItem>)
    requires forall i :: 0 <= i < |sent| ==> sent[i].role == Sent
    requires forall i :: 0 <= i < |received| ==> received[i].role == Received
    ensures SentOnly(sent + received) == sent
    ensures ReceivedOnly(sent + received) == received
  {
    Seqs.FilterAppend(sent, received, IsSent);
    Seqs.FilterAppend(sent, received, IsReceived);
    Seqs.FilterAll(sent, IsSent);
    Seqs.FilterNone(received, IsSent);
    Seqs.FilterNone(sent, IsReceived);
    Seqs.FilterAll(received, IsReceived);
  }

  /** The role filters of a user's history are its sent and received parts,
      up to order: the same lengths and the same totals. */
  lemma HistoryRoleParts(s: Ledger.Store, uid: string, proj: Ledger.Projection)
    requires uid in s.users
    ensures var items := Ledger.History(s, uid, proj);
      var sent, received := Ledger.SentItems(s.users, uid, s.txs, proj), Ledger.ReceivedItems(s.users, uid, s.txs, proj);
      && |SentOnly(items)| == |sent| && Total(SentOnly(items)) == Total(sent)
      && |ReceivedOnly(items)| == |received| && Total(ReceivedOnly(items)) == Total(received)
  {
    var sent, received := Ledger.SentItems(s.users, uid, s.txs, proj), Ledger.ReceivedItems(s.users, uid, s.txs, proj);
    assert Ledger.History(s, uid, proj) == Sorting.SortDesc(sent + received, DateKey);
    forall i | 0 <= i < |sent| ensures sent[i].role == Sent {
      assert sent[i] in sent;
    }
    forall i | 0 <= i < |received| ensures received[i].role == Received {
      assert received[i] in received;
    }
    RoleFiltersPickParts(sent, received);
    Sorting.FilterSort(sent + received, DateKey, IsSent, Amount);
    Sorting.FilterSort(sent + received, DateKey, IsReceived, Amount);
  }

  /** One sent item per transaction, each with that transaction's amount. */
  lemma {:induction false} SentItemsOfTotal(users: map<string, Ledger.UserNode>, ts: seq<Ledger.TxRecord>, proj: Ledger.Projection)
    requires forall t :: t in ts ==> t.receiver in users
    ensures Total(Ledger.SentItemsOf(users, ts, proj)) == Seqs.SumBy(ts, TxAmount)
  {
    if |ts| > 0 {
      assert ts == [ts[0]] + ts[1..];
      Ledger.SentItemsOfCons(users, ts[0], ts[1..], proj);
      SentItemsOfTotal(users, ts[1..], proj);
      assert Ledger.SentItemsOf(users, ts, proj)[1..] == Ledger.SentItemsOf(users, ts[1..], proj);
    }
  }

  /** One received item per transaction, each with that transaction's amount. */
  lemma {:induction false} ReceivedItemsOfTotal(users: map<string, Ledger.UserNode>, ts: seq<Ledger.TxRecord>, proj: Ledger.Projection)
    requires forall t :: t in ts ==> t.sender in users
    ensures Total(Ledger.ReceivedItemsOf(users, ts, proj)) == Seqs.SumBy(ts, TxAmount)
  {
    if |ts| > 0 {
      assert ts == [ts[0]] + ts[1..];
      Ledger.ReceivedItemsOfCons(users, ts[0], ts[1..], proj);
      ReceivedItemsOfTotal(users, ts[1..], proj);
      assert Ledger.ReceivedItemsOf(users, ts, proj)[1..] == Ledger.ReceivedItemsOf(users, ts[1..], proj);
    }
  }

  /** The dashboard of a user's history counts and sums exactly the stored
      transactions that user sent and received: `sentCount` is the number
      of transfers to an existing receiver, `totalSent` their amounts, and
      likewise for the received side. */
  lemma CountsMatchLedger(s: Ledger.Store, uid: string, proj: Ledger.Projection)
    requires uid in s.users
    ensures var c := Calculate(Ledger.History(s, uid, proj));
      var sentTxs := Seqs.Filter(s.txs, Ledger.SentFilter(s.users, uid));
      var receivedTxs := Seqs.Filter(s.txs, Ledger.ReceivedFilter(s.users, uid));
      && c.sentCount == |sentTxs| && c.totalSent == Seqs.SumBy(sentTxs, TxAmount)
      && c.receivedCount == |receivedTxs| && c.totalReceived == Seqs.SumBy(receivedTxs, TxAmount)
  {
    HistoryRoleParts(s, uid, proj);
    Ledger.SentItemsExact(s.users, uid, s.txs, proj);
    Ledger.ReceivedItemsExact(s.users, uid, s.txs, proj);
    SentItemsOfTotal(s.users, Seqs.Filter(s.txs, Ledger.SentFilter(s.users, uid)), proj);
    ReceivedItemsOfTotal(s.users, Seqs.Filter(s.txs, Ledger.ReceivedFilter(s.users, uid)), proj);
  }

  // ---------------------------------------------------------------------
  // Net flow and the ledger balance

  /** An item's effect on its user's balance. */
  function Signed(it: FeedItem): real {
    if it.role == Sent then -it.tx.amount else it.tx.amount
  }

  lemma {:induction false} NetFlowIsSignedSum(items: seq<FeedItem>)
    ensures Calculate(items).netFlow == Seqs.SumBy(items, Signed)
  {
    if |items| > 0 {
      NetFlowIsSignedSum(items[1..]);
      var p, q := IsSent, IsReceived;
      assert SentOnly(items) == (if p(items[0]) then [items[0]] else []) + SentOnly(items[1..]);
      assert ReceivedOnly(items) == (if q(items[0]) then [items[0]] else []) + ReceivedOnly(items[1..]);
      Seqs.SumByAppend(if p(items[0]) then [items[0]] else [], SentOnly(items[1..]), Amount);
      Seqs.SumByAppend(if q(items[0]) then [items[0]] else [], ReceivedOnly(items[1..]), Amount);
      assert [items[0]][1..] == [];
    }
  }

  lemma {:induction false} SentItemsAppend(users: map<string, Ledger.UserNode>, users': map<string, Ledger.UserNode>,
                                           uid: string, txs: seq<Ledger.TxRecord>, t: Ledger.TxRecord, proj: Ledger.Projection)
    requires users'.Keys == users.Keys
    ensures Seqs.SumBy(Ledger.SentItems(users', uid, txs + [t], proj), Signed)
         == Seqs.SumBy(Ledger.SentItems(users, uid, txs, proj), Signed)
          - (if Ledger.SentBy(users, uid, t) then t.amount else 0.0)
    decreases |txs|
  {
    if |txs| == 0 {
      assert (txs + [t])[1..] == [];
    } else {
      assert (txs + [t])[1..] == txs[1..] + [t];
      SentItemsAppend(users, users', uid, txs[1..], t, proj);
    }
  }

  lemma {:induction false} ReceivedItemsAppend(users: map<string, Ledger.UserNode>, users': map<string, Ledger.UserNode>,
                                               uid: string, txs: seq<Ledger.TxRecord>, t: Ledger.TxRecord, proj: Ledger.Projection)
    requires users'.Keys == users.Keys
    ensures Seqs.SumBy(Ledger.ReceivedItems(users', uid, txs + [t], proj), Signed)
         == Seqs.SumBy(Ledger.ReceivedItems(users, uid, txs, proj), Signed)
          + (if Ledger.ReceivedBy(users, uid, t) then t.amount else 0.0)
    decreases |txs|
  {
    if |txs| == 0 {
      assert (txs + [t])[1..] == [];
    } else {
      assert (txs + [t])[1..] == txs[1..] + [t];
      ReceivedItemsAppend(users, users', uid, txs[1..], t, proj);
    }
  }

  /** The net flow of a history is its sent and received parts' signed sums. */
  lemma HistoryNetFlow(s: Ledger.Store, uid: string, proj: Ledger.Projection)
    requires uid in s.users
    ensures Calculate(Ledger.History(s, uid, proj)).netFlow
         == Seqs.SumBy(Ledger.SentItems(s.users, uid, s.txs, proj), Signed)
          + Seqs.SumBy(Ledger.ReceivedItems(s.users, uid, s.txs, proj), Signed)
  {
    var xs := Ledger.SentItems(s.users, uid, s.txs, proj) + Ledger.ReceivedItems(s.users, uid, s.txs, proj);
    NetFlowIsSignedSum(Ledger.History(s, uid, proj));
    Sorting.SumSort(xs, DateKey, Signed);
    Seqs.SumByAppend(Ledger.SentItems(s.users, uid, s.txs, proj), Ledger.ReceivedItems(s.users, uid, s.txs, proj), Signed);
  }

  /** A transfer moves every user's dashboard net flow by exactly the
      amount it moves that user's balance: the sender's down, the
      receiver's up, a self-transfer's and everyone else's not at all. */
  lemma NetFlowTracksBalance(s: Ledger.Store, body: Ledger.TransferBody, freshId: string, now: int,
                             uid: string, proj: Ledger.Projection)
    requires Ledger.CreateTransaction(s, body, freshId, now).response.Created?
    requires uid in s.users
    ensures var s' := Ledger.CreateTransaction(s, body, freshId, now).store;
      Calculate(Ledger.History(s', uid, proj)).netFlow - Calculate(Ledger.History(s, uid, proj)).netFlow
      == Ledger.BalanceOf(s'.users, uid) - Ledger.BalanceOf(s.users, uid)
  {
    var o := Ledger.CreateTransaction(s, body, freshId, now);
    var s' := o.store;
    var t := o.response.transaction;
    HistoryNetFlow(s, uid, proj);
    HistoryNetFlow(s', uid, proj);
    SentItemsAppend(s.users, s'.users, uid, s.txs, t, proj);
    ReceivedItemsAppend(s.users, s'.users, uid, s.txs, t, proj);
  }
}
