/** The ledger: user balances and immutable transaction records, the atomic
    transfer (`createTransaction`) and the per-user history
    (`getUserTransactions`). The graph store is a map from user id to user
    node plus the sequence of transaction nodes, each carrying the ids at the
    ends of its SENT and RECEIVED_BY edges. */
module Ledger {
  import opened Values
  import Seqs
  import Sorting
  import opened Feed

  type UserId = string

  /** A User node. `balance` is absent until something sets it; readers
      coalesce it to 0. */
  datatype UserNode = UserNode(name: string, balance: Option<real>)

  /** A Transaction node with the sender at the tail of its SENT edge and the
      receiver at the head of its RECEIVED_BY edge. */
  datatype TxRecord = TxRecord(
    id: string, amount: real, category: string, description: string, date: int,
    sender: UserId, receiver: UserId)

  datatype Store = Store(users: map<UserId, UserNode>, txs: seq<TxRecord>)

  /** The `amount` field of the request body: a JSON number or anything else
      (string, boolean, null, missing). */
  datatype BodyAmount = Number(n: real) | NotANumber

  /** The request body `{ senderId, receiverId, amount, category, description }`. */
  datatype TransferBody = TransferBody(
    senderId: Option<string>, receiverId: Option<string>, amount: BodyAmount,
    category: Option<string>, description: Option<string>)

  /** `user { .id, .name, .balance }` as returned after the update. */
  datatype UserSummary = UserSummary(id: UserId, name: string, balance: real)

  /** 201 with the three projections, 400 with an error, or 404. */
  datatype TransferResponse =
    | Created(sender: UserSummary, receiver: UserSummary, transaction: TxRecord)
    | BadRequest(error: string)
    | NotFound(error: string)

  datatype Outcome = Outcome(response: TransferResponse, store: Store)

  const MsgIdsRequired := "senderId and receiverId required"
  const MsgAmountInvalid := "amount must be a positive number"
  const MsgUsersNotFound := "User(s) not found"
  const DefaultCategory := "other"

  /** `coalesce(balance, 0)`. */
  function Coalesce(b: Option<real>): real { b.GetOr(0.0) }

  function BalanceOf(users: map<UserId, UserNode>, id: UserId): real
    requires id in users
  {
    Coalesce(users[id].balance)
  }

  /** `SET u.balance = coalesce(u.balance, 0) + delta` on one node. */
  function Adjust(users: map<UserId, UserNode>, id: UserId, delta: real): (r: map<UserId, UserNode>)
    requires id in users
    ensures r.Keys == users.Keys
    ensures r[id].name == users[id].name && BalanceOf(r, id) == BalanceOf(users, id) + delta
    ensures forall u :: u in users && u != id ==> r[u] == users[u]
  {
    users[id := users[id].(balance := Some(BalanceOf(users, id) + delta))]
  }

  /** The body passes both early checks: truthy ids and a positive number. */
  predicate ValidBody(body: TransferBody) {
    Truthy(body.senderId) && Truthy(body.receiverId) && body.amount.Number? && body.amount.n > 0.0
  }

  /** `createTransaction`: the two validation steps, then the single Cypher
      statement as one atomic step. The statement's SET items are applied in
      order, debit before credit. `freshId` is the value of `randomUUID()` and
      `now` the value of `datetime()`. */
  function CreateTransaction(s: Store, body: TransferBody, freshId: string, now: int): (o: Outcome)
    ensures !Truthy(body.senderId) || !Truthy(body.receiverId) ==>
      o == Outcome(BadRequest(MsgIdsRequired), s)
    ensures Truthy(body.senderId) && Truthy(body.receiverId) && !ValidBody(body) ==>
      o == Outcome(BadRequest(MsgAmountInvalid), s)
    ensures ValidBody(body) && (body.senderId.value !in s.users || body.receiverId.value !in s.users) ==>
      o == Outcome(NotFound(MsgUsersNotFound), s)
    ensures o.response.Created? <==>
      ValidBody(body) && body.senderId.value in s.users && body.receiverId.value in s.users
    ensures o.response.Created? ==>
      var sid, rid, amt := body.senderId.value, body.receiverId.value, body.amount.n;
      && o.response.transaction == TxRecord(freshId, amt, body.category.GetOr(DefaultCategory),
                                            body.description.GetOr(""), now, sid, rid)
      && o.store.txs == s.txs + [o.response.transaction]
      && o.store.users.Keys == s.users.Keys
      && (forall u :: u in s.users ==> o.store.users[u].name == s.users[u].name)
      && (forall u :: u in s.users && u != sid && u != rid ==> o.store.users[u] == s.users[u])
      && (sid != rid ==>
            BalanceOf(o.store.users, sid) == BalanceOf(s.users, sid) - amt &&
            BalanceOf(o.store.users, rid) == BalanceOf(s.users, rid) + amt)
      && (sid == rid ==> BalanceOf(o.store.users, sid) == BalanceOf(s.users, sid))
      && o.response.sender == UserSummary(sid, s.users[sid].name, BalanceOf(o.store.users, sid))
      && o.response.receiver == UserSummary(rid, s.users[rid].name, BalanceOf(o.store.users, rid))
  {
    if !Truthy(body.senderId) || !Truthy(body.receiverId) then
      Outcome(BadRequest(MsgIdsRequired), s)
    else if !(body.amount.Number? && body.amount.n > 0.0) then
      Outcome(BadRequest(MsgAmountInvalid), s)
    else
      var sid, rid, amt := body.senderId.value, body.receiverId.value, body.amount.n;
      if sid !in s.users || rid !in s.users then
        Outcome(NotFound(MsgUsersNotFound), s)
      else
        var t := TxRecord(freshId, amt, body.category.GetOr(DefaultCategory),
                          body.description.GetOr(""), now, sid, rid);
        var debited := Adjust(s.users, sid, -amt);
        var credited := Adjust(debited, rid, amt);
        Outcome(
          Created(UserSummary(sid, credited[sid].name, BalanceOf(credited, sid)),
                  UserSummary(rid, credited[rid].name, BalanceOf(credited, rid)),
                  t),
          Store(credited, s.txs + [t]))
  }

  // ---------------------------------------------------------------------
  // Conservation

  predicate Distinct(ids: seq<UserId>) {
    forall i, j :: 0 <= i < j < |ids| ==> ids[i] != ids[j]
  }

  /** Sum of the coalesced balances of the listed users that exist. */
  function TotalBalance(users: map<UserId, UserNode>, ids: seq<UserId>): real {
    if |ids| == 0 then 0.0
    else (if ids[0] in users then BalanceOf(users, ids[0]) else 0.0) + TotalBalance(users, ids[1..])
  }

  lemma {:induction false} AdjustTotal(users: map<UserId, UserNode>, id: UserId, delta: real, ids: seq<UserId>)
    requires id in users
    requires Distinct(ids)
    ensures TotalBalance(Adjust(users, id, delta), ids)
         == TotalBalance(users, ids) + (if id in ids then delta else 0.0)
  {
    if |ids| > 0 {
      assert Distinct(ids[1..]) by {
        forall i, j | 0 <= i < j < |ids[1..]| ensures ids[1..][i] != ids[1..][j] {
          assert ids[1..][i] == ids[i + 1] && ids[1..][j] == ids[j + 1];
        }
      }
      AdjustTotal(users, id, delta, ids[1..]);
      if ids[0] == id {
        assert id !in ids[1..] by {
          forall k | 0 <= k < |ids[1..]| ensures ids[1..][k] != id {
            assert ids[1..][k] == ids[k + 1];
          }
        }
      } else {
        assert id in ids <==> id in ids[1..] by {
          assert ids == [ids[0]] + ids[1..];
        }
      }
    }
  }

  /** Conservation: a successful transfer keeps the sum of all balances,
      for distinct parties and for a self-transfer alike. */
  lemma TransferConservesTotal(s: Store, body: TransferBody, freshId: string, now: int, ids: seq<UserId>)
    requires Distinct(ids)
    requires forall u :: u in s.users <==> u in ids
    requires CreateTransaction(s, body, freshId, now).response.Created?
    ensures TotalBalance(CreateTransaction(s, body, freshId, now).store.users, ids) == TotalBalance(s.users, ids)
  {
    var sid, rid, amt := body.senderId.value, body.receiverId.value, body.amount.n;
    var debited := Adjust(s.users, sid, -amt);
    AdjustTotal(s.users, sid, -amt, ids);
    AdjustTotal(debited, rid, amt, ids);
  }

  /** No sufficient-funds check: any valid transfer between existing users
      succeeds, and one larger than the sender's balance leaves it negative. */
  lemma NoFundsCheck(s: Store, body: TransferBody, freshId: string, now: int)
    requires ValidBody(body)
    requires body.senderId.value in s.users && body.receiverId.value in s.users
    requires body.senderId.value != body.receiverId.value
    requires BalanceOf(s.users, body.senderId.value) < body.amount.n
    ensures CreateTransaction(s, body, freshId, now).response.Created?
    ensures BalanceOf(CreateTransaction(s, body, freshId, now).store.users, body.senderId.value) < 0.0
  {
  }

  predicate UniqueTxIds(txs: seq<TxRecord>) {
    forall i, j :: 0 <= i < j < |txs| ==> txs[i].id != txs[j].id
  }

  /** A fresh `randomUUID()` keeps transaction ids unique. */
  lemma FreshIdKeepsIdsUnique(s: Store, body: TransferBody, freshId: string, now: int)
    requires UniqueTxIds(s.txs)
    requires forall t :: t in s.txs ==> t.id != freshId
    ensures UniqueTxIds(CreateTransaction(s, body, freshId, now).store.txs)
  {
    var o := CreateTransaction(s, body, freshId, now);
    if o.response.Created? {
      forall i, j | 0 <= i < j < |o.store.txs| ensures o.store.txs[i].id != o.store.txs[j].id {
        if j == |s.txs| {
          assert o.store.txs[i] == s.txs[i];
          assert s.txs[i] in s.txs;
        }
      }
    }
  }

  // ---------------------------------------------------------------------
  // History

  /** Which transaction fields a feed item's `tx` carries: the fields the
      history query selects (`id`, `amount`, `description`, `date`), or those
      plus `category`, which the frontend's category statistics read. */
  datatype Projection = AsQueried | WithCategory

  function View(t: TxRecord, proj: Projection): TxView {
    TxView(t.id, t.amount, t.description, t.date,
           if proj == WithCategory then Some(t.category) else None)
  }

  /** The item a sent transaction contributes: role sent, receiver as `to`. */
  function SentItem(users: map<UserId, UserNode>, t: TxRecord, proj: Projection): FeedItem
    requires t.receiver in users
  {
    FeedItem(Sent, View(t, proj), Party(t.receiver, users[t.receiver].name))
  }

  /** The item a received transaction contributes: role received, sender as `from`. */
  function ReceivedItem(users: map<UserId, UserNode>, t: TxRecord, proj: Projection): FeedItem
    requires t.sender in users
  {
    FeedItem(Received, View(t, proj), Party(t.sender, users[t.sender].name))
  }

  /** A transaction matched by `(u)-[:SENT]->(t)-[:RECEIVED_BY]->(r:User)`. */
  predicate SentBy(users: map<UserId, UserNode>, uid: UserId, t: TxRecord) {
    t.sender == uid && t.receiver in users
  }

  /** A transaction matched by `(s:User)-[:SENT]->(t)-[:RECEIVED_BY]->(u)`. */
  predicate ReceivedBy(users: map<UserId, UserNode>, uid: UserId, t: TxRecord) {
    t.receiver == uid && t.sender in users
  }

  function SentFilter(users: map<UserId, UserNode>, uid: UserId): TxRecord -> bool {
    t => SentBy(users, uid, t)
  }

  function ReceivedFilter(users: map<UserId, UserNode>, uid: UserId): TxRecord -> bool {
    t => ReceivedBy(users, uid, t)
  }

  /** The `sent` collection of the history query. */
  function SentItems(users: map<UserId, UserNode>, uid: UserId, txs: seq<TxRecord>, proj: Projection): (r: seq<FeedItem>)
    ensures |r| <= |txs|
    ensures forall t :: t in txs && SentBy(users, uid, t) ==> SentItem(users, t, proj) in r
    ensures forall x :: x in r ==> exists t :: t in txs && SentBy(users, uid, t) && x == SentItem(users, t, proj)
  {
    if |txs| == 0 then []
    else
      var rest := SentItems(users, uid, txs[1..], proj);
      assert forall t :: t in txs ==> t == txs[0] || t in txs[1..];
      if SentBy(users, uid, txs[0]) then [SentItem(users, txs[0], proj)] + rest else rest
  }

  /** The `received` collection of the history query. */
  function ReceivedItems(users: map<UserId, UserNode>, uid: UserId, txs: seq<TxRecord>, proj: Projection): (r: seq<FeedItem>)
    ensures |r| <= |txs|
    ensures forall t :: t in txs && ReceivedBy(users, uid, t) ==> ReceivedItem(users, t, proj) in r
    ensures forall x :: x in r ==> exists t :: t in txs && ReceivedBy(users, uid, t) && x == ReceivedItem(users, t, proj)
  {
    if |txs| == 0 then []
    else
      var rest := ReceivedItems(users, uid, txs[1..], proj);
      assert forall t :: t in txs ==> t == txs[0] || t in txs[1..];
      if ReceivedBy(users, uid, txs[0]) then [ReceivedItem(users, txs[0], proj)] + rest else rest
  }

  /** The sent items of transactions that all have an existing receiver,
      one per transaction, in order. */
  function SentItemsOf(users: map<UserId, UserNode>, ts: seq<TxRecord>, proj: Projection): (r: seq<FeedItem>)
    requires forall t :: t in ts ==> t.receiver in users
    ensures |r| == |ts|
    ensures forall i :: 0 <= i < |ts| ==> r[i] == SentItem(users, ts[i], proj)
  {
    seq(|ts|, i requires 0 <= i < |ts| => SentItem(users, ts[i], proj))
  }

  /** The received items of transactions that all have an existing sender,
      one per transaction, in order. */
  function ReceivedItemsOf(users: map<UserId, UserNode>, ts: seq<TxRecord>, proj: Projection): (r: seq<FeedItem>)
    requires forall t :: t in ts ==> t.sender in users
    ensures |r| == |ts|
    ensures forall i :: 0 <= i < |ts| ==> r[i] == ReceivedItem(users, ts[i], proj)
  {
    seq(|ts|, i requires 0 <= i < |ts| => ReceivedItem(users, ts[i], proj))
  }

  /** The sent part has one item per matching transaction, in the stored
      order: it is the sent items of the transactions the user sent to an
      existing receiver. */
  lemma {:induction false} SentItemsExact(users: map<UserId, UserNode>, uid: UserId, txs: seq<TxRecord>, proj: Projection)
    ensures SentItems(users, uid, txs, proj) == SentItemsOf(users, Seqs.Filter(txs, SentFilter(users, uid)), proj)
  {
    if |txs| > 0 {
      SentItemsExact(users, uid, txs[1..], proj);
      var m' := Seqs.Filter(txs[1..], SentFilter(users, uid));
      if SentBy(users, uid, txs[0]) {
        assert Seqs.Filter(txs, SentFilter(users, uid)) == [txs[0]] + m';
        SentItemsOfCons(users, txs[0], m', proj);
      }
    }
  }

  lemma SentItemsOfCons(users: map<UserId, UserNode>, t: TxRecord, ts: seq<TxRecord>, proj: Projection)
    requires t.receiver in users && forall u :: u in ts ==> u.receiver in users
    ensures SentItemsOf(users, [t] + ts, proj) == [SentItem(users, t, proj)] + SentItemsOf(users, ts, proj)
  {
    assert forall u :: u in [t] + ts ==> u == t || u in ts;
  }

  /** The received part has one item per matching transaction, in the
      stored order. */
  lemma {:induction false} ReceivedItemsExact(users: map<UserId, UserNode>, uid: UserId, txs: seq<TxRecord>, proj: Projection)
    ensures ReceivedItems(users, uid, txs, proj) == ReceivedItemsOf(users, Seqs.Filter(txs, ReceivedFilter(users, uid)), proj)
  {
    if |txs| > 0 {
      ReceivedItemsExact(users, uid, txs[1..], proj);
      var m' := Seqs.Filter(txs[1..], ReceivedFilter(users, uid));
      if ReceivedBy(users, uid, txs[0]) {
        assert Seqs.Filter(txs, ReceivedFilter(users, uid)) == [txs[0]] + m';
        ReceivedItemsOfCons(users, txs[0], m', proj);
      }
    }
  }

  lemma ReceivedItemsOfCons(users: map<UserId, UserNode>, t: TxRecord, ts: seq<TxRecord>, proj: Projection)
    requires t.sender in users && forall u :: u in ts ==> u.sender in users
    ensures ReceivedItemsOf(users, [t] + ts, proj) == [ReceivedItem(users, t, proj)] + ReceivedItemsOf(users, ts, proj)
  {
    assert forall u :: u in [t] + ts ==> u == t || u in ts;
  }

  predicate NewestFirst(items: seq<FeedItem>) { Sorting.SortedDesc(items, DateKey) }

  /** The history query with a given projection: `sent + received` ordered
      by date, newest first. For an id with no user node the `MATCH` yields
      no row, and the final `collect` over no rows is the empty list, so
      the handler answers with an empty history rather than an error. */
  function History(s: Store, uid: UserId, proj: Projection): (items: seq<FeedItem>)
    ensures uid !in s.users ==> items == []
    ensures uid in s.users ==>
      && NewestFirst(items)
      && multiset(items) == multiset(SentItems(s.users, uid, s.txs, proj) + ReceivedItems(s.users, uid, s.txs, proj))
      && |items| == |SentItems(s.users, uid, s.txs, proj)| + |ReceivedItems(s.users, uid, s.txs, proj)|
  {
    if uid !in s.users then []
    else Sorting.SortDesc(SentItems(s.users, uid, s.txs, proj) + ReceivedItems(s.users, uid, s.txs, proj), DateKey)
  }

  /** `getUserTransactions` as written: the items carry no category. */
  function GetUserTransactions(s: Store, uid: UserId): seq<FeedItem> {
    History(s, uid, AsQueried)
  }

  /** The history with `category` selected, as the frontend expects. */
  function GetUserTransactionsWithCategory(s: Store, uid: UserId): seq<FeedItem> {
    History(s, uid, WithCategory)
  }

  /** A known user's history has one item per transaction that user sent
      to an existing receiver or received from an existing sender. */
  lemma HistoryLength(s: Store, uid: UserId, proj: Projection)
    requires uid in s.users
    ensures |History(s, uid, proj)|
      == |Seqs.Filter(s.txs, SentFilter(s.users, uid))| + |Seqs.Filter(s.txs, ReceivedFilter(s.users, uid))|
  {
    SentItemsExact(s.users, uid, s.txs, proj);
    ReceivedItemsExact(s.users, uid, s.txs, proj);
  }

  /** Completeness: the history of a known user holds every transaction it
      sent (tagged sent, receiver as counterparty) and every one it received
      (tagged received, sender as counterparty), and nothing else. */
  lemma HistoryComplete(s: Store, uid: UserId, proj: Projection)
    requires uid in s.users
    ensures var items := History(s, uid, proj);
      && (forall t :: t in s.txs && SentBy(s.users, uid, t) ==> SentItem(s.users, t, proj) in items)
      && (forall t :: t in s.txs && ReceivedBy(s.users, uid, t) ==> ReceivedItem(s.users, t, proj) in items)
      && (forall x :: x in items ==>
            ((exists t :: t in s.txs && SentBy(s.users, uid, t) && x == SentItem(s.users, t, proj)) ||
             (exists t :: t in s.txs && ReceivedBy(s.users, uid, t) && x == ReceivedItem(s.users, t, proj))))
  {
    var sent := SentItems(s.users, uid, s.txs, proj);
    var received := ReceivedItems(s.users, uid, s.txs, proj);
    var items := History(s, uid, proj);
    SameElements(items, sent + received);
    assert forall x :: x in items <==> x in sent || x in received;
  }

  lemma SameElements<T>(a: seq<T>, b: seq<T>)
    requires multiset(a) == multiset(b)
    ensures forall x :: x in a <==> x in b
  {
    forall x ensures x in a <==> x in b {
      assert x in a <==> x in multiset(a);
      assert x in b <==> x in multiset(b);
    }
  }

  /** A user no transaction touches gets an empty list, not an error. */
  lemma EmptyHistory(s: Store, uid: UserId, proj: Projection)
    requires forall t :: t in s.txs ==> t.sender != uid && t.receiver != uid
    ensures History(s, uid, proj) == []
  {
    NoneSent(s.users, uid, s.txs, proj);
    NoneReceived(s.users, uid, s.txs, proj);
  }

  lemma {:induction false} NoneSent(users: map<UserId, UserNode>, uid: UserId, txs: seq<TxRecord>, proj: Projection)
    requires forall t :: t in txs ==> t.sender != uid
    ensures SentItems(users, uid, txs, proj) == []
  {
    if |txs| > 0 {
      assert txs[0] in txs;
      NoneSent(users, uid, txs[1..], proj);
    }
  }

  lemma {:induction false} NoneReceived(users: map<UserId, UserNode>, uid: UserId, txs: seq<TxRecord>, proj: Projection)
    requires forall t :: t in txs ==> t.receiver != uid
    ensures ReceivedItems(users, uid, txs, proj) == []
  {
    if |txs| > 0 {
      assert txs[0] in txs;
      NoneReceived(users, uid, txs[1..], proj);
    }
  }

  /** In the history of a store extended by one transaction sent by `uid`
      to someone else, every item but the new one comes from an older
      transaction. */
  lemma OnlyNewItemIsRecent(s: Store, t: TxRecord, uid: UserId, proj: Projection)
    requires uid in s.users && t.receiver in s.users
    requires t.sender == uid && t.receiver != uid
    requires forall u :: u in s.txs ==> u.date < t.date
    ensures var items := History(Store(s.users, s.txs + [t]), uid, proj);
      && SentItem(s.users, t, proj) in items
      && forall x :: x in items && x != SentItem(s.users, t, proj) ==> x.tx.date < t.date
  {
    var s' := Store(s.users, s.txs + [t]);
    HistoryComplete(s', uid, proj);
    assert t in s'.txs;
    forall x | x in History(s', uid, proj) && x != SentItem(s.users, t, proj)
      ensures x.tx.date < t.date
    {
      OlderItem(s, t, uid, proj, x);
    }
  }

  /** Every other item of that history comes from an earlier transaction. */
  lemma OlderItem(s: Store, t: TxRecord, uid: UserId, proj: Projection, x: FeedItem)
    requires uid in s.users && t.receiver in s.users
    requires t.sender == uid && t.receiver != uid
    requires forall u :: u in s.txs ==> u.date < t.date
    requires x in History(Store(s.users, s.txs + [t]), uid, proj) && x != SentItem(s.users, t, proj)
    ensures x.tx.date < t.date
  {
    var s' := Store(s.users, s.txs + [t]);
    var u := ItemOrigin(s', uid, proj, x);
    assert u != t;
    assert u in s.txs;
  }

  /** The transaction an item of a user's history comes from. */
  lemma ItemOrigin(s: Store, uid: UserId, proj: Projection, x: FeedItem) returns (u: TxRecord)
    requires uid in s.users && x in History(s, uid, proj)
    ensures u in s.txs
    ensures || (SentBy(s.users, uid, u) && x == SentItem(s.users, u, proj))
            || (ReceivedBy(s.users, uid, u) && x == ReceivedItem(s.users, u, proj))
  {
    HistoryComplete(s, uid, proj);
    if exists t :: t in s.txs && SentBy(s.users, uid, t) && x == SentItem(s.users, t, proj) {
      u :| u in s.txs && SentBy(s.users, uid, u) && x == SentItem(s.users, u, proj);
    } else {
      u :| u in s.txs && ReceivedBy(s.users, uid, u) && x == ReceivedItem(s.users, u, proj);
    }
  }

  /** Sending and then reading the sender's history puts the new transfer
      first, when its timestamp is later than every earlier transaction. */
  lemma NewTransferHeadsHistory(s: Store, body: TransferBody, freshId: string, now: int, proj: Projection)
    requires CreateTransaction(s, body, freshId, now).response.Created?
    requires body.senderId.value != body.receiverId.value
    requires forall t :: t in s.txs ==> t.date < now
    ensures var o := CreateTransaction(s, body, freshId, now);
      var items := History(o.store, body.senderId.value, proj);
      |items| > 0 && items[0] == SentItem(o.store.users, o.response.transaction, proj)
  {
    var o := CreateTransaction(s, body, freshId, now);
    var sid := body.senderId.value;
    var t := o.response.transaction;
    var users := o.store.users;
    var s1 := Store(users, s.txs);
    assert o.store == Store(users, s.txs + [t]);
    OnlyNewItemIsRecent(s1, t, sid, proj);
    var items := History(o.store, sid, proj);
    Sorting.StrictMaxIsFirst(items, SentItem(users, t, proj), DateKey);
  }
}
