/** `calculateStats` of the transactions page: role totals, the average,
    the per-category roll-up of sent transactions sorted by amount, and the
    fixed monthly and daily windows. Calendar arithmetic is a parameter:
    `keyOf` maps a date to its month (or day) number, and the window ends at
    the current month (or day). */
module TransactionStats {
  import opened Values
  import Seqs
  import Sorting
  import opened Feed
  import Ledger

  function TotalSent(items: seq<FeedItem>): real { Total(SentOnly(items)) }
  function TotalReceived(items: seq<FeedItem>): real { Total(ReceivedOnly(items)) }

  /** `(totalSent + totalReceived) / totalTransactions`, or 0 for no items:
      the mean amount over all items. */
  function AverageTransaction(items: seq<FeedItem>): (a: real)
    ensures |items| == 0 ==> a == 0.0
    ensures |items| > 0 ==> a * (|items| as real) == Total(items)
  {
    RolesPartition(items);
    var n := |items|;
    if n > 0 then
      DivTimes(TotalSent(items) + TotalReceived(items), n as real);
      (TotalSent(items) + TotalReceived(items)) / (n as real)
    else 0.0
  }

  lemma DivTimes(a: real, b: real)
    requires b > 0.0
    ensures (a / b) * b == a
  {
  }

  // ---------------------------------------------------------------------
  // Fixed windows

  const MonthBuckets: nat := 12
  const DayBuckets: nat := 30

  datatype Bucket = Bucket(key: int, sent: real, received: real)

  /** The window `last - n + 1 .. last`, oldest first, all zero. */
  function EmptyWindow(last: int, n: nat): (bs: seq<Bucket>)
    ensures |bs| == n
    ensures forall i :: 0 <= i < n ==> bs[i] == Bucket(last - n + 1 + i, 0.0, 0.0)
  {
    seq(n, i requires 0 <= i < n => Bucket(last - n + 1 + i, 0.0, 0.0))
  }

  predicate DistinctKeys(bs: seq<Bucket>) {
    forall i, j :: 0 <= i < j < |bs| ==> bs[i].key != bs[j].key
  }

  predicate HasKey(bs: seq<Bucket>, k: int) {
    exists i :: 0 <= i < |bs| && bs[i].key == k
  }

  /** One `forEach` step: if the item's key is a bucket, its amount goes to
      that bucket's field for the item's role. */
  function AddToWindow(bs: seq<Bucket>, k: int, it: FeedItem): (r: seq<Bucket>)
    ensures |r| == |bs|
    ensures forall i :: 0 <= i < |bs| ==> r[i].key == bs[i].key
  {
    seq(|bs|, i requires 0 <= i < |bs| =>
      if bs[i].key != k then bs[i]
      else if it.role == Sent then bs[i].(sent := bs[i].sent + it.tx.amount)
      else bs[i].(received := bs[i].received + it.tx.amount))
  }

  function FillWindow(bs: seq<Bucket>, items: seq<FeedItem>, keyOf: int -> int): (r: seq<Bucket>)
    ensures |r| == |bs|
    ensures forall i :: 0 <= i < |bs| ==> r[i].key == bs[i].key
    decreases |items|
  {
    if |items| == 0 then bs
    else FillWindow(AddToWindow(bs, keyOf(items[0].tx.date), items[0]), items[1..], keyOf)
  }

  /** `monthlyData`: twelve months ending at `currentMonth`. */
  function MonthlyData(items: seq<FeedItem>, currentMonth: int, monthOf: int -> int): seq<Bucket> {
    FillWindow(EmptyWindow(currentMonth, MonthBuckets), items, monthOf)
  }

  /** `dailyData`: thirty days ending at `today`. */
  function DailyData(items: seq<FeedItem>, today: int, dayOf: int -> int): seq<Bucket> {
    FillWindow(EmptyWindow(today, DayBuckets), items, dayOf)
  }

  /** The items of a role whose date falls on key `k`. */
  function OnKey(items: seq<FeedItem>, role: Role, k: int, keyOf: int -> int): seq<FeedItem> {
    Seqs.Filter(items, (it: FeedItem) => it.role == role && keyOf(it.tx.date) == k)
  }

  lemma OnKeyCons(items: seq<FeedItem>, role: Role, k: int, keyOf: int -> int)
    requires |items| > 0
    ensures Total(OnKey(items, role, k, keyOf))
         == (if items[0].role == role && keyOf(items[0].tx.date) == k then items[0].tx.amount else 0.0)
          + Total(OnKey(items[1..], role, k, keyOf))
  {
    var p := (it: FeedItem) => it.role == role && keyOf(it.tx.date) == k;
    var h := if p(items[0]) then [items[0]] else [];
    Seqs.SumByAppend(h, Seqs.Filter(items[1..], p), Amount);
    if p(items[0]) { assert h[1..] == []; }
  }

  /** Each bucket holds what it started with plus the amounts of the items
      of each role whose key is the bucket's key. */
  lemma {:induction false} FillWindowContents(bs: seq<Bucket>, items: seq<FeedItem>, keyOf: int -> int)
    ensures forall i :: 0 <= i < |bs| ==>
      && FillWindow(bs, items, keyOf)[i].sent == bs[i].sent + Total(OnKey(items, Sent, bs[i].key, keyOf))
      && FillWindow(bs, items, keyOf)[i].received == bs[i].received + Total(OnKey(items, Received, bs[i].key, keyOf))
    decreases |items|
  {
    if |items| > 0 {
      var bs' := AddToWindow(bs, keyOf(items[0].tx.date), items[0]);
      FillWindowContents(bs', items[1..], keyOf);
      forall i | 0 <= i < |bs|
        ensures FillWindow(bs, items, keyOf)[i].sent == bs[i].sent + Total(OnKey(items, Sent, bs[i].key, keyOf))
        ensures FillWindow(bs, items, keyOf)[i].received == bs[i].received + Total(OnKey(items, Received, bs[i].key, keyOf))
      {
        OnKeyCons(items, Sent, bs[i].key, keyOf);
        OnKeyCons(items, Received, bs[i].key, keyOf);
      }
    }
  }

  /** The windows have exactly 12 and 30 consecutive buckets, oldest first;
      each holds the sum of the amounts of its role's items dated in it, so
      items outside the window are ignored. */
  lemma WindowsContents(items: seq<FeedItem>, currentMonth: int, monthOf: int -> int, today: int, dayOf: int -> int)
    ensures var m := MonthlyData(items, currentMonth, monthOf);
      && |m| == 12
      && forall i :: 0 <= i < 12 ==>
           && m[i].key == currentMonth - 11 + i
           && m[i].sent == Total(OnKey(items, Sent, m[i].key, monthOf))
           && m[i].received == Total(OnKey(items, Received, m[i].key, monthOf))
    ensures var d := DailyData(items, today, dayOf);
      && |d| == 30
      && forall i :: 0 <= i < 30 ==>
           && d[i].key == today - 29 + i
           && d[i].sent == Total(OnKey(items, Sent, d[i].key, dayOf))
           && d[i].received == Total(OnKey(items, Received, d[i].key, dayOf))
  {
    FillWindowContents(EmptyWindow(currentMonth, MonthBuckets), items, monthOf);
    FillWindowContents(EmptyWindow(today, DayBuckets), items, dayOf);
  }

  /** Sum of one role's field over the buckets. */
  function WindowTotal(bs: seq<Bucket>, role: Role): real {
    if |bs| == 0 then 0.0
    else (if role == Sent then bs[0].sent else bs[0].received) + WindowTotal(bs[1..], role)
  }

  lemma {:induction false} AddToWindowTotal(bs: seq<Bucket>, k: int, it: FeedItem, role: Role)
    requires DistinctKeys(bs)
    ensures WindowTotal(AddToWindow(bs, k, it), role)
         == WindowTotal(bs, role) + (if HasKey(bs, k) && it.role == role then it.tx.amount else 0.0)
  {
    if |bs| > 0 {
      var r := AddToWindow(bs, k, it);
      assert r[1..] == AddToWindow(bs[1..], k, it);
      assert DistinctKeys(bs[1..]) by {
        forall i, j | 0 <= i < j < |bs[1..]| ensures bs[1..][i].key != bs[1..][j].key {
          assert bs[1..][i] == bs[i + 1] && bs[1..][j] == bs[j + 1];
        }
      }
      AddToWindowTotal(bs[1..], k, it, role);
      if bs[0].key == k {
        assert !HasKey(bs[1..], k) by {
          forall i | 0 <= i < |bs[1..]| ensures bs[1..][i].key != k {
            assert bs[1..][i] == bs[i + 1];
          }
        }
      } else {
        assert HasKey(bs, k) <==> HasKey(bs[1..], k) by {
          if HasKey(bs, k) {
            var i :| 0 <= i < |bs| && bs[i].key == k;
            assert bs[1..][i - 1].key == k;
          }
          if HasKey(bs[1..], k) {
            var i :| 0 <= i < |bs[1..]| && bs[1..][i].key == k;
            assert bs[i + 1].key == k;
          }
        }
      }
    }
  }

  /** With non-negative amounts, filling a window adds at most a role's total. */
  lemma {:induction false} FillWindowBounded(bs: seq<Bucket>, items: seq<FeedItem>, keyOf: int -> int, role: Role)
    requires DistinctKeys(bs)
    requires forall it :: it in items ==> it.tx.amount >= 0.0
    ensures WindowTotal(FillWindow(bs, items, keyOf), role)
         <= WindowTotal(bs, role) + Total(Seqs.Filter(items, (it: FeedItem) => it.role == role))
    decreases |items|
  {
    if |items| > 0 {
      var bs' := AddToWindow(bs, keyOf(items[0].tx.date), items[0]);
      AddToWindowTotal(bs, keyOf(items[0].tx.date), items[0], role);
      assert DistinctKeys(bs') by {
        forall i, j | 0 <= i < j < |bs'| ensures bs'[i].key != bs'[j].key {
          assert bs'[i].key == bs[i].key && bs'[j].key == bs[j].key;
        }
      }
      assert forall it :: it in items[1..] ==> it in items;
      FillWindowBounded(bs', items[1..], keyOf, role);
      var p := (it: FeedItem) => it.role == role;
      var h := if p(items[0]) then [items[0]] else [];
      Seqs.SumByAppend(h, Seqs.Filter(items[1..], p), Amount);
      if p(items[0]) { assert h[1..] == []; }
      assert items[0] in items;
    }
  }

  lemma EmptyWindowFacts(last: int, n: nat, role: Role)
    ensures DistinctKeys(EmptyWindow(last, n))
    ensures WindowTotal(EmptyWindow(last, n), role) == 0.0
    decreases n
  {
    var bs := EmptyWindow(last, n);
    if n > 0 {
      assert bs[1..] == EmptyWindow(last, n - 1) by {
        forall i | 0 <= i < n - 1 ensures bs[1..][i] == EmptyWindow(last, n - 1)[i] { }
      }
      EmptyWindowFacts(last, n - 1, role);
    }
  }

  /** With non-negative amounts the monthly sums of a role never exceed that
      role's total. */
  lemma MonthlyWithinTotals(items: seq<FeedItem>, currentMonth: int, monthOf: int -> int)
    requires forall it :: it in items ==> it.tx.amount >= 0.0
    ensures WindowTotal(MonthlyData(items, currentMonth, monthOf), Sent) <= TotalSent(items)
    ensures WindowTotal(MonthlyData(items, currentMonth, monthOf), Received) <= TotalReceived(items)
  {
    var bs := EmptyWindow(currentMonth, MonthBuckets);
    EmptyWindowFacts(currentMonth, MonthBuckets, Sent);
    EmptyWindowFacts(currentMonth, MonthBuckets, Received);
    FillWindowBounded(bs, items, monthOf, Sent);
    FillWindowBounded(bs, items, monthOf, Received);
    Seqs.FilterExt(items, (it: FeedItem) => it.role == Sent, IsSent);
    Seqs.FilterExt(items, (it: FeedItem) => it.role == Received, IsReceived);
  }

  /** The same bound for the daily window. */
  lemma DailyWithinTotals(items: seq<FeedItem>, today: int, dayOf: int -> int)
    requires forall it :: it in items ==> it.tx.amount >= 0.0
    ensures WindowTotal(DailyData(items, today, dayOf), Sent) <= TotalSent(items)
    ensures WindowTotal(DailyData(items, today, dayOf), Received) <= TotalReceived(items)
  {
    var bs := EmptyWindow(today, DayBuckets);
    EmptyWindowFacts(today, DayBuckets, Sent);
    EmptyWindowFacts(today, DayBuckets, Received);
    FillWindowBounded(bs, items, dayOf, Sent);
    FillWindowBounded(bs, items, dayOf, Received);
    Seqs.FilterExt(items, (it: FeedItem) => it.role == Sent, IsSent);
    Seqs.FilterExt(items, (it: FeedItem) => it.role == Received, IsReceived);
  }

  // ---------------------------------------------------------------------
  // Spending by category

  /** One `categoryData` entry. The key is whatever `t.tx.category` holds,
      `None` standing for `undefined`. */
  datatype CategoryStat = CategoryStat(category: Option<string>, amount: real, count: nat)

  function StatAmount(s: CategoryStat): real { s.amount }
  function StatCount(s: CategoryStat): real { s.count as real }

  predicate DistinctCategories(stats: seq<CategoryStat>) {
    forall i, j :: 0 <= i < j < |stats| ==> stats[i].category != stats[j].category
  }

  function Categories(stats: seq<CategoryStat>): set<Option<string>> {
    set s | s in stats :: s.category
  }

  /** The amount and count `stats` record for category `c`. */
  function AmountFor(stats: seq<CategoryStat>, c: Option<string>): real {
    if |stats| == 0 then 0.0
    else (if stats[0].category == c then stats[0].amount else 0.0) + AmountFor(stats[1..], c)
  }

  function CountFor(stats: seq<CategoryStat>, c: Option<string>): nat {
    if |stats| == 0 then 0
    else (if stats[0].category == c then stats[0].count else 0) + CountFor(stats[1..], c)
  }

  /** One `forEach` step of the category map: a new key is inserted at the
      end with `{amount: 0, count: 0}`, then the entry for the key grows. */
  function AddCategory(stats: seq<CategoryStat>, c: Option<string>, amt: real): (r: seq<CategoryStat>)
    ensures |r| == |stats| || |r| == |stats| + 1
  {
    if |stats| == 0 then [CategoryStat(c, amt, 1)]
    else if stats[0].category == c then [stats[0].(amount := stats[0].amount + amt, count := stats[0].count + 1)] + stats[1..]
    else [stats[0]] + AddCategory(stats[1..], c, amt)
  }

  lemma {:induction false} AddCategoryFor(stats: seq<CategoryStat>, c: Option<string>, amt: real, d: Option<string>)
    ensures AmountFor(AddCategory(stats, c, amt), d) == AmountFor(stats, d) + (if d == c then amt else 0.0)
    ensures CountFor(AddCategory(stats, c, amt), d) == CountFor(stats, d) + (if d == c then 1 else 0)
  {
    var r := AddCategory(stats, c, amt);
    if |stats| > 0 {
      if stats[0].category == c {
        assert r[1..] == stats[1..];
      } else {
        assert r[1..] == AddCategory(stats[1..], c, amt);
        AddCategoryFor(stats[1..], c, amt, d);
      }
    }
  }

  lemma {:induction false} AddCategoryShape(stats: seq<CategoryStat>, c: Option<string>, amt: real)
    ensures Categories(AddCategory(stats, c, amt)) == Categories(stats) + {c}
    ensures DistinctCategories(stats) ==> DistinctCategories(AddCategory(stats, c, amt))
  {
    var r := AddCategory(stats, c, amt);
    if |stats| > 0 {
      CategoriesCons(stats);
      CategoriesCons(r);
      if stats[0].category == c {
        assert r[1..] == stats[1..];
      } else {
        var rest := AddCategory(stats[1..], c, amt);
        assert r[1..] == rest;
        AddCategoryShape(stats[1..], c, amt);
        if DistinctCategories(stats) {
          TailDistinct(stats);
          forall i, j | 0 <= i < j < |r| ensures r[i].category != r[j].category {
            if i == 0 {
              assert r[j] in rest;
            } else {
              assert r[i] == rest[i - 1] && r[j] == rest[j - 1];
            }
          }
        }
      }
    }
  }

  lemma {:induction false} AddCategorySums(stats: seq<CategoryStat>, c: Option<string>, amt: real)
    ensures Seqs.SumBy(AddCategory(stats, c, amt), StatAmount) == Seqs.SumBy(stats, StatAmount) + amt
    ensures Seqs.SumBy(AddCategory(stats, c, amt), StatCount) == Seqs.SumBy(stats, StatCount) + 1.0
  {
    var r := AddCategory(stats, c, amt);
    if |stats| > 0 {
      if stats[0].category == c {
        assert r[1..] == stats[1..];
      } else {
        assert r[1..] == AddCategory(stats[1..], c, amt);
        AddCategorySums(stats[1..], c, amt);
      }
    }
  }

  /** The category map after the `forEach` over `items`, starting from `stats`. */
  function RollupFrom(stats: seq<CategoryStat>, items: seq<FeedItem>): seq<CategoryStat>
    decreases |items|
  {
    if |items| == 0 then stats
    else RollupFrom(AddCategory(stats, items[0].tx.category, items[0].tx.amount), items[1..])
  }

  /** The filter selecting one category. */
  function InCategory(c: Option<string>): FeedItem -> bool {
    (it: FeedItem) => it.tx.category == c
  }

  function OfCategory(items: seq<FeedItem>, c: Option<string>): seq<FeedItem> {
    Seqs.Filter(items, InCategory(c))
  }

  function ItemCategories(items: seq<FeedItem>): set<Option<string>> {
    set it | it in items :: it.tx.category
  }

  lemma {:induction false} RollupFromFor(stats: seq<CategoryStat>, items: seq<FeedItem>, d: Option<string>)
    ensures AmountFor(RollupFrom(stats, items), d) == AmountFor(stats, d) + Total(OfCategory(items, d))
    ensures CountFor(RollupFrom(stats, items), d) == CountFor(stats, d) + |OfCategory(items, d)|
    decreases |items|
  {
    if |items| > 0 {
      var c := items[0].tx.category;
      AddCategoryFor(stats, c, items[0].tx.amount, d);
      RollupFromFor(AddCategory(stats, c, items[0].tx.amount), items[1..], d);
      var h := if c == d then [items[0]] else [];
      assert OfCategory(items, d) == h + OfCategory(items[1..], d);
      Seqs.SumByAppend(h, OfCategory(items[1..], d), Amount);
      if c == d { assert h[1..] == []; }
    }
  }

  lemma {:induction false} RollupFromShape(stats: seq<CategoryStat>, items: seq<FeedItem>)
    ensures Categories(RollupFrom(stats, items)) == Categories(stats) + ItemCategories(items)
    ensures DistinctCategories(stats) ==> DistinctCategories(RollupFrom(stats, items))
    ensures Seqs.SumBy(RollupFrom(stats, items), StatAmount) == Seqs.SumBy(stats, StatAmount) + Total(items)
    ensures Seqs.SumBy(RollupFrom(stats, items), StatCount) == Seqs.SumBy(stats, StatCount) + |items| as real
    decreases |items|
  {
    if |items| > 0 {
      var c := items[0].tx.category;
      AddCategoryShape(stats, c, items[0].tx.amount);
      AddCategorySums(stats, c, items[0].tx.amount);
      RollupFromShape(AddCategory(stats, c, items[0].tx.amount), items[1..]);
      assert ItemCategories(items) == {c} + ItemCategories(items[1..]) by {
        assert forall x :: x in items <==> x == items[0] || x in items[1..];
      }
    }
  }

  /** A category's entry in a map with distinct keys holds the map's whole
      amount and count for that category. */
  lemma {:induction false} EntryHoldsAll(stats: seq<CategoryStat>, s: CategoryStat)
    requires DistinctCategories(stats)
    requires s in stats
    ensures AmountFor(stats, s.category) == s.amount
    ensures CountFor(stats, s.category) == s.count
  {
    TailDistinct(stats);
    if stats[0] == s {
      AbsentFor(stats[1..], s.category);
    } else {
      var k :| 0 <= k < |stats| && stats[k] == s;
      assert stats[1..][k - 1] == s;
      EntryHoldsAll(stats[1..], s);
    }
  }

  lemma {:induction false} AbsentFor(stats: seq<CategoryStat>, c: Option<string>)
    requires c !in Categories(stats)
    ensures AmountFor(stats, c) == 0.0 && CountFor(stats, c) == 0
  {
    if |stats| > 0 {
      assert stats[0] in stats;
      assert Categories(stats[1..]) <= Categories(stats) by {
        assert forall x :: x in stats[1..] ==> x in stats;
      }
      AbsentFor(stats[1..], c);
    }
  }

  /** `categoryData`: the map over the sent items, largest amount first. */
  function CategoryData(items: seq<FeedItem>): seq<CategoryStat> {
    Sorting.SortDesc(RollupFrom([], SentOnly(items)), StatAmount)
  }

  /** The category statistics are a faithful roll-up of the sent items: one
      entry per category that occurs, holding that category's sum and
      count, the entries ordered by amount, and their sums the sent totals. */
  lemma CategoryDataContents(items: seq<FeedItem>)
    ensures var r := CategoryData(items);
      && Sorting.SortedDesc(r, StatAmount)
      && multiset(r) == multiset(RollupFrom([], SentOnly(items)))
      && DistinctCategories(RollupFrom([], SentOnly(items)))
      && Categories(r) == ItemCategories(SentOnly(items))
      && (forall s :: s in r ==>
            && s.amount == Total(OfCategory(SentOnly(items), s.category))
            && s.count == |OfCategory(SentOnly(items), s.category)|)
      && Seqs.SumBy(r, StatAmount) == TotalSent(items)
      && Seqs.SumBy(r, StatCount) == |SentOnly(items)| as real
  {
    var sent := SentOnly(items);
    var m := RollupFrom([], sent);
    var r := CategoryData(items);
    RollupFromShape([], sent);
    Ledger.SameElements(r, m);
    assert Categories(r) == Categories(m);
    forall s | s in r
      ensures s.amount == Total(OfCategory(sent, s.category))
      ensures s.count == |OfCategory(sent, s.category)|
    {
      EntryHoldsAll(m, s);
      RollupFromFor([], sent, s.category);
    }
    Sorting.SumSort(m, StatAmount, StatAmount);
    Sorting.SumSort(m, StatAmount, StatCount);
  }

  // ---------------------------------------------------------------------
  // The history's projection and the category statistics

  /** Items without a category roll up into at most one entry, keyed `None`. */
  lemma UncategorisedCollapse(items: seq<FeedItem>)
    requires forall x :: x in items ==> x.tx.category == None
    ensures |CategoryData(items)| <= 1
    ensures forall e :: e in CategoryData(items) ==> e.category == None
  {
    var sent := SentOnly(items);
    var m := RollupFrom([], sent);
    CategoryDataContents(items);
    RollupFromShape([], sent);
    assert ItemCategories(sent) <= {None};
    assert Categories(m) <= {None};
    DistinctCount(m);
    if None in Categories(m) {
      assert Categories(m) == {None};
    } else {
      assert Categories(m) == {};
    }
    assert |CategoryData(items)| == |m|;
  }

  /** Distinct keys: one entry per category. */
  lemma {:induction false} DistinctCount(stats: seq<CategoryStat>)
    requires DistinctCategories(stats)
    ensures |Categories(stats)| == |stats|
  {
    if |stats| > 0 {
      TailDistinct(stats);
      DistinctCount(stats[1..]);
      CategoriesCons(stats);
    }
  }

  lemma TailDistinct(stats: seq<CategoryStat>)
    requires |stats| > 0 && DistinctCategories(stats)
    ensures DistinctCategories(stats[1..])
    ensures stats[0].category !in Categories(stats[1..])
  {
    forall i, j | 0 <= i < j < |stats[1..]| ensures stats[1..][i].category != stats[1..][j].category {
      assert stats[1..][i] == stats[i + 1] && stats[1..][j] == stats[j + 1];
    }
    forall x | x in stats[1..] ensures x.category != stats[0].category {
      var k :| 0 <= k < |stats[1..]| && stats[1..][k] == x;
      assert stats[k + 1] == x;
    }
  }

  lemma CategoriesCons(stats: seq<CategoryStat>)
    requires |stats| > 0
    ensures Categories(stats) == {stats[0].category} + Categories(stats[1..])
  {
    assert forall x :: x in stats <==> x == stats[0] || x in stats[1..];
  }

  /** As written, the history items carry no category, so every sent
      transaction lands in the one `undefined` entry: at most one entry,
      keyed `None`, whatever categories the transfers were given. */
  lemma CategoriesCollapseAsQueried(s: Ledger.Store, uid: string)
    requires uid in s.users
    ensures var r := CategoryData(Ledger.GetUserTransactions(s, uid));
      && |r| <= 1
      && forall e :: e in r ==> e.category == None
  {
    var items := Ledger.GetUserTransactions(s, uid);
    Ledger.HistoryComplete(s, uid, Ledger.AsQueried);
    assert forall x :: x in items ==> x.tx.category == None;
    UncategorisedCollapse(items);
  }

  /** With the category selected, every category the user sent money under
      appears in the statistics. */
  lemma CategoriesKeptWithCategory(s: Ledger.Store, uid: string, t: Ledger.TxRecord)
    requires uid in s.users
    requires t in s.txs && Ledger.SentBy(s.users, uid, t)
    ensures var items := Ledger.GetUserTransactionsWithCategory(s, uid);
      Some(t.category) in Categories(CategoryData(items))
  {
    var items := Ledger.GetUserTransactionsWithCategory(s, uid);
    Ledger.HistoryComplete(s, uid, Ledger.WithCategory);
    var x := Ledger.SentItem(s.users, t, Ledger.WithCategory);
    assert x in SentOnly(items);
    CategoryDataContents(items);
    assert x.tx.category in ItemCategories(SentOnly(items));
  }
}
