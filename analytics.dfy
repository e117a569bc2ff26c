/** The aggregation in the analytics dashboard
    (`src/pages/AnalyticsDashboard.js`): totals, the time-window filter, and
    the groupings behind the line chart, the pie chart and the category
    breakdown. Every total is one plain sum of amounts; there is no
    currency. */
module Analytics {
  import opened Wrappers
  import opened Text
  import opened Seqs
  import opened Sorting
  import opened Records

  /** What a render of the dashboard depends on besides the transactions:
      the `timeFilter` and `selectedMonth` state, and the first day of the
      current day and week as `YYYY-MM-DD`, which the component derives
      from `new Date()`. */
  datatype View = View(timeFilter: string, selectedMonth: string, today: string, weekStart: string)

  function Amount(t: Transaction): int {
    t.amount
  }

  /** `ts.reduce((sum, t) => sum + t.amount, 0)`: `totalAllTime` and
      `filteredTotal`. */
  function Total(ts: seq<Transaction>): int {
    SumBy(ts, Amount)
  }

  /** No transactions total zero; with no negative amount the total is not
      negative; with every amount positive, as the journal's validation
      ensures, it is at least the number of transactions. */
  lemma {:induction false} TotalBounds(ts: seq<Transaction>)
    ensures ts == [] ==> Total(ts) == 0
    ensures (forall t :: t in ts ==> t.amount >= 0) ==> Total(ts) >= 0
    ensures (forall t :: t in ts ==> t.amount > 0) ==> Total(ts) >= |ts|
  {
    SumByAtLeast(ts, Amount, 0);
    SumByAtLeast(ts, Amount, 1);
  }

  /** `t => t.date.startsWith(month)`. */
  function InMonth(month: string): Transaction -> bool {
    (t: Transaction) => StartsWith(t.date, month)
  }

  /** `totalSelectedMonth`. */
  function TotalSelectedMonth(ts: seq<Transaction>, month: string): (r: int)
    ensures r == Total(ts) - Total(Keep(ts, Outside(InMonth(month))))
    ensures (forall t :: t in ts ==> t.amount >= 0) ==> 0 <= r <= Total(ts)
  {
    TotalSplits(ts, InMonth(month));
    TotalBounds(Keep(ts, InMonth(month)));
    TotalBounds(Keep(ts, Outside(InMonth(month))));
    Total(Keep(ts, InMonth(month)))
  }

  /** The transactions a test drops. */
  function Outside(p: Transaction -> bool): Transaction -> bool {
    (t: Transaction) => !p(t)
  }

  /** `t => new Date(t.date) >= start`: a date that does not parse is never
      on or after anything. */
  function OnOrAfter(start: string): Transaction -> bool {
    (t: Transaction) => IsIsoDate(t.date) && LexLe(start, t.date)
  }

  /** The test `getFilteredTransactions` applies for each `timeFilter`. */
  function Window(v: View): Transaction -> bool {
    if v.timeFilter == "daily" then OnOrAfter(v.today)
    else if v.timeFilter == "weekly" then OnOrAfter(v.weekStart)
    else if v.timeFilter == "monthly" then InMonth(v.selectedMonth)
    else (_: Transaction) => true
  }

  /** `getFilteredTransactions()`: the transactions in the window, in their
      order; any other `timeFilter` keeps them all. */
  function Filtered(ts: seq<Transaction>, v: View): (r: seq<Transaction>)
    ensures SubsequenceOf(r, ts)
    ensures forall t :: t in r <==> t in ts && Window(v)(t)
    ensures forall t :: multiset(r)[t] == if Window(v)(t) then multiset(ts)[t] else 0
    ensures v.timeFilter !in {"daily", "weekly", "monthly"} ==> r == ts
  {
    KeepIsSubsequence(ts, Window(v));
    KeepCounts(ts, Window(v));
    if v.timeFilter !in {"daily", "weekly", "monthly"} then
      KeepAll(ts, Window(v));
      ts
    else
      Keep(ts, Window(v))
  }

  lemma {:induction false} KeepAll(ts: seq<Transaction>, p: Transaction -> bool)
    requires forall t :: p(t)
    ensures Keep(ts, p) == ts
  {
    if ts != [] {
      KeepAll(ts[..|ts| - 1], p);
      assert ts == ts[..|ts| - 1] + [ts[|ts| - 1]];
    }
  }

  /** The monthly view is the selected month's transactions, so its total
      is the selected-month total. */
  lemma MonthlyIsSelectedMonth(ts: seq<Transaction>, v: View)
    requires v.timeFilter == "monthly"
    ensures Filtered(ts, v) == Keep(ts, InMonth(v.selectedMonth))
    ensures Total(Filtered(ts, v)) == TotalSelectedMonth(ts, v.selectedMonth)
  {
  }

  /** The week starts no later than today, so the daily view is the weekly
      view narrowed further: a subsequence of it. */
  lemma DailyWithinWeekly(ts: seq<Transaction>, v: View)
    requires LexLe(v.weekStart, v.today)
    ensures Filtered(ts, v.(timeFilter := "daily")) ==
            Keep(Filtered(ts, v.(timeFilter := "weekly")), OnOrAfter(v.today))
    ensures SubsequenceOf(Filtered(ts, v.(timeFilter := "daily")), Filtered(ts, v.(timeFilter := "weekly")))
  {
    forall t | OnOrAfter(v.today)(t) ensures OnOrAfter(v.weekStart)(t) {
      LexLeTransitive(v.weekStart, v.today, t.date);
    }
    KeepOfKeep(ts, OnOrAfter(v.today), OnOrAfter(v.weekStart));
    KeepIsSubsequence(Filtered(ts, v.(timeFilter := "weekly")), OnOrAfter(v.today));
  }

  /** What a chart groups by. */
  datatype Facet = ByDate | ByCategory

  function KeyOf(t: Transaction, f: Facet): string {
    match f
    case ByDate => t.date
    case ByCategory => t.category
  }

  function KeysOf(ts: seq<Transaction>, f: Facet): seq<string> {
    Map(ts, (t: Transaction) => KeyOf(t, f))
  }

  /** The transactions that fall under key `k`. */
  function Matches(f: Facet, k: string): Transaction -> bool {
    (t: Transaction) => KeyOf(t, f) == k
  }

  /** One entry of the object built in a `forEach`: a key with the running
      total and count of its transactions. The line and pie charts read
      only the total. */
  datatype Bucket = Bucket(key: string, total: int, count: nat)

  function BucketKey(b: Bucket): string {
    b.key
  }

  function BucketTotal(b: Bucket): int {
    b.total
  }

  function BucketCount(b: Bucket): int {
    b.count
  }

  function Keys(bs: seq<Bucket>): seq<string> {
    Map(bs, BucketKey)
  }

  function HasKey(k: string): Bucket -> bool {
    (b: Bucket) => b.key == k
  }

  /** `if (!acc[key]) acc[key] = {total: 0, count: 0}; acc[key].total +=
      amount; acc[key].count += 1`, on an insertion-ordered object. */
  function Deposit(bs: seq<Bucket>, k: string, amount: int): seq<Bucket> {
    match FindIndex(bs, HasKey(k))
    case Some(i) => bs[i := Bucket(k, bs[i].total + amount, bs[i].count + 1)]
    case None => bs + [Bucket(k, amount, 1)]
  }

  lemma {:induction false} DepositSums(bs: seq<Bucket>, k: string, amount: int)
    ensures SumBy(Deposit(bs, k, amount), BucketTotal) == SumBy(bs, BucketTotal) + amount
    ensures SumBy(Deposit(bs, k, amount), BucketCount) == SumBy(bs, BucketCount) + 1
  {
    match FindIndex(bs, HasKey(k))
    case Some(j) =>
      var b := Bucket(k, bs[j].total + amount, bs[j].count + 1);
      assert Deposit(bs, k, amount) == bs[j := b];
      SumByUpdate(bs, j, b, BucketTotal);
      SumByUpdate(bs, j, b, BucketCount);
    case None =>
      var b := Bucket(k, amount, 1);
      assert Deposit(bs, k, amount) == bs + [b];
      assert (bs + [b])[..|bs|] == bs;
  }

  /** A deposit adds the key at the end when it is new and leaves the keys
      as they were otherwise. */
  lemma {:induction false} DepositKeys(bs: seq<Bucket>, k: string, amount: int)
    ensures Keys(Deposit(bs, k, amount)) == if k in Keys(bs) then Keys(bs) else Keys(bs) + [k]
  {
    match FindIndex(bs, HasKey(k))
    case Some(i) =>
      assert Keys(bs)[i] == k;
      assert Keys(Deposit(bs, k, amount)) == Keys(bs);
    case None =>
      assert k !in Keys(bs) by {
        forall j | 0 <= j < |bs| ensures Keys(bs)[j] != k {
          assert !HasKey(k)(bs[j]);
        }
      }
  }

  /** The object after the `forEach` over `ts`. */
  function Tally(ts: seq<Transaction>, f: Facet): seq<Bucket> {
    if ts == [] then []
    else Deposit(Tally(ts[..|ts| - 1], f), KeyOf(ts[|ts| - 1], f), ts[|ts| - 1].amount)
  }

  /** The `forEach` loop that `getLineChartData`, `getPieChartData` and
      `getCategorySummary` each run. */
  method TallyLoop(ts: seq<Transaction>, f: Facet) returns (bs: seq<Bucket>)
    ensures bs == Tally(ts, f)
  {
    bs := [];
    var i := 0;
    while i < |ts|
      invariant i <= |ts|
      invariant bs == Tally(ts[..i], f)
    {
      bs := Accumulate(bs, KeyOf(ts[i], f), ts[i].amount);
      TallyStep(ts, i, f);
      i := i + 1;
    }
    assert ts[..|ts|] == ts;
  }

  /** The object holds at most one entry per transaction, and it is empty
      exactly when there are no transactions. */
  lemma {:induction false} TallySize(ts: seq<Transaction>, f: Facet)
    ensures |Tally(ts, f)| <= |ts|
    ensures Tally(ts, f) == [] <==> ts == []
  {
    if ts != [] {
      var init, last := ts[..|ts| - 1], ts[|ts| - 1];
      TallySize(init, f);
      var bs, k := Tally(init, f), KeyOf(last, f);
      match FindIndex(bs, HasKey(k))
      case Some(j) =>
        assert Deposit(bs, k, last.amount) == bs[j := Bucket(k, bs[j].total + last.amount, bs[j].count + 1)];
      case None =>
        assert Deposit(bs, k, last.amount) == bs + [Bucket(k, last.amount, 1)];
    }
  }

  /** The body of that loop's callback: create the key's entry when it is
      missing, then add the amount to its total and one to its count. */
  method Accumulate(bs: seq<Bucket>, k: string, amount: int) returns (r: seq<Bucket>)
    ensures r == Deposit(bs, k, amount)
  {
    r := bs;
    var at := FindIndex(r, HasKey(k));
    if at.None? {
      r := r + [Bucket(k, 0, 0)];
      at := Some(|r| - 1);
    }
    var b := r[at.value];
    r := r[at.value := Bucket(k, b.total + amount, b.count + 1)];
  }

  lemma {:induction false} TallyStep(ts: seq<Transaction>, i: nat, f: Facet)
    requires i < |ts|
    ensures Tally(ts[..i + 1], f) == Deposit(Tally(ts[..i], f), KeyOf(ts[i], f), ts[i].amount)
  {
    assert ts[..i + 1][..i] == ts[..i];
  }

  /** The object's keys are the distinct keys of the transactions, in the
      order they first appear. */
  lemma {:induction false} TallyKeys(ts: seq<Transaction>, f: Facet)
    ensures Keys(Tally(ts, f)) == Dedup(KeysOf(ts, f))
  {
    if ts != [] {
      var init, last := ts[..|ts| - 1], ts[|ts| - 1];
      TallyKeys(init, f);
      DepositKeys(Tally(init, f), KeyOf(last, f), last.amount);
      assert KeysOf(ts, f)[..|ts| - 1] == KeysOf(init, f);
    }
  }

  /** Each bucket holds the total and the number of the transactions that
      carry its key. */
  ghost predicate Accounts(bs: seq<Bucket>, ts: seq<Transaction>, f: Facet) {
    forall i :: 0 <= i < |bs| ==>
      bs[i].total == Total(Keep(ts, Matches(f, bs[i].key))) &&
      bs[i].count == |Keep(ts, Matches(f, bs[i].key))|
  }

  lemma KeepLast(ts: seq<Transaction>, p: Transaction -> bool)
    requires ts != []
    ensures var init, last := ts[..|ts| - 1], ts[|ts| - 1];
            Total(Keep(ts, p)) == Total(Keep(init, p)) + (if p(last) then last.amount else 0) &&
            |Keep(ts, p)| == |Keep(init, p)| + (if p(last) then 1 else 0)
  {
    var init, last := ts[..|ts| - 1], ts[|ts| - 1];
    var k := Keep(init, p);
    if p(last) {
      assert Keep(ts, p) == k + [last];
      assert (k + [last])[..|k|] == k;
      assert Total(k + [last]) == Total(k) + last.amount;
    } else {
      assert Keep(ts, p) == k;
    }
  }

  lemma {:induction false} NoMatchKeepsNothing(ts: seq<Transaction>, f: Facet, k: string)
    requires k !in KeysOf(ts, f)
    ensures Keep(ts, Matches(f, k)) == []
  {
    if ts != [] {
      var init := ts[..|ts| - 1];
      assert KeysOf(ts, f)[..|ts| - 1] == KeysOf(init, f);
      assert KeysOf(ts, f)[|ts| - 1] != k;
      NoMatchKeepsNothing(init, f, k);
    }
  }

  lemma {:induction false} TallyAccounts(ts: seq<Transaction>, f: Facet)
    ensures Accounts(Tally(ts, f), ts, f)
  {
    if ts != [] {
      var init, last := ts[..|ts| - 1], ts[|ts| - 1];
      var before := Tally(init, f);
      var k := KeyOf(last, f);
      TallyAccounts(init, f);
      TallyKeys(init, f);
      var after := Tally(ts, f);
      assert after == Deposit(before, k, last.amount);
      forall i | 0 <= i < |after|
        ensures after[i].total == Total(Keep(ts, Matches(f, after[i].key)))
        ensures after[i].count == |Keep(ts, Matches(f, after[i].key))|
      {
        KeepLast(ts, Matches(f, after[i].key));
        match FindIndex(before, HasKey(k))
        case Some(j) =>
          if i != j {
            assert Keys(before)[i] != Keys(before)[j];
          }
        case None =>
          if i == |before| {
            assert k !in Keys(before) by {
              forall j | 0 <= j < |before| ensures Keys(before)[j] != k {
                assert !HasKey(k)(before[j]);
              }
            }
            NoMatchKeepsNothing(init, f, k);
          }
      }
    }
  }

  /** The buckets' totals add up to the total of all the transactions, and
      their counts to the number of transactions. */
  lemma {:induction false} TallySums(ts: seq<Transaction>, f: Facet)
    ensures SumBy(Tally(ts, f), BucketTotal) == Total(ts)
    ensures SumBy(Tally(ts, f), BucketCount) == |ts|
  {
    if ts != [] {
      var init, last := ts[..|ts| - 1], ts[|ts| - 1];
      TallySums(init, f);
      DepositSums(Tally(init, f), KeyOf(last, f), last.amount);
    }
  }


  /** Every bucket counts at least one transaction. */
  lemma {:induction false} TallyCountsPositive(ts: seq<Transaction>, f: Facet)
    ensures forall b :: b in Tally(ts, f) ==> b.count >= 1
  {
    if ts != [] {
      TallyCountsPositive(ts[..|ts| - 1], f);
    }
  }

  /** `groupedData[k]`: the total under `k`. The chart asks only for keys
      that are present; an absent key reads as `0` here. */
  function TotalUnder(bs: seq<Bucket>): string -> int {
    (k: string) =>
      match FindIndex(bs, HasKey(k))
      case Some(i) => bs[i].total
      case None => 0
  }

  /** Looking a key up in the tallied object gives the total of the
      transactions under that key. */
  lemma LookupTally(ts: seq<Transaction>, f: Facet, k: string)
    ensures TotalUnder(Tally(ts, f))(k) == Total(Keep(ts, Matches(f, k)))
  {
    var bs := Tally(ts, f);
    TallyAccounts(ts, f);
    if FindIndex(bs, HasKey(k)).None? {
      assert k !in Keys(bs) by {
        forall j | 0 <= j < |bs| ensures Keys(bs)[j] != k {
          assert !HasKey(k)(bs[j]);
        }
      }
      TallyKeys(ts, f);
      NoMatchKeepsNothing(ts, f, k);
    }
  }

  /** The default string order is a total preorder, so `sort()` applies. */
  lemma LexLeSorts()
    ensures TotalPreorder(LexLe)
  {
    forall a, b ensures LexLe(a, b) || LexLe(b, a) {
      LexLeTotal(a, b);
    }
    forall a, b, c | LexLe(a, b) && LexLe(b, c) ensures LexLe(a, c) {
      LexLeTransitive(a, b, c);
    }
  }

  /** The bucket totals read back through their keys. */
  lemma TotalsThroughKeys(ts: seq<Transaction>, f: Facet)
    ensures SumBy(Keys(Tally(ts, f)), TotalUnder(Tally(ts, f))) == Total(ts)
  {
    var bs := Tally(ts, f);
    TallyAccounts(ts, f);
    forall i | 0 <= i < |bs| ensures TotalUnder(bs)(Keys(bs)[i]) == BucketTotal(bs[i]) {
      LookupTally(ts, f, bs[i].key);
    }
    SumByPointwise(Keys(bs), TotalUnder(bs), bs, BucketTotal);
    TallySums(ts, f);
  }

  /** The dates of the line chart: each date once, ascending. */
  lemma SortedDates(fs: seq<Transaction>, dates: seq<string>)
    requires TotalPreorder(LexLe)
    requires dates == SortBy(Keys(Tally(fs, ByDate)), LexLe)
    ensures forall i, j :: 0 <= i < j < |dates| ==> LexLess(dates[i], dates[j])
    ensures forall d :: d in dates <==> d in KeysOf(fs, ByDate)
  {
    var keys := Keys(Tally(fs, ByDate));
    TallyKeys(fs, ByDate);
    DistinctPermutation(keys, dates);
    forall d ensures d in dates <==> d in keys {
      assert d in multiset(dates) <==> d in multiset(keys);
    }
  }

  /** The amounts of the line chart: each date's total, adding up to the
      total of the window. */
  lemma DateAmounts(fs: seq<Transaction>, dates: seq<string>)
    requires TotalPreorder(LexLe)
    requires dates == SortBy(Keys(Tally(fs, ByDate)), LexLe)
    ensures forall i :: 0 <= i < |dates| ==>
              Map(dates, TotalUnder(Tally(fs, ByDate)))[i] == Total(Keep(fs, Matches(ByDate, dates[i])))
    ensures Sum(Map(dates, TotalUnder(Tally(fs, ByDate)))) == Total(fs)
  {
    var bs := Tally(fs, ByDate);
    forall i | 0 <= i < |dates|
      ensures Map(dates, TotalUnder(bs))[i] == Total(Keep(fs, Matches(ByDate, dates[i])))
    {
      LookupTally(fs, ByDate, dates[i]);
    }
    SumMap(dates, TotalUnder(bs));
    SumByPermutation(dates, Keys(bs), TotalUnder(bs));
    TotalsThroughKeys(fs, ByDate);
  }

  /** `getLineChartData()`: the dates of the window, each once and in
      ascending order, with each date's total. The totals add up to
      `filteredTotal`. */
  method LineChartData(ts: seq<Transaction>, v: View) returns (dates: seq<string>, amounts: seq<int>)
    ensures |amounts| == |dates|
    ensures forall i, j :: 0 <= i < j < |dates| ==> LexLess(dates[i], dates[j])
    ensures forall d :: d in dates <==> d in KeysOf(Filtered(ts, v), ByDate)
    ensures forall i :: 0 <= i < |dates| ==>
              amounts[i] == Total(Keep(Filtered(ts, v), Matches(ByDate, dates[i])))
    ensures Sum(amounts) == Total(Filtered(ts, v))
  {
    var filtered := Filtered(ts, v);
    var bs := TallyLoop(filtered, ByDate);
    LexLeSorts();
    dates := SortBy(Keys(bs), LexLe);
    amounts := Map(dates, TotalUnder(bs));
    SortedDates(filtered, dates);
    DateAmounts(filtered, dates);
  }

  /** The pie chart's `colors` list. It repeats itself: the first and the
      seventh category get the same colour. */
  const Palette: seq<string> := [
    "#FF6384", "#36A2EB", "#FFCE56", "#4BC0C0", "#9966FF",
    "#FF9F40", "#FF6384", "#C9CBCF", "#4BC0C0", "#FF6384",
    "#36A2EB", "#FFCE56", "#4BC0C0", "#9966FF", "#FF9F40",
    "#FF6384", "#C9CBCF", "#4BC0C0"]

  function Opaque(color: string): string {
    ReplaceFirst(color, "0.6", "1")
  }

  /** Each category's total in the pie chart, adding up to the total of
      the window. */
  lemma CategoryAmounts(fs: seq<Transaction>)
    ensures Keys(Tally(fs, ByCategory)) == Dedup(KeysOf(fs, ByCategory))
    ensures forall i :: 0 <= i < |Tally(fs, ByCategory)| ==>
              Map(Tally(fs, ByCategory), BucketTotal)[i] ==
              Total(Keep(fs, Matches(ByCategory, Keys(Tally(fs, ByCategory))[i])))
    ensures Sum(Map(Tally(fs, ByCategory), BucketTotal)) == Total(fs)
  {
    TallyKeys(fs, ByCategory);
    TallyAccounts(fs, ByCategory);
    TallySums(fs, ByCategory);
    SumMap(Tally(fs, ByCategory), BucketTotal);
  }

  /** No palette entry contains `0.6`, so the border colours are the
      background colours. */
  lemma OpaqueKeepsPalette(n: nat)
    requires n <= |Palette|
    ensures Map(Palette[..n], Opaque) == Palette[..n]
  {
    forall i | 0 <= i < n ensures Opaque(Palette[i]) == Palette[i] {
      assert '.' !in Palette[i];
      ReplaceMissing(Palette[i], "0.6", "1", '.');
    }
  }

  /** The first and the seventh colour are the same. */
  lemma PaletteRepeats()
    ensures |Palette| == 18 && Palette[0] == Palette[6]
  {
  }

  /** `getPieChartData()`: the window's categories in the order they first
      appear, each with its total, and one palette colour per category for
      as long as the palette lasts. */
  method PieChartData(ts: seq<Transaction>, v: View)
    returns (labels: seq<string>, amounts: seq<int>, background: seq<string>, border: seq<string>)
    ensures labels == Dedup(KeysOf(Filtered(ts, v), ByCategory))
    ensures |amounts| == |labels|
    ensures forall i :: 0 <= i < |labels| ==>
              amounts[i] == Total(Keep(Filtered(ts, v), Matches(ByCategory, labels[i])))
    ensures Sum(amounts) == Total(Filtered(ts, v))
    ensures |background| == if |labels| <= |Palette| then |labels| else |Palette|
    ensures forall i :: 0 <= i < |background| ==> background[i] == Palette[i]
    ensures |labels| > 6 ==> background[0] == background[6]
    ensures border == background
  {
    var filtered := Filtered(ts, v);
    var bs := TallyLoop(filtered, ByCategory);
    labels := Keys(bs);
    amounts := Map(bs, BucketTotal);
    var n := if |labels| <= |Palette| then |labels| else |Palette|;
    background := Palette[..n];
    border := Map(background, Opaque);
    CategoryAmounts(filtered);
    OpaqueKeepsPalette(n);
    PaletteRepeats();
  }

  /** `(a, b) => b.total - a.total`: `a` may stand before `b` when its
      total is not smaller. */
  predicate HigherTotalFirst(a: Bucket, b: Bucket) {
    a.total >= b.total
  }

  lemma HigherTotalFirstSorts()
    ensures TotalPreorder(HigherTotalFirst)
  {
  }

  /** The rows of the category summary: the tallied buckets reordered, so
      each is one category with its total and count. */
  lemma SummaryRows(fs: seq<Transaction>, rows: seq<Bucket>)
    requires multiset(rows) == multiset(Tally(fs, ByCategory))
    ensures forall i, j :: 0 <= i < j < |rows| ==> rows[i].key != rows[j].key
    ensures forall c :: c in Keys(rows) <==> c in KeysOf(fs, ByCategory)
    ensures forall i :: 0 <= i < |rows| ==>
              rows[i].total == Total(Keep(fs, Matches(ByCategory, rows[i].key))) &&
              rows[i].count == |Keep(fs, Matches(ByCategory, rows[i].key))| &&
              rows[i].count >= 1
  {
    var bs := Tally(fs, ByCategory);
    TallyKeys(fs, ByCategory);
    TallyAccounts(fs, ByCategory);
    TallyCountsPositive(fs, ByCategory);
    MapPermutation(bs, rows, BucketKey);
    DistinctPermutation(Keys(bs), Keys(rows));
    forall i, j | 0 <= i < j < |rows| ensures rows[i].key != rows[j].key {
      assert Keys(rows)[i] != Keys(rows)[j];
    }
    forall c ensures c in Keys(rows) <==> c in Keys(bs) {
      assert c in multiset(Keys(rows)) <==> c in multiset(Keys(bs));
    }
    forall i | 0 <= i < |rows|
      ensures rows[i].total == Total(Keep(fs, Matches(ByCategory, rows[i].key)))
      ensures rows[i].count == |Keep(fs, Matches(ByCategory, rows[i].key))|
      ensures rows[i].count >= 1
    {
      assert rows[i] in multiset(bs);
    }
  }

  /** The summary's totals and counts add up to the window's, and it is
      empty exactly when the window is. */
  lemma SummarySums(fs: seq<Transaction>, rows: seq<Bucket>)
    requires multiset(rows) == multiset(Tally(fs, ByCategory))
    ensures SumBy(rows, BucketTotal) == Total(fs)
    ensures SumBy(rows, BucketCount) == |fs|
    ensures rows == [] <==> fs == []
  {
    var bs := Tally(fs, ByCategory);
    TallySums(fs, ByCategory);
    SumByPermutation(rows, bs, BucketTotal);
    SumByPermutation(rows, bs, BucketCount);
  }

  /** `getCategorySummary()`: one row per category of the window with its
      total and count, largest total first; rows with equal totals keep
      the order in which their categories first appear. */
  method CategorySummary(ts: seq<Transaction>, v: View) returns (rows: seq<Bucket>)
    ensures forall i, j :: 0 <= i < j < |rows| ==> rows[i].key != rows[j].key
    ensures forall c :: c in Keys(rows) <==> c in KeysOf(Filtered(ts, v), ByCategory)
    ensures forall i :: 0 <= i < |rows| ==>
              rows[i].total == Total(Keep(Filtered(ts, v), Matches(ByCategory, rows[i].key))) &&
              rows[i].count == |Keep(Filtered(ts, v), Matches(ByCategory, rows[i].key))| &&
              rows[i].count >= 1
    ensures forall i, j :: 0 <= i < j < |rows| ==> rows[i].total >= rows[j].total
    ensures SumBy(rows, BucketTotal) == Total(Filtered(ts, v))
    ensures SumBy(rows, BucketCount) == |Filtered(ts, v)|
    ensures rows == [] <==> Filtered(ts, v) == []
    ensures forall e :: Keep(rows, RanksAlike(HigherTotalFirst, e)) ==
                        Keep(Tally(Filtered(ts, v), ByCategory), RanksAlike(HigherTotalFirst, e))
  {
    var filtered := Filtered(ts, v);
    var bs := TallyLoop(filtered, ByCategory);
    HigherTotalFirstSorts();
    rows := SortBy(bs, HigherTotalFirst);
    SummaryRows(filtered, rows);
    SummarySums(filtered, rows);
    forall e ensures Keep(rows, RanksAlike(HigherTotalFirst, e)) == Keep(bs, RanksAlike(HigherTotalFirst, e)) {
      SortByStable(bs, HigherTotalFirst, e);
    }
  }

  /** A total splits into the part a test keeps and the part it drops: the
      all-time total is the selected month's total plus the rest. */
  lemma {:induction false} TotalSplits(ts: seq<Transaction>, p: Transaction -> bool)
    ensures Total(ts) == Total(Keep(ts, p)) + Total(Keep(ts, Outside(p)))
  {
    if ts != [] {
      TotalSplits(ts[..|ts| - 1], p);
      KeepLast(ts, p);
      KeepLast(ts, Outside(p));
    }
  }
}
