/**
 * The per-product aggregation of the daily report: orders are grouped by product id into the
 * summed quantity and the summed revenue, each grouping is sorted by value, largest first,
 * and its first three entries are kept.
 */
module ProductRanking {

  /** An order row as the report reads it; `totalPrice` is in cents. */
  datatype OrderRow = OrderRow(productId: int, quantity: int, totalPrice: int, createdAt: int)

  /** What a grouping sums: `summingInt(Order::getQuantity)` or the BigDecimal sum of `getTotalPrice`. */
  datatype Measure = Quantity | Revenue

  function WeightOf(m: Measure, row: OrderRow): int {
    match m
    case Quantity => row.quantity
    case Revenue => row.totalPrice
  }

  /** A map entry `productId -> sum`. */
  datatype Entry = Entry(id: int, value: int)

  /** The sum of a measure over all rows (for revenue: `totalRevenue`). */
  function SumWeights(rows: seq<OrderRow>, m: Measure): int {
    if rows == [] then 0 else SumWeights(rows[..|rows| - 1], m) + WeightOf(m, rows[|rows| - 1])
  }

  /** The sum of a measure over the rows of one product. */
  function SumWeightsFor(rows: seq<OrderRow>, m: Measure, id: int): int {
    if rows == [] then 0
    else
      var last := rows[|rows| - 1];
      SumWeightsFor(rows[..|rows| - 1], m, id) + (if last.productId == id then WeightOf(m, last) else 0)
  }

  function RowIds(rows: seq<OrderRow>): set<int> {
    if rows == [] then {} else RowIds(rows[..|rows| - 1]) + {rows[|rows| - 1].productId}
  }

  function Ids(g: seq<Entry>): set<int> {
    if g == [] then {} else {g[0].id} + Ids(g[1..])
  }

  predicate DistinctIds(g: seq<Entry>) {
    forall i, j :: 0 <= i < j < |g| ==> g[i].id != g[j].id
  }

  function Total(g: seq<Entry>): int {
    if g == [] then 0 else g[0].value + Total(g[1..])
  }

  /** The value held for `id`, 0 when there is no entry. */
  function ValueOf(g: seq<Entry>, id: int): int {
    if g == [] then 0 else (if g[0].id == id then g[0].value else 0) + ValueOf(g[1..], id)
  }

  /** Add `v` to the entry of `id`, creating it at the end when it is missing. */
  function AddTo(g: seq<Entry>, id: int, v: int): (r: seq<Entry>)
    ensures |r| == |g| + (if id in Ids(g) then 0 else 1)
    ensures Ids(r) == Ids(g) + {id}
    ensures Total(r) == Total(g) + v
    ensures forall k :: ValueOf(r, k) == ValueOf(g, k) + (if k == id then v else 0)
  {
    if g == [] then [Entry(id, v)]
    else if g[0].id == id then [Entry(id, g[0].value + v)] + g[1..]
    else [g[0]] + AddTo(g[1..], id, v)
  }

  lemma {:induction false} AddToDistinct(g: seq<Entry>, id: int, v: int)
    requires DistinctIds(g)
    ensures DistinctIds(AddTo(g, id, v))
    decreases |g|
  {
    if g != [] && g[0].id != id {
      var rest := AddTo(g[1..], id, v);
      AddToDistinct(g[1..], id, v);
      IdsMembers(rest);
      IdsMembers(g[1..]);
      forall i | 0 <= i < |g[1..]| ensures g[1..][i].id != g[0].id {
        assert g[1..][i] == g[i + 1];
      }
      assert g[0].id !in Ids(rest);
      var r := AddTo(g, id, v);
      assert r == [g[0]] + rest;
      forall j | 0 < j < |r| ensures r[0].id != r[j].id {
        assert r[j] == rest[j - 1];
      }
    }
  }

  lemma {:induction false} IdsMembers(g: seq<Entry>)
    ensures forall e :: e in g ==> e.id in Ids(g)
    ensures forall k :: k in Ids(g) ==> exists i :: 0 <= i < |g| && g[i].id == k
    decreases |g|
  {
    if g != [] {
      IdsMembers(g[1..]);
      forall k | k in Ids(g) ensures exists i :: 0 <= i < |g| && g[i].id == k {
        if k != g[0].id {
          var i :| 0 <= i < |g[1..]| && g[1..][i].id == k;
          assert g[i + 1].id == k;
        }
      }
    }
  }

  /** `groupingBy(Order::getProductId, summing ...)`, entries in order of first appearance. */
  function Group(rows: seq<OrderRow>, m: Measure): (g: seq<Entry>)
  {
    if rows == [] then []
    else AddTo(Group(rows[..|rows| - 1], m), rows[|rows| - 1].productId, WeightOf(m, rows[|rows| - 1]))
  }

  /**
   * The grouping has one entry per distinct product, each holding that product's sum, and the
   * sums add up to the sum over all rows.
   */
  lemma {:induction false} GroupFacts(rows: seq<OrderRow>, m: Measure)
    ensures DistinctIds(Group(rows, m))
    ensures Ids(Group(rows, m)) == RowIds(rows)
    ensures |Group(rows, m)| == |RowIds(rows)|
    ensures Total(Group(rows, m)) == SumWeights(rows, m)
    ensures forall k :: ValueOf(Group(rows, m), k) == SumWeightsFor(rows, m, k)
    decreases |rows|
  {
    if rows != [] {
      var init := rows[..|rows| - 1];
      GroupFacts(init, m);
      AddToDistinct(Group(init, m), rows[|rows| - 1].productId, WeightOf(m, rows[|rows| - 1]));
    }
  }

  /** With distinct ids, an entry's value is the value held for its id. */
  lemma {:induction false} EntryValue(g: seq<Entry>, i: int)
    requires DistinctIds(g) && 0 <= i < |g|
    ensures ValueOf(g, g[i].id) == g[i].value
    decreases |g|
  {
    if i == 0 {
      ValueOfAbsent(g[1..], g[0].id);
    } else {
      EntryValue(g[1..], i - 1);
    }
  }

  lemma {:induction false} ValueOfAbsent(g: seq<Entry>, id: int)
    requires forall j :: 0 <= j < |g| ==> g[j].id != id
    ensures ValueOf(g, id) == 0
    decreases |g|
  {
    if g != [] {
      ValueOfAbsent(g[1..], id);
    }
  }

  /** The ranking order: larger value first; equal values in ascending id. */
  predicate Before(a: Entry, b: Entry) {
    a.value > b.value || (a.value == b.value && a.id < b.id)
  }

  predicate NonIncreasing(s: seq<Entry>) {
    forall i, j :: 0 <= i < j < |s| ==> s[i].value >= s[j].value
  }

  function Insert(e: Entry, s: seq<Entry>): (r: seq<Entry>)
    ensures multiset(r) == multiset(s) + multiset{e}
    ensures |r| == |s| + 1
  {
    if s == [] then [e]
    else if Before(s[0], e) then
      assert s == [s[0]] + s[1..];
      [s[0]] + Insert(e, s[1..])
    else [e] + s
  }

  lemma {:induction false} InsertNonIncreasing(e: Entry, s: seq<Entry>)
    requires NonIncreasing(s)
    ensures NonIncreasing(Insert(e, s))
    decreases |s|
  {
    if s != [] && Before(s[0], e) {
      InsertNonIncreasing(e, s[1..]);
      var r := Insert(e, s);
      forall j | 0 < j < |r| ensures r[0].value >= r[j].value {
        assert r[j] in multiset(Insert(e, s[1..]));
        assert r[j] == e || r[j] in s[1..];
      }
    }
  }

  /** `sorted(comparingByValue().reversed())`. */
  function Sort(g: seq<Entry>): (r: seq<Entry>)
    ensures multiset(r) == multiset(g)
    ensures |r| == |g|
  {
    if g == [] then []
    else
      assert g == [g[0]] + g[1..];
      Insert(g[0], Sort(g[1..]))
  }

  lemma {:induction false} SortNonIncreasing(g: seq<Entry>)
    ensures NonIncreasing(Sort(g))
    decreases |g|
  {
    if g != [] {
      SortNonIncreasing(g[1..]);
      InsertNonIncreasing(g[0], Sort(g[1..]));
    }
  }

  /** `.limit(3)`. */
  function Top3(g: seq<Entry>): (r: seq<Entry>)
    ensures |r| == if |g| < 3 then |g| else 3
  {
    var s := Sort(g);
    if |s| < 3 then s else s[..3]
  }

  /** The ranking holds min(3, n) entries of the grouping, largest first, and no entry
      left out of it is larger than an entry kept. */
  lemma {:induction false} Top3Ranks(g: seq<Entry>)
    ensures NonIncreasing(Top3(g))
    ensures forall i :: 0 <= i < |Top3(g)| ==> Top3(g)[i] in g
    ensures forall x, i :: x in g && x !in Top3(g) && 0 <= i < |Top3(g)| ==> Top3(g)[i].value >= x.value
  {
    var s := Sort(g);
    SortNonIncreasing(g);
    var top := Top3(g);
    assert top == s[..|top|];
    forall i | 0 <= i < |top| ensures top[i] in g {
      assert top[i] in multiset(s);
    }
    forall x | x in g && x !in top
      ensures forall i :: 0 <= i < |top| ==> top[i].value >= x.value
    {
      assert x in multiset(s);
      PrefixDominates(s, |top|, x);
    }
  }

  /** In a list sorted largest first, every entry of a prefix is at least any entry after it. */
  lemma PrefixDominates(s: seq<Entry>, n: nat, x: Entry)
    requires NonIncreasing(s) && n <= |s| && x in s && x !in s[..n]
    ensures forall i :: 0 <= i < n ==> s[i].value >= x.value
  {
    forall k | 0 <= k < n ensures s[k] != x {
      assert s[..n][k] == s[k];
    }
    var j :| 0 <= j < |s| && s[j] == x;
    assert j >= n;
  }

  /**
   * The ranking of a measure over the window's orders: min(3, distinct products) entries,
   * largest first, each holding its product's sum over the rows.
   */
  lemma Top3Facts(rows: seq<OrderRow>, m: Measure)
    ensures |Top3(Group(rows, m))| == (if |RowIds(rows)| < 3 then |RowIds(rows)| else 3)
    ensures NonIncreasing(Top3(Group(rows, m)))
    ensures forall e :: e in Top3(Group(rows, m)) ==> e.value == SumWeightsFor(rows, m, e.id)
    ensures forall e :: e in Top3(Group(rows, m)) ==> e.id in RowIds(rows)
  {
    var g := Group(rows, m);
    GroupFacts(rows, m);
    Top3Ranks(g);
    IdsMembers(g);
    forall e | e in Top3(g) ensures e.value == SumWeightsFor(rows, m, e.id) {
      var k :| 0 <= k < |g| && g[k] == e;
      EntryValue(g, k);
    }
  }

  /** A product of the rows that the ranking leaves out has a sum no larger than any ranked
      entry: the ranking holds the largest sums. */
  lemma Top3Dominates(rows: seq<OrderRow>, m: Measure, id: int)
    requires id in RowIds(rows)
    requires forall j :: 0 <= j < |Top3(Group(rows, m))| ==> Top3(Group(rows, m))[j].id != id
    ensures forall i :: 0 <= i < |Top3(Group(rows, m))| ==> SumWeightsFor(rows, m, id) <= Top3(Group(rows, m))[i].value
  {
    var g := Group(rows, m);
    GroupFacts(rows, m);
    Top3Ranks(g);
    IdsMembers(g);
    var k :| 0 <= k < |g| && g[k].id == id;
    EntryValue(g, k);
    assert g[k] !in Top3(g);
  }

  /** With no negative weight, every product's sum is non-negative, and so is the total. */
  lemma {:induction false} SumsNonNegative(rows: seq<OrderRow>, m: Measure, id: int)
    requires forall i :: 0 <= i < |rows| ==> WeightOf(m, rows[i]) >= 0
    ensures SumWeightsFor(rows, m, id) >= 0 && SumWeights(rows, m) >= 0
    decreases |rows|
  {
    if rows != [] {
      var init := rows[..|rows| - 1];
      assert forall i :: 0 <= i < |init| ==> init[i] == rows[i];
      SumsNonNegative(init, m, id);
    }
  }

  lemma {:induction false} InsertTotal(e: Entry, s: seq<Entry>)
    ensures Total(Insert(e, s)) == e.value + Total(s)
    decreases |s|
  {
    if s != [] && Before(s[0], e) {
      InsertTotal(e, s[1..]);
      assert ([s[0]] + Insert(e, s[1..]))[1..] == Insert(e, s[1..]);
    } else if s != [] {
      assert ([e] + s)[1..] == s;
    }
  }

  /** Sorting keeps the total. */
  lemma {:induction false} SortTotal(g: seq<Entry>)
    ensures Total(Sort(g)) == Total(g)
    decreases |g|
  {
    if g != [] {
      SortTotal(g[1..]);
      InsertTotal(g[0], Sort(g[1..]));
    }
  }

  /** With no negative entry, a prefix totals at most the whole. */
  lemma {:induction false} PrefixTotal(s: seq<Entry>, n: nat)
    requires n <= |s| && forall i :: 0 <= i < |s| ==> s[i].value >= 0
    ensures 0 <= Total(s[..n]) <= Total(s)
    decreases |s|
  {
    if s != [] {
      var k: nat := if n == 0 then 0 else n - 1;
      assert forall i :: 0 <= i < |s[1..]| ==> s[1..][i] == s[i + 1];
      PrefixTotal(s[1..], k);
      if n > 0 {
        assert s[..n][1..] == s[1..][..k];
      } else {
        assert s[..n] == [] && s[1..][..k] == [];
      }
    }
  }

  /** With no negative weight, every entry of the grouping is non-negative. */
  lemma GroupNonNegative(rows: seq<OrderRow>, m: Measure)
    requires forall i :: 0 <= i < |rows| ==> WeightOf(m, rows[i]) >= 0
    ensures forall e :: e in Group(rows, m) ==> e.value >= 0
  {
    var g := Group(rows, m);
    GroupFacts(rows, m);
    forall e | e in g ensures e.value >= 0 {
      var k :| 0 <= k < |g| && g[k] == e;
      EntryValue(g, k);
      SumsNonNegative(rows, m, e.id);
    }
  }

  /** With no negative weight, the ranked entries add up to at most the sum over all rows. */
  lemma Top3WithinTotal(rows: seq<OrderRow>, m: Measure)
    requires forall i :: 0 <= i < |rows| ==> WeightOf(m, rows[i]) >= 0
    ensures 0 <= Total(Top3(Group(rows, m))) <= SumWeights(rows, m)
  {
    var g := Group(rows, m);
    var s := Sort(g);
    GroupFacts(rows, m);
    GroupNonNegative(rows, m);
    SortTotal(g);
    forall i | 0 <= i < |s| ensures s[i].value >= 0 {
      assert s[i] in multiset(s);
      assert s[i] in g;
    }
    var top := Top3(g);
    assert top == s[..|top|];
    PrefixTotal(s, |top|);
  }

  /** All revenue groups add up to `totalRevenue`, and all quantity groups to the total quantity. */
  lemma GroupsSumToTotal(rows: seq<OrderRow>)
    ensures Total(Group(rows, Revenue)) == SumWeights(rows, Revenue)
    ensures Total(Group(rows, Quantity)) == SumWeights(rows, Quantity)
  {
    GroupFacts(rows, Revenue);
    GroupFacts(rows, Quantity);
  }
}
