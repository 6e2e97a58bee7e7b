/**
 * `frontend/src/utils/Utils.js`: the helpers that turn the fetched
 * expenses and incomes into what the dashboard shows. Dates are integer
 * milliseconds; `new Date(string)` is a parameter, and so is each period's
 * cutoff, which the source computes from the clock.
 */
module Utils {
  import opened Lang
  import opened Js

  /** One expense or income as the API returns it; a missing property is
      `None` (or `Undefined`). */
  datatype Item = Item(
    id: JsValue, amount: Option<int>, category: Option<string>,
    createDate: JsValue, description: Option<string>, userId: JsValue)

  /** An argument that may or may not be an array. */
  datatype Data = NotAnArray | Array(items: seq<Item>)

  /** `new Date(s).getTime()` for a string that is not all digits; `None`
      is `NaN`, an unparsable date. */
  type DateParser = string -> Option<int>

  // ---- parseDateToTimestamp ----

  /** Seconds as a number or as a digit string become milliseconds; any
      other string goes to the date parser; everything falsy, and anything
      that is neither a number nor a string, is `null`. */
  function ParseDateToTimestamp(v: JsValue, parseDate: DateParser): (t: Option<int>)
    ensures !Truthy(v) ==> t.None?
    ensures v.Num? && v.n != 0 ==> t == Some(v.n * 1000)
    ensures v.Str? && AllDigits(v.s) ==> t == Some(DigitsValue(v.s) * 1000)
    ensures v.Str? && v.s != [] && !AllDigits(v.s) ==> t == parseDate(v.s)
    ensures v.Bool? || v.Obj? ==> t.None?
  {
    if !Truthy(v) then None
    else
      match v
      case Num(n) => Some(n * 1000)
      case Str(s) => if AllDigits(s) then Some(DigitsValue(s) * 1000) else parseDate(s)
      case _ => None
  }

  /** A positive number of seconds and its decimal string give the same
      timestamp, whatever the date parser does. */
  lemma SecondsAsStringOrNumber(n: nat, parseDate: DateParser)
    requires n > 0
    ensures ParseDateToTimestamp(Str(NatToString(n)), parseDate) == ParseDateToTimestamp(Num(n), parseDate) == Some(n * 1000)
  {
  }

  /** Zero differs: the number 0 is falsy and gives `null`, while the
      string "0" is truthy and gives 0. */
  lemma ZeroNumberAndZeroString(parseDate: DateParser)
    ensures ParseDateToTimestamp(Num(0), parseDate).None?
    ensures ParseDateToTimestamp(Str("0"), parseDate) == Some(0)
  {
    assert DigitsValue("0") == DigitsValue("0"[..0]) * 10 + DigitValue('0');
  }

  // ---- filterDataByPeriod ----

  /** The start of each window ("last 7, 30 and 365 days"), in milliseconds. */
  datatype Cutoffs = Cutoffs(week: int, month: int, year: int)

  function CutoffOf(period: string, c: Cutoffs): (r: Option<int>)
    ensures r.Some? <==> period in {"left", "center", "right"}
  {
    if period == "left" then Some(c.week)
    else if period == "center" then Some(c.month)
    else if period == "right" then Some(c.year)
    else None
  }

  /** The filter callback: a missing, unparsable or zero timestamp drops
      the item; otherwise it is kept when not before the cutoff. */
  predicate KeptSince(x: Item, cutoff: int, parseDate: DateParser) {
    var t := ParseDateToTimestamp(x.createDate, parseDate);
    t.Some? && t.value != 0 && t.value >= cutoff
  }

  function FilterDataByPeriod(data: Data, period: string, c: Cutoffs, parseDate: DateParser): (r: seq<Item>)
    ensures data.NotAnArray? ==> r == []
    ensures data.Array? && CutoffOf(period, c).None? ==> r == data.items
    ensures data.Array? && CutoffOf(period, c).Some? ==>
              && IsSubsequence(r, data.items)
              && (forall x :: x in r <==> x in data.items && KeptSince(x, CutoffOf(period, c).value, parseDate))
              && forall x :: multiset(r)[x] == if KeptSince(x, CutoffOf(period, c).value, parseDate) then multiset(data.items)[x] else 0
  {
    match data
    case NotAnArray => []
    case Array(items) =>
      match CutoffOf(period, c)
      case None => items
      case Some(cutoff) => Filter(items, (x: Item) => KeptSince(x, cutoff, parseDate))
  }

  /** Windows nest: with the cutoffs in calendar order, whatever the week
      keeps the month keeps, and whatever the month keeps the year keeps. */
  lemma WindowsNest(items: seq<Item>, c: Cutoffs, parseDate: DateParser)
    requires c.year <= c.month <= c.week
    ensures forall x :: x in FilterDataByPeriod(Array(items), "left", c, parseDate) ==>
                        x in FilterDataByPeriod(Array(items), "center", c, parseDate)
    ensures forall x :: x in FilterDataByPeriod(Array(items), "center", c, parseDate) ==>
                        x in FilterDataByPeriod(Array(items), "right", c, parseDate)
  {
  }

  // ---- groupDataByCategory and calculateTotalAmount ----

  const Other: string := "Другое"

  /** `item.category || 'Другое'`. */
  function CategoryOf(x: Item): (c: string)
    ensures c != []
  {
    if x.category.None? || x.category.value == [] then Other else x.category.value
  }

  /** `item.amount || 0`. */
  function AmountOf(x: Item): int {
    x.amount.GetOr(0)
  }

  /** The running total of `reduce((total, item) => total + amount, 0)`. */
  function Total(s: seq<Item>): int {
    if s == [] then 0 else Total(s[..|s| - 1]) + AmountOf(s[|s| - 1])
  }

  /** The amounts of the items of category `c`, added up in order. */
  function CategorySum(s: seq<Item>, c: string): int {
    if s == [] then 0
    else CategorySum(s[..|s| - 1], c) + (if CategoryOf(s[|s| - 1]) == c then AmountOf(s[|s| - 1]) else 0)
  }

  /** The categories in the order they first appear. */
  function Labels(s: seq<Item>): seq<string> {
    if s == [] then []
    else
      var p := Labels(s[..|s| - 1]);
      if CategoryOf(s[|s| - 1]) in p then p else p + [CategoryOf(s[|s| - 1])]
  }

  /** `{ label, value, id }`; `label` is a keyword in Dafny, hence `name`. */
  datatype Entry = Entry(name: string, value: int, id: string)

  /** One entry per category, with its sum, and the label as id. */
  function Entries(s: seq<Item>): seq<Entry> {
    var labels := Labels(s);
    seq(|labels|, i requires 0 <= i < |labels| => Entry(labels[i], CategorySum(s, labels[i]), labels[i]))
  }

  function CalculateTotalAmount(data: Data): int {
    match data
    case NotAnArray => 0
    case Array(items) => Total(items)
  }

  /** The reduce into a dictionary, then `Object.entries(...).map(...)`.
      `!acc[category]` also holds for a sum that is 0; resetting it to 0
      then changes nothing. */
  method GroupDataByCategory(data: Data) returns (r: seq<Entry>)
    ensures data.NotAnArray? ==> r == []
    ensures data.Array? ==> r == Entries(data.items)
  {
    if data.NotAnArray? {
      return [];
    }
    var items := data.items;
    var acc: map<string, int> := map[];
    var keys: seq<string> := [];
    var i := 0;
    while i < |items|
      invariant 0 <= i <= |items|
      invariant Grouped(items[..i], keys, acc)
    {
      var item := items[i];
      var category := if item.category.Some? && item.category.value != [] then item.category.value else Other;
      ghost var keys0, acc0 := keys, acc;
      if category !in acc || acc[category] == 0 {
        if category !in acc {
          keys := keys + [category];
        }
        acc := acc[category := 0];
      }
      acc := acc[category := acc[category] + (if item.amount.Some? then item.amount.value else 0)];
      GroupStep(items, i, keys0, acc0, keys, acc);
      i := i + 1;
    }
    assert items[..i] == items;
    GroupedEntries(items, keys, acc);
    r := seq(|keys|, j requires 0 <= j < |keys| => Entry(keys[j], acc[keys[j]], keys[j]));
  }

  /** The loop's state after `p`: the categories seen so far, in order,
      and each one's running sum. */
  ghost predicate Grouped(p: seq<Item>, keys: seq<string>, acc: map<string, int>) {
    && keys == Labels(p)
    && (forall k :: k in acc <==> k in keys)
    && (forall k :: k in acc ==> acc[k] == CategorySum(p, k))
  }

  /** One iteration: the item's category is added to the keys when new,
      and its amount to that category's sum; every other sum stays. */
  lemma GroupStep(s: seq<Item>, i: nat, keys: seq<string>, acc: map<string, int>,
                  keys': seq<string>, acc': map<string, int>)
    requires i < |s| && Grouped(s[..i], keys, acc)
    requires keys' == if CategoryOf(s[i]) in acc then keys else keys + [CategoryOf(s[i])]
    requires forall k :: k in acc' <==> k in acc || k == CategoryOf(s[i])
    requires forall k :: k in acc' ==>
               acc'[k] == if k == CategoryOf(s[i]) then (if k in acc then acc[k] else 0) + AmountOf(s[i]) else acc[k]
    ensures Grouped(s[..i + 1], keys', acc')
  {
    PrefixStep(s, i);
    if CategoryOf(s[i]) !in acc {
      AbsentCategorySumsToZero(s[..i], CategoryOf(s[i]));
    }
  }

  /** The finished loop's keys and sums are the entries. */
  lemma GroupedEntries(s: seq<Item>, keys: seq<string>, acc: map<string, int>)
    requires Grouped(s, keys, acc)
    ensures |Entries(s)| == |keys|
    ensures forall j :: 0 <= j < |keys| ==> keys[j] in acc && Entries(s)[j] == Entry(keys[j], acc[keys[j]], keys[j])
  {
  }

  /** One more item: its category joins the labels when it is new, and
      its amount joins that category's sum. */
  lemma PrefixStep(s: seq<Item>, i: nat)
    requires i < |s|
    ensures Labels(s[..i + 1])
         == if CategoryOf(s[i]) in Labels(s[..i]) then Labels(s[..i]) else Labels(s[..i]) + [CategoryOf(s[i])]
    ensures forall k :: CategorySum(s[..i + 1], k)
                     == CategorySum(s[..i], k) + if CategoryOf(s[i]) == k then AmountOf(s[i]) else 0
  {
    assert s[..i + 1][..i] == s[..i];
  }

  /** Each category is listed once. */
  lemma {:induction false} LabelsDistinct(s: seq<Item>)
    ensures forall i, j :: 0 <= i < j < |Labels(s)| ==> Labels(s)[i] != Labels(s)[j]
  {
    if s != [] {
      LabelsDistinct(s[..|s| - 1]);
    }
  }

  /** The labels are exactly the categories that occur. */
  lemma {:induction false} LabelsAreCategories(s: seq<Item>)
    ensures forall c :: c in Labels(s) <==> exists i :: 0 <= i < |s| && CategoryOf(s[i]) == c
  {
    if s != [] {
      var p := s[..|s| - 1];
      LabelsAreCategories(p);
      forall c ensures c in Labels(s) <==> exists i :: 0 <= i < |s| && CategoryOf(s[i]) == c {
        if exists i :: 0 <= i < |s| && CategoryOf(s[i]) == c {
          var i :| 0 <= i < |s| && CategoryOf(s[i]) == c;
          if i < |p| { assert CategoryOf(p[i]) == c; }
        }
        if c in Labels(p) {
          var i :| 0 <= i < |p| && CategoryOf(p[i]) == c;
          assert CategoryOf(s[i]) == c;
        }
      }
    }
  }

  /** A category that never occurs sums to 0. */
  lemma {:induction false} AbsentCategorySumsToZero(s: seq<Item>, c: string)
    requires c !in Labels(s)
    ensures CategorySum(s, c) == 0
  {
    if s != [] {
      AbsentCategorySumsToZero(s[..|s| - 1], c);
    }
  }

  /** The sums of the categories in `ls`, added up. */
  function SumOver(ls: seq<string>, s: seq<Item>): int {
    if ls == [] then 0 else SumOver(ls[..|ls| - 1], s) + CategorySum(s, ls[|ls| - 1])
  }

  /** One more item adds its amount to the one listed category it belongs
      to, if any. */
  lemma {:induction false} SumOverAppend(ls: seq<string>, s: seq<Item>, x: Item)
    requires forall i, j :: 0 <= i < j < |ls| ==> ls[i] != ls[j]
    ensures SumOver(ls, s + [x]) == SumOver(ls, s) + if CategoryOf(x) in ls then AmountOf(x) else 0
  {
    assert (s + [x])[..|s + [x]| - 1] == s;
    if ls != [] {
      var p := ls[..|ls| - 1];
      assert forall i, j :: 0 <= i < j < |p| ==> p[i] != p[j] by {
        forall i, j | 0 <= i < j < |p| ensures p[i] != p[j] { assert p[i] == ls[i] && p[j] == ls[j]; }
      }
      SumOverAppend(p, s, x);
      assert ls == p + [ls[|ls| - 1]];
    }
  }

  /** Adding up every category's sum gives the total. */
  lemma {:induction false} CategorySumsAddUpToTotal(s: seq<Item>)
    ensures SumOver(Labels(s), s) == Total(s)
  {
    if s != [] {
      var p := s[..|s| - 1];
      var x := s[|s| - 1];
      assert s == p + [x];
      CategorySumsAddUpToTotal(p);
      LabelsDistinct(p);
      SumOverAppend(Labels(p), p, x);
      if CategoryOf(x) !in Labels(p) {
        var ls := Labels(s);
        assert ls[..|ls| - 1] == Labels(p);
        AbsentCategorySumsToZero(p, CategoryOf(x));
      }
    }
  }

  function SumValues(e: seq<Entry>): int {
    if e == [] then 0 else SumValues(e[..|e| - 1]) + e[|e| - 1].value
  }

  lemma {:induction false} SumValuesOfEntries(e: seq<Entry>, ls: seq<string>, s: seq<Item>)
    requires |e| == |ls|
    requires forall i :: 0 <= i < |e| ==> e[i].value == CategorySum(s, ls[i])
    ensures SumValues(e) == SumOver(ls, s)
  {
    if e != [] {
      SumValuesOfEntries(e[..|e| - 1], ls[..|ls| - 1], s);
    }
  }

  /** The entries of `groupDataByCategory` add up to `calculateTotalAmount`
      of the same data. */
  lemma GroupingPreservesTotal(data: Data)
    ensures data.NotAnArray? ==> CalculateTotalAmount(data) == 0
    ensures data.Array? ==> SumValues(Entries(data.items)) == CalculateTotalAmount(data)
  {
    if data.Array? {
      SumValuesOfEntries(Entries(data.items), Labels(data.items), data.items);
      CategorySumsAddUpToTotal(data.items);
    }
  }

  /** Each entry names its own category, carries that category's sum and
      has its label as id, and no two entries name the same category. */
  lemma EntriesAreDistinctSums(s: seq<Item>)
    ensures var e := Entries(s);
            && (forall i, j :: 0 <= i < j < |e| ==> e[i].name != e[j].name)
            && (forall i :: 0 <= i < |e| ==> e[i].id == e[i].name && e[i].value == CategorySum(s, e[i].name))
  {
    LabelsDistinct(s);
    assert forall i :: 0 <= i < |Entries(s)| ==> Entries(s)[i].name == Labels(s)[i];
  }

  /** The entries name exactly the categories that occur. */
  lemma EntriesCoverCategories(s: seq<Item>)
    ensures var e := Entries(s);
            && (forall i :: 0 <= i < |e| ==> exists k :: 0 <= k < |s| && CategoryOf(s[k]) == e[i].name)
            && (forall k :: 0 <= k < |s| ==> exists i :: 0 <= i < |e| && e[i].name == CategoryOf(s[k]))
  {
    var e := Entries(s);
    var ls := Labels(s);
    LabelsAreCategories(s);
    forall i | 0 <= i < |e| ensures exists k :: 0 <= k < |s| && CategoryOf(s[k]) == e[i].name {
      assert e[i].name == ls[i] && ls[i] in ls;
    }
    forall k | 0 <= k < |s| ensures exists i :: 0 <= i < |e| && e[i].name == CategoryOf(s[k]) {
      assert CategoryOf(s[k]) in ls;
      var i :| 0 <= i < |ls| && ls[i] == CategoryOf(s[k]);
      assert e[i].name == CategoryOf(s[k]);
    }
  }

  /** `InCategory(c)` is the test `CategorySum` applies to each item. */
  function InCategory(c: string): Item -> bool {
    (x: Item) => CategoryOf(x) == c
  }

  /** A category's sum is the total of the items the category filter keeps. */
  lemma {:induction false} CategorySumIsFilteredTotal(s: seq<Item>, c: string)
    ensures CategorySum(s, c) == Total(Filter(s, InCategory(c)))
  {
    if s != [] {
      CategorySumIsFilteredTotal(s[1..], c);
      CategorySumCons(s[0], s[1..], c);
      assert [s[0]] + s[1..] == s;
      if InCategory(c)(s[0]) {
        TotalCons(s[0], Filter(s[1..], InCategory(c)));
      }
    }
  }

  lemma {:induction false} TotalCons(x: Item, s: seq<Item>)
    ensures Total([x] + s) == AmountOf(x) + Total(s)
  {
    if s != [] {
      assert ([x] + s)[..|s|] == [x] + s[..|s| - 1];
      TotalCons(x, s[..|s| - 1]);
    }
  }

  lemma {:induction false} CategorySumCons(x: Item, s: seq<Item>, c: string)
    ensures CategorySum([x] + s, c) == (if CategoryOf(x) == c then AmountOf(x) else 0) + CategorySum(s, c)
  {
    if s != [] {
      assert ([x] + s)[..|s|] == [x] + s[..|s| - 1];
      CategorySumCons(x, s[..|s| - 1], c);
    }
  }
}
