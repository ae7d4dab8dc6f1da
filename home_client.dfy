/** The computations of the cockpit page, app/home-client.tsx: the clamp used
    for the progress bars, the scrap rate, and the loss-by-category table (minutes
    per category in first-appearance order, sorted by minutes, largest first,
    top five). */
module HomeClient {
  import opened Js
  import opened Seqs
  import opened EngineeringDemo

  /** `clamp01`: non-finite values become 0, the rest are clipped to [0, 1].
      app/ai/ai-client.tsx declares the same function. */
  function Clamp01(x: Num): (r: real)
    ensures 0.0 <= r <= 1.0
    ensures x.Fin? && 0.0 <= x.v <= 1.0 ==> r == x.v
    ensures !x.Fin? ==> r == 0.0
    ensures x.Fin? && x.v > 1.0 ==> r == 1.0
    ensures x.Fin? && x.v < 0.0 ==> r == 0.0
  {
    if !x.Fin? then 0.0
    else if x.v < 0.0 then 0.0
    else if x.v > 1.0 then 1.0
    else x.v
  }

  /** Clamping a clamped value changes nothing. */
  lemma Clamp01Idempotent(x: Num)
    ensures Clamp01(Fin(Clamp01(x))) == Clamp01(x)
  {
  }

  /** The scrap rate shown on the cockpit: scrap over output, 0 without output. */
  function ScrapRate(shift: ShiftInputs): (r: real)
    ensures shift.outputUnits > 0.0 ==> r * shift.outputUnits == shift.scrapUnits
    ensures shift.outputUnits <= 0.0 ==> r == 0.0
  {
    if shift.outputUnits > 0.0 then shift.scrapUnits / shift.outputUnits else 0.0
  }

  /** With no more scrap than output the rate is a fraction, and from one
      unit of output on it is one minus the engine's quality ratio. */
  lemma ScrapRateIsFraction(shift: ShiftInputs)
    requires 0.0 <= shift.scrapUnits <= shift.outputUnits && shift.outputUnits >= 1.0 && shift.plannedTimeMin != 0.0
    ensures 0.0 <= ScrapRate(shift) <= 1.0
    ensures ScrapRate(shift) + DeriveMetrics([], shift).quality == 1.0
  {
    var o := shift.outputUnits;
    var r := ScrapRate(shift);
    var q := DeriveMetrics([], shift).quality;
    UnitFraction(r, o, shift.scrapUnits);
    assert Max(o, 1.0) == o;
    assert r * o == shift.scrapUnits;
    assert q * o == o - shift.scrapUnits;
    assert (r + q) * o == 1.0 * o;
  }

  /** One row of the loss table. */
  datatype CategoryLoss = CategoryLoss(category: string, minutes: real)

  /** Reference definition: the categories in the order a `Map` first sees them. */
  function CategoriesOf(es: seq<ProductionEvent>): seq<string> {
    if es == [] then []
    else
      var seen := CategoriesOf(es[..|es| - 1]);
      var k := es[|es| - 1].category;
      if k in seen then seen else seen + [k]
  }

  /** Reference definition: the minutes of the events of category `k`, a
      missing duration counting as 0. */
  function CategoryMinutes(es: seq<ProductionEvent>, k: string): real {
    if es == [] then 0.0
    else
      var last := es[|es| - 1];
      CategoryMinutes(es[..|es| - 1], k) + (if last.category == k then DurationOrZero(last) else 0.0)
  }

  /** Every category appears once, and exactly the categories of the events appear. */
  lemma {:induction false} CategoriesDistinctAndComplete(es: seq<ProductionEvent>)
    ensures forall i, j :: 0 <= i < j < |CategoriesOf(es)| ==> CategoriesOf(es)[i] != CategoriesOf(es)[j]
    ensures forall k :: k in CategoriesOf(es) <==> exists e :: e in es && e.category == k
  {
    if es != [] {
      var init := es[..|es| - 1];
      CategoriesDistinctAndComplete(init);
      assert es == init + [es[|es| - 1]];
      forall k ensures (k in CategoriesOf(es) <==> exists e :: e in es && e.category == k) {
        if k in CategoriesOf(init) {
          var e :| e in init && e.category == k;
          assert e in es;
        }
        if e :| e in es && e.category == k {
          if e != es[|es| - 1] {
            assert e in init;
          }
        }
      }
    }
  }

  /** A category no event has has no minutes. */
  lemma {:induction false} AbsentCategoryHasNoMinutes(es: seq<ProductionEvent>, k: string)
    requires k !in CategoriesOf(es)
    ensures CategoryMinutes(es, k) == 0.0
  {
    if es != [] {
      var init := es[..|es| - 1];
      assert CategoriesOf(init) <= CategoriesOf(es)[..|CategoriesOf(init)|] by {
        assert CategoriesOf(es) == CategoriesOf(init) || CategoriesOf(es) == CategoriesOf(init) + [es[|es| - 1].category];
      }
      AbsentCategoryHasNoMinutes(init, k);
    }
  }

  function InCategory(k: string): ProductionEvent -> bool {
    (e: ProductionEvent) => e.category == k
  }

  /** The category's minutes are the engine's minutes over the events of that category. */
  lemma {:induction false} CategoryMinutesAsFilter(es: seq<ProductionEvent>, k: string)
    ensures CategoryMinutes(es, k) == MinutesWhere(es, InCategory(k))
  {
    if es != [] {
      var init := es[..|es| - 1];
      var last := es[|es| - 1];
      CategoryMinutesAsFilter(init, k);
      assert es == init + [last];
      MinutesWhereAppend(init, [last], InCategory(k));
      assert [last][1..] == [];
    }
  }

  /** The table before sorting: each category with its minutes. */
  function Entries(es: seq<ProductionEvent>): (r: seq<CategoryLoss>)
    ensures |r| == |CategoriesOf(es)|
    ensures forall j :: 0 <= j < |r| ==>
      r[j].category == CategoriesOf(es)[j] && r[j].minutes == CategoryMinutes(es, r[j].category)
  {
    var cs := CategoriesOf(es);
    seq(|cs|, j requires 0 <= j < |cs| => CategoryLoss(cs[j], CategoryMinutes(es, cs[j])))
  }

  /** Non-increasing in minutes. */
  predicate SortedByMinutesDesc(s: seq<CategoryLoss>) {
    forall i, j :: 0 <= i < j < |s| ==> s[i].minutes >= s[j].minutes
  }

  /** Inserting `x` into a table after every row with more minutes and
      before the rest: one more row, the same rows plus `x`. */
  function InsertByMinutes(x: CategoryLoss, t: seq<CategoryLoss>): (r: seq<CategoryLoss>)
    ensures multiset(r) == multiset(t) + multiset{x}
    ensures |r| == |t| + 1
  {
    if t == [] || t[0].minutes <= x.minutes then [x] + t
    else
      var rest := InsertByMinutes(x, t[1..]);
      assert t == [t[0]] + t[1..];
      [t[0]] + rest
  }

  /** A row of an insertion result is the inserted row or a row of the table. */
  lemma InsertedFrom(x: CategoryLoss, t: seq<CategoryLoss>, y: CategoryLoss)
    requires y in InsertByMinutes(x, t)
    ensures y == x || y in t
  {
    assert y in multiset(InsertByMinutes(x, t));
  }

  /** Insertion keeps a sorted table sorted. */
  lemma {:induction false} InsertSorted(x: CategoryLoss, t: seq<CategoryLoss>)
    requires SortedByMinutesDesc(t)
    ensures SortedByMinutesDesc(InsertByMinutes(x, t))
  {
    if !(t == [] || t[0].minutes <= x.minutes) {
      var rest := InsertByMinutes(x, t[1..]);
      InsertSorted(x, t[1..]);
      forall j | 0 <= j < |rest| ensures rest[j].minutes <= t[0].minutes {
        InsertedFrom(x, t[1..], rest[j]);
      }
      assert InsertByMinutes(x, t) == [t[0]] + rest;
    }
  }

  /** The stable sort of `(a, b) => b[1] - a[1]`: by minutes, largest first,
      rows with equal minutes in their original order. */
  function SortByMinutesDesc(s: seq<CategoryLoss>): (r: seq<CategoryLoss>)
    ensures SortedByMinutesDesc(r)
    ensures multiset(r) == multiset(s)
    ensures |r| == |s|
  {
    if s == [] then []
    else
      assert s == [s[0]] + s[1..];
      var t := SortByMinutesDesc(s[1..]);
      assert SortedByMinutesDesc(InsertByMinutes(s[0], t)) by {
        InsertSorted(s[0], t);
      }
      InsertByMinutes(s[0], t)
  }

  /** The rows with exactly `v` minutes, in table order. */
  function Ties(s: seq<CategoryLoss>, v: real): seq<CategoryLoss> {
    if s == [] then [] else (if s[0].minutes == v then [s[0]] else []) + Ties(s[1..], v)
  }

  /** Inserting a row only adds it to the rows with its own minutes, at their front. */
  lemma {:induction false} InsertKeepsTies(x: CategoryLoss, t: seq<CategoryLoss>, v: real)
    requires SortedByMinutesDesc(t)
    ensures Ties(InsertByMinutes(x, t), v) == (if x.minutes == v then [x] else []) + Ties(t, v)
  {
    if t == [] || t[0].minutes <= x.minutes {
      assert InsertByMinutes(x, t) == [x] + t;
      assert ([x] + t)[1..] == t;
    } else {
      var rest := InsertByMinutes(x, t[1..]);
      InsertKeepsTies(x, t[1..], v);
      assert InsertByMinutes(x, t) == [t[0]] + rest;
      assert ([t[0]] + rest)[1..] == rest;
      if x.minutes == v {
        assert t[0].minutes != v;
      }
    }
  }

  /** The sort is stable: the rows with any given minutes keep their order. */
  lemma {:induction false} SortIsStable(s: seq<CategoryLoss>, v: real)
    ensures Ties(SortByMinutesDesc(s), v) == Ties(s, v)
  {
    if s != [] {
      SortIsStable(s[1..], v);
      InsertKeepsTies(s[0], SortByMinutesDesc(s[1..]), v);
    }
  }

  /** `slice(0, n)` */
  function Take(s: seq<CategoryLoss>, n: nat): (r: seq<CategoryLoss>)
    ensures |r| <= n && |r| <= |s|
    ensures |s| <= n ==> r == s
    ensures r == s[..|r|]
  {
    if |s| <= n then s else s[..n]
  }

  /** The table `lossByCategory` shows. */
  function TopLosses(es: seq<ProductionEvent>): seq<CategoryLoss> {
    Take(SortByMinutesDesc(Entries(es)), 5)
  }

  /** At most five rows, sorted, and no row left out has more minutes than a row shown. */
  lemma TopLossesAreTheLargest(es: seq<ProductionEvent>)
    ensures |TopLosses(es)| <= 5
    ensures SortedByMinutesDesc(TopLosses(es))
    ensures forall i, j :: 0 <= i < |TopLosses(es)| <= j < |SortByMinutesDesc(Entries(es))| ==>
      TopLosses(es)[i].minutes >= SortByMinutesDesc(Entries(es))[j].minutes
  {
  }

  /** No two rows share a category. */
  predicate DistinctCategories(s: seq<CategoryLoss>) {
    forall i, j :: 0 <= i < j < |s| ==> s[i].category != s[j].category
  }

  /** Inserting a row of a new category keeps the categories distinct. */
  lemma {:induction false} InsertDistinct(x: CategoryLoss, t: seq<CategoryLoss>)
    requires DistinctCategories(t)
    requires forall j :: 0 <= j < |t| ==> t[j].category != x.category
    ensures DistinctCategories(InsertByMinutes(x, t))
  {
    if !(t == [] || t[0].minutes <= x.minutes) {
      var rest := InsertByMinutes(x, t[1..]);
      InsertDistinct(x, t[1..]);
      forall j | 0 <= j < |rest| ensures rest[j].category != t[0].category {
        InsertedFrom(x, t[1..], rest[j]);
      }
      assert InsertByMinutes(x, t) == [t[0]] + rest;
    }
  }

  /** Sorting keeps the categories distinct. */
  lemma {:induction false} SortKeepsDistinct(s: seq<CategoryLoss>)
    requires DistinctCategories(s)
    ensures DistinctCategories(SortByMinutesDesc(s))
  {
    if s != [] {
      var t := SortByMinutesDesc(s[1..]);
      SortKeepsDistinct(s[1..]);
      forall j | 0 <= j < |t| ensures t[j].category != s[0].category {
        assert t[j] in multiset(s[1..]);
      }
      InsertDistinct(s[0], t);
    }
  }

  /** Every row shown is a distinct category of the events with its total minutes. */
  lemma TopLossesAreCategoryTotals(es: seq<ProductionEvent>)
    ensures forall i :: 0 <= i < |TopLosses(es)| ==>
      (exists e :: e in es && e.category == TopLosses(es)[i].category)
      && TopLosses(es)[i].minutes == MinutesWhere(es, InCategory(TopLosses(es)[i].category))
    ensures DistinctCategories(TopLosses(es))
  {
    var entries := Entries(es);
    var top := TopLosses(es);
    var sorted := SortByMinutesDesc(entries);
    CategoriesDistinctAndComplete(es);
    forall i | 0 <= i < |top|
      ensures (exists e :: e in es && e.category == top[i].category)
      ensures top[i].minutes == MinutesWhere(es, InCategory(top[i].category))
    {
      assert top[i] in multiset(sorted);
      var j :| 0 <= j < |entries| && entries[j] == top[i];
      assert entries[j].category in CategoriesOf(es);
      CategoryMinutesAsFilter(es, top[i].category);
    }
    SortKeepsDistinct(entries);
  }

  /** The demo events name Machine, Method and Material, in that order. */
  lemma DemoCategories()
    ensures CategoriesOf(DemoEvents) == ["Machine", "Method", "Material"]
    ensures CategoriesOf(DemoEvents[..3]) == ["Machine", "Method"]
  {
    var es := DemoEvents;
    assert es[..1][..0] == [] && es[..2][..1] == es[..1] && es[..3][..2] == es[..2] && es[..4][..3] == es[..3];
    assert es[..4] == es;
    assert CategoriesOf(es[..1]) == ["Machine"];
    assert CategoriesOf(es[..2]) == ["Machine", "Method"];
  }

  /** The demo minutes per category: 12 + 9 for Machine, 18 for Method. */
  lemma DemoCategoryMinutes()
    ensures CategoryMinutes(DemoEvents, "Machine") == 21.0
    ensures CategoryMinutes(DemoEvents, "Method") == 18.0
  {
    var es := DemoEvents;
    assert es[..1][..0] == [] && es[..2][..1] == es[..1] && es[..3][..2] == es[..2] && es[..4][..3] == es[..3];
    assert es[..4] == es;
    assert CategoryMinutes(es[..1], "Machine") == 12.0;
    assert CategoryMinutes(es[..2], "Machine") == 12.0;
    assert CategoryMinutes(es[..3], "Machine") == 21.0;
    assert CategoryMinutes(es[..1], "Method") == 0.0;
    assert CategoryMinutes(es[..2], "Method") == 18.0;
    assert CategoryMinutes(es[..3], "Method") == 18.0;
  }

  /** The unsorted demo table. */
  lemma DemoEntries()
    ensures Entries(DemoEvents) ==
      [CategoryLoss("Machine", 21.0), CategoryLoss("Method", 18.0), CategoryLoss("Material", 0.0)]
  {
    var es := DemoEvents;
    DemoCategories();
    DemoCategoryMinutes();
    assert es[..4] == es && es[..4][..3] == es[..3];
    assert CategoryMinutes(es[..3], "Material") == 0.0 by {
      AbsentCategoryHasNoMinutes(es[..3], "Material");
    }
  }

  /** A table already in order is left as it is by the sort. */
  lemma {:induction false} SortedUnchanged(s: seq<CategoryLoss>)
    requires SortedByMinutesDesc(s)
    ensures SortByMinutesDesc(s) == s
  {
    if s != [] {
      var rest := s[1..];
      assert SortedByMinutesDesc(rest) by {
        forall i, j | 0 <= i < j < |rest| ensures rest[i].minutes >= rest[j].minutes {
          assert rest[i] == s[i + 1] && rest[j] == s[j + 1];
        }
      }
      SortedUnchanged(rest);
      assert SortByMinutesDesc(s) == InsertByMinutes(s[0], rest);
      assert rest == [] || rest[0].minutes <= s[0].minutes;
      assert s == [s[0]] + rest;
    }
  }

  /** When the categories already come in order and there are at most five,
      the table shows them as they are. */
  lemma OrderedEntriesShown(es: seq<ProductionEvent>)
    requires SortedByMinutesDesc(Entries(es)) && |Entries(es)| <= 5
    ensures TopLosses(es) == Entries(es)
  {
    SortedUnchanged(Entries(es));
  }

  /** On the demo events the table reads Machine 21, Method 18, Material 0:
      already in order, so the sort and the cut to five change nothing. */
  lemma DemoLossTable()
    ensures TopLosses(DemoEvents) ==
      [CategoryLoss("Machine", 21.0), CategoryLoss("Method", 18.0), CategoryLoss("Material", 0.0)]
  {
    var t := [CategoryLoss("Machine", 21.0), CategoryLoss("Method", 18.0), CategoryLoss("Material", 0.0)];
    DemoEntries();
    assert SortedByMinutesDesc(t);
    OrderedEntriesShown(DemoEvents);
  }

  /** `lossByCategory`: one pass over the events accumulating minutes per
      category in a map that remembers first-insertion order, then the sorted
      top five. */
  method LossByCategory(events: seq<ProductionEvent>) returns (top: seq<CategoryLoss>)
    ensures top == TopLosses(events)
  {
    var keys: seq<string> := [];
    var totals: map<string, real> := map[];
    for i := 0 to |events|
      invariant keys == CategoriesOf(events[..i])
      invariant forall k :: k in totals <==> k in keys
      invariant forall k :: k in totals ==> totals[k] == CategoryMinutes(events[..i], k)
    {
      var key := events[i].category;
      var val := DurationOrZero(events[i]);
      assert events[..i + 1][..i] == events[..i];
      if key !in totals {
        AbsentCategoryHasNoMinutes(events[..i], key);
      }
      var previous := if key in totals then totals[key] else 0.0;
      totals := totals[key := previous + val];
      if key !in keys {
        keys := keys + [key];
      }
    }
    assert events[..|events|] == events;
    var entries := seq(|keys|, j requires 0 <= j < |keys| => CategoryLoss(keys[j], totals[keys[j]]));
    assert entries == Entries(events);
    top := Take(SortByMinutesDesc(entries), 5);
  }
}
