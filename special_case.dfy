/** The special-case result view (frontend/src/components/SpecialCase.jsx).

    A special_case result names the analytic function that produced it;
    the view picks one of five fixed reshapings of `multivalue_stats` into
    chart rows by that name, and decides which summary cards of
    `base_stats` to show. Only the data handed to the charts and cards is
    modelled; the markup around it is not.
 */
module SpecialCase {
  import opened Js

  const ConditionalRatingFn := "conditional_rating_analysis"
  const RatingToRatingFn := "conditional_rating_to_rating_analysis"
  const CategoryToCategoryFn := "conditional_category_to_category_analysis"
  const DistributionFn := "conditional_distribution_analysis"
  const PercentageFn := "general_percentage_distribution"
  const KnownFunctions := {ConditionalRatingFn, RatingToRatingFn, CategoryToCategoryFn, DistributionFn, PercentageFn}

  const MatchingLabel := "Matching"
  const NotMatchingLabel := "Not Matching"
  /** The key under which a pivot row carries its category. */
  const CategoryKey := "category"
  const ErrorKey := "error"
  /** The `base_stats` fields that each have a summary card, in card order. */
  const CardFields := ["average_overall_rating", "recommendation_rate", "verification_rate", "total_reviews"]

  /** A distribution: value label -> percentage (or count), in entry order. */
  type Distribution = Entries<real>

  /** `{ total, distribution }`: one group of a conditional rating analysis,
      or one category of a category-to-category summary. */
  datatype Group = Group(total: Option<real>, distribution: Option<Distribution>)

  /** The fields of `multivalue_stats` the five reshapings read; which are
      present depends on the function that ran. */
  datatype MultiValueStats = MultiValueStats(
    matching_group: Option<Group>,
    opposite_group: Option<Group>,
    match_percent: Option<real>,
    total_base_users: Option<real>,
    matching_users: Option<real>,
    summary: Option<Entries<Group>>,
    distribution: Option<Distribution>,
    total_users: Option<real>)

  /** `{}` */
  const EmptyStats := MultiValueStats(None, None, None, None, None, None, None, None)

  /** The fields of a special_case result the view reads. */
  datatype SpecialResult = SpecialResult(
    function_executed: Option<string>,
    multivalue_stats: Option<MultiValueStats>,
    base_stats: Option<Entries<Json>>)

  /** A bar or pie entry `{ name, value }`. */
  datatype Point = Point(name: string, value: real)

  /** A pie slice `{ name, value, count }`; a `count` of `None` is what
      JavaScript computes as `undefined` or `NaN`. */
  datatype Slice = Slice(name: string, value: real, count: Option<real>)

  /** One line of the category breakdown table. */
  datatype TableRow = TableRow(category: string, total: Option<real>, entries: seq<Point>)

  /** The chart data of each of the five layouts, or the placeholder. */
  datatype Visualization =
    | ConditionalRating(matchingTotal: real, oppositeTotal: real, matching: seq<Point>, opposite: seq<Point>)
    | RatingToRating(slices: seq<Slice>)
    | CategoryToCategory(series: seq<string>, rows: seq<Entries<Json>>, table: seq<TableRow>)
    | DistributionChart(points: seq<Point>)
    | PercentageBreakdown(slices: seq<Slice>)
    | Unsupported

  // ---------------------------------------------------------------------
  // Distributions as chart entries.

  /** `Object.entries(d).map(([key, value]) => ({ name: key, value }))` */
  function ToPoints(d: Distribution): (r: seq<Point>)
    ensures |r| == |d|
    ensures forall i :: 0 <= i < |d| ==> r[i].name == d[i].0 && r[i].value == d[i].1
  {
    if d == [] then [] else [Point(d[0].0, d[0].1)] + ToPoints(d[1..])
  }

  /** The distribution a chart sequence displays. */
  function FromPoints(ps: seq<Point>): Distribution {
    if ps == [] then [] else [(ps[0].name, ps[0].value)] + FromPoints(ps[1..])
  }

  /** The chart entries are the distribution itself: nothing is dropped,
      reordered or renormalised. */
  lemma {:induction false} PointsRoundTrip(d: Distribution)
    ensures FromPoints(ToPoints(d)) == d
  {
    if d != [] {
      PointsRoundTrip(d[1..]);
      assert ToPoints(d)[1..] == ToPoints(d[1..]);
    }
  }

  // ---------------------------------------------------------------------
  // conditional_rating_analysis

  /** `group?.distribution || {}` */
  function GroupDistribution(g: Option<Group>): Distribution {
    if g.Some? then g.value.distribution.GetOr([]) else []
  }

  /** `group?.total || 0` */
  function GroupTotal(g: Option<Group>): real {
    if g.Some? then g.value.total.GetOr(0.0) else 0.0
  }

  function ConditionalRatingView(m: MultiValueStats): (v: Visualization)
    ensures v.ConditionalRating?
    ensures m.matching_group.None? ==> v.matching == [] && v.matchingTotal == 0.0
    ensures m.opposite_group.None? ==> v.opposite == [] && v.oppositeTotal == 0.0
    ensures m.matching_group.Some? && m.matching_group.value.total.None? ==> v.matchingTotal == 0.0
    ensures m.opposite_group.Some? && m.opposite_group.value.total.None? ==> v.oppositeTotal == 0.0
    ensures |v.matching| == |GroupDistribution(m.matching_group)|
    ensures |v.opposite| == |GroupDistribution(m.opposite_group)|
  {
    ConditionalRating(
      GroupTotal(m.matching_group),
      GroupTotal(m.opposite_group),
      ToPoints(GroupDistribution(m.matching_group)),
      ToPoints(GroupDistribution(m.opposite_group)))
  }

  /** Both bar charts show their group's distribution exactly, and a group
      that is present with a total shows that total. */
  lemma ConditionalRatingFaithful(m: MultiValueStats)
    ensures var v := ConditionalRatingView(m);
      FromPoints(v.matching) == GroupDistribution(m.matching_group) &&
      FromPoints(v.opposite) == GroupDistribution(m.opposite_group) &&
      (m.matching_group.Some? && m.matching_group.value.total.Some? ==>
         v.matchingTotal == m.matching_group.value.total.value) &&
      (m.opposite_group.Some? && m.opposite_group.value.total.Some? ==>
         v.oppositeTotal == m.opposite_group.value.total.value)
  {
    PointsRoundTrip(GroupDistribution(m.matching_group));
    PointsRoundTrip(GroupDistribution(m.opposite_group));
  }

  // ---------------------------------------------------------------------
  // conditional_rating_to_rating_analysis and general_percentage_distribution

  function RatingToRatingSlices(m: MultiValueStats): (r: seq<Slice>)
    ensures |r| == 2 && r[0].name == MatchingLabel && r[1].name == NotMatchingLabel
    ensures r[0].value == m.match_percent.GetOr(0.0)
    ensures r[0].value + r[1].value == 100.0
    ensures r[0].count == Some(m.matching_users.GetOr(0.0)) && r[1].count.Some?
    ensures r[0].count.value + r[1].count.value == m.total_base_users.GetOr(0.0)
  {
    var matchPercent := m.match_percent.GetOr(0.0);
    var totalBase := m.total_base_users.GetOr(0.0);
    var matchingUsers := m.matching_users.GetOr(0.0);
    [ Slice(MatchingLabel, matchPercent, Some(matchingUsers)),
      Slice(NotMatchingLabel, 100.0 - matchPercent, Some(totalBase - matchingUsers)) ]
  }

  /** `total_users - matching_users`, which is NaN unless both are present. */
  function Difference(a: Option<real>, b: Option<real>): Option<real> {
    if a.Some? && b.Some? then Some(a.value - b.value) else None
  }

  function PercentageSlices(m: MultiValueStats): (r: seq<Slice>)
    ensures |r| == 2 && r[0].name == MatchingLabel && r[1].name == NotMatchingLabel
    ensures r[0].value == m.match_percent.GetOr(0.0)
    ensures r[0].value + r[1].value == 100.0
    ensures r[0].count == m.matching_users
    ensures r[1].count.Some? <==> m.total_users.Some? && m.matching_users.Some?
    ensures r[1].count.Some? ==> r[0].count.value + r[1].count.value == m.total_users.value
  {
    var matchPercent := m.match_percent.GetOr(0.0);
    [ Slice(MatchingLabel, matchPercent, m.matching_users),
      Slice(NotMatchingLabel, 100.0 - matchPercent, Difference(m.total_users, m.matching_users)) ]
  }

  // ---------------------------------------------------------------------
  // conditional_distribution_analysis

  function DistributionView(m: MultiValueStats): (v: Visualization)
    ensures v.DistributionChart?
    ensures FromPoints(v.points) == m.distribution.GetOr([])
    ensures m.distribution.None? ==> v.points == []
  {
    PointsRoundTrip(m.distribution.GetOr([]));
    DistributionChart(ToPoints(m.distribution.GetOr([])))
  }

  /** `{A: 60, B: 40}` is charted as two bars with exactly those values. */
  lemma DistributionExample()
    ensures var d := [("A", 60.0), ("B", 40.0)];
      Render(SpecialResult(Some(DistributionFn), Some(EmptyStats.(distribution := Some(d))), None)) ==
      DistributionChart([Point("A", 60.0), Point("B", 40.0)])
  {
  }

  // ---------------------------------------------------------------------
  // conditional_category_to_category_analysis

  /** `summary[cat].distribution || {}` */
  function DistOf(g: Group): Distribution {
    g.distribution.GetOr([])
  }

  predicate NoDuplicates(s: seq<string>) {
    forall i, j :: 0 <= i < j < |s| ==> s[i] != s[j]
  }

  /** `set.add(v)` on a set kept in insertion order. */
  function Add(acc: seq<string>, v: string): seq<string> {
    if v in acc then acc else acc + [v]
  }

  /** Adding the keys `ks` one after the other. */
  function AddAll(acc: seq<string>, ks: seq<string>): (r: seq<string>)
    ensures acc <= r
    ensures forall v :: v in r <==> v in acc || v in ks
    ensures NoDuplicates(acc) ==> NoDuplicates(r)
    decreases |ks|
  {
    if ks == [] then acc
    else
      var prefix := AddAll(acc, ks[..|ks| - 1]);
      assert ks == ks[..|ks| - 1] + [ks[|ks| - 1]];
      Add(prefix, ks[|ks| - 1])
  }

  /** `allCompareValues`: every key of every category's distribution, in
      the order the nested `forEach` first meets it. */
  function CompareValues(summary: Entries<Group>): (r: seq<string>)
    ensures NoDuplicates(r)
    decreases |summary|
  {
    if summary == [] then []
    else AddAll(CompareValues(summary[..|summary| - 1]), Keys(DistOf(summary[|summary| - 1].1)))
  }

  /** A value is a compare value exactly when some category's
      distribution has it as a key. */
  lemma {:induction false} CompareValuesMembers(summary: Entries<Group>, v: string)
    ensures v in CompareValues(summary) <==>
      exists i :: 0 <= i < |summary| && v in Keys(DistOf(summary[i].1))
    decreases |summary|
  {
    if summary != [] {
      var n := |summary| - 1;
      var front := summary[..n];
      CompareValuesMembers(front, v);
      if v in CompareValues(summary) {
        if v !in CompareValues(front) {
          assert v in Keys(DistOf(summary[n].1));
        } else {
          var i :| 0 <= i < |front| && v in Keys(DistOf(front[i].1));
          assert summary[i] == front[i];
        }
      } else {
        forall i | 0 <= i < |summary| ensures v !in Keys(DistOf(summary[i].1)) {
          if i < n {
            assert summary[i] == front[i];
          }
        }
      }
    }
  }

  /** The compare values met in the first categories come first: adding a
      category only ever appends. */
  lemma {:induction false} CompareValuesGrow(summary: Entries<Group>, k: nat)
    requires k <= |summary|
    ensures CompareValues(summary[..k]) <= CompareValues(summary)
    decreases |summary| - k
  {
    if k < |summary| {
      var n := |summary| - 1;
      assert summary[..n][..k] == summary[..k];
      CompareValuesGrow(summary[..n], k);
    } else {
      assert summary[..k] == summary;
    }
  }

  /** No category lacks a distribution while there are compare values to
      look up in it (otherwise `summary[cat].distribution[val]` throws). */
  predicate PivotDefined(summary: Entries<Group>) {
    CompareValues(summary) == [] ||
    forall i :: 0 <= i < |summary| ==> summary[i].1.distribution.Some?
  }

  /** `summary[cat].distribution[val] || 0` */
  function Cell(dist: Distribution, v: string): real {
    Get(dist, v).GetOr(0.0)
  }

  /** The row object `{ category: cat }` after `row[val] = ...` for each of
      `vals` in turn. */
  function Row(cat: string, dist: Distribution, vals: seq<string>): (row: Entries<Json>)
    ensures forall v :: v in vals ==> Get(row, v) == Some(Num(Cell(dist, v)))
    ensures CategoryKey !in vals ==> Get(row, CategoryKey) == Some(Str(cat))
    ensures forall k :: k in Keys(row) <==> k == CategoryKey || k in vals
    decreases |vals|
  {
    if vals == [] then
      assert Keys([(CategoryKey, Str(cat))]) == [CategoryKey];
      [(CategoryKey, Str(cat))]
    else
      var last := vals[|vals| - 1];
      assert vals == vals[..|vals| - 1] + [last];
      Put(Row(cat, dist, vals[..|vals| - 1]), last, Num(Cell(dist, last)))
  }

  /** The chart rows: one per category, in key order, with a column for
      every compare value. */
  function Pivot(summary: Entries<Group>): (rows: seq<Entries<Json>>)
    requires PivotDefined(summary)
    ensures |rows| == |summary|
    ensures forall i, v :: 0 <= i < |summary| && v in CompareValues(summary) ==>
      Get(rows[i], v) == Some(Num(Cell(DistOf(summary[i].1), v)))
    ensures forall i :: 0 <= i < |summary| && CategoryKey !in CompareValues(summary) ==>
      Get(rows[i], CategoryKey) == Some(Str(summary[i].0))
  {
    var vals := CompareValues(summary);
    seq(|summary|, i requires 0 <= i < |summary| => Row(summary[i].0, DistOf(summary[i].1), vals))
  }

  /** Every pivot row has the same columns: `category` and the compare
      values. A cell holds the category's own value for a value it has,
      and 0 for one it lacks. */
  lemma PivotCells(summary: Entries<Group>, i: nat, v: string)
    requires PivotDefined(summary) && i < |summary|
    ensures v in Keys(Pivot(summary)[i]) <==> v == CategoryKey || v in CompareValues(summary)
    ensures v in Keys(DistOf(summary[i].1)) ==>
      v in CompareValues(summary) &&
      Get(Pivot(summary)[i], v) == Some(Num(Get(DistOf(summary[i].1), v).value))
    ensures v in CompareValues(summary) && v !in Keys(DistOf(summary[i].1)) ==>
      Get(Pivot(summary)[i], v) == Some(Num(0.0))
  {
    CompareValuesMembers(summary, v);
  }

  /** The first nested `forEach`: every category's distribution keys are
      added to the insertion-ordered set. */
  method CollectCompareValues(summary: Entries<Group>) returns (series: seq<string>)
    ensures series == CompareValues(summary)
  {
    series := [];
    var i := 0;
    while i < |summary|
      invariant 0 <= i <= |summary|
      invariant series == CompareValues(summary[..i])
    {
      var dist := DistOf(summary[i].1);
      var j := 0;
      while j < |dist|
        invariant 0 <= j <= |dist|
        invariant series == AddAll(CompareValues(summary[..i]), Keys(dist)[..j])
      {
        assert Keys(dist)[..j + 1][..j] == Keys(dist)[..j];
        if dist[j].0 !in series {
          series := series + [dist[j].0];
        }
        j := j + 1;
      }
      assert Keys(dist)[..j] == Keys(dist);
      assert summary[..i + 1][..i] == summary[..i];
      i := i + 1;
    }
    assert summary[..i] == summary;
  }

  /** The inner `forEach` of `categories.map`: one row filled in place. */
  method BuildRow(cat: string, dist: Distribution, series: seq<string>) returns (row: Entries<Json>)
    ensures row == Row(cat, dist, series)
  {
    row := [(CategoryKey, Str(cat))];
    var j := 0;
    while j < |series|
      invariant 0 <= j <= |series|
      invariant row == Row(cat, dist, series[..j])
    {
      assert series[..j + 1][..j] == series[..j];
      row := Put(row, series[j], Num(Get(dist, series[j]).GetOr(0.0)));
      j := j + 1;
    }
    assert series[..j] == series;
  }

  /** The category view's loops: collect the compare values, then build
      one row per category. */
  method BuildPivot(summary: Entries<Group>) returns (series: seq<string>, rows: seq<Entries<Json>>)
    requires PivotDefined(summary)
    ensures series == CompareValues(summary)
    ensures rows == Pivot(summary)
  {
    series := CollectCompareValues(summary);
    rows := [];
    var i := 0;
    while i < |summary|
      invariant 0 <= i <= |summary|
      invariant |rows| == i
      invariant forall k :: 0 <= k < i ==> rows[k] == Pivot(summary)[k]
    {
      var row := BuildRow(summary[i].0, DistOf(summary[i].1), series);
      rows := rows + [row];
      i := i + 1;
    }
  }

  /** Every category carries a distribution. */
  predicate AllDistributions(summary: Entries<Group>) {
    forall i :: 0 <= i < |summary| ==> summary[i].1.distribution.Some?
  }

  /** The breakdown table: one line per category with its total and its
      distribution's entries. */
  function Table(summary: Entries<Group>): (t: seq<TableRow>)
    requires AllDistributions(summary)
    ensures |t| == |summary|
    ensures forall i :: 0 <= i < |t| ==>
      t[i].category == summary[i].0 && t[i].total == summary[i].1.total &&
      FromPoints(t[i].entries) == summary[i].1.distribution.value
  {
    var t := seq(|summary|, i requires 0 <= i < |summary| =>
      TableRow(summary[i].0, summary[i].1.total, ToPoints(summary[i].1.distribution.value)));
    assert forall i :: 0 <= i < |t| ==> FromPoints(t[i].entries) == summary[i].1.distribution.value by {
      forall i | 0 <= i < |t| ensures FromPoints(t[i].entries) == summary[i].1.distribution.value {
        PointsRoundTrip(summary[i].1.distribution.value);
      }
    }
    t
  }

  function CategoryView(summary: Entries<Group>): (v: Visualization)
    requires AllDistributions(summary)
    ensures v.CategoryToCategory?
    ensures v.series == CompareValues(summary) && NoDuplicates(v.series)
    ensures |v.rows| == |summary| && |v.table| == |summary|
    ensures v.rows == Pivot(summary) && v.table == Table(summary)
  {
    CategoryToCategory(CompareValues(summary), Pivot(summary), Table(summary))
  }

  // ---------------------------------------------------------------------
  // Dispatch

  /** `data.multivalue_stats || {}` */
  function StatsOf(data: SpecialResult): MultiValueStats {
    data.multivalue_stats.GetOr(EmptyStats)
  }

  /** What the view needs to render without throwing: a category summary
      whose every category has a distribution. */
  predicate Renderable(data: SpecialResult) {
    data.function_executed == Some(CategoryToCategoryFn) ==>
      AllDistributions(StatsOf(data).summary.GetOr([]))
  }

  /** `renderVisualization`: exact match on the function name; any other
      name, or none, gives the placeholder. */
  function Render(data: SpecialResult): (v: Visualization)
    requires Renderable(data)
    ensures v.Unsupported? <==>
      !(data.function_executed.Some? && data.function_executed.value in KnownFunctions)
    ensures v.ConditionalRating? <==> data.function_executed == Some(ConditionalRatingFn)
    ensures v.RatingToRating? <==> data.function_executed == Some(RatingToRatingFn)
    ensures v.CategoryToCategory? <==> data.function_executed == Some(CategoryToCategoryFn)
    ensures v.DistributionChart? <==> data.function_executed == Some(DistributionFn)
    ensures v.PercentageBreakdown? <==> data.function_executed == Some(PercentageFn)
    ensures v.ConditionalRating? ==> v == ConditionalRatingView(StatsOf(data))
    ensures v.RatingToRating? ==> v.slices == RatingToRatingSlices(StatsOf(data))
    ensures v.CategoryToCategory? ==> v == CategoryView(StatsOf(data).summary.GetOr([]))
    ensures v.DistributionChart? ==> v == DistributionView(StatsOf(data))
    ensures v.PercentageBreakdown? ==> v.slices == PercentageSlices(StatsOf(data))
  {
    var m := StatsOf(data);
    match data.function_executed
    case Some(name) =>
      if name == ConditionalRatingFn then ConditionalRatingView(m)
      else if name == RatingToRatingFn then RatingToRating(RatingToRatingSlices(m))
      else if name == CategoryToCategoryFn then CategoryView(m.summary.GetOr([]))
      else if name == DistributionFn then DistributionView(m)
      else if name == PercentageFn then PercentageBreakdown(PercentageSlices(m))
      else Unsupported
    case None => Unsupported
  }

  // ---------------------------------------------------------------------
  // Summary cards

  /** `hasValidBaseStats` over `data.base_stats || {}`. */
  predicate HasValidBaseStats(base: Option<Entries<Json>>)
    ensures Truthy(Get(base.GetOr([]), ErrorKey)) ==> !HasValidBaseStats(base)
    ensures base.None? ==> !HasValidBaseStats(base)
    ensures HasValidBaseStats(base) <==>
      !Truthy(Get(base.GetOr([]), ErrorKey)) &&
      exists f :: f in CardFields && f in Keys(base.GetOr([]))
  {
    var b := base.GetOr([]);
    !Truthy(Get(b, ErrorKey)) &&
    (Get(b, CardFields[0]).Some? || Get(b, CardFields[1]).Some? ||
     Get(b, CardFields[2]).Some? || Get(b, CardFields[3]).Some?)
  }

  /** The fields of `fs` that `b` defines, in the order of `fs`. */
  function Defined(fs: seq<string>, b: Entries<Json>): (r: seq<string>)
    ensures forall f :: f in r <==> f in fs && Get(b, f).Some?
    ensures |r| <= |fs|
  {
    if fs == [] then []
    else if Get(b, fs[0]).Some? then [fs[0]] + Defined(fs[1..], b)
    else Defined(fs[1..], b)
  }

  /** The summary cards shown: each card exactly when the section is shown
      and its own field is defined; the section is shown exactly when it
      has at least one card. */
  function VisibleCards(base: Option<Entries<Json>>): (r: seq<string>)
    ensures forall f :: f in r <==> HasValidBaseStats(base) && f in CardFields && f in Keys(base.GetOr([]))
    ensures r != [] <==> HasValidBaseStats(base)
  {
    if HasValidBaseStats(base) then Defined(CardFields, base.GetOr([])) else []
  }
}
