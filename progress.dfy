/**
 * The progress screen: the whole-project bar, the per-category bars placed
 * on the project's date interval, the colour of a category bar, and the
 * screen state the two progress fetches fill in (the category list sorted
 * in place by `cc_id`).
 */
module Progress {
  import opened Common

  function Min(a: real, b: real): (m: real) { if a <= b then a else b }
  function Max(a: real, b: real): (m: real) { if a >= b then a else b }

  /** The width, in percent of the track, of the whole-project bar. */
  function ProjectBarWidth(progress: real): (w: real)
    ensures 0.0 <= w <= 100.0
    ensures 0.0 <= progress <= 100.0 ==> w == progress
    ensures progress < 0.0 ==> w == 0.0
    ensures progress > 100.0 ==> w == 100.0
  {
    Min(100.0, Max(0.0, progress))
  }

  /** A JavaScript number as far as the category bar needs one: exact, or NaN. */
  datatype JsNumber = Finite(v: real) | NaN

  /** What a category bar renders: nothing, or a bar at an offset with a width and a colour. */
  datatype CategoryBar = NoRender | Bar(offset: JsNumber, width: JsNumber, colour: string)

  /** The fill colour of a category bar, by the category's status. */
  function StatusColour(status: string): (c: string)
    ensures status == "completed" <==> c == "#82b86a"
    ensures status == "risky" <==> c == "orange"
    ensures status == "upcoming" <==> c == "#d1ced3"
    ensures status !in {"completed", "risky", "upcoming"} <==> c == "gold"
  {
    match status
    case "completed" => "#82b86a"
    case "risky" => "orange"
    case "upcoming" => "#d1ced3"
    case _ => "gold"
  }

  /** The unclamped offset of a category starting at `cs`, in percent of a project [ps, pe]. */
  function RawOffset(cs: int, ps: int, pe: int): (offset: real)
    requires pe != ps
  {
    (cs - ps) as real / (pe - ps) as real * 100.0
  }

  /** The unclamped width of a category [cs, ce], in percent of a project [ps, pe]. */
  function RawWidth(cs: int, ce: int, ps: int, pe: int): (width: real)
    requires pe != ps
  {
    (ce - cs) as real / (pe - ps) as real * 100.0
  }

  /**
   * The bar of a category [cs, ce] on a project [ps, pe]. The guard looks at
   * the validity of the category dates only: an invalid project date makes the
   * duration NaN, `NaN <= 0` is false, and the bar is drawn with NaN geometry.
   * The offset is floored at 0 only and the width capped at 100 only.
   */
  function CategoryBarOf(cs: Date, ce: Date, ps: Date, pe: Date, status: string): (r: CategoryBar)
    ensures r.NoRender? <==> cs.Invalid? || ce.Invalid? || (ps.At? && pe.At? && pe.ms - ps.ms <= 0)
    ensures r.Bar? ==> r.colour == StatusColour(status)
    ensures r.Bar? && (ps.Invalid? || pe.Invalid?) ==> r.offset.NaN? && r.width.NaN?
    ensures r.Bar? && ps.At? && pe.At? ==>
      && r.offset.Finite? && r.width.Finite?
      && r.offset.v >= 0.0
      && r.width.v <= 100.0
      && (RawOffset(cs.ms, ps.ms, pe.ms) >= 0.0 ==> r.offset.v == RawOffset(cs.ms, ps.ms, pe.ms))
      && (RawOffset(cs.ms, ps.ms, pe.ms) < 0.0 ==> r.offset.v == 0.0)
      && (RawWidth(cs.ms, ce.ms, ps.ms, pe.ms) <= 100.0 ==> r.width.v == RawWidth(cs.ms, ce.ms, ps.ms, pe.ms))
      && (RawWidth(cs.ms, ce.ms, ps.ms, pe.ms) > 100.0 ==> r.width.v == 100.0)
  {
    if cs.Invalid? || ce.Invalid? then NoRender
    else if ps.Invalid? || pe.Invalid? then Bar(NaN, NaN, StatusColour(status))
    else if pe.ms - ps.ms <= 0 then NoRender
    else
      Bar(Finite(Max(0.0, RawOffset(cs.ms, ps.ms, pe.ms))),
          Finite(Min(100.0, RawWidth(cs.ms, ce.ms, ps.ms, pe.ms))),
          StatusColour(status))
  }

  /** A category spanning exactly the project starts at 0 and fills the whole bar. */
  lemma FullSpanCategory(ps: int, pe: int, status: string)
    requires ps < pe
    ensures CategoryBarOf(At(ps), At(pe), At(ps), At(pe), status)
         == Bar(Finite(0.0), Finite(100.0), StatusColour(status))
  {
    var d := (pe - ps) as real;
    assert RawWidth(ps, pe, ps, pe) == d / d * 100.0;
    assert d / d == 1.0;
  }

  /** The offset is not capped: a category after the project's end is placed beyond 100. */
  lemma OffsetNotCapped()
    ensures CategoryBarOf(At(20), At(30), At(0), At(10), "risky").offset == Finite(200.0)
  {
    assert RawOffset(20, 0, 10) == 20.0 / 10.0 * 100.0;
  }

  /** The width is not floored: a category ending before it starts has a negative width. */
  lemma WidthNotFloored()
    ensures CategoryBarOf(At(5), At(2), At(0), At(10), "upcoming").width == Finite(-30.0)
  {
    assert RawWidth(5, 2, 0, 10) == -3.0 / 10.0 * 100.0;
  }

  const Day: int := 86400000

  /** A project from 1 January to 31 January and a category from 11 to 21 January: a third each. */
  lemma ThirdOfJanuary(status: string)
    ensures CategoryBarOf(At(10 * Day), At(20 * Day), At(0), At(30 * Day), status)
         == Bar(Finite(100.0 / 3.0), Finite(100.0 / 3.0), StatusColour(status))
  {
    assert RawOffset(10 * Day, 0, 30 * Day) == (10 * Day) as real / (30 * Day) as real * 100.0;
    assert (10 * Day) as real / (30 * Day) as real == 1.0 / 3.0;
    assert RawWidth(10 * Day, 20 * Day, 0, 30 * Day) == (10 * Day) as real / (30 * Day) as real * 100.0;
  }

  /** One entry of `category_progress_info`, its dates already parsed. */
  datatype CategoryProgress = CategoryProgress(
    ccId: string, ccName: string, startDate: Date, endDate: Date, status: string)

  /** The project summary the screen keeps; the percentage already defaulted. */
  datatype ProjectProgress = ProjectProgress(progress: real, duration: int, startDate: Date, endDate: Date)

  /**
   * The body of `/get-project-progress`: `progressPercent` is None when
   * `parseFloat` gives NaN (the field missing or not numeric).
   */
  datatype ProjectResponse = ProjectResponse(
    progressPercent: Option<real>, duration: int, startDate: Date, endDate: Date)

  /**
   * The width of the whole-project bar as rendered: before a summary is stored
   * the state is `{}`, whose `progress` is `undefined`, and `Math.max(0, undefined)`
   * is NaN; a stored summary gives its clamped percentage.
   */
  function ShownProjectBar(project: Option<ProjectProgress>): (w: JsNumber)
    ensures w == NaN <==> project.None?
    ensures w.Finite? ==> 0.0 <= w.v <= 100.0
    ensures project.Some? && 0.0 <= project.value.progress <= 100.0 ==> w == Finite(project.value.progress)
  {
    if project.None? then NaN else Finite(ProjectBarWidth(project.value.progress))
  }

  /** Code-unit lexicographic order on strings: `a.localeCompare(b) <= 0`. */
  predicate LexLeq(a: string, b: string)
  {
    a == [] || (b != [] && (a[0] < b[0] || (a[0] == b[0] && LexLeq(a[1..], b[1..]))))
  }

  lemma {:induction false} LexLeqTotal(a: string, b: string)
    ensures LexLeq(a, b) || LexLeq(b, a)
  {
    if a != [] && b != [] && a[0] == b[0] {
      LexLeqTotal(a[1..], b[1..]);
    }
  }

  lemma {:induction false} LexLeqTransitive(a: string, b: string, c: string)
    requires LexLeq(a, b) && LexLeq(b, c)
    ensures LexLeq(a, c)
  {
    if a != [] && b != [] && c != [] && a[0] == b[0] && b[0] == c[0] {
      LexLeqTransitive(a[1..], b[1..], c[1..]);
    }
  }

  /** `x` sorts no later than `y`: `x.cc_id.localeCompare(y.cc_id) <= 0`. */
  predicate NoLater(x: CategoryProgress, y: CategoryProgress)
  {
    LexLeq(x.ccId, y.ccId)
  }

  ghost predicate SortedByCcId(s: seq<CategoryProgress>)
  {
    forall i, j :: 0 <= i < j < |s| ==> NoLater(s[i], s[j])
  }

  method Swap(a: array<CategoryProgress>, j: int)
    requires 0 < j < a.Length
    modifies a
    ensures a[..] == old(a[..])[j - 1 := old(a[j])][j := old(a[j - 1])]
    ensures multiset(a[..]) == multiset(old(a[..]))
  {
    a[j - 1], a[j] := a[j], a[j - 1];
  }

  /** Moves `a[i]` left past every later-sorting element of the sorted prefix `a[..i]`. */
  method InsertAt(a: array<CategoryProgress>, i: int)
    requires 0 <= i < a.Length
    requires SortedByCcId(a[..i])
    modifies a
    ensures SortedByCcId(a[..i + 1])
    ensures multiset(a[..]) == multiset(old(a[..]))
    ensures a[i + 1..] == old(a[i + 1..])
  {
    var j := i;
    while j > 0 && !NoLater(a[j - 1], a[j])
      invariant 0 <= j <= i
      invariant multiset(a[..]) == multiset(old(a[..]))
      invariant a[i + 1..] == old(a[i + 1..])
      invariant forall p, q :: 0 <= p < q <= i && p != j && q != j ==> NoLater(a[p], a[q])
      invariant forall q :: j < q <= i ==> NoLater(a[j], a[q])
    {
      LexLeqTotal(a[j - 1].ccId, a[j].ccId);
      Swap(a, j);
      j := j - 1;
    }
    forall p, q | 0 <= p < q <= i
      ensures NoLater(a[p], a[q])
    {
      if q == j && p < j - 1 {
        LexLeqTransitive(a[p].ccId, a[j - 1].ccId, a[j].ccId);
      }
    }
  }

  /**
   * `category_progress_info.sort((a, b) => a.cc_id.localeCompare(b.cc_id))`:
   * the array is sorted in place, by insertion.
   */
  method SortByCcId(a: array<CategoryProgress>)
    modifies a
    ensures SortedByCcId(a[..])
    ensures multiset(a[..]) == multiset(old(a[..]))
  {
    var i := 0;
    while i < a.Length
      invariant 0 <= i <= a.Length
      invariant SortedByCcId(a[..i])
      invariant multiset(a[..]) == multiset(old(a[..]))
    {
      InsertAt(a, i);
      i := i + 1;
    }
    assert a[..a.Length] == a[..];
  }

  /** The state of the progress screen. */
  class ProgressView {
    var project: Option<ProjectProgress>
    var categories: seq<CategoryProgress>
    var loading: bool

    constructor ()
      ensures project == None && categories == [] && loading
    {
      project, categories, loading := None, [], true;
    }

    /**
     * `fetchProjectProgress`: nothing is requested without a stored user id, a
     * failed request or an empty body leaves the summary as it was, and a
     * missing, non-numeric or zero percentage becomes 0.
     */
    method ReceiveProjectProgress(storedUserId: Option<string>, response: Fetch<Option<ProjectResponse>>)
      modifies this`project
      ensures if Truthy(storedUserId) && response.Received? && response.data.Some? then
                var d := response.data.value;
                project == Some(ProjectProgress(
                  if d.progressPercent.Some? then d.progressPercent.value else 0.0,
                  d.duration, d.startDate, d.endDate))
              else project == old(project)
    {
      if Truthy(storedUserId) && response.Received? && response.data.Some? {
        var d := response.data.value;
        var progress := if d.progressPercent.Some? then d.progressPercent.value else 0.0;
        project := Some(ProjectProgress(progress, d.duration, d.startDate, d.endDate));
      }
    }

    /**
     * `fetchCategoryProgress`: a present `category_progress_info` list (an empty
     * one included) is sorted by `cc_id` and stored; otherwise nothing changes.
     */
    method ReceiveCategoryProgress(storedUserId: Option<string>, response: Fetch<Option<seq<CategoryProgress>>>)
      modifies this`categories
      ensures if Truthy(storedUserId) && response.Received? && response.data.Some? then
                && SortedByCcId(categories)
                && multiset(categories) == multiset(response.data.value)
              else categories == old(categories)
    {
      if Truthy(storedUserId) && response.Received? && response.data.Some? {
        var info := response.data.value;
        var a := new CategoryProgress[|info|](i requires 0 <= i < |info| => info[i]);
        assert a[..] == info;
        SortByCcId(a);
        categories := a[..];
      }
    }
  }
}
