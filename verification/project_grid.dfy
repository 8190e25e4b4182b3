/** The project grid: an optional category filter bar listing each category
    once in order of first appearance, the projects filtered by the active
    category in their original order, technology badges cut to three with an
    overflow marker, and the open/close state of the project modal. */
module Grid {
  import opened Common

  datatype GridProject = GridProject(
    id: string,
    title: string,
    description: string,
    image: string,
    technologies: seq<string>,
    liveUrl: Option<string>,
    githubUrl: Option<string>,
    category: Option<string>)

  /** JavaScript truthiness of an optional string: defined and non-empty. */
  predicate Truthy(s: Option<string>)
  {
    s.Some? && s.value != ""
  }

  /** `projects.map(p => p.category).filter(Boolean)`. */
  function CategoryValues(projects: seq<GridProject>): (r: seq<string>)
    ensures forall c :: c in r <==> exists p :: p in projects && Truthy(p.category) && p.category.value == c
  {
    if projects == [] then []
    else
      var init := CategoryValues(projects[..|projects| - 1]);
      var last := projects[|projects| - 1];
      assert projects == projects[..|projects| - 1] + [last];
      if Truthy(last.category) then init + [last.category.value] else init
  }

  /** `.map(...).filter(Boolean)` keeps the projects' order: the values of a
      concatenation are the values of each part, one after the other. */
  lemma {:induction false} CategoryValuesKeepsOrder(xs: seq<GridProject>, ys: seq<GridProject>)
    ensures CategoryValues(xs + ys) == CategoryValues(xs) + CategoryValues(ys)
    decreases |ys|
  {
    if ys == [] {
      assert xs + ys == xs;
    } else {
      var init := ys[..|ys| - 1];
      var last := ys[|ys| - 1];
      var zs := xs + ys;
      assert zs[..|zs| - 1] == xs + init;
      assert zs[|zs| - 1] == last;
      CategoryValuesKeepsOrder(xs, init);
    }
  }

  /** A single project contributes its category exactly when it is truthy. */
  lemma CategoryValuesOfOne(p: GridProject)
    ensures CategoryValues([p]) == if Truthy(p.category) then [p.category.value] else []
  {
    assert [p][..0] == [];
  }

  /** `Array.from(new Set(xs))`: inserting into a set keeps the first
      occurrence of each value, in insertion order. */
  function Distinct(xs: seq<string>): (r: seq<string>)
    ensures forall x :: x in r <==> x in xs
    ensures NoDuplicates(r)
  {
    if xs == [] then []
    else
      var init := Distinct(xs[..|xs| - 1]);
      assert xs == xs[..|xs| - 1] + [xs[|xs| - 1]];
      if xs[|xs| - 1] in init then init else init + [xs[|xs| - 1]]
  }

  /** The position of the first occurrence of `x` in `xs`. */
  function FirstIndex(xs: seq<string>, x: string): (r: nat)
    requires x in xs
    ensures r < |xs| && xs[r] == x
    ensures forall k :: 0 <= k < r ==> xs[k] != x
  {
    if xs[0] == x then 0 else 1 + FirstIndex(xs[1..], x)
  }

  predicate NoDuplicates(xs: seq<string>)
  {
    forall i, j :: 0 <= i < j < |xs| ==> xs[i] != xs[j]
  }

  /** The values kept by `Distinct` are ordered by their first occurrence
      in `xs`. */
  lemma {:induction false} DistinctSpec(xs: seq<string>)
    ensures forall i, j :: 0 <= i < j < |Distinct(xs)| ==>
      FirstIndex(xs, Distinct(xs)[i]) < FirstIndex(xs, Distinct(xs)[j])
  {
    if xs != [] {
      var init := xs[..|xs| - 1];
      var last := xs[|xs| - 1];
      assert xs == init + [last];
      DistinctSpec(init);
      var d := Distinct(init);
      forall x | x in d
        ensures x in xs && FirstIndex(xs, x) == FirstIndex(init, x)
      {
        FirstIndexExtend(init, last, x);
      }
      if last !in d {
        forall x | x in d
          ensures FirstIndex(xs, x) < FirstIndex(xs, last)
        {
          FirstIndexNew(init, last);
        }
      }
    }
  }

  lemma {:induction false} FirstIndexExtend(xs: seq<string>, y: string, x: string)
    requires x in xs
    ensures x in xs + [y] && FirstIndex(xs + [y], x) == FirstIndex(xs, x)
  {
    var ys := xs + [y];
    var f := FirstIndex(xs, x);
    assert ys[f] == x;
    var g := FirstIndex(ys, x);
    assert g <= f;
    assert xs[g] == x;
  }

  lemma FirstIndexNew(xs: seq<string>, y: string)
    requires y !in xs
    ensures y in xs + [y] && FirstIndex(xs + [y], y) == |xs|
  {
    var ys := xs + [y];
    assert ys[|xs|] == y;
  }

  /** `categories`: empty unless the filter bar is enabled. */
  function Categories(projects: seq<GridProject>, showCategories: bool): seq<string>
  {
    if showCategories then Distinct(CategoryValues(projects)) else []
  }

  /** The category list holds each defined, non-empty category once, in the
      order in which the projects first mention them. */
  lemma CategoriesSpec(projects: seq<GridProject>, showCategories: bool)
    ensures !showCategories ==> Categories(projects, showCategories) == []
    ensures showCategories ==> forall c :: c in Categories(projects, showCategories) <==>
      exists p :: p in projects && Truthy(p.category) && p.category.value == c
    ensures NoDuplicates(Categories(projects, showCategories))
    ensures var cs := Categories(projects, showCategories);
      forall i, j :: 0 <= i < j < |cs| ==>
        FirstIndex(CategoryValues(projects), cs[i]) < FirstIndex(CategoryValues(projects), cs[j])
  {
    DistinctSpec(CategoryValues(projects));
  }

  /** `projects.filter(p => p.category === c)`. */
  function FilterByCategory(projects: seq<GridProject>, c: string): (r: seq<GridProject>)
    ensures |r| <= |projects|
    ensures forall p :: p in r <==> p in projects && p.category == Some(c)
  {
    if projects == [] then []
    else
      var rest := FilterByCategory(projects[1..], c);
      assert projects == [projects[0]] + projects[1..];
      if projects[0].category == Some(c) then [projects[0]] + rest else rest
  }

  /** Filtering distributes over concatenation, so it keeps the projects'
      relative order. */
  lemma {:induction false} FilterKeepsOrder(xs: seq<GridProject>, ys: seq<GridProject>, c: string)
    ensures FilterByCategory(xs + ys, c) == FilterByCategory(xs, c) + FilterByCategory(ys, c)
    decreases |xs|
  {
    if xs != [] {
      var zs := xs + ys;
      assert zs != [] && zs[0] == xs[0];
      assert zs[1..] == xs[1..] + ys;
      FilterKeepsOrder(xs[1..], ys, c);
      var head := if xs[0].category == Some(c) then [xs[0]] else [];
      assert FilterByCategory(zs, c) == head + FilterByCategory(zs[1..], c);
      assert FilterByCategory(xs, c) == head + FilterByCategory(xs[1..], c);
    } else {
      assert xs + ys == ys;
    }
  }

  /** Filtering twice by the same category changes nothing more. */
  lemma {:induction false} FilterIdempotent(projects: seq<GridProject>, c: string)
    ensures FilterByCategory(FilterByCategory(projects, c), c) == FilterByCategory(projects, c)
    decreases |projects|
  {
    if projects != [] {
      FilterIdempotent(projects[1..], c);
    }
  }

  /** `filteredProjects`: all projects unless a (truthy) category is active. */
  function FilteredProjects(projects: seq<GridProject>, activeCategory: Option<string>): (r: seq<GridProject>)
    ensures !Truthy(activeCategory) ==> r == projects
    ensures Truthy(activeCategory) ==> forall p :: p in r <==> p in projects && p.category == activeCategory
  {
    if Truthy(activeCategory) then FilterByCategory(projects, activeCategory.value) else projects
  }

  /** Choosing any category from the filter bar never shows the empty state. */
  lemma ListedCategoryIsNeverEmpty(projects: seq<GridProject>, c: string)
    requires c in Categories(projects, true)
    ensures FilteredProjects(projects, Some(c)) != []
  {
    DistinctSpec(CategoryValues(projects));
    var p :| p in projects && Truthy(p.category) && p.category.value == c;
    assert p in FilteredProjects(projects, Some(c));
  }

  /** The filter bar is shown when enabled and there is a category. */
  predicate ShowFilterBar(projects: seq<GridProject>, showCategories: bool)
  {
    showCategories && |Categories(projects, showCategories)| > 0
  }

  /** The filter bar appears exactly when it is enabled and some project has
      a non-empty category. */
  lemma FilterBarSpec(projects: seq<GridProject>, showCategories: bool)
    ensures ShowFilterBar(projects, showCategories) <==>
      showCategories && exists p :: p in projects && Truthy(p.category)
  {
    DistinctSpec(CategoryValues(projects));
    if showCategories && exists p :: p in projects && Truthy(p.category) {
      var p :| p in projects && Truthy(p.category);
      assert p.category.value in Categories(projects, showCategories);
    }
    if ShowFilterBar(projects, showCategories) {
      assert Categories(projects, showCategories)[0] in CategoryValues(projects);
    }
  }

  /** The empty-state message is shown. */
  predicate ShowEmptyState(projects: seq<GridProject>, activeCategory: Option<string>)
  {
    |FilteredProjects(projects, activeCategory)| == 0
  }

  /** The empty state appears exactly when a (truthy) category is active and
      no project carries it, or when there are no projects at all. */
  lemma EmptyStateSpec(projects: seq<GridProject>, activeCategory: Option<string>)
    ensures ShowEmptyState(projects, activeCategory) <==>
      forall p :: p in projects ==> Truthy(activeCategory) && p.category != activeCategory
  {
    var r := FilteredProjects(projects, activeCategory);
    if r != [] {
      assert r[0] in r;
    }
    if !Truthy(activeCategory) && projects != [] {
      assert projects[0] in projects;
    }
  }

  /** The technology badges of a card: the first three technologies. */
  function Badges(technologies: seq<string>): (r: seq<string>)
    ensures |r| == Min(3, |technologies|)
    ensures r <= technologies
  {
    technologies[..Min(3, |technologies|)]
  }

  /** The `+n` marker after the badges, for more than three technologies. */
  function OverflowMarker(technologies: seq<string>): Option<string>
  {
    if |technologies| > 3 then Some("+" + Decimal(|technologies| - 3)) else None
  }

  /** The badges and the marker together account for every technology: the
      marker appears exactly when some are hidden and reads as their number. */
  lemma BadgesAccountForAll(technologies: seq<string>)
    ensures OverflowMarker(technologies).Some? <==> |Badges(technologies)| < |technologies|
    ensures OverflowMarker(technologies).Some? ==>
      var m := OverflowMarker(technologies).value;
      |m| >= 2 && m[0] == '+' &&
      |Badges(technologies)| + ParseDecimal(m[1..]) == |technologies|
  {
    if |technologies| > 3 {
      var m := OverflowMarker(technologies).value;
      assert m[1..] == Decimal(|technologies| - 3);
      ParseDecimalOfDecimal(|technologies| - 3);
    }
  }

  /** The grid's props and state. */
  class ProjectGrid {
    const projects: seq<GridProject>
    const showCategories: bool
    var selectedProject: Option<GridProject>
    var isModalOpen: bool
    var activeCategory: Option<string>

    /** The modal is open exactly when a project is selected. */
    predicate Valid()
      reads this
    {
      isModalOpen <==> selectedProject.Some?
    }

    constructor (projects: seq<GridProject>, showCategories: bool)
      ensures Valid()
      ensures this.projects == projects && this.showCategories == showCategories
      ensures selectedProject == None && !isModalOpen && activeCategory == None
    {
      this.projects := projects;
      this.showCategories := showCategories;
      selectedProject := None;
      isModalOpen := false;
      activeCategory := None;
    }

    /** `handleProjectClick`. */
    method HandleProjectClick(project: GridProject)
      requires Valid()
      modifies this
      ensures Valid()
      ensures selectedProject == Some(project) && isModalOpen
      ensures activeCategory == old(activeCategory)
    {
      selectedProject := Some(project);
      isModalOpen := true;
    }

    /** `handleCloseModal`. */
    method HandleCloseModal()
      requires Valid()
      modifies this
      ensures Valid()
      ensures selectedProject == None && !isModalOpen
      ensures activeCategory == old(activeCategory)
    {
      isModalOpen := false;
      selectedProject := None;
    }

    /** A filter button: "All" passes `None`, a category button its name. */
    method SetActiveCategory(category: Option<string>)
      requires Valid()
      modifies this
      ensures Valid()
      ensures activeCategory == category
      ensures selectedProject == old(selectedProject) && isModalOpen == old(isModalOpen)
    {
      activeCategory := category;
    }
  }
}
