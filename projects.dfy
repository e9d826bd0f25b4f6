/** The project gallery: four filter buttons, the active filter, and the
    filtered list the gallery shows. */
module Projects {
  import opened ProjectData

  /** `'all' | 'webapp' | 'website' | 'mobile'`: "all", or one category. */
  datatype FilterType = All | ByCategory(category: Category)

  datatype FilterButton = FilterButton(value: FilterType, caption: string)

  /** The `filters` table, in button order. */
  const Filters: seq<FilterButton> := [
    FilterButton(All, "Alle"),
    FilterButton(ByCategory(WebApp), "Web Apps"),
    FilterButton(ByCategory(Website), "Websites"),
    FilterButton(ByCategory(Mobile), "Mobile")
  ]

  /** The predicate given to `projects.filter`:
      `activeFilter === 'all' || project.category === activeFilter`. */
  predicate Keeps(f: FilterType, p: Project)
  {
    f == All || f == ByCategory(p.category)
  }

  /** `xs` is `ys` with some elements left out, the rest in their order. */
  predicate IsSubsequence<T(==)>(xs: seq<T>, ys: seq<T>)
    decreases |ys|
  {
    xs == [] ||
    (ys != [] &&
     ((xs[0] == ys[0] && IsSubsequence(xs[1..], ys[1..])) || IsSubsequence(xs, ys[1..])))
  }

  /** `filteredProjects`: the order-preserving subset of `ps` that the
      active filter keeps. */
  function Filtered(ps: seq<Project>, f: FilterType): (r: seq<Project>)
    ensures |r| <= |ps|
    ensures IsSubsequence(r, ps)
    ensures forall p :: p in r ==> p in ps && Keeps(f, p)
    ensures forall p :: p in ps && Keeps(f, p) ==> p in r
    ensures f == All ==> r == ps
    decreases |ps|
  {
    if ps == [] then []
    else if Keeps(f, ps[0]) then [ps[0]] + Filtered(ps[1..], f)
    else Filtered(ps[1..], f)
  }

  /** Every project lands in exactly one category's list: the three category
      filters split the input, counting duplicates. */
  lemma {:induction false} CategoriesPartition(ps: seq<Project>)
    ensures multiset(Filtered(ps, ByCategory(WebApp))) + multiset(Filtered(ps, ByCategory(Website)))
            + multiset(Filtered(ps, ByCategory(Mobile))) == multiset(ps)
    ensures |Filtered(ps, ByCategory(WebApp))| + |Filtered(ps, ByCategory(Website))|
            + |Filtered(ps, ByCategory(Mobile))| == |ps|
    decreases |ps|
  {
    if ps != [] {
      var p, rest := ps[0], ps[1..];
      CategoriesPartition(rest);
      assert ps == [p] + rest;
      var w, s, m := Filtered(rest, ByCategory(WebApp)), Filtered(rest, ByCategory(Website)),
        Filtered(rest, ByCategory(Mobile));
      match p.category
      case WebApp =>
        assert Filtered(ps, ByCategory(WebApp)) == [p] + w;
        assert Filtered(ps, ByCategory(Website)) == s && Filtered(ps, ByCategory(Mobile)) == m;
      case Website =>
        assert Filtered(ps, ByCategory(Website)) == [p] + s;
        assert Filtered(ps, ByCategory(WebApp)) == w && Filtered(ps, ByCategory(Mobile)) == m;
      case Mobile =>
        assert Filtered(ps, ByCategory(Mobile)) == [p] + m;
        assert Filtered(ps, ByCategory(WebApp)) == w && Filtered(ps, ByCategory(Website)) == s;
    }
  }

  /** No project is in two category lists. */
  lemma CategoriesDisjoint(ps: seq<Project>, c: Category, d: Category, p: Project)
    requires c != d
    ensures !(p in Filtered(ps, ByCategory(c)) && p in Filtered(ps, ByCategory(d)))
  {
  }

  /** Filtering what is already filtered changes nothing. */
  lemma {:induction false} FilterIdempotent(ps: seq<Project>, f: FilterType)
    ensures Filtered(Filtered(ps, f), f) == Filtered(ps, f)
    decreases |ps|
  {
    if ps != [] {
      FilterIdempotent(ps[1..], f);
      if Keeps(f, ps[0]) {
        assert ([ps[0]] + Filtered(ps[1..], f))[1..] == Filtered(ps[1..], f);
      }
    }
  }

  /** The gallery's filter buttons carry exactly the four filter values. */
  lemma FilterButtonsCoverFilterType(f: FilterType)
    ensures exists i :: 0 <= i < |Filters| && Filters[i].value == f
    ensures |Filters| == 4
  {
    match f
    case All => assert Filters[0].value == f;
    case ByCategory(c) =>
      match c
      case WebApp => assert Filters[1].value == f;
      case Website => assert Filters[2].value == f;
      case Mobile => assert Filters[3].value == f;
  }

  lemma FilteredCons(p: Project, ps: seq<Project>, f: FilterType)
    ensures Filtered([p] + ps, f) == if Keeps(f, p) then [p] + Filtered(ps, f) else Filtered(ps, f)
  {
    assert ([p] + ps)[1..] == ps;
  }

  lemma FilterLastThreeWebApps(p4: Project, p5: Project, p6: Project)
    requires p4.category == Mobile && p5.category == Website && p6.category == WebApp
    ensures Filtered([p4, p5, p6], ByCategory(WebApp)) == [p6]
  {
    var f := ByCategory(WebApp);
    FilteredCons(p6, [], f);
    assert [p6] == [p6] + [];
    FilteredCons(p5, [p6], f);
    assert [p5, p6] == [p5] + [p6];
    FilteredCons(p4, [p5, p6], f);
    assert [p4, p5, p6] == [p4] + [p5, p6];
  }

  /** Filtering six projects whose categories are those of the table. */
  lemma FilterSixWebApps(p1: Project, p2: Project, p3: Project, p4: Project, p5: Project, p6: Project)
    requires p1.category == WebApp && p2.category == WebApp && p3.category == Website
    requires p4.category == Mobile && p5.category == Website && p6.category == WebApp
    ensures Filtered([p1, p2, p3, p4, p5, p6], ByCategory(WebApp)) == [p1, p2, p6]
  {
    var f := ByCategory(WebApp);
    var t3 := [p3] + [p4, p5, p6];
    var t2 := [p2] + t3;
    assert Filtered(t3, f) == [p6] by {
      FilterLastThreeWebApps(p4, p5, p6);
      FilteredCons(p3, [p4, p5, p6], f);
    }
    assert Filtered(t2, f) == [p2, p6] by {
      FilteredCons(p2, t3, f);
    }
    assert Filtered([p1] + t2, f) == [p1, p2, p6] by {
      FilteredCons(p1, t2, f);
    }
    assert [p1, p2, p3, p4, p5, p6] == [p1] + t2;
  }

  /** On the static table, "Web Apps" shows project1, project2 and project6,
      in that order. */
  lemma WebAppsOfTable()
    ensures Filtered(Table, ByCategory(WebApp)) == [Project1, Project2, Project6]
    ensures [Project1.id, Project2.id, Project6.id] == ["project1", "project2", "project6"]
  {
    FilterSixWebApps(Project1, Project2, Project3, Project4, Project5, Project6);
  }

  /** The mounted `Projects` component: its one piece of state. */
  class Gallery {
    var activeFilter: FilterType

    constructor ()
      ensures activeFilter == All
    {
      activeFilter := All;
    }

    /** A click on one of the filter buttons. */
    method ClickFilter(button: FilterButton)
      modifies this
      ensures activeFilter == button.value
    {
      activeFilter := button.value;
    }

    /** The cards the gallery renders for the `projects` prop. */
    function Visible(ps: seq<Project>): (r: seq<Project>)
      reads this
      ensures IsSubsequence(r, ps)
      ensures forall p :: p in ps ==> (p in r <==> Keeps(activeFilter, p))
    {
      Filtered(ps, activeFilter)
    }
  }
}
