/**
 * The project archive page (src/pages/Projects.tsx): the filter tabs drawn
 * from a fixed priority list, the search-and-tab filter sorted newest
 * first, and the technology chips on each card.
 */
module ProjectArchive {
  import opened Entities
  import opened JsString
  import opened Seqs
  import opened StableSort

  /** The tabs shown whenever some project carries them, "All" first. */
  const PriorityTags: seq<string> := ["All", "Full Stack", "DevOps", "UI/UX", "Next.js", "React"]

  /** Category tags hidden from the chips on a card. */
  const HiddenChips: seq<string> := ["DevOps", "Full Stack", "UI/UX"]

  /** Chips shown on a card before "+more". */
  const ChipLimit: nat := 3

  /** Every tag in the stack of some project. */
  function TagSet(ps: seq<Project>): (tags: set<string>)
    ensures forall t :: t in tags <==> exists i :: 0 <= i < |ps| && t in ps[i].stack
  {
    if ps == [] then {}
    else TagSet(ps[..|ps| - 1]) + Elements(ps[|ps| - 1].stack)
  }

  function Elements(s: seq<string>): set<string> {
    set x | x in s
  }

  /** `dynamicTags`: a set filled tag by tag, project by project. */
  method CollectTags(ps: seq<Project>) returns (tags: set<string>)
    ensures tags == TagSet(ps)
  {
    tags := {};
    var i := 0;
    while i < |ps|
      invariant 0 <= i <= |ps|
      invariant tags == TagSet(ps[..i])
    {
      var stack := ps[i].stack;
      var j := 0;
      while j < |stack|
        invariant 0 <= j <= |stack|
        invariant tags == TagSet(ps[..i]) + Elements(stack[..j])
      {
        tags := tags + {stack[j]};
        j := j + 1;
        assert stack[..j] == stack[..j - 1] + [stack[j - 1]];
      }
      assert stack[..j] == stack;
      assert ps[..i + 1][..i] == ps[..i];
      i := i + 1;
    }
    assert ps[..i] == ps;
  }

  /** A priority tag survives when it is "All" or some project carries it. */
  predicate KeepTab(dynamic: set<string>, tag: string) {
    tag == "All" || tag in dynamic
  }

  function TabFilter(dynamic: set<string>): string -> bool {
    (tag: string) => KeepTab(dynamic, tag)
  }

  /** The tabs for a set of tags in use. */
  function Tabs(dynamic: set<string>): seq<string> {
    Filter(PriorityTags, TabFilter(dynamic))
  }

  /** `allStacks`: collects the tags in use, then keeps the priority tags among them. */
  method AllStacks(ps: seq<Project>) returns (tabs: seq<string>)
    ensures tabs == Tabs(TagSet(ps))
  {
    var dynamicTags := CollectTags(ps);
    tabs := Tabs(dynamicTags);
  }

  /** A tab is shown exactly when it is a priority tag that is "All" or in some project's stack. */
  lemma TabsMembership(ps: seq<Project>, tag: string)
    ensures tag in Tabs(TagSet(ps)) <==>
      tag in PriorityTags && (tag == "All" || exists i :: 0 <= i < |ps| && tag in ps[i].stack)
  {
    FilterMembership(PriorityTags, TabFilter(TagSet(ps)), tag);
  }

  lemma PriorityTagsDistinct()
    ensures Distinct(PriorityTags)
  {
  }

  /** "All" always leads the tabs, and no tab appears twice. */
  lemma TabsStartWithAll(dynamic: set<string>)
    ensures |Tabs(dynamic)| >= 1 && Tabs(dynamic)[0] == "All"
    ensures Distinct(Tabs(dynamic))
  {
    assert PriorityTags[0] == "All";
    PriorityTagsDistinct();
    FilterDistinct(PriorityTags, TabFilter(dynamic));
  }

  /** The search box: the lower-cased query occurs in the title, the description or a stack entry. */
  predicate MatchesSearch(p: Project, query: string) {
    var q := ToLower(query);
    Includes(ToLower(p.title), q)
    || Includes(ToLower(p.description), q)
    || exists s | s in p.stack :: Includes(ToLower(s), q)
  }

  /** The active tab: "All", or an exact entry of the stack. */
  predicate MatchesTab(p: Project, activeFilter: string) {
    activeFilter == "All" || activeFilter in p.stack
  }

  predicate Shown(p: Project, query: string, activeFilter: string) {
    MatchesSearch(p, query) && MatchesTab(p, activeFilter)
  }

  function ShownBy(query: string, activeFilter: string): Project -> bool {
    (p: Project) => Shown(p, query, activeFilter)
  }

  /** The sort key: the project's date as milliseconds, given by `time`. */
  function ByDate(time: string -> int): Project -> int {
    (p: Project) => time(p.date)
  }

  /**
   * `filteredProjects`: the shown projects, newest first; `time` stands for
   * `new Date(date).getTime()`.
   */
  function FilteredProjects(ps: seq<Project>, query: string, activeFilter: string, time: string -> int): (r: seq<Project>)
    ensures SortedDesc(r, ByDate(time))
    ensures multiset(r) <= multiset(ps)
    ensures forall p :: p in r ==> Shown(p, query, activeFilter)
    ensures forall p :: p in ps && Shown(p, query, activeFilter) ==> multiset(r)[p] == multiset(ps)[p]
  {
    var shown := Filter(ps, ShownBy(query, activeFilter));
    var r := SortDesc(shown, ByDate(time));
    assert forall p :: p in r ==> p in shown by {
      forall p | p in r ensures p in shown {
        assert multiset(r)[p] > 0;
      }
    }
    r
  }

  /** A project is listed exactly when it is in the archive and passes both the search and the tab. */
  lemma FilteredMembership(ps: seq<Project>, query: string, activeFilter: string, time: string -> int, p: Project)
    ensures p in FilteredProjects(ps, query, activeFilter, time) <==> p in ps && Shown(p, query, activeFilter)
  {
    var r := FilteredProjects(ps, query, activeFilter, time);
    if p in r {
      assert multiset(r)[p] > 0;
    }
    if p in ps && Shown(p, query, activeFilter) {
      assert multiset(ps)[p] > 0;
    }
  }

  /** Projects with the same date keep the order they have in the archive. */
  lemma FilteredKeepsOrderOfTies(ps: seq<Project>, query: string, activeFilter: string, time: string -> int, date: int)
    ensures WithKey(FilteredProjects(ps, query, activeFilter, time), ByDate(time), date)
         == WithKey(Filter(ps, ShownBy(query, activeFilter)), ByDate(time), date)
  {
    SortDescStable(Filter(ps, ShownBy(query, activeFilter)), ByDate(time), date);
  }

  /** With an empty search and the "All" tab, every project is listed. */
  lemma EmptySearchShowsAll(ps: seq<Project>, time: string -> int)
    ensures multiset(FilteredProjects(ps, "", "All", time)) == multiset(ps)
  {
    forall i | 0 <= i < |ps|
      ensures ShownBy("", "All")(ps[i])
    {
      IncludesEmpty(ToLower(ps[i].title));
    }
    FilterKeepsAll(ps, ShownBy("", "All"));
  }

  /** The search ignores the letter case of the query. */
  lemma SearchIgnoresQueryCase(p: Project, query: string)
    ensures MatchesSearch(p, query) <==> MatchesSearch(p, ToLower(query))
  {
    assert ToLower(ToLower(query)) == ToLower(query);
  }

  predicate Visible(tech: string) {
    tech !in HiddenChips
  }

  function VisibleFilter(): string -> bool {
    (tech: string) => Visible(tech)
  }

  /** The chips on a card: the stack without category tags, at most three of them. */
  function Chips(stack: seq<string>): (r: seq<string>)
    ensures |r| <= ChipLimit
    ensures forall tech :: tech in r ==> tech in stack && Visible(tech)
    ensures r <= Filter(stack, VisibleFilter())
    ensures |r| < ChipLimit ==> r == Filter(stack, VisibleFilter())
  {
    var visible := Filter(stack, VisibleFilter());
    var r := Take(visible, ChipLimit);
    assert forall tech :: tech in r ==> tech in visible;
    forall tech | tech in visible ensures tech in stack && Visible(tech) {
      FilterMembership(stack, VisibleFilter(), tech);
    }
    r
  }

  /** "+more" shows when the whole stack, categories included, has more than three entries. */
  predicate ShowMore(stack: seq<string>) {
    |stack| > ChipLimit
  }

  /** Whenever a visible entry is cut from the chips, "+more" is shown. */
  lemma CutChipShowsMore(stack: seq<string>)
    requires |Filter(stack, VisibleFilter())| > ChipLimit
    ensures ShowMore(stack)
    ensures |Chips(stack)| == ChipLimit
  {
  }

  /** Without "+more", every non-category entry is a chip, in stack order. */
  lemma NoMoreShowsAllChips(stack: seq<string>)
    requires !ShowMore(stack)
    ensures Chips(stack) == Filter(stack, VisibleFilter())
  {
  }

  /** A short stack without category tags is shown whole. */
  lemma PlainShortStackShownWhole(stack: seq<string>)
    requires !ShowMore(stack)
    requires forall i :: 0 <= i < |stack| ==> Visible(stack[i])
    ensures Chips(stack) == stack
  {
    FilterKeepsAll(stack, VisibleFilter());
  }
}
