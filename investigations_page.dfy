// The inspector's investigations page: a title search with a status filter,
// the status tabs with their counts, and the colour of each progress bar.
// The investigation list itself is an input.

module InvestigationsPage {
  import opened Common
  import opened Text

  /** One investigation. */
  datatype Investigation = Investigation(
    id: int, title: string, status: string, priority: string,
    progress: int, stocks: seq<string>, assignee: string)

  /** The row filter: the query in the title, ignoring case, and the status
      filter 'all' or equal. The stocks and the assignee are not searched. */
  predicate Shown(inv: Investigation, query: string, status: string)
  {
    IncludesFolded(inv.title, query) && (status == "all" || inv.status == status)
  }

  /** filteredInvestigations: the shown investigations in list order. */
  function Filtered(invs: seq<Investigation>, query: string, status: string): (r: seq<Investigation>)
    ensures forall x :: x in r <==> x in invs && Shown(x, query, status)
    ensures |r| == Count(invs, (x: Investigation) => Shown(x, query, status))
  {
    Filter(invs, (x: Investigation) => Shown(x, query, status))
  }

  /** Two investigations with the same title and status are shown or hidden
      together, whatever their stocks and assignees. */
  lemma SearchSeesTitleAndStatusOnly(a: Investigation, b: Investigation, query: string, status: string)
    requires a.title == b.title && a.status == b.status
    ensures Shown(a, query, status) == Shown(b, query, status)
  {
  }

  /** A tab's count over the unfiltered list: everything for 'all',
      otherwise the investigations with that status. */
  function TabCount(invs: seq<Investigation>, tab: string): (n: nat)
    ensures tab == "all" ==> n == |invs|
    ensures tab != "all" ==> n == Count(invs, (x: Investigation) => x.status == tab)
    ensures n <= |invs|
  {
    if tab == "all" then |invs| else Count(invs, (x: Investigation) => x.status == tab)
  }

  /** statusTabs. */
  const Tabs: seq<string> := ["all", "active", "pending", "completed"]

  /** A tab's count is the number of rows the tab shows with an empty
      search. */
  lemma TabCountIsRows(invs: seq<Investigation>, tab: string)
    ensures TabCount(invs, tab) == |Filtered(invs, "", tab)|
  {
    forall i | 0 <= i < |invs| ensures IncludesFolded(invs[i].title, "") {
      IncludesEmpty(invs[i].title);
    }
    if tab == "all" {
      FilterAll(invs, (x: Investigation) => Shown(x, "", tab));
    } else {
      CountSame(invs, (x: Investigation) => Shown(x, "", tab), (x: Investigation) => x.status == tab);
    }
  }

  /** When every investigation is active, pending or completed, the three
      status tabs add up to the 'all' tab. */
  lemma TabsAddUp(invs: seq<Investigation>)
    requires forall i :: 0 <= i < |invs| ==> invs[i].status in Tabs[1..]
    ensures TabCount(invs, "active") + TabCount(invs, "pending") + TabCount(invs, "completed") == TabCount(invs, "all")
  {
    CountPartition3(invs,
      (x: Investigation) => x.status == "active",
      (x: Investigation) => x.status == "pending",
      (x: Investigation) => x.status == "completed");
  }

  /** The colour of a progress bar. */
  datatype ProgressColor = Success | Gradient | Warning

  /** success when complete, the gradient from half way, warning below. */
  function ProgressColorOf(progress: int): (c: ProgressColor)
    ensures c == Success <==> progress == 100
    ensures c == Gradient <==> progress != 100 && progress >= 50
    ensures c == Warning <==> progress < 50
  {
    if progress == 100 then Success else if progress >= 50 then Gradient else Warning
  }
}
