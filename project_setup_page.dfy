/**
 * The project set-up page (src/pages/projects/ProjectSetupPage.tsx): whether
 * the page creates a project or edits one, and the work-breakdown tree, whose
 * rows are drawn depth first and which opens only the items that are
 * expanded and have children.
 */
module ProjectSetupPage {
  import opened Common
  import opened Types

  /** `!projectId || projectId === 'new'`: no route parameter, an empty one, or "new". */
  function IsNew(projectId: Option<string>): (r: bool)
    ensures r <==> projectId.None? || projectId.value == "" || projectId.value == "new"
  {
    match projectId
    case None => true
    case Some(id) => id == "" || id == "new"
  }

  // ---------------------------------------------------------------------
  // Expanded items
  // ---------------------------------------------------------------------

  const InitiallyExpanded: seq<string> := ["wbs-1", "wbs-2"]

  class SetupState {
    var expandedWbs: seq<string>

    constructor ()
      ensures expandedWbs == InitiallyExpanded && Distinct(expandedWbs)
    {
      expandedWbs := InitiallyExpanded;
    }

    /** `toggleWBSExpand(id)`: drop the id when present, else append it. */
    method ToggleWbsExpand(id: string)
      modifies this
      ensures expandedWbs == ToggleMember(old(expandedWbs), id)
      ensures id in expandedWbs <==> id !in old(expandedWbs)
      ensures forall other | other != id :: other in expandedWbs <==> other in old(expandedWbs)
      ensures Distinct(old(expandedWbs)) ==> Distinct(expandedWbs)
    {
      if Distinct(expandedWbs) {
        ToggleMemberKeepsDistinct(expandedWbs, id);
      }
      expandedWbs := ToggleMember(expandedWbs, id);
    }
  }

  // ---------------------------------------------------------------------
  // The rows of the tree
  // ---------------------------------------------------------------------

  /** The button in front of a row: none for a leaf, else pointing down when open. */
  datatype Chevron = NoToggle | ChevronDown | ChevronRight

  datatype WbsRow = WbsRow(id: string, code: string, depth: nat, paddingLeft: int, chevron: Chevron)

  function HasChildren(item: WbsItem): bool { |item.children| > 0 }

  /** The row of `item` itself at `level` (`paddingLeft: level * 24 + 16`). */
  function RowOf(item: WbsItem, level: nat, expanded: seq<string>): (r: WbsRow)
    ensures r.id == item.id && r.code == item.code && r.depth == level
    ensures r.chevron == NoToggle <==> !HasChildren(item)
    ensures r.chevron == ChevronDown <==> HasChildren(item) && item.id in expanded
  {
    WbsRow(item.id, item.code, level, level * 24 + 16,
      if !HasChildren(item) then NoToggle else if item.id in expanded then ChevronDown else ChevronRight)
  }

  /** `items.map(item => renderWBSItem(item, level))`: each item's row, followed by the
      rows of its children one level deeper when it has children and is expanded. */
  function Rows(items: seq<WbsItem>, level: nat, expanded: seq<string>): seq<WbsRow>
    decreases items
  {
    if |items| == 0 then []
    else
      var item := items[0];
      [RowOf(item, level, expanded)] +
      (if HasChildren(item) && item.id in expanded then Rows(item.children, level + 1, expanded) else []) +
      Rows(items[1..], level, expanded)
  }

  /** Every row is at least as deep as the list it comes from, and is indented by
      24 pixels per level beyond a 16-pixel margin. */
  lemma {:induction false} RowsIndentByDepth(items: seq<WbsItem>, level: nat, expanded: seq<string>)
    ensures |Rows(items, level, expanded)| >= |items|
    ensures forall r | r in Rows(items, level, expanded) :: r.depth >= level && r.paddingLeft == 24 * r.depth + 16
    decreases items
  {
    if |items| > 0 {
      var item := items[0];
      if HasChildren(item) && item.id in expanded {
        RowsIndentByDepth(item.children, level + 1, expanded);
      }
      RowsIndentByDepth(items[1..], level, expanded);
    }
  }

  /** Rows of a list are the rows of its parts, one after the other. */
  lemma {:induction false} RowsAppend(a: seq<WbsItem>, b: seq<WbsItem>, level: nat, expanded: seq<string>)
    ensures Rows(a + b, level, expanded) == Rows(a, level, expanded) + Rows(b, level, expanded)
    decreases |a|
  {
    if |a| == 0 {
      assert a + b == b;
    } else {
      var item := a[0];
      var inner := if HasChildren(item) && item.id in expanded then Rows(item.children, level + 1, expanded) else [];
      assert (a + b)[0] == item && (a + b)[1..] == a[1..] + b;
      RowsAppend(a[1..], b, level, expanded);
      calc {
        Rows(a + b, level, expanded);
        [RowOf(item, level, expanded)] + inner + Rows(a[1..] + b, level, expanded);
        [RowOf(item, level, expanded)] + inner + (Rows(a[1..], level, expanded) + Rows(b, level, expanded));
        ([RowOf(item, level, expanded)] + inner + Rows(a[1..], level, expanded)) + Rows(b, level, expanded);
      }
    }
  }

  /** With nothing expanded only the top-level items are drawn, in order. */
  lemma {:induction false} CollapsedShowsTopLevel(items: seq<WbsItem>, level: nat)
    ensures |Rows(items, level, [])| == |items|
    ensures forall i | 0 <= i < |items| :: Rows(items, level, [])[i] == RowOf(items[i], level, [])
    decreases |items|
  {
    if |items| > 0 {
      CollapsedShowsTopLevel(items[1..], level);
    }
  }

  /** Top-level rows are drawn whatever is expanded: the row of each top-level
      item is among the rows. */
  lemma {:induction false} TopLevelAlwaysDrawn(items: seq<WbsItem>, level: nat, expanded: seq<string>, k: nat)
    requires k < |items|
    ensures RowOf(items[k], level, expanded) in Rows(items, level, expanded)
    decreases k
  {
    if k > 0 {
      TopLevelAlwaysDrawn(items[1..], level, expanded, k - 1);
    }
  }

  // ---------------------------------------------------------------------
  // The demonstration breakdown
  // ---------------------------------------------------------------------

  const DemoWbs: seq<WbsItem> := [
    WbsItem("wbs-1", "1.0", "Project Initiation", Phase, "John Smith", 25000, 100, [
      WbsItem("wbs-1-1", "1.1", "Project Charter", DeliverableItem, "John Smith", 10000, 100, []),
      WbsItem("wbs-1-2", "1.2", "Stakeholder Analysis", DeliverableItem, "John Smith", 15000, 100, [])]),
    WbsItem("wbs-2", "2.0", "Requirements", Phase, "Lisa Park", 55000, 100, [
      WbsItem("wbs-2-1", "2.1", "Business Requirements", DeliverableItem, "Lisa Park", 28000, 100, [])]),
    WbsItem("wbs-3", "3.0", "Design", Phase, "Sarah Lee", 75000, 100, []),
    WbsItem("wbs-4", "4.0", "Development", Phase, "Mike Chen", 210000, 60, [])
  ]

  function Codes(rows: seq<WbsRow>): seq<string>
  {
    seq(|rows|, i requires 0 <= i < |rows| => rows[i].code)
  }

  /** On opening, both phases with children are expanded: seven rows, children
      under their phase. */
  lemma DemoRowsOnOpening()
    ensures Codes(Rows(DemoWbs, 0, InitiallyExpanded)) == ["1.0", "1.1", "1.2", "2.0", "2.1", "3.0", "4.0"]
  {
    var e := InitiallyExpanded;
    assert Rows(DemoWbs[0].children, 1, e) == [RowOf(DemoWbs[0].children[0], 1, e), RowOf(DemoWbs[0].children[1], 1, e)];
    assert Rows(DemoWbs[1].children, 1, e) == [RowOf(DemoWbs[1].children[0], 1, e)];
    assert DemoWbs[2..][1..] == DemoWbs[3..] && DemoWbs[3..][1..] == [];
    assert Rows(DemoWbs[3..], 0, e) == [RowOf(DemoWbs[3], 0, e)];
    assert Rows(DemoWbs[2..], 0, e) == [RowOf(DemoWbs[2], 0, e), RowOf(DemoWbs[3], 0, e)];
  }
}
