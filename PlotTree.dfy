/** The plot-progress transition that a chat turn applies to the ordered list of
    story nodes (services/geminiService.ts, the `map` inside `sendChatMessage`). */
module PlotTree {
  import opened Types

  /** The `plotUpdates` object of a parsed turn reply; either id may be missing. */
  datatype PlotUpdates = PlotUpdates(completedNodeId: Option<string>, activatedNodeId: Option<string>)

  /** The status a node ends with: the completed id is tested first, then the activated id. */
  function NextStatus(node: StoryNode, u: PlotUpdates): NodeStatus {
    if u.completedNodeId == Some(node.id) then Completed
    else if u.activatedNodeId == Some(node.id) then Active
    else node.status
  }

  /** Applies the proposed transition to every node, keeping the list's length and order.
      Only `status` may change, and it changes only on a node an id names. */
  function ApplyPlotUpdates(tree: seq<StoryNode>, u: PlotUpdates): (r: seq<StoryNode>)
    ensures |r| == |tree|
    ensures forall i :: 0 <= i < |tree| ==> r[i] == tree[i].(status := r[i].status)
    ensures forall i | 0 <= i < |tree| && u.completedNodeId == Some(tree[i].id) :: r[i].status == Completed
    ensures forall i | 0 <= i < |tree| && u.completedNodeId != Some(tree[i].id) ::
              u.activatedNodeId == Some(tree[i].id) ==> r[i].status == Active
    ensures forall i | 0 <= i < |tree| && u.completedNodeId != Some(tree[i].id) ::
              u.activatedNodeId != Some(tree[i].id) ==> r[i] == tree[i]
  {
    if tree == [] then []
    else [tree[0].(status := NextStatus(tree[0], u))] + ApplyPlotUpdates(tree[1..], u)
  }

  predicate NamesNoNode(tree: seq<StoryNode>, id: Option<string>) {
    forall i :: 0 <= i < |tree| ==> id != Some(tree[i].id)
  }

  /** Ids that name no node (or are missing) leave the tree equal to the input. */
  lemma UnmatchedUpdateIsIdentity(tree: seq<StoryNode>, u: PlotUpdates)
    requires NamesNoNode(tree, u.completedNodeId) && NamesNoNode(tree, u.activatedNodeId)
    ensures ApplyPlotUpdates(tree, u) == tree
  {
  }

  /** An update with neither id leaves every tree unchanged. */
  lemma EmptyUpdateIsIdentity(tree: seq<StoryNode>)
    ensures ApplyPlotUpdates(tree, PlotUpdates(None, None)) == tree
  {
    UnmatchedUpdateIsIdentity(tree, PlotUpdates(None, None));
  }

  predicate UniqueIds(tree: seq<StoryNode>) {
    forall i, j :: 0 <= i < j < |tree| ==> tree[i].id != tree[j].id
  }

  predicate AtMostOneActive(tree: seq<StoryNode>) {
    forall i, j :: 0 <= i < |tree| && 0 <= j < |tree| && tree[i].status == Active && tree[j].status == Active ==> i == j
  }

  /** The transition keeps at most one node active when the ids are unique and the node
      that was active (if any) is the one the update completes. */
  lemma ActiveStaysUnique(tree: seq<StoryNode>, u: PlotUpdates)
    requires UniqueIds(tree) && AtMostOneActive(tree)
    requires forall i :: 0 <= i < |tree| && tree[i].status == Active ==> u.completedNodeId == Some(tree[i].id)
    ensures AtMostOneActive(ApplyPlotUpdates(tree, u))
  {
    var r := ApplyPlotUpdates(tree, u);
    forall i, j | 0 <= i < |r| && 0 <= j < |r| && r[i].status == Active && r[j].status == Active
      ensures i == j
    {
      assert u.activatedNodeId == Some(tree[i].id) && u.activatedNodeId == Some(tree[j].id);
    }
  }

  /** Without unique ids the transition can leave two nodes active. */
  lemma DuplicateIdsCanActivateTwo()
    ensures var tree := [StoryNode("x", "A", "", Locked, Arrival), StoryNode("x", "B", "", Locked, Encounter)];
            AtMostOneActive(tree) && !AtMostOneActive(ApplyPlotUpdates(tree, PlotUpdates(None, Some("x"))))
  {
    var tree := [StoryNode("x", "A", "", Locked, Arrival), StoryNode("x", "B", "", Locked, Encounter)];
    var r := ApplyPlotUpdates(tree, PlotUpdates(None, Some("x")));
    assert r[0].status == Active && r[1].status == Active;
  }

  /** The transition does not treat `completed` as final: an activated id re-activates a completed node. */
  lemma CompletedNodeCanBeReactivated()
    ensures ApplyPlotUpdates([StoryNode("1", "T", "D", Completed, Ending)], PlotUpdates(None, Some("1")))
            == [StoryNode("1", "T", "D", Active, Ending)]
  {
  }

  /** The active chapter is completed and the next locked one becomes active. */
  lemma AdvanceOneChapter()
    ensures ApplyPlotUpdates([StoryNode("1", "T1", "D1", Active, Arrival), StoryNode("2", "T2", "D2", Locked, Encounter)],
                             PlotUpdates(Some("1"), Some("2")))
            == [StoryNode("1", "T1", "D1", Completed, Arrival), StoryNode("2", "T2", "D2", Active, Encounter)]
  {
  }

  /** When both ids name the same node, completion wins. */
  lemma CompletionWins(node: StoryNode)
    ensures ApplyPlotUpdates([node], PlotUpdates(Some(node.id), Some(node.id))) == [node.(status := Completed)]
  {
  }
}
