/** Merging an imported canvas into an existing one: `ArrangeNodesAndMerge`. */
module Importer {
  import opened Text

  datatype Node = Node(id: string, tech: string, x: real, y: real, data: string)
  datatype Edge = Edge(id: string, source: string, target: string, style: string)

  // ---------- Fresh ids ----------

  function Candidate(orig: string, cnt: nat): string {
    orig + "_" + Itoa(cnt)
  }

  lemma CandidateInjective(orig: string, a: nat, b: nat)
    requires Candidate(orig, a) == Candidate(orig, b)
    ensures a == b
  {
    assert Candidate(orig, a)[|orig| + 1..] == Itoa(a);
    assert Candidate(orig, b)[|orig| + 1..] == Itoa(b);
    ItoaInjective(a, b);
  }

  /** The ids in use that the suffix search has not yet passed. */
  ghost function Ahead(taken: set<string>, orig: string, cnt: nat): set<string> {
    set s | s in taken && exists k: nat :: k >= cnt && s == Candidate(orig, k)
  }

  lemma AheadShrinks(taken: set<string>, orig: string, cnt: nat)
    requires Candidate(orig, cnt) in taken
    ensures Ahead(taken, orig, cnt + 1) < Ahead(taken, orig, cnt)
  {
    var c := Candidate(orig, cnt);
    assert c in Ahead(taken, orig, cnt);
    if c in Ahead(taken, orig, cnt + 1) {
      var k: nat :| k >= cnt + 1 && c == Candidate(orig, k);
      CandidateInjective(orig, cnt, k);
    }
  }

  function FreshFrom(taken: set<string>, orig: string, cnt: nat): (r: string)
    ensures r !in taken
    ensures exists k: nat ::
              k >= cnt && r == Candidate(orig, k) && forall j | cnt <= j < k :: Candidate(orig, j) in taken
    decreases Ahead(taken, orig, cnt)
  {
    var c := Candidate(orig, cnt);
    if c in taken then AheadShrinks(taken, orig, cnt); FreshFrom(taken, orig, cnt + 1) else c
  }

  function FinalId(taken: set<string>, orig: string): (r: string)
    ensures r !in taken
    ensures orig !in taken ==> r == orig
  {
    if orig in taken then FreshFrom(taken, orig, 1) else orig
  }

  function FinalIds(taken: set<string>, ids: seq<string>): (r: seq<string>)
    ensures |r| == |ids|
    decreases |ids|
  {
    if ids == [] then []
    else
      var f := FinalId(taken, ids[0]);
      [f] + FinalIds(taken + {f}, ids[1..])
  }

  // ---------- Edges ----------

  function RetargetEdge(e: Edge, from: string, to: string): Edge {
    var source := if e.source == from then to else e.source;
    var target := if e.target == from then to else e.target;
    e.(id := "e_" + source + "_" + target, source := source, target := target)
  }

  function Retarget(edges: seq<Edge>, from: string, to: string): seq<Edge> {
    if from == to then edges else seq(|edges|, k requires 0 <= k < |edges| => RetargetEdge(edges[k], from, to))
  }

  function MergedEdges(taken: set<string>, ids: seq<string>, edges: seq<Edge>): seq<Edge>
    decreases |ids|
  {
    if ids == [] then edges
    else
      var f := FinalId(taken, ids[0]);
      MergedEdges(taken + {f}, ids[1..], Retarget(edges, ids[0], f))
  }

  // ---------- Layout ----------

  datatype Row = TerraformRow | AnsibleRow | KubernetesRow

  function RowOf(tech: string): Row {
    if tech == "Ansible" then AnsibleRow else if tech == "Kubernetes" then KubernetesRow else TerraformRow
  }

  function RowY(row: Row): real {
    match row
    case TerraformRow => 50.0
    case AnsibleRow => 300.0
    case KubernetesRow => 550.0
  }

  /** How many of the first `i` nodes stand in the given row. */
  function Earlier(nodes: seq<Node>, i: nat, row: Row): nat
    requires i <= |nodes|
  {
    if i == 0 then 0 else Earlier(nodes, i - 1, row) + if RowOf(nodes[i - 1].tech) == row then 1 else 0
  }

  function Placed(nodes: seq<Node>, yOffset: real, i: nat): Node
    requires i < |nodes|
  {
    var row := RowOf(nodes[i].tech);
    nodes[i].(x := 100.0 + Earlier(nodes, i, row) as real * 280.0, y := yOffset + RowY(row))
  }

  function MaxY(nodes: seq<Node>): (m: real)
    ensures m >= 0.0 && forall n | n in nodes :: n.y <= m
  {
    if nodes == [] then 0.0
    else
      var m := MaxY(nodes[..|nodes| - 1]);
      var y := nodes[|nodes| - 1].y;
      assert forall n | n in nodes :: n in nodes[..|nodes| - 1] || n == nodes[|nodes| - 1];
      if y > m then y else m
  }

  function YOffset(existing: seq<Node>): real {
    if existing == [] then 0.0 else MaxY(existing) + 300.0
  }

  // ---------- The merge ----------

  function Ids(nodes: seq<Node>): (r: seq<string>)
    ensures |r| == |nodes|
  {
    seq(|nodes|, i requires 0 <= i < |nodes| => nodes[i].id)
  }

  function IdSet(nodes: seq<Node>): set<string> {
    set i | 0 <= i < |nodes| :: nodes[i].id
  }

  function MergedNodes(existing: seq<Node>, imported: seq<Node>): (r: seq<Node>)
    ensures |r| == |imported|
  {
    var finals := FinalIds(IdSet(existing), Ids(imported));
    seq(|imported|, i requires 0 <= i < |imported| =>
      Placed(imported, YOffset(existing), i).(id := finals[i]))
  }

  method ArrangeNodesAndMerge(existingNodes: seq<Node>, existingEdges: seq<Edge>,
                              imported: array<Node>, importedEdges: array<Edge>)
    returns (nodes: seq<Node>, edges: seq<Edge>)
    modifies imported, importedEdges
    ensures imported[..] == MergedNodes(existingNodes, old(imported[..]))
    ensures importedEdges[..] == MergedEdges(IdSet(existingNodes), Ids(old(imported[..])), old(importedEdges[..]))
    ensures nodes == existingNodes + imported[..] && edges == existingEdges + importedEdges[..]
  {
    var maxY := 0.0;
    for k := 0 to |existingNodes|
      invariant maxY == MaxY(existingNodes[..k])
    {
      assert existingNodes[..k + 1][..k] == existingNodes[..k];
      if existingNodes[k].y > maxY {
        maxY := existingNodes[k].y;
      }
    }
    assert existingNodes[..|existingNodes|] == existingNodes;
    var yOffset := if |existingNodes| > 0 then maxY + 300.0 else 0.0;
    Arrange(imported, yOffset);
    var taken := IdSet(existingNodes);
    assert Ids(imported[..]) == Ids(old(imported[..]));
    label laidOut:
    Rename(imported, importedEdges, taken);
    nodes := existingNodes + imported[..];
    edges := existingEdges + importedEdges[..];
  }

  method Arrange(imported: array<Node>, yOffset: real)
    modifies imported
    ensures forall i | 0 <= i < imported.Length :: imported[i] == Placed(old(imported[..]), yOffset, i)
  {
    ghost var was := imported[..];
    var tfCount, ansibleCount, k8sCount := 0, 0, 0;
    for i := 0 to imported.Length
      invariant forall k | 0 <= k < i :: imported[k] == Placed(was, yOffset, k)
      invariant forall k | i <= k < imported.Length :: imported[k] == was[k]
      invariant tfCount == Earlier(was, i, TerraformRow)
      invariant ansibleCount == Earlier(was, i, AnsibleRow)
      invariant k8sCount == Earlier(was, i, KubernetesRow)
    {
      var node := imported[i];
      if node.tech == "Ansible" {
        node := node.(x := 100.0 + ansibleCount as real * 280.0, y := yOffset + 300.0);
        ansibleCount := ansibleCount + 1;
      } else if node.tech == "Kubernetes" {
        node := node.(x := 100.0 + k8sCount as real * 280.0, y := yOffset + 550.0);
        k8sCount := k8sCount + 1;
      } else {
        node := node.(x := 100.0 + tfCount as real * 280.0, y := yOffset + 50.0);
        tfCount := tfCount + 1;
      }
      imported[i] := node;
    }
  }

  method UnusedId(taken: set<string>, orig: string) returns (id: string)
    ensures id == FinalId(taken, orig)
  {
    id := orig;
    var cnt := 1;
    while id in taken
      invariant cnt >= 1
      invariant if id == orig && cnt == 1 then true else orig in taken && cnt >= 2 && id == Candidate(orig, cnt - 1)
      invariant orig in taken ==>
                FinalId(taken, orig) == if cnt == 1 then FreshFrom(taken, orig, 1) else FreshFrom(taken, orig, cnt - 1)
      decreases if cnt == 1 then 1 else 0, if cnt == 1 then {} else Ahead(taken, orig, cnt - 1)
    {
      if cnt >= 2 {
        AheadShrinks(taken, orig, cnt - 1);
      }
      id := Candidate(orig, cnt);
      cnt := cnt + 1;
    }
  }

  lemma RenameStep(taken: set<string>, ids: seq<string>, finals: seq<string>, edges: seq<Edge>, i: nat)
    requires i < |ids| == |finals| && finals[i..] == FinalIds(taken, ids[i..])
    ensures var f := FinalId(taken, ids[i]);
      && finals[i] == f && finals[i + 1..] == FinalIds(taken + {f}, ids[i + 1..])
      && MergedEdges(taken, ids[i..], edges) == MergedEdges(taken + {f}, ids[i + 1..], Retarget(edges, ids[i], f))
  {
    assert ids[i..][1..] == ids[i + 1..] && finals[i..][1..] == finals[i + 1..];
    assert finals[i] == finals[i..][0];
  }

  method RenameOne(imported: array<Node>, importedEdges: array<Edge>, i: nat, taken: set<string>) returns (id: string)
    requires i < imported.Length
    modifies imported, importedEdges
    ensures id == FinalId(taken, old(imported[i].id))
    ensures imported[i] == old(imported[i]).(id := id)
    ensures forall k | 0 <= k < imported.Length && k != i :: imported[k] == old(imported[k])
    ensures importedEdges[..] == Retarget(old(importedEdges[..]), old(imported[i].id), id)
  {
    var origID := imported[i].id;
    id := UnusedId(taken, origID);
    imported[i] := imported[i].(id := id);
    if origID != id {
      RetargetAll(importedEdges, origID, id);
    }
  }

  method Rename(imported: array<Node>, importedEdges: array<Edge>, existing: set<string>)
    modifies imported, importedEdges
    ensures forall i | 0 <= i < imported.Length ::
      imported[i] == old(imported[i]).(id := FinalIds(existing, Ids(old(imported[..])))[i])
    ensures importedEdges[..] == MergedEdges(existing, Ids(old(imported[..])), old(importedEdges[..]))
  {
    ghost var was, ids, wasEdges := imported[..], Ids(imported[..]), importedEdges[..];
    ghost var finals := FinalIds(existing, ids);
    var taken := existing;
    assert ids[0..] == ids;
    for i := 0 to imported.Length
      invariant forall k | 0 <= k < i :: imported[k] == was[k].(id := finals[k])
      invariant forall k | i <= k < imported.Length :: imported[k] == was[k]
      invariant finals[i..] == FinalIds(taken, ids[i..])
      invariant MergedEdges(taken, ids[i..], importedEdges[..]) == MergedEdges(existing, ids, wasEdges)
    {
      RenameStep(taken, ids, finals, importedEdges[..], i);
      var id := RenameOne(imported, importedEdges, i, taken);
      taken := taken + {id};
    }
    assert ids[imported.Length..] == [];
  }

  method RetargetAll(edges: array<Edge>, from: string, to: string)
    requires from != to
    modifies edges
    ensures edges[..] == Retarget(old(edges[..]), from, to)
  {
    ghost var was := edges[..];
    for k := 0 to edges.Length
      invariant forall j | 0 <= j < k :: edges[j] == RetargetEdge(was[j], from, to)
      invariant forall j | k <= j < edges.Length :: edges[j] == was[j]
    {
      if edges[k].source == from {
        edges[k] := edges[k].(source := to);
      }
      if edges[k].target == from {
        edges[k] := edges[k].(target := to);
      }
      edges[k] := edges[k].(id := "e_" + edges[k].source + "_" + edges[k].target);
    }
  }

  // ---------- Ids stay unique ----------

  ghost predicate Distinct<T>(s: seq<T>) {
    forall i, j | 0 <= i < j < |s| :: s[i] != s[j]
  }

  lemma {:induction false} FinalIdsFresh(taken: set<string>, ids: seq<string>)
    ensures Distinct(FinalIds(taken, ids))
    ensures forall i | 0 <= i < |ids| :: FinalIds(taken, ids)[i] !in taken
    decreases |ids|
  {
    if ids != [] {
      var f := FinalId(taken, ids[0]);
      FinalIdsFresh(taken + {f}, ids[1..]);
    }
  }

  /** Whatever the batch repeats, the merged canvas has unique node ids if the old one had. */
  lemma MergedIdsUnique(existing: seq<Node>, imported: seq<Node>)
    requires Distinct(Ids(existing))
    ensures Distinct(Ids(existing + MergedNodes(existing, imported)))
  {
    var finals := FinalIds(IdSet(existing), Ids(imported));
    FinalIdsFresh(IdSet(existing), Ids(imported));
    var all := Ids(existing + MergedNodes(existing, imported));
    forall i, j | 0 <= i < j < |all| ensures all[i] != all[j] {
      if j < |existing| {
        assert Ids(existing)[i] != Ids(existing)[j];
      } else if i < |existing| {
        assert all[i] in IdSet(existing) && all[j] == finals[j - |existing|];
      } else {
        assert all[i] == finals[i - |existing|] && all[j] == finals[j - |existing|];
      }
    }
  }

  /** An id that nobody uses is kept. */
  lemma {:induction false} FreeIdsAreKept(taken: set<string>, ids: seq<string>)
    requires Distinct(ids) && forall i | 0 <= i < |ids| :: ids[i] !in taken
    ensures FinalIds(taken, ids) == ids
    decreases |ids|
  {
    if ids != [] {
      FreeIdsAreKept(taken + {ids[0]}, ids[1..]);
    }
  }

  // ---------- Where an edge endpoint ends up ----------

  /** One endpoint followed through all the renamings, in the order they are made. */
  ghost function Chase(taken: set<string>, ids: seq<string>, p: string): string
    decreases |ids|
  {
    if ids == [] then p
    else
      var f := FinalId(taken, ids[0]);
      Chase(taken + {f}, ids[1..], if p == ids[0] then f else p)
  }

  ghost predicate Renames(taken: set<string>, ids: seq<string>) {
    FinalIds(taken, ids) != ids
  }

  /** One edge through all the renamings. */
  ghost predicate FollowsRenames(taken: set<string>, ids: seq<string>, was: Edge, e: Edge) {
    && e.source == Chase(taken, ids, was.source)
    && e.target == Chase(taken, ids, was.target)
    && e.style == was.style
    && e.id == if Renames(taken, ids) then "e_" + e.source + "_" + e.target else was.id
  }

  lemma RenamesLater(taken: set<string>, ids: seq<string>)
    requires ids != []
    ensures var f := FinalId(taken, ids[0]);
            Renames(taken, ids) <==> f != ids[0] || Renames(taken + {f}, ids[1..])
  {
    var f := FinalId(taken, ids[0]);
    assert FinalIds(taken, ids)[0] == f && FinalIds(taken, ids)[1..] == FinalIds(taken + {f}, ids[1..]);
    assert ids == [ids[0]] + ids[1..];
  }

  lemma OneRenameMore(taken: set<string>, ids: seq<string>, was: Edge, e: Edge)
    requires ids != []
    requires var f := FinalId(taken, ids[0]);
             FollowsRenames(taken + {f}, ids[1..], if f == ids[0] then was else RetargetEdge(was, ids[0], f), e)
    ensures FollowsRenames(taken, ids, was, e)
  {
    var f := FinalId(taken, ids[0]);
    RenamesLater(taken, ids);
    if !Renames(taken + {f}, ids[1..]) && f != ids[0] {
      NothingRenamed(taken + {f}, ids[1..], RetargetEdge(was, ids[0], f).source);
      NothingRenamed(taken + {f}, ids[1..], RetargetEdge(was, ids[0], f).target);
    }
  }

  /** Every edge keeps its place and style, both its ends are chased, and its id is rebuilt from
      the new ends as soon as one node of the batch was renamed. */
  lemma {:induction false} EdgesChased(taken: set<string>, ids: seq<string>, edges: seq<Edge>)
    ensures |MergedEdges(taken, ids, edges)| == |edges|
    ensures forall k | 0 <= k < |edges| :: FollowsRenames(taken, ids, edges[k], MergedEdges(taken, ids, edges)[k])
    decreases |ids|
  {
    if ids != [] {
      var f := FinalId(taken, ids[0]);
      EdgesChased(taken + {f}, ids[1..], Retarget(edges, ids[0], f));
      forall k | 0 <= k < |edges| ensures FollowsRenames(taken, ids, edges[k], MergedEdges(taken, ids, edges)[k]) {
        OneRenameMore(taken, ids, edges[k], MergedEdges(taken, ids, edges)[k]);
      }
    }
  }

  lemma {:induction false} NothingRenamed(taken: set<string>, ids: seq<string>, p: string)
    requires !Renames(taken, ids)
    ensures Chase(taken, ids, p) == p
    decreases |ids|
  {
    if ids != [] {
      var f := FinalId(taken, ids[0]);
      assert FinalIds(taken, ids)[0] == f && FinalIds(taken, ids)[1..] == FinalIds(taken + {f}, ids[1..]);
      NothingRenamed(taken + {f}, ids[1..], p);
    }
  }

  /** An endpoint that named an imported node still names a merged one; any other is untouched. */
  lemma {:induction false} LinksSurvive(taken: set<string>, ids: seq<string>, p: string)
    ensures p in ids ==> Chase(taken, ids, p) in FinalIds(taken, ids)
    ensures p !in ids ==> Chase(taken, ids, p) == p
    decreases |ids|
  {
    if ids != [] {
      var f := FinalId(taken, ids[0]);
      var q := if p == ids[0] then f else p;
      LinksSurvive(taken + {f}, ids[1..], q);
      assert FinalIds(taken, ids)[0] == f;
      assert forall s :: s in FinalIds(taken + {f}, ids[1..]) ==> s in FinalIds(taken, ids);
      assert p in ids && p != ids[0] ==> p in ids[1..];
    }
  }

  /** Edges follow their own nodes: the endpoint that named the i-th import ends at its final id. */
  ghost predicate Embeds(taken: set<string>, ids: seq<string>) {
    forall i | 0 <= i < |ids| :: Chase(taken, ids, ids[i]) == FinalIds(taken, ids)[i]
  }

  /** No node's final id is the id under which a later node of the batch arrives. */
  ghost predicate NoCapture(ids: seq<string>, finals: seq<string>)
    requires |ids| == |finals|
  {
    forall i, j | 0 <= i < j < |ids| :: finals[i] != ids[j]
  }

  lemma {:induction false} ChaseOwnNode(taken: set<string>, ids: seq<string>, i: nat)
    requires i < |ids| && Distinct(ids)
    ensures Chase(taken, ids, ids[i]) == FinalIds(taken, ids)[i] <==> FinalIds(taken, ids)[i] !in ids[i + 1..]
    decreases |ids|
  {
    var f := FinalId(taken, ids[0]);
    var rest := ids[1..];
    if i == 0 {
      LinksSurvive(taken + {f}, rest, f);
      FinalIdsFresh(taken + {f}, rest);
    } else {
      assert rest[i - 1] == ids[i] && rest[i..] == ids[i + 1..];
      ChaseOwnNode(taken + {f}, rest, i - 1);
    }
  }

  /** The merge is an embedding of the imported graph exactly when the imported ids are pairwise
      distinct and no final id is the original id of a later node. */
  lemma EmbedsExactlyWhen(taken: set<string>, ids: seq<string>)
    ensures Embeds(taken, ids) <==> Distinct(ids) && NoCapture(ids, FinalIds(taken, ids))
  {
    var finals := FinalIds(taken, ids);
    FinalIdsFresh(taken, ids);
    if Distinct(ids) {
      forall i | 0 <= i < |ids|
        ensures Chase(taken, ids, ids[i]) == finals[i] <==> forall j | i < j < |ids| :: finals[i] != ids[j]
      {
        ChaseOwnNode(taken, ids, i);
        assert forall j | i < j < |ids| :: ids[j] == ids[i + 1..][j - i - 1];
      }
    } else {
      var i, j :| 0 <= i < j < |ids| && ids[i] == ids[j];
      assert finals[i] != finals[j];
    }
  }

  // ---------- Layout ----------

  lemma {:induction false} EarlierMonotone(nodes: seq<Node>, i: nat, j: nat, row: Row)
    requires i < j <= |nodes| && RowOf(nodes[i].tech) == row
    ensures Earlier(nodes, i, row) < Earlier(nodes, j, row)
    decreases j
  {
    if j > i + 1 {
      EarlierMonotone(nodes, i, j - 1, row);
    }
  }

  ghost predicate Apart(a: Node, b: Node) {
    a.x - b.x >= 280.0 || b.x - a.x >= 280.0 || a.y - b.y >= 250.0 || b.y - a.y >= 250.0
  }

  /** Imported nodes never cover each other, and all lie at least 350 below the old canvas. */
  lemma LayoutIsClear(existing: seq<Node>, imported: seq<Node>, i: nat)
    requires i < |imported|
    ensures forall n | n in existing :: MergedNodes(existing, imported)[i].y >= n.y + 350.0
    ensures forall j | 0 <= j < |imported| && j != i ::
      Apart(MergedNodes(existing, imported)[i], MergedNodes(existing, imported)[j])
  {
    forall j | 0 <= j < |imported| && j != i
      ensures Apart(MergedNodes(existing, imported)[i], MergedNodes(existing, imported)[j])
    {
      var row := RowOf(imported[i].tech);
      if RowOf(imported[j].tech) == row {
        if i < j {
          EarlierMonotone(imported, i, j, row);
        } else {
          EarlierMonotone(imported, j, i, row);
        }
      }
    }
  }

  /** A later import can take an earlier one's edges: with "x" on the canvas, importing "x" and
      then "x_1" renames the first to "x_1", and the second then carries its edge away. */
  lemma CaptureHappens(x: string)
    ensures var ids := [x, Candidate(x, 1)];
            Distinct(ids) && !Embeds({x}, ids)
  {
    var y := Candidate(x, 1);
    assert |y| > |x|;
    assert FinalId({x}, x) == y;
    assert FinalIds({x}, [x, y])[0] == y == [x, y][1];
    EmbedsExactlyWhen({x}, [x, y]);
  }
}
