/** An observation of a page as the program makes it: fields updated node by node, proved to make the listing of module AxListing. */
module AxObservation {
  import opened AxListing

  method NodesById(nodes: seq<Node>) returns (byId: map<string, Node>)
    ensures byId == ById(nodes)
  {
    byId := map[];
    for i := 0 to |nodes|
      invariant byId == ById(nodes[..i])
    {
      assert nodes[..i + 1][..i] == nodes[..i];
      byId := byId[nodes[i].id := nodes[i]];
    }
    assert nodes[..|nodes|] == nodes;
  }

  lemma RootsFrom(nodes: seq<Node>, byId: map<string, Node>, i: nat)
    requires i < |nodes|
    ensures var (roots, rest) := (Roots(nodes[i..], byId), Roots(nodes[i + 1..], byId));
            if nodes[i].parent in byId then roots == rest else roots != [] && roots[0] == nodes[i].id && roots[1..] == rest
  {
    assert nodes[i..][1..] == nodes[i + 1..];
  }

  class AxState {
    var next: nat
    var indices: map<string, nat>
    var lines: seq<Line>
    ghost var keys: seq<string>
    ghost var shown: seq<Shown>

    ghost function View(): State
      reads this
    {
      State(next, indices, lines, keys, shown)
    }

    constructor (next: nat)
      ensures View() == State(next, map[], [], [], [])
    {
      this.next, indices, lines, keys, shown := next, map[], [], [], [];
    }

    method AppendTree(tree: Tree, previous: map<string, nat>, depth: nat, parent: int)
      modifies this
      ensures View() == AxListing.AppendTree(tree, previous, depth, parent, old(View()))
      decreases tree, 2
    {
      var byId := NodesById(tree.nodes);
      var visited := {};
      assert tree.nodes[0..] == tree.nodes;
      for i := 0 to |tree.nodes|
        invariant AxListing.Walk(tree, previous, Roots(tree.nodes[i..], byId), depth, parent, visited, View())
               == AxListing.Walk(tree, previous, Roots(tree.nodes, byId), depth, parent, {}, old(View()))
      {
        RootsFrom(tree.nodes, byId, i);
        if tree.nodes[i].parent !in byId {
          WalkSplits(tree, previous, Roots(tree.nodes[i..], byId), depth, parent, visited, View());
          visited := Walk(tree, byId, previous, tree.nodes[i].id, depth, parent, visited);
        }
      }
    }

    method Walk(tree: Tree, byId: map<string, Node>, previous: map<string, nat>, id: string, depth: nat, parent: int, visited: set<string>)
      returns (visited': set<string>)
      requires byId == ById(tree.nodes)
      modifies this
      ensures (visited', View()) == AxListing.Walk(tree, previous, [id], depth, parent, visited, old(View()))
      decreases tree, 1, byId.Keys - visited
    {
      assert [id][1..] == [];
      if id in visited {
        return visited;
      }
      visited' := visited + {id};
      if id !in byId {
        return;
      }
      assert byId.Keys - visited' < byId.Keys - visited;
      var node := byId[id];
      var depth', parent' := depth, parent;
      if !node.hidden {
        var key := Key(tree.frame, node);
        var index := next;
        if key in previous {
          index := previous[key];
        } else {
          next := next + 1;
        }
        indices := indices[key := index];
        lines := lines + [Line(index, parent, TextOf(depth, index, node.content))];
        keys, shown := keys + [key], shown + [Shown(tree, node)];
        parent', depth' := index, depth + 1;
        if node.backend in tree.children {
          AppendTree(tree.children[node.backend], previous, depth', parent');
        }
      }
      assert View() == Entered(tree, node, previous, depth, parent, old(View()));
      ghost var entered := View();
      for i := 0 to |node.children|
        invariant visited + {id} <= visited'
        invariant AxListing.Walk(tree, previous, node.children[i..], depth', parent', visited', View())
               == AxListing.Walk(tree, previous, node.children, depth', parent', visited + {id}, entered)
      {
        assert node.children[i..][1..] == node.children[i + 1..] && node.children[i..][0] == node.children[i];
        WalkSplits(tree, previous, node.children[i..], depth', parent', visited', View());
        assert byId.Keys - visited' < byId.Keys - visited;
        visited' := Walk(tree, byId, previous, node.children[i], depth', parent', visited');
      }
    }
  }
}
