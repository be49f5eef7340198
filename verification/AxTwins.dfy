/**
What two walks of the same frame have in common, and what a listing says when a
frame is held by more than one visible node: then a page is never shown as
unchanged, whatever it was before.
*/
module AxTwins {
  import opened AxListing
  import opened AxKeys
  import opened AxRevision

  // ---- A frame lists the same nodes wherever it is nested ----

  /** From s to r and from t to u the same nodes were listed. */
  predicate SameAdded(s: State, r: State, t: State, u: State) {
    AxListing.Extends(r.keys, s.keys) && AxListing.Extends(u.keys, t.keys) && r.keys[|s.keys|..] == u.keys[|t.keys|..]
  }

  lemma SameAddedOn(s: State, r: State, r': State, t: State, u: State, u': State)
    requires SameAdded(s, r, t, u) && SameAdded(r, r', u, u')
    ensures SameAdded(s, r', t, u')
  {
    assert r'.keys == s.keys + r.keys[|s.keys|..] + r'.keys[|r.keys|..];
    assert u'.keys == t.keys + u.keys[|t.keys|..] + u'.keys[|u.keys|..];
  }

  /** The rest of a walk's arguments besides its frame. */
  datatype From = From(previous: map<string, nat>, depth: nat, parent: int, s: State)

  function Appended(tree: Tree, f: From): State {
    AppendTree(tree, f.previous, f.depth, f.parent, f.s)
  }

  function EnteredFrom(tree: Tree, node: Node, f: From): State {
    Entered(tree, node, f.previous, f.depth, f.parent, f.s)
  }

  function WalkedFrom(tree: Tree, ids: seq<string>, visited: set<string>, f: From): (set<string>, State) {
    Walk(tree, f.previous, ids, f.depth, f.parent, visited, f.s)
  }

  function Below(tree: Tree, node: Node, f: From): From {
    From(f.previous, DepthBelow(node, f.depth), ParentBelow(tree, node, f.previous, f.parent, f.s), EnteredFrom(tree, node, f))
  }

  lemma {:induction false} AppendSame(tree: Tree, f: From, g: From)
    ensures SameAdded(f.s, Appended(tree, f), g.s, Appended(tree, g))
    decreases tree, 2
  {
    WalkSame(tree, Roots(tree.nodes, ById(tree.nodes)), {}, f, g);
  }

  lemma {:induction false} EnteringSame(tree: Tree, node: Node, f: From, g: From)
    ensures SameAdded(f.s, EnteredFrom(tree, node, f), g.s, EnteredFrom(tree, node, g))
    decreases tree, 0
  {
    if !node.hidden {
      var (f1, g1) := (Listed(f.s, tree, node, f.previous, f.depth, f.parent), Listed(g.s, tree, node, g.previous, g.depth, g.parent));
      assert SameAdded(f.s, f1, g.s, g1);
      if node.backend in tree.children {
        var key := Key(tree.frame, node);
        AppendSame(tree.children[node.backend], From(f.previous, f.depth + 1, IndexOf(f.s, f.previous, key), f1),
                   From(g.previous, g.depth + 1, IndexOf(g.s, g.previous, key), g1));
        SameAddedOn(f.s, f1, EnteredFrom(tree, node, f), g.s, g1, EnteredFrom(tree, node, g));
      }
    }
  }

  lemma {:induction false} WalkSame(tree: Tree, ids: seq<string>, visited: set<string>, f: From, g: From)
    ensures WalkedFrom(tree, ids, visited, f).0 == WalkedFrom(tree, ids, visited, g).0
    ensures SameAdded(f.s, WalkedFrom(tree, ids, visited, f).1, g.s, WalkedFrom(tree, ids, visited, g).1)
    decreases tree, 1, ById(tree.nodes).Keys - visited, |ids|
  {
    var byId := ById(tree.nodes);
    if ids == [] {
    } else if ids[0] in visited {
      WalkSame(tree, ids[1..], visited, f, g);
    } else if ids[0] !in byId {
      WalkSame(tree, ids[1..], visited + {ids[0]}, f, g);
    } else {
      var node := byId[ids[0]];
      assert byId.Keys - (visited + {ids[0]}) < byId.Keys - visited;
      EnteringSame(tree, node, f, g);
      WalkSame(tree, node.children, visited + {ids[0]}, Below(tree, node, f), Below(tree, node, g));
      var (below, f') := WalkedFrom(tree, node.children, visited + {ids[0]}, Below(tree, node, f));
      var g' := WalkedFrom(tree, node.children, visited + {ids[0]}, Below(tree, node, g)).1;
      assert byId.Keys - below <= byId.Keys - visited;
      WalkSame(tree, ids[1..], below, f.(s := f'), g.(s := g'));
      SameAddedOn(f.s, EnteredFrom(tree, node, f), f', g.s, EnteredFrom(tree, node, g), g');
      SameAddedOn(f.s, f', WalkedFrom(tree, ids, visited, f).1, g.s, g', WalkedFrom(tree, ids, visited, g).1);
    }
  }

  /** The nodes that a frame lists, with those nested in it, in order. */
  function Listing(tree: Tree): seq<string> {
    AppendTree(tree, map[], 0, -1, State(0, map[], [], [], [])).keys
  }

  lemma AppendsListing(tree: Tree, f: From)
    ensures Appended(tree, f).keys == f.s.keys + Listing(tree)
  {
    var empty := From(map[], 0, -1, State(0, map[], [], [], []));
    AppendSame(tree, f, empty);
    assert Appended(tree, empty).keys[0..] == Listing(tree);
    assert Appended(tree, f).keys == f.s.keys + Appended(tree, f).keys[|f.s.keys|..];
  }

  // ---- Which node each line shows, and under which ----

  /** A frame, or one nested in it at whatever depth. */
  ghost predicate Within(tree: Tree, inner: Tree) {
    tree == inner || exists backend :: backend in tree.children && Within(tree.children[backend], inner)
  }

  predicate Holds(x: Shown) {
    x.node.backend in x.tree.children
  }

  function Held(x: Shown): Tree
    requires Holds(x)
  {
    x.tree.children[x.node.backend]
  }

  /** A node that holds a frame which lists something. */
  predicate Owns(x: Shown) {
    Holds(x) && Listing(Held(x)) != []
  }

  predicate Visible(tree: Tree, node: Node) {
    node.id in ById(tree.nodes) && ById(tree.nodes)[node.id] == node && !node.hidden
  }

  predicate Aligned(s: State) {
    |s.lines| == |s.keys| == |s.shown| && forall i :: 0 <= i < |s.keys| ==> s.keys[i] == Key(s.shown[i].tree.frame, s.shown[i].node)
  }

  predicate Grows(s: State, s': State) {
    AxListing.Extends(s'.lines, s.lines) && AxListing.Extends(s'.keys, s.keys) && AxListing.Extends(s'.shown, s.shown)
  }

  /** Line i shows a visible node of the frame or one within it. */
  ghost predicate ShowsWithin(tree: Tree, s: State, i: nat)
    requires Aligned(s) && i < |s.keys|
  {
    Within(tree, s.shown[i].tree) && Visible(s.shown[i].tree, s.shown[i].node)
  }

  /** The frame that a node holds is listed right after it. */
  predicate HeldFollows(s: State, i: nat)
    requires Aligned(s) && i < |s.keys|
  {
    Owns(s.shown[i]) ==> i + 1 < |s.keys| && s.shown[i + 1].tree == Held(s.shown[i]) && s.keys[i + 1] == Listing(Held(s.shown[i]))[0]
  }

  /** The line of a node's parent: one of the same frame, or the one that holds it. */
  predicate IsParent(s: State, i: nat, j: nat)
    requires Aligned(s) && j < i < |s.keys|
  {
    && s.lines[i].parent == s.lines[j].index
    && (s.shown[j].tree == s.shown[i].tree || (Owns(s.shown[j]) && Held(s.shown[j]) == s.shown[i].tree))
  }

  /** A line's parent is one since `from`, or for the frame itself what it was appended under. */
  ghost predicate HasParent(tree: Tree, outer: int, from: nat, s: State, i: nat)
    requires Aligned(s) && i < |s.keys|
  {
    (s.shown[i].tree == tree && s.lines[i].parent == outer) || exists j: nat :: from <= j < i && IsParent(s, i, j)
  }

  /** What is known of the lines since a frame's walk began. */
  ghost predicate Told(tree: Tree, outer: int, from: nat, s: State) {
    && Aligned(s) && from <= |s.keys| && (from < |s.keys| ==> s.shown[from].tree == tree)
    && forall i :: from <= i < |s.keys| ==> ShowsWithin(tree, s, i) && HeldFollows(s, i) && HasParent(tree, outer, from, s, i)
  }

  /** Where the walk may list next: under the frame's own parent, or a line of the frame. */
  ghost predicate ParentKnown(tree: Tree, outer: int, from: nat, s: State, parent: int)
    requires Aligned(s) && from <= |s.keys|
  {
    parent == outer || exists j: nat :: from <= j < |s.keys| && s.shown[j].tree == tree && s.lines[j].index == parent
  }

  lemma AppendGrows(tree: Tree, f: From)
    requires Aligned(f.s)
    ensures Grows(f.s, Appended(tree, f)) && Aligned(Appended(tree, f))
  {
    AppendKeeps((s': State) => Grows(f.s, s') && Aligned(s'), tree, f.previous, f.depth, f.parent, f.s);
  }

  lemma EnteringGrows(tree: Tree, node: Node, f: From)
    requires Aligned(f.s)
    ensures Grows(f.s, EnteredFrom(tree, node, f)) && Aligned(EnteredFrom(tree, node, f))
  {
    EnteringKeeps((s': State) => Grows(f.s, s') && Aligned(s'), tree, node, f.previous, f.depth, f.parent, f.s);
  }

  lemma WalkGrows(tree: Tree, ids: seq<string>, visited: set<string>, f: From)
    requires Aligned(f.s)
    ensures Grows(f.s, WalkedFrom(tree, ids, visited, f).1) && Aligned(WalkedFrom(tree, ids, visited, f).1)
  {
    WalkKeeps((s': State) => Grows(f.s, s') && Aligned(s'), tree, f.previous, ids, f.depth, f.parent, visited, f.s);
  }

  /** What is known of a line stays so as lines are added. */
  lemma LineStays(tree: Tree, outer: int, from: nat, s: State, s': State, i: nat)
    requires Aligned(s) && Aligned(s') && Grows(s, s') && from <= i < |s.keys|
    requires ShowsWithin(tree, s, i) && HeldFollows(s, i) && HasParent(tree, outer, from, s, i)
    ensures ShowsWithin(tree, s', i) && HeldFollows(s', i) && HasParent(tree, outer, from, s', i)
  {
    if !(s.shown[i].tree == tree && s.lines[i].parent == outer) {
      var j: nat :| from <= j < i && IsParent(s, i, j);
      assert IsParent(s', i, j);
    }
  }

  lemma ParentStaysKnown(tree: Tree, outer: int, from: nat, s: State, s': State, parent: int)
    requires Aligned(s) && Aligned(s') && Grows(s, s') && from <= |s.keys| && ParentKnown(tree, outer, from, s, parent)
    ensures ParentKnown(tree, outer, from, s', parent)
  {
    if parent != outer {
      var j: nat :| from <= j < |s.keys| && s.shown[j].tree == tree && s.lines[j].index == parent;
      assert s'.shown[j] == s.shown[j] && s'.lines[j] == s.lines[j];
    }
  }

  /** What a held frame's walk tells of its lines holds for the frame around it. */
  lemma HeldTells(tree: Tree, outer: int, from: nat, s: State, i: nat, at: nat)
    requires Aligned(s) && from <= at < i < |s.keys| && s.shown[at].tree == tree && Owns(s.shown[at])
    requires var held := Held(s.shown[at]);
             ShowsWithin(held, s, i) && HasParent(held, s.lines[at].index, at + 1, s, i)
    ensures ShowsWithin(tree, s, i) && HasParent(tree, outer, from, s, i)
  {
    var held := Held(s.shown[at]);
    if s.shown[i].tree == held && s.lines[i].parent == s.lines[at].index {
      assert IsParent(s, i, at);
    } else {
      var j: nat :| at + 1 <= j < i && IsParent(s, i, j);
    }
  }

  lemma ListingTells(tree: Tree, outer: int, from: nat, node: Node, f: From)
    requires Told(tree, outer, from, f.s) && ParentKnown(tree, outer, from, f.s, f.parent) && Visible(tree, node)
    ensures var s := Listed(f.s, tree, node, f.previous, f.depth, f.parent);
            && Aligned(s) && Grows(f.s, s) && (from < |s.keys| ==> s.shown[from].tree == tree)
            && (forall i :: from <= i < |f.s.keys| ==> ShowsWithin(tree, s, i) && HeldFollows(s, i) && HasParent(tree, outer, from, s, i))
            && ShowsWithin(tree, s, |f.s.keys|) && HasParent(tree, outer, from, s, |f.s.keys|)
  {
    var s, n := Listed(f.s, tree, node, f.previous, f.depth, f.parent), |f.s.keys|;
    forall i | from <= i < n
      ensures ShowsWithin(tree, s, i) && HeldFollows(s, i) && HasParent(tree, outer, from, s, i)
    {
      LineStays(tree, outer, from, f.s, s, i);
    }
    if f.parent != outer {
      var j: nat :| from <= j < n && f.s.shown[j].tree == tree && f.s.lines[j].index == f.parent;
      assert IsParent(s, n, j);
    }
  }

  lemma {:induction false} AppendTells(tree: Tree, f: From)
    requires Aligned(f.s)
    ensures Told(tree, f.parent, |f.s.keys|, Appended(tree, f))
    decreases tree, 2
  {
    WalkTells(tree, f.parent, |f.s.keys|, Roots(tree.nodes, ById(tree.nodes)), {}, f);
  }

  lemma {:induction false} EnteringTells(tree: Tree, outer: int, from: nat, node: Node, f: From)
    requires Told(tree, outer, from, f.s) && ParentKnown(tree, outer, from, f.s, f.parent)
    requires node.id in ById(tree.nodes) && ById(tree.nodes)[node.id] == node
    ensures Told(tree, outer, from, EnteredFrom(tree, node, f))
    decreases tree, 0
  {
    if !node.hidden {
      var s := Listed(f.s, tree, node, f.previous, f.depth, f.parent);
      var inner := From(f.previous, f.depth + 1, IndexOf(f.s, f.previous, Key(tree.frame, node)), s);
      ListingTells(tree, outer, from, node, f);
      if node.backend in tree.children {
        AppendTells(tree.children[node.backend], inner);
        HoldingTells(tree, outer, from, s, inner, |f.s.keys|);
      } else {
        LeafTells(tree, outer, from, s, |f.s.keys|);
      }
    }
  }

  lemma LeafTells(tree: Tree, outer: int, from: nat, s: State, at: nat)
    requires Aligned(s) && from <= at && |s.keys| == at + 1 && s.shown[from].tree == tree && !Holds(s.shown[at])
    requires forall i :: from <= i < at ==> ShowsWithin(tree, s, i) && HeldFollows(s, i) && HasParent(tree, outer, from, s, i)
    requires ShowsWithin(tree, s, at) && HasParent(tree, outer, from, s, at)
    ensures Told(tree, outer, from, s)
  {
    forall i | from <= i < |s.keys|
      ensures ShowsWithin(tree, s, i) && HeldFollows(s, i) && HasParent(tree, outer, from, s, i)
    {
      if i == at {
        assert HeldFollows(s, at);
      }
    }
  }

  lemma HoldingTells(tree: Tree, outer: int, from: nat, s: State, inner: From, at: nat)
    requires Aligned(s) && from <= at && |s.keys| == at + 1 && s.shown[from].tree == tree && s.shown[at].tree == tree && Holds(s.shown[at])
    requires forall i :: from <= i < at ==> ShowsWithin(tree, s, i) && HeldFollows(s, i) && HasParent(tree, outer, from, s, i)
    requires ShowsWithin(tree, s, at) && HasParent(tree, outer, from, s, at)
    requires inner.s == s && inner.parent == s.lines[at].index
    requires Told(Held(s.shown[at]), inner.parent, at + 1, Appended(Held(s.shown[at]), inner))
    ensures Told(tree, outer, from, Appended(Held(s.shown[at]), inner))
  {
    AppendsListing(Held(s.shown[at]), inner);
    AppendGrows(Held(s.shown[at]), inner);
    HeldAreTold(tree, outer, from, s, Appended(Held(s.shown[at]), inner), at);
  }

  lemma EnteringKnowsParent(tree: Tree, outer: int, from: nat, node: Node, f: From)
    requires Told(tree, outer, from, f.s) && ParentKnown(tree, outer, from, f.s, f.parent) && Aligned(EnteredFrom(tree, node, f))
    ensures from <= |EnteredFrom(tree, node, f).keys|
    ensures ParentKnown(tree, outer, from, EnteredFrom(tree, node, f), ParentBelow(tree, node, f.previous, f.parent, f.s))
  {
    if !node.hidden {
      var s, at := Listed(f.s, tree, node, f.previous, f.depth, f.parent), |f.s.keys|;
      assert s.shown[at] == Shown(tree, node) && s.lines[at].index == IndexOf(f.s, f.previous, Key(tree.frame, node));
      var s' := EnteredFrom(tree, node, f);
      if node.backend in tree.children {
        AppendGrows(tree.children[node.backend], From(f.previous, f.depth + 1, s.lines[at].index, s));
      }
      assert s'.shown[at] == s.shown[at] && s'.lines[at] == s.lines[at];
    }
  }

  /** After the walk of a frame held by the last line. */
  lemma HeldAreTold(tree: Tree, outer: int, from: nat, s: State, s': State, at: nat)
    requires Aligned(s) && Aligned(s') && Grows(s, s') && from <= at && |s.keys| == at + 1
    requires s.shown[at].tree == tree && Holds(s.shown[at]) && s.shown[from].tree == tree
    requires forall i :: from <= i < at ==> ShowsWithin(tree, s, i) && HeldFollows(s, i) && HasParent(tree, outer, from, s, i)
    requires ShowsWithin(tree, s, at) && HasParent(tree, outer, from, s, at)
    requires Told(Held(s.shown[at]), s.lines[at].index, at + 1, s') && s'.keys == s.keys + Listing(Held(s.shown[at]))
    ensures Told(tree, outer, from, s')
  {
    var held := Held(s.shown[at]);
    assert s'.shown[at] == s.shown[at] && s'.lines[at] == s.lines[at];
    forall i | from <= i < |s'.keys|
      ensures ShowsWithin(tree, s', i) && HeldFollows(s', i) && HasParent(tree, outer, from, s', i)
    {
      if i < at {
        LineStays(tree, outer, from, s, s', i);
      } else if i == at {
        ParentStays(tree, outer, from, s, s', at);
      } else {
        HeldTells(tree, outer, from, s', i, at);
      }
    }
  }

  lemma ParentStays(tree: Tree, outer: int, from: nat, s: State, s': State, i: nat)
    requires Aligned(s) && Aligned(s') && Grows(s, s') && from <= i < |s.keys| && ShowsWithin(tree, s, i) && HasParent(tree, outer, from, s, i)
    ensures ShowsWithin(tree, s', i) && HasParent(tree, outer, from, s', i)
  {
    if !(s.shown[i].tree == tree && s.lines[i].parent == outer) {
      var j: nat :| from <= j < i && IsParent(s, i, j);
      assert IsParent(s', i, j);
    }
  }

  lemma {:induction false} WalkTells(tree: Tree, outer: int, from: nat, ids: seq<string>, visited: set<string>, f: From)
    requires Told(tree, outer, from, f.s) && ParentKnown(tree, outer, from, f.s, f.parent)
    ensures Told(tree, outer, from, WalkedFrom(tree, ids, visited, f).1)
    decreases tree, 1, ById(tree.nodes).Keys - visited, |ids|
  {
    var byId := ById(tree.nodes);
    if ids == [] {
    } else if ids[0] in visited {
      WalkTells(tree, outer, from, ids[1..], visited, f);
    } else if ids[0] !in byId {
      WalkTells(tree, outer, from, ids[1..], visited + {ids[0]}, f);
    } else {
      var node := byId[ids[0]];
      ByIdHolds(tree.nodes, ids[0]);
      assert byId.Keys - (visited + {ids[0]}) < byId.Keys - visited;
      EnteringTells(tree, outer, from, node, f);
      EnteringKnowsParent(tree, outer, from, node, f);
      var f' := Below(tree, node, f);
      WalkTells(tree, outer, from, node.children, visited + {ids[0]}, f');
      var (below, s') := WalkedFrom(tree, node.children, visited + {ids[0]}, f');
      assert byId.Keys - below <= byId.Keys - visited;
      EnteringGrows(tree, node, f);
      WalkGrows(tree, node.children, visited + {ids[0]}, f');
      ParentStaysKnown(tree, outer, from, f.s, f'.s, f.parent);
      ParentStaysKnown(tree, outer, from, f'.s, s', f.parent);
      WalkTells(tree, outer, from, ids[1..], below, f.(s := s'));
    }
  }

  // ---- Nodes listed twice ----

  /** Two visible nodes of one frame hold a same frame that lists something, and both are listed. */
  ghost predicate TwinsIn(inner: Tree, a: string, b: string, keys: seq<string>) {
    var byId := ById(inner.nodes);
    && a in byId && b in byId && a != b && !byId[a].hidden && !byId[b].hidden && byId[a].backend == byId[b].backend
    && Owns(Shown(inner, byId[a])) && Key(inner.frame, byId[a]) in keys && Key(inner.frame, byId[b]) in keys
  }

  ghost predicate Twins(tree: Tree, keys: seq<string>) {
    exists inner, a, b :: Within(tree, inner) && TwinsIn(inner, a, b, keys)
  }

  lemma TwinsStay(tree: Tree, keys: seq<string>, keys': seq<string>)
    requires Twins(tree, keys) && forall key :: key in keys ==> key in keys'
    ensures Twins(tree, keys')
  {
    var inner, a, b :| Within(tree, inner) && TwinsIn(inner, a, b, keys);
    assert TwinsIn(inner, a, b, keys');
  }

  lemma TwinsBelow(tree: Tree, backend: int, keys: seq<string>)
    requires backend in tree.children && Twins(tree.children[backend], keys)
    ensures Twins(tree, keys)
  {
    var inner, a, b :| Within(tree.children[backend], inner) && TwinsIn(inner, a, b, keys);
    assert Within(tree, inner);
  }

  /** What was listed since the walk began is under the nodes visited, and each visible one of these is listed. */
  ghost predicate Accounted(tree: Tree, before: set<string>, visited: set<string>, keys: seq<string>) {
    var byId := ById(tree.nodes);
    && (forall key :: key in keys ==> key in before || exists id :: id in visited && Under(tree, id, key))
    && (forall id :: id in visited && id in byId && !byId[id].hidden ==> Key(tree.frame, byId[id]) in keys)
  }

  /** Nothing is listed twice but for twins, when nothing of the frame was listed before. */
  ghost predicate Single(tree: Tree, keys: seq<string>) {
    Distinct(keys) || Twins(tree, keys)
  }

  lemma OwnIsNew(tree: Tree, before: set<string>, visited: set<string>, keys: seq<string>, id: string)
    requires Apart(tree) && before !! KeysOf(tree) && Accounted(tree, before, visited, keys)
    requires id in ById(tree.nodes) && id !in visited
    ensures Key(tree.frame, ById(tree.nodes)[id]) !in keys
  {
    assert Key(tree.frame, ById(tree.nodes)[id]) in KeysOf(tree);
  }

  /** What is under a node and in a held frame is held by that node. */
  lemma HolderOf(tree: Tree, other: string, backend: int, key: string)
    requires Apart(tree) && Under(tree, other, key) && backend in tree.children && key in KeysOf(tree.children[backend])
    ensures ById(tree.nodes)[other].backend == backend
  {
  }

  lemma HolderIn(tree: Tree, before: set<string>, visited: set<string>, keys: seq<string>, id: string, key: string) returns (other: string)
    requires before !! KeysOf(tree) && Accounted(tree, before, visited, keys)
    requires id in ById(tree.nodes) && !ById(tree.nodes)[id].hidden && Owns(Shown(tree, ById(tree.nodes)[id]))
    requires key in keys && key in KeysOf(tree.children[ById(tree.nodes)[id].backend])
    ensures other in visited && Under(tree, other, key)
  {
    assert Under(tree, id, key);
    UnderIsOf(tree, id, key);
    other :| other in visited && Under(tree, other, key);
  }

  lemma TwinsWith(tree: Tree, other: string, id: string, keys: seq<string>)
    requires var byId := ById(tree.nodes);
             && other in byId && id in byId && other != id && !byId[other].hidden && !byId[id].hidden
             && byId[other].backend == byId[id].backend && Owns(Shown(tree, byId[other])) && Key(tree.frame, byId[other]) in keys
    ensures Twins(tree, keys + [Key(tree.frame, ById(tree.nodes)[id])])
  {
    var keys' := keys + [Key(tree.frame, ById(tree.nodes)[id])];
    assert keys'[|keys|] in keys';
    TwinsOf(tree, other, id, keys');
  }

  /** What a node holds was listed before only if another visited node holds it too. */
  lemma HeldOnce(tree: Tree, before: set<string>, visited: set<string>, keys: seq<string>, id: string, key: string)
    requires Apart(tree) && before !! KeysOf(tree) && Accounted(tree, before, visited, keys)
    requires id in ById(tree.nodes) && id !in visited && !ById(tree.nodes)[id].hidden && Owns(Shown(tree, ById(tree.nodes)[id]))
    requires key in keys && key in KeysOf(tree.children[ById(tree.nodes)[id].backend])
    ensures Twins(tree, keys + [Key(tree.frame, ById(tree.nodes)[id])])
  {
    var byId := ById(tree.nodes);
    var other := HolderIn(tree, before, visited, keys, id, key);
    HolderOf(tree, other, byId[id].backend, key);
    TwinsWith(tree, other, id, keys);
  }

  lemma TwinsOf(tree: Tree, a: string, b: string, keys: seq<string>)
    requires TwinsIn(tree, a, b, keys)
    ensures Twins(tree, keys)
  {
    assert Within(tree, tree);
  }

  lemma {:induction false} AppendOnce(tree: Tree, f: From, once: bool)
    requires Apart(tree)
    requires once ==> Distinct(f.s.keys) && forall key :: key in f.s.keys ==> key !in KeysOf(tree)
    ensures forall key :: key in Appended(tree, f).keys ==> key in f.s.keys || key in KeysOf(tree)
    ensures once ==> Single(tree, Appended(tree, f).keys)
    decreases tree, 2
  {
    var ids, before := Roots(tree.nodes, ById(tree.nodes)), set key | key in f.s.keys;
    WalkOnce(tree, ids, {}, f, before, once);
    var (visited, s') := WalkedFrom(tree, ids, {}, f);
    forall key | key in s'.keys && key !in f.s.keys
      ensures key in KeysOf(tree)
    {
      var id :| id in visited && Under(tree, id, key);
      UnderIsOf(tree, id, key);
    }
  }

  lemma {:induction false} EnteringOnce(tree: Tree, id: string, visited: set<string>, f: From, before: set<string>, once: bool)
    requires Apart(tree) && id in ById(tree.nodes) && id !in visited && Accounted(tree, before, visited, f.s.keys)
    requires once ==> before !! KeysOf(tree) && Single(tree, f.s.keys)
    ensures var keys := EnteredFrom(tree, ById(tree.nodes)[id], f).keys;
            Accounted(tree, before, visited + {id}, keys) && (once ==> Single(tree, keys))
    decreases tree, 0
  {
    var node := ById(tree.nodes)[id];
    if !node.hidden {
      var listed := Listed(f.s, tree, node, f.previous, f.depth, f.parent);
      if node.backend in tree.children {
        var (held, inner) := (tree.children[node.backend], From(f.previous, f.depth + 1, IndexOf(f.s, f.previous, Key(tree.frame, node)), listed));
        AppendOnce(held, inner, Distinct(listed.keys) && forall key :: key in listed.keys ==> key !in KeysOf(held));
        AppendsListing(held, inner);
        if once {
          HoldingOnce(tree, id, visited, f, before, Appended(held, inner).keys);
        }
      } else if once {
        LeafOnce(tree, id, visited, f.s.keys, before);
      }
      EnteringAccounts(tree, id, visited, f, before);
    }
  }

  lemma LeafOnce(tree: Tree, id: string, visited: set<string>, keys: seq<string>, before: set<string>)
    requires Apart(tree) && id in ById(tree.nodes) && id !in visited && Accounted(tree, before, visited, keys)
    requires before !! KeysOf(tree) && Single(tree, keys)
    ensures Single(tree, keys + [Key(tree.frame, ById(tree.nodes)[id])])
  {
    OwnIsNew(tree, before, visited, keys, id);
    if !Distinct(keys) {
      TwinsStay(tree, keys, keys + [Key(tree.frame, ById(tree.nodes)[id])]);
    }
  }

  /** A visible node and what it holds are listed: once, or the tree has twins. */
  lemma HoldingOnce(tree: Tree, id: string, visited: set<string>, f: From, before: set<string>, keys': seq<string>)
    requires Apart(tree) && id in ById(tree.nodes) && id !in visited && !ById(tree.nodes)[id].hidden
    requires Accounted(tree, before, visited, f.s.keys) && before !! KeysOf(tree) && Single(tree, f.s.keys)
    requires ById(tree.nodes)[id].backend in tree.children
    requires var (own, held) := (Key(tree.frame, ById(tree.nodes)[id]), tree.children[ById(tree.nodes)[id].backend]);
             && keys' == f.s.keys + [own] + Listing(held)
             && (Distinct(f.s.keys + [own]) && (forall key :: key in f.s.keys + [own] ==> key !in KeysOf(held)) ==> Single(held, keys'))
    ensures Single(tree, keys')
  {
    var node := ById(tree.nodes)[id];
    var (keys, held) := (f.s.keys + [Key(tree.frame, node)], tree.children[node.backend]);
    LeafOnce(tree, id, visited, f.s.keys, before);
    if !Distinct(keys) {
      TwinsStay(tree, keys, keys');
    } else if Listing(held) == [] {
      assert keys' == keys;
    } else if key :| key in f.s.keys && key in KeysOf(held) {
      HeldOnce(tree, before, visited, f.s.keys, id, key);
      TwinsStay(tree, keys, keys');
    } else if !Distinct(keys') {
      TwinsBelow(tree, node.backend, keys');
    }
  }

  lemma EnteringAccounts(tree: Tree, id: string, visited: set<string>, f: From, before: set<string>)
    requires id in ById(tree.nodes) && Accounted(tree, before, visited, f.s.keys) && !ById(tree.nodes)[id].hidden
    requires var node := ById(tree.nodes)[id];
             forall key :: key in EnteredFrom(tree, node, f).keys ==>
               key in f.s.keys || key == Key(tree.frame, node) || (node.backend in tree.children && key in KeysOf(tree.children[node.backend]))
    ensures Accounted(tree, before, visited + {id}, EnteredFrom(tree, ById(tree.nodes)[id], f).keys)
  {
    var node := ById(tree.nodes)[id];
    var keys' := EnteredFrom(tree, node, f).keys;
    EnteringLists(tree, node, f.previous, f.depth, f.parent, f.s);
    forall key | key in keys'
      ensures key in before || exists other :: other in visited + {id} && Under(tree, other, key)
    {
      if key in f.s.keys {
        if key !in before {
          var other :| other in visited && Under(tree, other, key);
          assert other in visited + {id};
        }
      } else {
        assert Under(tree, id, key) && id in visited + {id};
      }
    }
  }

  lemma {:induction false} WalkOnce(tree: Tree, ids: seq<string>, visited: set<string>, f: From, before: set<string>, once: bool)
    requires Apart(tree) && Accounted(tree, before, visited, f.s.keys)
    requires once ==> before !! KeysOf(tree) && Single(tree, f.s.keys)
    ensures var r := WalkedFrom(tree, ids, visited, f);
            Accounted(tree, before, r.0, r.1.keys) && (once ==> Single(tree, r.1.keys))
    decreases tree, 1, ById(tree.nodes).Keys - visited, |ids|
  {
    var byId := ById(tree.nodes);
    if ids == [] {
    } else if ids[0] in visited {
      WalkOnce(tree, ids[1..], visited, f, before, once);
    } else if ids[0] !in byId {
      WalkOnce(tree, ids[1..], visited + {ids[0]}, f, before, once);
    } else {
      var node := byId[ids[0]];
      assert byId.Keys - (visited + {ids[0]}) < byId.Keys - visited;
      EnteringOnce(tree, ids[0], visited, f, before, once);
      var f' := Below(tree, node, f);
      WalkOnce(tree, node.children, visited + {ids[0]}, f', before, once);
      var (below, s') := WalkedFrom(tree, node.children, visited + {ids[0]}, f');
      assert byId.Keys - below <= byId.Keys - visited;
      WalkOnce(tree, ids[1..], below, f.(s := s'), before, once);
    }
  }
}
