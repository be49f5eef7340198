/**
The numbered listing of a page's accessibility tree: a walk over a frame's nodes
and the frames nested in them, that keeps the numbers of nodes it listed before.
A node's text is taken as formatted, without its number and indentation.
*/
module AxListing {
  datatype Node = Node(
    id: string,
    parent: string,
    children: seq<string>,
    hidden: bool,
    backend: int,
    content: string)

  datatype Frame = Frame(id: string, loader: string)

  /** A frame's nodes, and the frames nested in it by the backend id of the node that holds them. */
  datatype Tree = Tree(frame: Frame, nodes: seq<Node>, children: map<int, Tree>)

  datatype Line = Line(index: nat, parent: int, text: string)

  /** A node as listed, with the frame it is in. */
  datatype Shown = Shown(tree: Tree, node: Node)

  /** An observation under way. `shown` and `keys` are the nodes listed, line by line, and their keys. */
  datatype State = State(next: nat, indices: map<string, nat>, lines: seq<Line>, keys: seq<string>, shown: seq<Shown>)

  function Digits(n: nat): string {
    if n < 10 then ["0123456789"[n]] else Digits(n / 10) + ["0123456789"[n % 10]]
  }

  function Decimal(n: int): string {
    if n < 0 then "-" + Digits(-n) else Digits(n)
  }

  function Key(frame: Frame, node: Node): string {
    frame.id + ":" + frame.loader + ":" + node.id + ":" + Decimal(node.backend)
  }

  function Tabs(depth: nat): string {
    seq(depth, i => '\t')
  }

  function TextOf(depth: nat, index: nat, content: string): string {
    Tabs(depth) + Decimal(index) + " " + content
  }

  function ById(nodes: seq<Node>): map<string, Node> {
    if nodes == [] then map[] else ById(nodes[..|nodes| - 1])[nodes[|nodes| - 1].id := nodes[|nodes| - 1]]
  }

  /** The nodes whose parent is not in the frame, which the walk starts from. */
  function Roots(nodes: seq<Node>, byId: map<string, Node>): seq<string> {
    if nodes == [] then []
    else (if nodes[0].parent in byId then [] else [nodes[0].id]) + Roots(nodes[1..], byId)
  }

  function IndexOf(s: State, previous: map<string, nat>, key: string): nat {
    if key in previous then previous[key] else s.next
  }

  /** The listing with one more node. */
  function Listed(s: State, tree: Tree, node: Node, previous: map<string, nat>, depth: nat, parent: int): State {
    var key := Key(tree.frame, node);
    var index := IndexOf(s, previous, key);
    State(if key in previous then s.next else s.next + 1, s.indices[key := index],
          s.lines + [Line(index, parent, TextOf(depth, index, node.content))], s.keys + [key], s.shown + [Shown(tree, node)])
  }

  /** appendTree. */
  function AppendTree(tree: Tree, previous: map<string, nat>, depth: nat, parent: int, s: State): State
    decreases tree, 2
  {
    Walk(tree, previous, Roots(tree.nodes, ById(tree.nodes)), depth, parent, {}, s).1
  }

  /** A node is listed unless it is hidden, and then the nested frame that it holds, if any, below it. */
  function Entered(tree: Tree, node: Node, previous: map<string, nat>, depth: nat, parent: int, s: State): State
    decreases tree, 0
  {
    if node.hidden then s
    else
      var listed := Listed(s, tree, node, previous, depth, parent);
      if node.backend !in tree.children then listed
      else AppendTree(tree.children[node.backend], previous, depth + 1, IndexOf(s, previous, Key(tree.frame, node)), listed)
  }

  function DepthBelow(node: Node, depth: nat): nat {
    if node.hidden then depth else depth + 1
  }

  function ParentBelow(tree: Tree, node: Node, previous: map<string, nat>, parent: int, s: State): int {
    if node.hidden then parent else IndexOf(s, previous, Key(tree.frame, node))
  }

  /** The walk from each of `ids` in turn, with what was visited before and, in the result, after. */
  function Walk(tree: Tree, previous: map<string, nat>, ids: seq<string>, depth: nat, parent: int, visited: set<string>, s: State)
    : (r: (set<string>, State))
    ensures visited <= r.0
    decreases tree, 1, ById(tree.nodes).Keys - visited, |ids|
  {
    var byId := ById(tree.nodes);
    if ids == [] then (visited, s)
    else if ids[0] in visited then Walk(tree, previous, ids[1..], depth, parent, visited, s)
    else if ids[0] !in byId then Walk(tree, previous, ids[1..], depth, parent, visited + {ids[0]}, s)
    else
      var node := byId[ids[0]];
      assert byId.Keys - (visited + {ids[0]}) < byId.Keys - visited;
      var (below, s') := Walk(tree, previous, node.children, DepthBelow(node, depth), ParentBelow(tree, node, previous, parent, s),
                              visited + {ids[0]}, Entered(tree, node, previous, depth, parent, s));
      assert byId.Keys - below <= byId.Keys - visited;
      Walk(tree, previous, ids[1..], depth, parent, below, s')
  }

  lemma WalkSplits(tree: Tree, previous: map<string, nat>, ids: seq<string>, depth: nat, parent: int, visited: set<string>, s: State)
    requires ids != []
    ensures var (below, s') := Walk(tree, previous, [ids[0]], depth, parent, visited, s);
            Walk(tree, previous, ids, depth, parent, visited, s) == Walk(tree, previous, ids[1..], depth, parent, below, s')
  {
    assert [ids[0]][1..] == [];
  }

  // ---- What listing nodes keeps, the walk keeps ----

  ghost predicate KeptByListing(inv: State -> bool, previous: map<string, nat>) {
    forall s, tree, node, depth: nat, parent {:trigger Listed(s, tree, node, previous, depth, parent)} ::
      inv(s) ==> inv(Listed(s, tree, node, previous, depth, parent))
  }

  lemma {:induction false} AppendKeeps(inv: State -> bool, tree: Tree, previous: map<string, nat>, depth: nat, parent: int, s: State)
    requires KeptByListing(inv, previous) && inv(s)
    ensures inv(AppendTree(tree, previous, depth, parent, s))
    decreases tree, 2
  {
    WalkKeeps(inv, tree, previous, Roots(tree.nodes, ById(tree.nodes)), depth, parent, {}, s);
  }

  lemma {:induction false} EnteringKeeps(inv: State -> bool, tree: Tree, node: Node, previous: map<string, nat>, depth: nat, parent: int, s: State)
    requires KeptByListing(inv, previous) && inv(s)
    ensures inv(Entered(tree, node, previous, depth, parent, s))
    decreases tree, 0
  {
    if !node.hidden && node.backend in tree.children {
      var listed := Listed(s, tree, node, previous, depth, parent);
      AppendKeeps(inv, tree.children[node.backend], previous, depth + 1, IndexOf(s, previous, Key(tree.frame, node)), listed);
    }
  }

  lemma {:induction false} WalkKeeps(inv: State -> bool, tree: Tree, previous: map<string, nat>, ids: seq<string>, depth: nat, parent: int,
                                     visited: set<string>, s: State)
    requires KeptByListing(inv, previous) && inv(s)
    ensures inv(Walk(tree, previous, ids, depth, parent, visited, s).1)
    decreases tree, 1, ById(tree.nodes).Keys - visited, |ids|
  {
    var byId := ById(tree.nodes);
    if ids == [] {
    } else if ids[0] in visited {
      WalkKeeps(inv, tree, previous, ids[1..], depth, parent, visited, s);
    } else if ids[0] !in byId {
      WalkKeeps(inv, tree, previous, ids[1..], depth, parent, visited + {ids[0]}, s);
    } else {
      var node := byId[ids[0]];
      assert byId.Keys - (visited + {ids[0]}) < byId.Keys - visited;
      EnteringKeeps(inv, tree, node, previous, depth, parent, s);
      var (depth', parent', entered) := (DepthBelow(node, depth), ParentBelow(tree, node, previous, parent, s), Entered(tree, node, previous, depth, parent, s));
      WalkKeeps(inv, tree, previous, node.children, depth', parent', visited + {ids[0]}, entered);
      var (below, s') := Walk(tree, previous, node.children, depth', parent', visited + {ids[0]}, entered);
      assert byId.Keys - below <= byId.Keys - visited;
      WalkKeeps(inv, tree, previous, ids[1..], depth, parent, below, s');
    }
  }

  // ---- Numbers ----

  predicate Distinct<T(==)>(s: seq<T>) {
    forall i, j :: 0 <= i < j < |s| ==> s[i] != s[j]
  }

  predicate Issued(indices: map<string, nat>, next: nat) {
    && (forall k :: k in indices ==> indices[k] < next)
    && (forall a, b :: a in indices && b in indices && a != b ==> indices[a] != indices[b])
  }

  /** A node listed before has its number again; the others have fresh ones, from `base` on, all different. */
  predicate Numbers(previous: map<string, nat>, base: nat, indices: map<string, nat>, next: nat) {
    && base <= next
    && (forall k :: k in indices ==> if k in previous then indices[k] == previous[k] else base <= indices[k] < next)
    && (forall a, b :: a in indices && b in indices && a !in previous && b !in previous && a != b ==> indices[a] != indices[b])
  }

  /** When no node is listed twice, each line has its node's number. */
  predicate LinesNumbered(s: State) {
    && |s.lines| == |s.keys|
    && s.indices.Keys == (set k | k in s.keys)
    && (Distinct(s.keys) ==> forall i :: 0 <= i < |s.keys| ==> s.lines[i].index == s.indices[s.keys[i]])
  }

  predicate Extends<T(==)>(whole: seq<T>, part: seq<T>) {
    |part| <= |whole| && whole[..|part|] == part
  }

  lemma ListingNumbers(previous: map<string, nat>, base: nat, s: State, tree: Tree, node: Node, depth: nat, parent: int)
    requires Numbers(previous, base, s.indices, s.next)
    ensures var s' := Listed(s, tree, node, previous, depth, parent);
            Numbers(previous, base, s'.indices, s'.next)
  {
  }

  lemma DistinctWith<T>(s: seq<T>, x: T)
    requires Distinct(s + [x])
    ensures Distinct(s) && x !in s
  {
    forall i | 0 <= i < |s|
      ensures s[i] != x
    {
      assert (s + [x])[i] == s[i] && (s + [x])[|s|] == x;
    }
    assert (s + [x])[..|s|] == s;
  }

  lemma ListingNumbersLines(previous: map<string, nat>, s: State, tree: Tree, node: Node, depth: nat, parent: int)
    requires LinesNumbered(s)
    ensures LinesNumbered(Listed(s, tree, node, previous, depth, parent))
  {
    if Distinct(s.keys + [Key(tree.frame, node)]) {
      DistinctWith(s.keys, Key(tree.frame, node));
    }
  }

  /** The walk of an observation: what is known of every listing it goes through. */
  lemma WalkNumbers(tree: Tree, previous: map<string, nat>, base: nat)
    ensures var s := AppendTree(tree, previous, 0, -1, State(base, map[], [], [], []));
            Numbers(previous, base, s.indices, s.next) && LinesNumbered(s)
  {
    var inv := (s: State) => Numbers(previous, base, s.indices, s.next) && LinesNumbered(s);
    forall s, of, node, depth: nat, parent | inv(s)
      ensures inv(Listed(s, of, node, previous, depth, parent))
    {
      ListingNumbers(previous, base, s, of, node, depth, parent);
      ListingNumbersLines(previous, s, of, node, depth, parent);
    }
    AppendKeeps(inv, tree, previous, 0, -1, State(base, map[], [], [], []));
  }

  // ---- Observations, one after another ----

  function Observe(s: State, tree: Tree): State {
    AppendTree(tree, s.indices, 0, -1, State(s.next, map[], [], [], []))
  }

  function Observations(trees: seq<Tree>): State {
    if trees == [] then State(0, map[], [], [], [])
    else Observe(Observations(trees[..|trees| - 1]), trees[|trees| - 1])
  }

  /** Distinct nodes have distinct numbers below the next one. */
  lemma {:induction false} NumbersAreIssued(trees: seq<Tree>)
    ensures var s := Observations(trees);
            Issued(s.indices, s.next) && LinesNumbered(s)
    decreases |trees|
  {
    if trees != [] {
      var before := Observations(trees[..|trees| - 1]);
      NumbersAreIssued(trees[..|trees| - 1]);
      WalkNumbers(trees[|trees| - 1], before.indices, before.next);
    }
  }

  /** A node seen in two observations in a row keeps its number, and a new one gets a number never given before. */
  lemma NumbersAreKept(trees: seq<Tree>, tree: Tree, key: string)
    requires key in Observations(trees + [tree]).indices
    ensures var (before, after) := (Observations(trees), Observations(trees + [tree]));
            if key in before.indices then after.indices[key] == before.indices[key] else before.next <= after.indices[key] < after.next
  {
    assert (trees + [tree])[..|trees|] == trees;
    WalkNumbers(tree, Observations(trees).indices, Observations(trees).next);
  }

  predicate InUse(s: State, index: nat) {
    exists k :: k in s.indices && s.indices[k] == index
  }

  /** A number that was dropped is never given again. */
  lemma {:induction false} DroppedNumbersStayFree(trees: seq<Tree>, more: seq<Tree>, index: nat)
    requires index < Observations(trees).next && !InUse(Observations(trees), index)
    ensures !InUse(Observations(trees + more), index) && Observations(trees).next <= Observations(trees + more).next
    decreases |more|
  {
    if more == [] {
      assert trees + more == trees;
    } else {
      var before := trees + more[..|more| - 1];
      DroppedNumbersStayFree(trees, more[..|more| - 1], index);
      assert (trees + more)[..|trees + more| - 1] == before;
      WalkNumbers(more[|more| - 1], Observations(before).indices, Observations(before).next);
    }
  }

  // ---- Each node once ----

  /** The nodes of a frame and of those nested in it. */
  ghost function KeysOf(tree: Tree): set<string> {
    (set id | id in ById(tree.nodes) :: Key(tree.frame, ById(tree.nodes)[id]))
    + (set backend, key | backend in tree.children && key in KeysOf(tree.children[backend]) :: key)
  }

  /** Different nodes, of whichever frames, have different keys. */
  ghost predicate Apart(tree: Tree) {
    var byId := ById(tree.nodes);
    && (forall a, b :: a in byId && b in byId && a != b ==> Key(tree.frame, byId[a]) != Key(tree.frame, byId[b]))
    && (forall a, backend :: a in byId && backend in tree.children ==> Key(tree.frame, byId[a]) !in KeysOf(tree.children[backend]))
    && (forall b, c :: b in tree.children && c in tree.children && b != c ==> KeysOf(tree.children[b]) !! KeysOf(tree.children[c]))
    && (forall backend :: backend in tree.children ==> Apart(tree.children[backend]))
  }

  /** A key is a visible node's, or of the frame nested in it. */
  ghost predicate Under(tree: Tree, id: string, key: string) {
    var byId := ById(tree.nodes);
    && id in byId && !byId[id].hidden
    && (key == Key(tree.frame, byId[id]) || (byId[id].backend in tree.children && key in KeysOf(tree.children[byId[id].backend])))
  }

  lemma UnderIsOf(tree: Tree, id: string, key: string)
    requires Under(tree, id, key)
    ensures key in KeysOf(tree)
  {
  }

  // ---- Every node that can be reached ----

  ghost predicate Closed(tree: Tree, ids: set<string>) {
    var byId := ById(tree.nodes);
    forall id, child :: id in ids && id in byId && child in byId[id].children ==> child in ids
  }

  /** The children of what was newly visited were visited too, and what is visible of it was listed. */
  ghost predicate Complete(tree: Tree, visited: set<string>, visited': set<string>, keys: seq<string>) {
    var byId := ById(tree.nodes);
    forall id :: id in visited' - visited && id in byId ==>
      && (forall child :: child in byId[id].children ==> child in visited')
      && (!byId[id].hidden ==> Key(tree.frame, byId[id]) in keys)
  }

  lemma WalkKeepsKeys(tree: Tree, previous: map<string, nat>, ids: seq<string>, depth: nat, parent: int, visited: set<string>, s: State)
    ensures forall key :: key in s.keys ==> key in Walk(tree, previous, ids, depth, parent, visited, s).1.keys
  {
    WalkKeeps((s': State) => forall key :: key in s.keys ==> key in s'.keys, tree, previous, ids, depth, parent, visited, s);
  }

  lemma EnteringLists(tree: Tree, node: Node, previous: map<string, nat>, depth: nat, parent: int, s: State)
    ensures forall key :: key in s.keys ==> key in Entered(tree, node, previous, depth, parent, s).keys
    ensures !node.hidden ==> Key(tree.frame, node) in Entered(tree, node, previous, depth, parent, s).keys
  {
    EnteringKeeps((s': State) => forall key :: key in s.keys ==> key in s'.keys, tree, node, previous, depth, parent, s);
    if !node.hidden && node.backend in tree.children {
      var listed := Listed(s, tree, node, previous, depth, parent);
      assert listed.keys[|s.keys|] == Key(tree.frame, node);
      AppendKeeps((s': State) => forall key :: key in listed.keys ==> key in s'.keys, tree.children[node.backend], previous, depth + 1,
                  IndexOf(s, previous, Key(tree.frame, node)), listed);
    }
  }

  lemma {:induction false} WalkCompletes(tree: Tree, previous: map<string, nat>, ids: seq<string>, depth: nat, parent: int, visited: set<string>, s: State,
                                         closed: set<string>)
    requires visited <= closed && (forall id :: id in ids ==> id in closed) && Closed(tree, closed)
    ensures var r := Walk(tree, previous, ids, depth, parent, visited, s);
            && (forall id :: id in ids ==> id in r.0) && r.0 <= closed && Complete(tree, visited, r.0, r.1.keys)
    decreases tree, 1, ById(tree.nodes).Keys - visited, |ids|
  {
    var byId := ById(tree.nodes);
    if ids == [] {
    } else if ids[0] in visited {
      WalkCompletes(tree, previous, ids[1..], depth, parent, visited, s, closed);
    } else if ids[0] !in byId {
      WalkCompletes(tree, previous, ids[1..], depth, parent, visited + {ids[0]}, s, closed);
    } else {
      var node := byId[ids[0]];
      assert byId.Keys - (visited + {ids[0]}) < byId.Keys - visited;
      EnteringLists(tree, node, previous, depth, parent, s);
      var (depth', parent', entered) := (DepthBelow(node, depth), ParentBelow(tree, node, previous, parent, s), Entered(tree, node, previous, depth, parent, s));
      WalkCompletes(tree, previous, node.children, depth', parent', visited + {ids[0]}, entered, closed);
      WalkKeepsKeys(tree, previous, node.children, depth', parent', visited + {ids[0]}, entered);
      var (below, s') := Walk(tree, previous, node.children, depth', parent', visited + {ids[0]}, entered);
      assert byId.Keys - below <= byId.Keys - visited;
      WalkCompletes(tree, previous, ids[1..], depth, parent, below, s', closed);
      WalkKeepsKeys(tree, previous, ids[1..], depth, parent, below, s');
    }
  }

  /** The nodes the walk of a frame visits. */
  ghost function Visited(tree: Tree, previous: map<string, nat>, depth: nat, parent: int, s: State): set<string> {
    Walk(tree, previous, Roots(tree.nodes, ById(tree.nodes)), depth, parent, {}, s).0
  }
}
