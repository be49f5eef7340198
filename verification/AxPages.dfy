/** What a page's observations list, and when one is shown as unchanged, whichever nodes hold its frames. */
module AxPages {
  import opened AxListing
  import opened AxKeys
  import opened AxRevision
  import opened AxTwins

  // ---- Each node once, but for twins ----

  lemma {:induction false} KeyWithin(tree: Tree, inner: Tree, id: string)
    requires Within(tree, inner) && id in ById(inner.nodes)
    ensures Key(inner.frame, ById(inner.nodes)[id]) in KeysOf(tree)
    decreases tree
  {
    if tree != inner {
      var backend :| backend in tree.children && Within(tree.children[backend], inner);
      KeyWithin(tree.children[backend], inner, id);
    }
  }

  /** In a tree a key tells its frame and node. */
  lemma {:induction false} KeyTells(tree: Tree, a: Tree, x: string, b: Tree, y: string)
    requires Apart(tree) && Within(tree, a) && Within(tree, b) && x in ById(a.nodes) && y in ById(b.nodes)
    requires Key(a.frame, ById(a.nodes)[x]) == Key(b.frame, ById(b.nodes)[y])
    ensures a == b && x == y
    decreases tree
  {
    if a == tree {
      if b != tree {
        var backend :| backend in tree.children && Within(tree.children[backend], b);
        KeyWithin(tree.children[backend], b, y);
      }
    } else {
      var backend :| backend in tree.children && Within(tree.children[backend], a);
      KeyWithin(tree.children[backend], a, x);
      if b != tree {
        var other :| other in tree.children && Within(tree.children[other], b);
        KeyWithin(tree.children[other], b, y);
        KeyTells(tree.children[backend], a, x, b, y);
      }
    }
  }

  /** An observation's lines are told of since its start. */
  lemma ObservationTells(trees: seq<Tree>, tree: Tree)
    ensures Told(tree, -1, 0, Observations(trees + [tree]))
  {
    assert (trees + [tree])[..|trees|] == trees;
    var before := Observations(trees);
    AppendTells(tree, From(before.indices, 0, -1, State(before.next, map[], [], [], [])));
  }

  lemma ShownIs(tree: Tree, s: State, i: nat, inner: Tree, id: string)
    requires Apart(tree) && Told(tree, -1, 0, s) && i < |s.keys| && Within(tree, inner) && id in ById(inner.nodes)
    requires ById(inner.nodes)[id].id == id && s.keys[i] == Key(inner.frame, ById(inner.nodes)[id])
    ensures s.shown[i] == Shown(inner, ById(inner.nodes)[id])
  {
    assert ShowsWithin(tree, s, i);
    KeyTells(tree, s.shown[i].tree, s.shown[i].node.id, inner, id);
  }

  /** Two lines of nodes that hold the same frame are each followed by its first node. */
  lemma HeldRepeats(tree: Tree, s: State, i: nat, j: nat)
    requires Told(tree, -1, 0, s) && i < |s.keys| && j < |s.keys| && i != j
    requires Owns(s.shown[i]) && Owns(s.shown[j]) && Held(s.shown[i]) == Held(s.shown[j])
    ensures !Distinct(s.keys)
  {
    assert HeldFollows(s, i) && HeldFollows(s, j);
    assert s.keys[i + 1] == s.keys[j + 1];
  }

  lemma LineOf(tree: Tree, s: State, inner: Tree, id: string) returns (i: nat)
    requires Apart(tree) && Told(tree, -1, 0, s) && Within(tree, inner) && id in ById(inner.nodes)
    requires Key(inner.frame, ById(inner.nodes)[id]) in s.keys
    ensures i < |s.keys| && s.shown[i] == Shown(inner, ById(inner.nodes)[id])
  {
    ByIdHolds(inner.nodes, id);
    i :| 0 <= i < |s.keys| && s.keys[i] == Key(inner.frame, ById(inner.nodes)[id]);
    ShownIs(tree, s, i, inner, id);
  }

  /** The lines of twins. */
  lemma TwinLines(tree: Tree, s: State) returns (i: nat, j: nat)
    requires Apart(tree) && Told(tree, -1, 0, s) && Twins(tree, s.keys)
    ensures i < |s.keys| && j < |s.keys| && s.shown[i].tree == s.shown[j].tree && Owns(s.shown[i])
    ensures s.shown[i].node.backend == s.shown[j].node.backend && s.keys[i] != s.keys[j]
  {
    var inner, a, b :| Within(tree, inner) && TwinsIn(inner, a, b, s.keys);
    i := LineOf(tree, s, inner, a);
    j := LineOf(tree, s, inner, b);
    if s.keys[i] == s.keys[j] {
      KeyTells(tree, inner, a, inner, b);
    }
  }

  /** Twins have what they hold listed twice. */
  lemma TwinsRepeat(tree: Tree, s: State)
    requires Apart(tree) && Told(tree, -1, 0, s) && Twins(tree, s.keys)
    ensures !Distinct(s.keys)
  {
    var i, j := TwinLines(tree, s);
    HeldRepeats(tree, s, i, j);
  }

  /** With distinct keys an observation lists a node twice if and only if two listed nodes hold a same frame that lists something. */
  lemma EachNodeListedOnce(trees: seq<Tree>, tree: Tree)
    requires Apart(tree)
    ensures Distinct(Observations(trees + [tree]).keys) <==> !Twins(tree, Observations(trees + [tree]).keys)
  {
    assert (trees + [tree])[..|trees|] == trees;
    var before := Observations(trees);
    AppendOnce(tree, From(before.indices, 0, -1, State(before.next, map[], [], [], [])), true);
    ObservationTells(trees, tree);
    if Twins(tree, Observations(trees + [tree]).keys) {
      TwinsRepeat(tree, Observations(trees + [tree]));
    }
  }

  /**
  The walk of a frame, wherever it is nested, visits the least set of nodes that
  holds its roots and, with a node, its children; and of those it lists exactly
  the visible ones.
  */
  lemma ListsWhatIsReached(tree: Tree, f: From, closed: set<string>)
    requires Closed(tree, closed) && forall id :: id in Roots(tree.nodes, ById(tree.nodes)) ==> id in closed
    requires Apart(tree) && forall key :: key in f.s.keys ==> key !in KeysOf(tree)
    ensures var (byId, visited) := (ById(tree.nodes), Visited(tree, f.previous, f.depth, f.parent, f.s));
            && (forall id :: id in Roots(tree.nodes, byId) ==> id in visited) && Closed(tree, visited) && visited <= closed
            && (forall id :: id in byId && !byId[id].hidden ==> (id in visited <==> Key(tree.frame, byId[id]) in Appended(tree, f).keys))
  {
    var byId, ids := ById(tree.nodes), Roots(tree.nodes, ById(tree.nodes));
    WalkCompletes(tree, f.previous, ids, f.depth, f.parent, {}, f.s, closed);
    var before := set key | key in f.s.keys;
    WalkOnce(tree, ids, {}, f, before, false);
    var visited, keys := Visited(tree, f.previous, f.depth, f.parent, f.s), Appended(tree, f).keys;
    forall id | id in byId && !byId[id].hidden && Key(tree.frame, byId[id]) in keys
      ensures id in visited
    {
      assert Key(tree.frame, byId[id]) in KeysOf(tree);
      OwnIsVisited(tree, before, visited, keys, id);
    }
  }

  lemma OwnIsVisited(tree: Tree, before: set<string>, visited: set<string>, keys: seq<string>, id: string)
    requires Apart(tree) && Accounted(tree, before, visited, keys) && id in ById(tree.nodes)
    requires Key(tree.frame, ById(tree.nodes)[id]) in keys && Key(tree.frame, ById(tree.nodes)[id]) !in before
    ensures id in visited
  {
    var other :| other in visited && Under(tree, other, Key(tree.frame, ById(tree.nodes)[id]));
  }

  // ---- Numbers and nodes ----

  /** A line's number tells its node, as far as the observation keeps it. */
  predicate NumbersTell(previous: map<string, nat>, base: nat, s: State) {
    && |s.lines| == |s.keys|
    && (forall i :: 0 <= i < |s.keys| ==>
          s.keys[i] in s.indices && if s.keys[i] in previous then s.lines[i].index == previous[s.keys[i]] else base <= s.lines[i].index < s.next)
    && (forall i, k :: 0 <= i < |s.keys| && k in s.indices && s.indices[k] == s.lines[i].index ==> s.keys[i] == k)
  }

  lemma ListingTellsNumbers(previous: map<string, nat>, base: nat, s: State, tree: Tree, node: Node, depth: nat, parent: int)
    requires Issued(previous, base) && Numbers(previous, base, s.indices, s.next) && NumbersTell(previous, base, s)
    ensures NumbersTell(previous, base, Listed(s, tree, node, previous, depth, parent))
  {
    var s', key := Listed(s, tree, node, previous, depth, parent), Key(tree.frame, node);
    forall i, k | 0 <= i < |s'.keys| && k in s'.indices && s'.indices[k] == s'.lines[i].index
      ensures s'.keys[i] == k
    {
      if i < |s.keys| {
        assert s'.lines[i] == s.lines[i] && s'.keys[i] == s.keys[i];
      }
    }
  }

  lemma ObservationNumbers(trees: seq<Tree>, tree: Tree)
    ensures var before := Observations(trees);
            NumbersTell(before.indices, before.next, Observations(trees + [tree]))
  {
    assert (trees + [tree])[..|trees|] == trees;
    NumbersAreIssued(trees);
    var before := Observations(trees);
    var inv := (s: State) => Numbers(before.indices, before.next, s.indices, s.next) && NumbersTell(before.indices, before.next, s);
    forall s, of, node, depth: nat, parent | inv(s)
      ensures inv(Listed(s, of, node, before.indices, depth, parent))
    {
      ListingNumbers(before.indices, before.next, s, of, node, depth, parent);
      ListingTellsNumbers(before.indices, before.next, s, of, node, depth, parent);
    }
    AppendKeeps(inv, tree, before.indices, 0, -1, State(before.next, map[], [], [], []));
  }

  // ---- Frames apart ----

  lemma {:induction false} FrameWithin(tree: Tree, inner: Tree)
    requires Within(tree, inner)
    ensures inner.frame in FramesOf(tree)
    decreases tree
  {
    if tree != inner {
      var backend :| backend in tree.children && Within(tree.children[backend], inner);
      FrameWithin(tree.children[backend], inner);
    }
  }

  /** A frame is in one place of a tree. */
  lemma {:induction false} FrameTells(tree: Tree, a: Tree, b: Tree)
    requires FramesApart(tree) && Within(tree, a) && Within(tree, b) && a.frame == b.frame
    ensures a == b
    decreases tree
  {
    if a == tree {
      if b != tree {
        var backend :| backend in tree.children && Within(tree.children[backend], b);
        FrameWithin(tree.children[backend], b);
      }
    } else {
      var backend :| backend in tree.children && Within(tree.children[backend], a);
      FrameWithin(tree.children[backend], a);
      if b != tree {
        var other :| other in tree.children && Within(tree.children[other], b);
        FrameWithin(tree.children[other], b);
        FrameTells(tree.children[backend], a, b);
      }
    }
  }

  lemma {:induction false} WithinWithin(tree: Tree, a: Tree, b: Tree)
    requires Within(tree, a) && Within(a, b)
    ensures Within(tree, b)
    decreases tree
  {
    if tree != a {
      var backend :| backend in tree.children && Within(tree.children[backend], a);
      WithinWithin(tree.children[backend], a, b);
    }
  }

  lemma {:induction false} WithinApart(tree: Tree, inner: Tree)
    requires FramesApart(tree) && Within(tree, inner)
    ensures FramesApart(inner)
    decreases tree
  {
    if tree != inner {
      var backend :| backend in tree.children && Within(tree.children[backend], inner);
      WithinApart(tree.children[backend], inner);
    }
  }

  /** A held frame is not its holder's, nor that of anything the holder is in. */
  lemma {:induction false} HeldIsOther(tree: Tree, inner: Tree, backend: int)
    requires FramesApart(tree) && Within(tree, inner) && backend in inner.children
    ensures Within(tree, inner.children[backend]) && inner.children[backend].frame != tree.frame
    ensures inner.children[backend].frame != inner.frame
    decreases tree
  {
    var held := inner.children[backend];
    assert Within(held, held) && Within(inner, held);
    WithinWithin(tree, inner, held);
    WithinApart(tree, inner);
    FrameWithin(held, held);
    if tree != inner {
      var child :| child in tree.children && Within(tree.children[child], inner);
      WithinWithin(tree.children[child], inner, held);
      FrameWithin(tree.children[child], held);
    }
  }

  /** A frame is held in one frame of a tree, by one backend id. */
  lemma {:induction false} HolderTells(tree: Tree, a: Tree, x: int, b: Tree, y: int)
    requires FramesApart(tree) && Within(tree, a) && Within(tree, b) && x in a.children && y in b.children
    requires a.children[x].frame == b.children[y].frame
    ensures a == b && x == y
    decreases tree
  {
    HeldWithin(a, x);
    HeldWithin(b, y);
    if a == tree && b == tree {
      FrameWithin(a.children[x], a.children[x]);
      FrameWithin(b.children[y], b.children[y]);
    } else if a == tree {
      var child :| child in tree.children && Within(tree.children[child], b);
      HolderBelow(tree, x, child, b, y);
    } else if b == tree {
      var child :| child in tree.children && Within(tree.children[child], a);
      HolderBelow(tree, y, child, a, x);
    } else {
      var child :| child in tree.children && Within(tree.children[child], a);
      var other :| other in tree.children && Within(tree.children[other], b);
      WithinWithin(tree.children[child], a, a.children[x]);
      WithinWithin(tree.children[other], b, b.children[y]);
      FrameWithin(tree.children[child], a.children[x]);
      FrameWithin(tree.children[other], b.children[y]);
      HolderTells(tree.children[child], a, x, b, y);
    }
  }

  lemma HeldWithin(a: Tree, x: int)
    requires x in a.children
    ensures Within(a, a.children[x]) && Within(a.children[x], a.children[x])
  {
  }

  /** What the top frame holds is held nowhere below. */
  lemma HolderBelow(tree: Tree, x: int, child: int, b: Tree, y: int)
    requires FramesApart(tree) && x in tree.children && child in tree.children && Within(tree.children[child], b) && y in b.children
    ensures tree.children[x].frame != b.children[y].frame
  {
    HeldWithin(tree, x);
    HeldWithin(b, y);
    FrameWithin(tree.children[x], tree.children[x]);
    WithinWithin(tree.children[child], b, b.children[y]);
    FrameWithin(tree.children[child], b.children[y]);
    if x == child {
      HeldIsOther(tree.children[child], b, y);
    }
  }

  // ---- From one observation to the next ----

  ghost predicate PlainPage(tree: Tree) {
    AllPlain(tree) && FramesApart(tree)
  }

  lemma {:induction false} PlainWithin(tree: Tree, inner: Tree, id: string)
    requires AllPlain(tree) && Within(tree, inner) && id in ById(inner.nodes)
    ensures Plain(inner.frame.id) && Plain(inner.frame.loader) && Plain(id)
    decreases tree
  {
    ByIdHolds(inner.nodes, id);
    if tree != inner {
      var backend :| backend in tree.children && Within(tree.children[backend], inner);
      PlainWithin(tree.children[backend], inner, id);
    }
  }

  /** Two observations of pages, the second shown as unchanged. */
  ghost predicate Unchanges(t: Tree, p: State, u: Tree, c: State) {
    && PlainPage(t) && PlainPage(u) && Told(t, -1, 0, p) && Told(u, -1, 0, c)
    && Revise(p.lines, c.lines, false) == Unchanged
    && (forall i, q :: 0 <= i < |p.lines| && 0 <= q < |c.lines| && p.lines[i].index == c.lines[q].index ==> p.keys[i] == c.keys[q])
    && Distinct(c.keys)
  }

  /** Lines with equal keys show nodes of the same frame with the same backend id. */
  lemma SameKeySameParts(t: Tree, p: State, i: nat, u: Tree, c: State, q: nat)
    requires PlainPage(t) && PlainPage(u) && Told(t, -1, 0, p) && Told(u, -1, 0, c)
    requires i < |p.keys| && q < |c.keys| && p.keys[i] == c.keys[q]
    ensures p.shown[i].tree.frame == c.shown[q].tree.frame && p.shown[i].node.backend == c.shown[q].node.backend
  {
    assert ShowsWithin(t, p, i) && ShowsWithin(u, c, q);
    PlainWithin(t, p.shown[i].tree, p.shown[i].node.id);
    PlainWithin(u, c.shown[q].tree, c.shown[q].node.id);
    KeyParts(p.shown[i].tree.frame, p.shown[i].node, c.shown[q].tree.frame, c.shown[q].node);
  }

  /** The line now that has a number there was. */
  lemma LineNow(t: Tree, p: State, u: Tree, c: State, i: nat) returns (q: nat)
    requires Unchanges(t, p, u, c) && i < |p.lines|
    ensures q < |c.lines| && c.lines[q].index == p.lines[i].index && c.keys[q] == p.keys[i]
  {
    UnchangedStays(p.lines, c.lines);
    PositionStands(c.lines, p.lines[i].index);
    q := Positions(c.lines)[p.lines[i].index];
  }

  /** The line that a line now stood at: it had the same parent. */
  lemma LineThen(t: Tree, p: State, u: Tree, c: State, q: nat) returns (i: nat)
    requires Unchanges(t, p, u, c) && q < |c.lines|
    ensures i < |p.lines| && p.lines[i].index == c.lines[q].index && p.keys[i] == c.keys[q] && p.lines[i].parent == c.lines[q].parent
  {
    UnchangedStays(p.lines, c.lines);
    PositionStands(p.lines, c.lines[q].index);
    ShortFormKeepsOrder(p.lines, c.lines, false, q, q);
    i := Positions(p.lines)[c.lines[q].index];
  }

  /** The first line now of a frame. */
  lemma FirstOf(c: State, frame: Frame, q0: nat) returns (q: nat)
    requires q0 < |c.shown| && c.shown[q0].tree.frame == frame
    ensures q < |c.shown| && c.shown[q].tree.frame == frame && forall j :: 0 <= j < q ==> c.shown[j].tree.frame != frame
  {
    q := 0;
    while c.shown[q].tree.frame != frame
      invariant q <= q0 && forall j :: 0 <= j < q ==> c.shown[j].tree.frame != frame
      decreases q0 - q
    {
      q := q + 1;
    }
  }

  /** A frame that was held, and is listed now, is held now by a node of the same frame with the same backend id. */
  lemma StillHeld(t: Tree, p: State, u: Tree, c: State, inner: Tree, backend: int, q0: nat) returns (j: nat)
    requires Unchanges(t, p, u, c) && Within(t, inner) && backend in inner.children
    requires q0 < |c.keys| && c.shown[q0].tree.frame == inner.children[backend].frame
    ensures j < |c.keys| && c.shown[j].tree.frame == inner.frame && c.shown[j].node.backend == backend && Owns(c.shown[j])
  {
    var held := inner.children[backend];
    HeldIsOther(t, inner, backend);
    var q := FirstOf(c, held.frame, q0);
    var i := LineThen(t, p, u, c, q);
    SameKeySameParts(t, p, i, u, c, q);
    assert ShowsWithin(t, p, i);
    FrameTells(t, p.shown[i].tree, held);
    assert HasParent(t, -1, 0, p, i) && HasParent(u, -1, 0, c, q);
    var at: nat :| at < i && IsParent(p, i, at);
    j :| 0 <= j < q && IsParent(c, q, j);
    SameKeySameParts(t, p, at, u, c, j);
    assert ShowsWithin(t, p, at);
    if p.shown[at].tree != held {
      HolderTells(t, p.shown[at].tree, p.shown[at].node.backend, inner, backend);
    }
  }

  /** A node that was listed in a frame is listed now in the frame that is its frame now, with the same backend id. */
  lemma HolderNow(t: Tree, p: State, u: Tree, c: State, i: nat, now: nat) returns (x: nat)
    requires Unchanges(t, p, u, c) && i < |p.keys| && now < |c.keys| && c.shown[now].tree.frame == p.shown[i].tree.frame
    ensures x < |c.keys| && c.keys[x] == p.keys[i] && c.shown[x].tree == c.shown[now].tree && c.shown[x].node.backend == p.shown[i].node.backend
  {
    x := LineNow(t, p, u, c, i);
    SameKeySameParts(t, p, i, u, c, x);
    assert ShowsWithin(u, c, now) && ShowsWithin(u, c, x);
    FrameTells(u, c.shown[now].tree, c.shown[x].tree);
  }

  lemma HeldLine(t: Tree, p: State, i: nat)
    requires Told(t, -1, 0, p) && i < |p.keys| && Owns(p.shown[i])
    ensures i + 1 < |p.keys| && p.shown[i + 1].tree == Held(p.shown[i]) && Within(t, p.shown[i].tree)
  {
    assert HeldFollows(p, i) && ShowsWithin(t, p, i);
  }

  lemma ListedNow(t: Tree, p: State, u: Tree, c: State, i: nat) returns (q: nat)
    requires Unchanges(t, p, u, c) && i < |p.keys|
    ensures q < |c.keys| && c.shown[q].tree.frame == p.shown[i].tree.frame
  {
    q := LineNow(t, p, u, c, i);
    SameKeySameParts(t, p, i, u, c, q);
  }

  /** What a node held that lists something is held now by a node of the same frame with the same backend id. */
  lemma HeldNow(t: Tree, p: State, u: Tree, c: State, i: nat) returns (now: nat)
    requires Unchanges(t, p, u, c) && i < |p.keys| && Owns(p.shown[i])
    ensures now < |c.keys| && c.shown[now].tree.frame == p.shown[i].tree.frame
    ensures c.shown[now].node.backend == p.shown[i].node.backend && Owns(c.shown[now])
  {
    HeldLine(t, p, i);
    var q0 := ListedNow(t, p, u, c, i + 1);
    now := StillHeld(t, p, u, c, p.shown[i].tree, p.shown[i].node.backend, q0);
  }

  predicate SameHolding(x: Shown, y: Shown) {
    x.tree == y.tree && x.node.backend == y.node.backend
  }

  /** Two nodes that held a frame that lists something would now have it listed twice. */
  lemma HoldersAreOne(t: Tree, p: State, u: Tree, c: State, i: nat, j: nat)
    requires Unchanges(t, p, u, c) && i < |p.keys| && j < |p.keys| && SameHolding(p.shown[i], p.shown[j]) && Owns(p.shown[i])
    ensures p.keys[i] == p.keys[j]
  {
    var now := HeldNow(t, p, u, c, i);
    var x := HolderNow(t, p, u, c, i, now);
    var y := HolderNow(t, p, u, c, j, now);
    assert SameHolding(c.shown[x], c.shown[now]) && SameHolding(c.shown[y], c.shown[now]);
    HoldersRepeat(u, c, x, y, now);
  }

  lemma HoldersRepeat(u: Tree, c: State, x: nat, y: nat, now: nat)
    requires Told(u, -1, 0, c) && Distinct(c.keys) && x < |c.keys| && y < |c.keys| && now < |c.keys| && Owns(c.shown[now])
    requires SameHolding(c.shown[x], c.shown[now]) && SameHolding(c.shown[y], c.shown[now])
    ensures x == y
  {
    if x != y {
      HeldRepeats(u, c, x, y);
    }
  }

  /** Twins before would be twins now, and have what they hold listed twice. */
  lemma UnchangedHadNoTwins(t: Tree, p: State, u: Tree, c: State)
    requires Unchanges(t, p, u, c)
    ensures !Twins(t, p.keys)
  {
    if Twins(t, p.keys) {
      PlainKeysApart(t);
      var i, j := TwinLines(t, p);
      HoldersAreOne(t, p, u, c, i, j);
    }
  }

  /** A line's number was given before the next one, or its node is not known. */
  lemma NumberBelow(trees: seq<Tree>, tree: Tree, i: nat)
    requires i < |Observations(trees + [tree]).lines|
    ensures Observations(trees + [tree]).lines[i].index < Observations(trees + [tree]).next
  {
    ObservationNumbers(trees, tree);
    NumbersAreIssued(trees);
    assert (trees + [tree])[..|trees|] == trees;
    WalkNumbers(tree, Observations(trees).indices, Observations(trees).next);
  }

  lemma SameNumberSameKey(trees: seq<Tree>, t: Tree, u: Tree, i: nat, q: nat)
    requires var (p, c) := (Observations(trees + [t]), Observations(trees + [t] + [u]));
             i < |p.lines| && q < |c.lines| && p.lines[i].index == c.lines[q].index
    ensures var (p, c) := (Observations(trees + [t]), Observations(trees + [t] + [u]));
            && i < |p.keys| && q < |c.keys| && p.keys[i] == c.keys[q]
            && c.keys[q] in p.indices && c.lines[q].index == p.indices[c.keys[q]]
  {
    NumberBelow(trees, t, i);
    ObservationNumbers(trees, t);
    ObservationNumbers(trees + [t], u);
  }

  lemma UnchangesNow(trees: seq<Tree>, t: Tree, u: Tree)
    requires PlainPage(t) && PlainPage(u)
    requires Revise(Observations(trees + [t]).lines, Observations(trees + [t] + [u]).lines, false) == Unchanged
    ensures Unchanges(t, Observations(trees + [t]), u, Observations(trees + [t] + [u]))
  {
    var p, c := Observations(trees + [t]), Observations(trees + [t] + [u]);
    ObservationTells(trees, t);
    ObservationTells(trees + [t], u);
    forall i, q | 0 <= i < |p.lines| && 0 <= q < |c.lines| && p.lines[i].index == c.lines[q].index
      ensures p.keys[i] == c.keys[q]
    {
      SameNumberSameKey(trees, t, u, i, q);
    }
    forall q, r | 0 <= q < r < |c.keys|
      ensures c.keys[q] != c.keys[r]
    {
      KeysNowDiffer(trees, t, u, q, r);
    }
  }

  lemma KeysNowDiffer(trees: seq<Tree>, t: Tree, u: Tree, q: nat, r: nat)
    requires var (p, c) := (Observations(trees + [t]), Observations(trees + [t] + [u]));
             Revise(p.lines, c.lines, false) == Unchanged && q < r < |c.keys| == |c.lines|
    ensures Observations(trees + [t] + [u]).keys[q] != Observations(trees + [t] + [u]).keys[r]
  {
    var p, c := Observations(trees + [t]), Observations(trees + [t] + [u]);
    UnchangedStays(p.lines, c.lines);
    PositionStands(p.lines, c.lines[q].index);
    PositionStands(p.lines, c.lines[r].index);
    SameNumberSameKey(trees, t, u, Positions(p.lines)[c.lines[q].index], q);
    SameNumberSameKey(trees, t, u, Positions(p.lines)[c.lines[r].index], r);
    StaysDiffer(p.lines, c.lines, q, r);
  }

  /** Lines of different nodes have different numbers. */
  lemma OnceIsNumbered(trees: seq<Tree>, tree: Tree)
    requires Distinct(Observations(trees + [tree]).keys)
    ensures Numbered(Observations(trees + [tree]).lines)
  {
    NumbersAreIssued(trees + [tree]);
  }

  /**
  From one observation of a page to the next, with no colon in an id and no frame
  twice, "unchanged" is shown if and only if both list the same, not nothing, the
  whole was not asked for, and no number stands twice.
  */
  lemma {:induction false} PageUnchangedExactly(trees: seq<Tree>, t: Tree, u: Tree, full: bool)
    requires PlainPage(t) && PlainPage(u)
    ensures var (before, after) := (Observations(trees + [t]).lines, Observations(trees + [t] + [u]).lines);
            Revise(before, after, full) == Unchanged <==> !full && before == after && after != [] && Numbered(before)
  {
    var before, after := Observations(trees + [t]).lines, Observations(trees + [t] + [u]).lines;
    if Numbered(before) {
      UnchangedExactly(before, after, full);
    } else if !full && Revise(before, after, false) == Unchanged {
      UnchangesNow(trees, t, u);
      UnchangedHadNoTwins(t, Observations(trees + [t]), u, Observations(trees + [t] + [u]));
      PlainKeysApart(t);
      EachNodeListedOnce(trees, t);
      OnceIsNumbered(trees, t);
    }
  }

  // ---- A page with twins ----

  const HELD := Tree(Frame("f", "l"), [Node("x", "", [], false, 3, "button")], map[])
  const PAGE := Tree(Frame("g", "l"), [Node("a", "", [], false, 7, "group"), Node("b", "", [], false, 7, "group")], map[7 := HELD])
  const KEYS := (Key(PAGE.frame, PAGE.nodes[0]), Key(HELD.frame, HELD.nodes[0]), Key(PAGE.frame, PAGE.nodes[1]))

  predicate Knows(previous: map<string, nat>) {
    KEYS.0 in previous && KEYS.1 in previous && KEYS.2 in previous
  }

  lemma HeldIs(f: From)
    ensures Appended(HELD, f) == Listed(f.s, HELD, HELD.nodes[0], f.previous, f.depth, f.parent)
  {
    var nodes := HELD.nodes;
    assert nodes[..0] == [] && nodes[1..] == [];
    assert ById([]) == map[] && ById(nodes) == map["x" := nodes[0]];
    assert Roots(nodes, ById(nodes)) == ["x"] + [];
    assert ["x"][1..] == [] && nodes[0].children == [];
  }

  lemma PageRoots()
    ensures ById(PAGE.nodes) == map["a" := PAGE.nodes[0], "b" := PAGE.nodes[1]] && Roots(PAGE.nodes, ById(PAGE.nodes)) == ["a", "b"]
  {
    var nodes := PAGE.nodes;
    assert nodes[..1] == [nodes[0]] && [nodes[0]][..0] == [];
    assert ById(nodes[..1]) == map["a" := nodes[0]];
    assert nodes[1..] == [nodes[1]] && [nodes[1]][1..] == [];
    var byId := ById(nodes);
    assert Roots([], byId) == [] && Roots([nodes[1]], byId) == ["b"] + [];
  }

  /** The node with the given id, and what it holds, are listed. */
  lemma PageNode(node: Node, f: From)
    requires node in PAGE.nodes
    ensures var listed := Listed(f.s, PAGE, node, f.previous, f.depth, f.parent);
            EnteredFrom(PAGE, node, f)
            == Listed(listed, HELD, HELD.nodes[0], f.previous, f.depth + 1, IndexOf(f.s, f.previous, Key(PAGE.frame, node)))
  {
    HeldIs(From(f.previous, f.depth + 1, IndexOf(f.s, f.previous, Key(PAGE.frame, node)),
                Listed(f.s, PAGE, node, f.previous, f.depth, f.parent)));
  }

  lemma WalkLeaf(tree: Tree, ids: seq<string>, visited: set<string>, f: From)
    requires ids != [] && ids[0] !in visited && ids[0] in ById(tree.nodes) && ById(tree.nodes)[ids[0]].children == []
    ensures WalkedFrom(tree, ids, visited, f)
         == WalkedFrom(tree, ids[1..], visited + {ids[0]}, f.(s := EnteredFrom(tree, ById(tree.nodes)[ids[0]], f)))
  {
    var node := ById(tree.nodes)[ids[0]];
    var below := Below(tree, node, f);
    assert WalkedFrom(tree, node.children, visited + {ids[0]}, below) == (visited + {ids[0]}, below.s);
  }

  lemma PageIs(f: From)
    ensures var one := EnteredFrom(PAGE, PAGE.nodes[0], f);
            Appended(PAGE, f) == EnteredFrom(PAGE, PAGE.nodes[1], f.(s := one))
  {
    PageRoots();
    var one := EnteredFrom(PAGE, PAGE.nodes[0], f);
    WalkLeaf(PAGE, ["a", "b"], {}, f);
    assert ["a", "b"][1..] == ["b"] && ["b"][1..] == [];
    WalkLeaf(PAGE, ["b"], {} + {"a"}, f.(s := one));
  }

  /** The page as it is listed once its nodes are known. */
  lemma PageListed(previous: map<string, nat>, base: nat)
    requires Knows(previous)
    ensures var (s, a, x, b) := (Appended(PAGE, From(previous, 0, -1, State(base, map[], [], [], []))),
                                 previous[KEYS.0], previous[KEYS.1], previous[KEYS.2]);
            && s.keys == [KEYS.0, KEYS.1, KEYS.2, KEYS.1]
            && s.lines == [Line(a, -1, TextOf(0, a, "group")), Line(x, a, TextOf(1, x, "button")),
                           Line(b, -1, TextOf(0, b, "group")), Line(x, b, TextOf(1, x, "button"))]
            && Knows(s.indices) && s.indices[KEYS.0] == a && s.indices[KEYS.1] == x && s.indices[KEYS.2] == b
  {
    var f := From(previous, 0, -1, State(base, map[], [], [], []));
    PageIs(f);
    PageNode(PAGE.nodes[0], f);
    PageNode(PAGE.nodes[1], f.(s := EnteredFrom(PAGE, PAGE.nodes[0], f)));
    PageKeysDiffer();
  }

  lemma PageKeysDiffer()
    ensures KEYS.0 != KEYS.1 && KEYS.0 != KEYS.2 && KEYS.1 != KEYS.2
  {
    if KEYS.0 == KEYS.1 {
      KeysDiffer(PAGE.frame, PAGE.nodes[0], HELD.frame, HELD.nodes[0]);
    }
    if KEYS.0 == KEYS.2 {
      KeysDiffer(PAGE.frame, PAGE.nodes[0], PAGE.frame, PAGE.nodes[1]);
    }
    if KEYS.1 == KEYS.2 {
      KeysDiffer(HELD.frame, HELD.nodes[0], PAGE.frame, PAGE.nodes[1]);
    }
  }

  lemma PageIsKnown()
    ensures Knows(Observations([PAGE]).indices)
  {
    assert [PAGE][..0] == [];
    var f := From(map[], 0, -1, State(0, map[], [], [], []));
    PageIs(f);
    PageNode(PAGE.nodes[0], f);
    PageNode(PAGE.nodes[1], f.(s := EnteredFrom(PAGE, PAGE.nodes[0], f)));
  }

  /** Seen for the third time, a page that did not change is not shown as unchanged when two nodes hold one frame. */
  lemma ATwinIsNeverUnchanged()
    ensures var (before, after) := (Observations([PAGE, PAGE]).lines, Observations([PAGE, PAGE, PAGE]).lines);
            before == after && before != [] && !Numbered(before) && Revise(before, after, false) != Unchanged
  {
    PageIsKnown();
    var first := Observations([PAGE]);
    assert [PAGE, PAGE][..1] == [PAGE] && [PAGE, PAGE, PAGE][..2] == [PAGE, PAGE];
    PageListed(first.indices, first.next);
    var second := Observations([PAGE, PAGE]);
    PageListed(second.indices, second.next);
    assert second.lines[1].index == second.lines[3].index;
    RepeatsAreNeverUnchanged(second.lines);
  }
}
