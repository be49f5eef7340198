/** When the nodes of a page have keys of their own: no colon in an id, and no frame twice. */
module AxKeys {
  import opened AxListing

  lemma {:induction false} ByIdHolds(nodes: seq<Node>, id: string)
    requires id in ById(nodes)
    ensures ById(nodes)[id].id == id && ById(nodes)[id] in nodes
    decreases |nodes|
  {
    if nodes[|nodes| - 1].id != id {
      ByIdHolds(nodes[..|nodes| - 1], id);
    }
  }

  /** A text splits at its first colon in one way. */
  lemma SplitAtColon(a: string, x: string, b: string, y: string)
    requires ':' !in a && ':' !in b && a + ":" + x == b + ":" + y
    ensures a == b && x == y
  {
    var (whole, whole') := (a + ":" + x, b + ":" + y);
    assert whole[|a|] == ':' && whole'[|b|] == ':';
    assert |a| == |b|;
    assert whole[..|a|] == a && whole'[..|b|] == b;
    assert whole[|a| + 1..] == x && whole'[|b| + 1..] == y;
  }

  predicate Plain(text: string) {
    ':' !in text
  }

  predicate PlainFrame(tree: Tree) {
    Plain(tree.frame.id) && Plain(tree.frame.loader) && forall node :: node in tree.nodes ==> Plain(node.id)
  }

  ghost function FramesOf(tree: Tree): set<Frame> {
    {tree.frame} + (set backend, frame | backend in tree.children && frame in FramesOf(tree.children[backend]) :: frame)
  }

  ghost predicate FramesApart(tree: Tree) {
    && (forall backend :: backend in tree.children ==> tree.frame !in FramesOf(tree.children[backend]))
    && (forall b, c :: b in tree.children && c in tree.children && b != c ==> FramesOf(tree.children[b]) !! FramesOf(tree.children[c]))
    && (forall backend :: backend in tree.children ==> FramesApart(tree.children[backend]))
  }

  ghost predicate AllPlain(tree: Tree) {
    PlainFrame(tree) && forall backend :: backend in tree.children ==> AllPlain(tree.children[backend])
  }

  lemma KeysDiffer(f: Frame, a: Node, g: Frame, b: Node)
    requires Plain(f.id) && Plain(f.loader) && Plain(a.id) && Plain(g.id) && Plain(g.loader) && Plain(b.id)
    requires Key(f, a) == Key(g, b)
    ensures f == g && a.id == b.id
  {
    var (s, t) := (a.id + ":" + Decimal(a.backend), b.id + ":" + Decimal(b.backend));
    assert Key(f, a) == f.id + ":" + (f.loader + ":" + s);
    assert Key(g, b) == g.id + ":" + (g.loader + ":" + t);
    SplitAtColon(f.id, f.loader + ":" + s, g.id, g.loader + ":" + t);
    SplitAtColon(f.loader, s, g.loader, t);
    SplitAtColon(a.id, Decimal(a.backend), b.id, Decimal(b.backend));
  }

  lemma {:induction false} DigitsTell(a: nat, b: nat)
    requires Digits(a) == Digits(b)
    ensures a == b
    decreases a
  {
    DigitsEnd(a);
    DigitsEnd(b);
    if a >= 10 && b >= 10 {
      assert Digits(a)[..|Digits(a)| - 1] == Digits(a / 10) && Digits(b)[..|Digits(b)| - 1] == Digits(b / 10);
      DigitsTell(a / 10, b / 10);
    }
  }

  lemma {:induction false} DigitsEnd(n: nat)
    ensures |Digits(n)| >= 1 && Digits(n)[|Digits(n)| - 1] == "0123456789"[n % 10] && (n < 10 <==> |Digits(n)| == 1)
    ensures forall c :: c in Digits(n) ==> c != '-'
    decreases n
  {
    if n >= 10 {
      DigitsEnd(n / 10);
    }
  }

  lemma DecimalSign(n: int)
    ensures |Decimal(n)| > 0 && (Decimal(n)[0] == '-' <==> n < 0)
  {
    DigitsEnd(if n < 0 then -n else n);
    if n >= 0 {
      assert Digits(n)[0] in Digits(n);
    }
  }

  lemma DecimalTells(a: int, b: int)
    requires Decimal(a) == Decimal(b)
    ensures a == b
  {
    DecimalSign(a);
    DecimalSign(b);
    if a < 0 {
      assert Decimal(a)[1..] == Digits(-a) && Decimal(b)[1..] == Digits(-b);
      DigitsTell(-a, -b);
    } else {
      DigitsTell(a, b);
    }
  }

  /** Equal keys of plainly named nodes are of the same frame, node id and backend id. */
  lemma KeyParts(f: Frame, a: Node, g: Frame, b: Node)
    requires Plain(f.id) && Plain(f.loader) && Plain(a.id) && Plain(g.id) && Plain(g.loader) && Plain(b.id)
    requires Key(f, a) == Key(g, b)
    ensures f == g && a.id == b.id && a.backend == b.backend
  {
    KeysDiffer(f, a, g, b);
    var front := f.id + ":" + f.loader + ":" + a.id + ":";
    assert Key(f, a) == front + Decimal(a.backend) && Key(g, b) == front + Decimal(b.backend);
    assert Key(f, a)[|front|..] == Decimal(a.backend) && Key(g, b)[|front|..] == Decimal(b.backend);
    DecimalTells(a.backend, b.backend);
  }

  /** A key of a tree is that of a plainly named node in one of its frames. */
  ghost predicate Names(frames: set<Frame>, key: string) {
    exists frame: Frame, node: Node ::
      frame in frames && Plain(frame.id) && Plain(frame.loader) && Plain(node.id) && key == Key(frame, node)
  }

  lemma {:induction false} KeysAreNamed(tree: Tree, key: string)
    requires AllPlain(tree) && key in KeysOf(tree)
    ensures Names(FramesOf(tree), key)
    decreases tree
  {
    var byId := ById(tree.nodes);
    if id :| id in byId && key == Key(tree.frame, byId[id]) {
      ByIdHolds(tree.nodes, id);
    } else {
      var backend :| backend in tree.children && key in KeysOf(tree.children[backend]);
      KeysAreNamed(tree.children[backend], key);
      var frame: Frame, node: Node :|
        frame in FramesOf(tree.children[backend]) && Plain(frame.id) && Plain(frame.loader) && Plain(node.id) && key == Key(frame, node);
      assert frame in FramesOf(tree);
    }
  }

  lemma NamedApart(a: set<Frame>, b: set<Frame>, key: string)
    requires a !! b && Names(a, key)
    ensures !Names(b, key)
  {
    if Names(b, key) {
      var f: Frame, m: Node :| f in a && Plain(f.id) && Plain(f.loader) && Plain(m.id) && key == Key(f, m);
      var g: Frame, n: Node :| g in b && Plain(g.id) && Plain(g.loader) && Plain(n.id) && key == Key(g, n);
      KeysDiffer(f, m, g, n);
    }
  }

  /** No frame twice and no colon in an id: then every node has a key of its own. */
  lemma {:induction false} PlainKeysApart(tree: Tree)
    requires AllPlain(tree) && FramesApart(tree)
    ensures Apart(tree)
    decreases tree
  {
    var byId := ById(tree.nodes);
    forall a | a in byId
      ensures byId[a].id == a && Plain(a) && Names({tree.frame}, Key(tree.frame, byId[a]))
    {
      ByIdHolds(tree.nodes, a);
    }
    forall a, b | a in byId && b in byId && a != b
      ensures Key(tree.frame, byId[a]) != Key(tree.frame, byId[b])
    {
      if Key(tree.frame, byId[a]) == Key(tree.frame, byId[b]) {
        KeysDiffer(tree.frame, byId[a], tree.frame, byId[b]);
      }
    }
    forall backend, key | backend in tree.children && key in KeysOf(tree.children[backend])
      ensures Names(FramesOf(tree.children[backend]), key)
    {
      KeysAreNamed(tree.children[backend], key);
    }
    forall a, backend | a in byId && backend in tree.children
      ensures Key(tree.frame, byId[a]) !in KeysOf(tree.children[backend])
    {
      NamedApart({tree.frame}, FramesOf(tree.children[backend]), Key(tree.frame, byId[a]));
    }
    forall b, c | b in tree.children && c in tree.children && b != c
      ensures KeysOf(tree.children[b]) !! KeysOf(tree.children[c])
    {
      forall key | key in KeysOf(tree.children[b])
        ensures key !in KeysOf(tree.children[c])
      {
        NamedApart(FramesOf(tree.children[b]), FramesOf(tree.children[c]), key);
      }
    }
    forall backend | backend in tree.children
      ensures Apart(tree.children[backend])
    {
      PlainKeysApart(tree.children[backend]);
    }
  }
}
