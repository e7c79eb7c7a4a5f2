/**
  The build phase of a node: it is created with an empty children map and is
  then changed only by `addChild`, one child at a time. `Replay(h)` is the
  children map after the children `h` were added in order, and the lemmas
  below say what every lookup on such a map returns.
 */
module NodeHistory {
  import opened Wrappers
  import opened SchemaTree

  /** The names of the children added so far. */
  ghost function Names<T>(h: seq<Node<T>>): set<string> {
    set i | 0 <= i < |h| :: h[i].name
  }

  /** The position of the last child in `h` named `key`, if any. */
  function LastIndexOf<T>(h: seq<Node<T>>, key: string): (r: Option<nat>)
    ensures r.Some? ==> r.value < |h| && h[r.value].name == key
    ensures r.Some? ==> forall j | r.value < j < |h| :: h[j].name != key
    ensures r.None? <==> key !in Names(h)
  {
    if |h| == 0 then None
    else if h[|h| - 1].name == key then Some(|h| - 1)
    else
      var r := LastIndexOf(h[..|h| - 1], key);
      assert h[..|h| - 1] + [h[|h| - 1]] == h;
      r
  }

  /** The children map of a fresh node after `addChild` of each of `h`, in order. */
  function Replay<T>(h: seq<Node<T>>): (m: map<string, Node<T>>)
    ensures m.Keys == Names(h)
    ensures KeyedByName(m)
  {
    if |h| == 0 then map[]
    else
      var m := Put(Replay(h[..|h| - 1]), h[|h| - 1]);
      assert Names(h) == Names(h[..|h| - 1]) + {h[|h| - 1].name} by {
        assert h[..|h| - 1] + [h[|h| - 1]] == h;
      }
      m
  }

  /**
    Last write wins: a lookup after any history returns the last child added
    under that name, and the absent sentinel for a name never added.
   */
  lemma {:induction false} ReplayLookup<T>(h: seq<Node<T>>, key: string)
    ensures LastIndexOf(h, key).None? ==> Get(Replay(h), key) == None
    ensures LastIndexOf(h, key).Some? ==> Get(Replay(h), key) == Some(h[LastIndexOf(h, key).value])
  {
    if |h| > 0 && h[|h| - 1].name != key {
      ReplayLookup(h[..|h| - 1], key);
    }
  }

  /** Adding a second child under a taken name: the later one is found, the key set stays. */
  lemma ReplayOverwrite<T>(h: seq<Node<T>>, c1: Node<T>, c2: Node<T>)
    requires c1.name == c2.name
    ensures Get(Replay(h + [c1, c2]), c2.name) == Some(c2)
    ensures Replay(h + [c1, c2]).Keys == Replay(h + [c1]).Keys
  {
    assert (h + [c1, c2])[..|h| + 1] == h + [c1];
  }

  /** A lookup never sees grandchildren: after `Root -> Mid -> Leaf`, `Leaf` is not a child of `Root`. */
  lemma LookupIsSingleLevel<T>(root: Node<T>, mid: Node<T>, leaf: Node<T>)
    requires root.children == Replay([mid]) && mid.children == Replay([leaf])
    requires leaf.name != mid.name
    ensures root.GetChild(mid.name) == Some(mid)
    ensures root.GetChild(mid.name).value.GetChild(leaf.name) == Some(leaf)
    ensures root.GetChild(leaf.name) == None
  {
  }

  /**
    Creates a node and adds the children `h` to it in order: the node's
    children map is then `Replay(h)`.
   */
  method Build<T>(name: string, typ: Option<T>, h: seq<Node<T>>) returns (n: Node<T>)
    ensures fresh(n)
    ensures n.GetName() == name && n.GetType() == typ
    ensures n.GetChildren() == Replay(h)
    ensures n.Valid()
  {
    n := new Node(name, typ);
    var i := 0;
    while i < |h|
      invariant 0 <= i <= |h|
      invariant n.children == Replay(h[..i])
    {
      n.AddChild(h[i]);
      assert h[..i + 1][..i] == h[..i];
      i := i + 1;
    }
    assert h[..|h|] == h;
  }
}
