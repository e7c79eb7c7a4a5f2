/**
  The schema-tree node used while generating a GraphQL schema: a name, an
  optional opaque type descriptor, and a map from child name to child node.

  The Ballerina runtime `Type` is foreign and never interpreted here, so it is
  the type parameter `T`; Java's `null` type is `None`.
 */
module SchemaTree {
  import opened Wrappers

  /** Every entry of a children map is keyed by that child's own name. */
  ghost predicate KeyedByName<T>(m: map<string, Node<T>>) {
    forall k | k in m :: m[k].name == k
  }

  /** `HashMap.get`: the node stored under `key`, or the absent sentinel. */
  function Get<T>(m: map<string, Node<T>>, key: string): (r: Option<Node<T>>)
    ensures r.Some? <==> key in m
    ensures r.Some? ==> r.value == m[key]
    ensures KeyedByName(m) && r.Some? ==> r.value.name == key
  {
    if key in m then Some(m[key]) else None
  }

  /**
    `HashMap.put` keyed by the child's own name: the child replaces whatever
    was stored under that name, and nothing else changes.
   */
  function Put<T>(m: map<string, Node<T>>, child: Node<T>): (r: map<string, Node<T>>)
    ensures Get(r, child.name) == Some(child)
    ensures forall k | k != child.name :: Get(r, k) == Get(m, k)
    ensures r.Keys == m.Keys + {child.name}
    ensures child.name in m ==> r.Keys == m.Keys
    ensures KeyedByName(m) ==> KeyedByName(r)
  {
    m[child.name := child]
  }

  class Node<T> {
    /** Never reassigned after construction: the class has no setter. */
    const name: string
    const typ: Option<T>
    var children: map<string, Node<T>>

    ghost predicate Valid()
      reads this
    {
      KeyedByName(children)
    }

    /** The two-argument constructor; the children map starts empty. */
    constructor (name: string, typ: Option<T>)
      ensures this.name == name && this.typ == typ
      ensures children == map[]
      ensures Valid()
    {
      this.name := name;
      this.typ := typ;
      children := map[];
    }

    function GetType(): Option<T> {
      typ
    }

    function GetName(): string {
      name
    }

    /** Inserts `child` under its own name; last write wins. */
    method AddChild(child: Node<T>)
      modifies this
      ensures children == Put(old(children), child)
      ensures HasChild(child.name) && GetChild(child.name) == Some(child)
      ensures forall k | k != child.name :: GetChild(k) == old(GetChild(k))
      ensures old(Valid()) ==> Valid()
    {
      children := Put(children, child);
    }

    /** Single-level lookup among the direct children only. */
    function GetChild(key: string): (r: Option<Node<T>>)
      reads this
      ensures r.Some? ==> r.value in children.Values
      ensures Valid() && r.Some? ==> r.value.GetName() == key
    {
      Get(children, key)
    }

    function HasChild(key: string): (b: bool)
      reads this
      ensures b <==> GetChild(key).Some?
    {
      key in children
    }

    /**
      The children map as an immutable value; Java hands out the live
      `HashMap` instead.
     */
    function GetChildren(): (m: map<string, Node<T>>)
      reads this
      ensures forall k | k in m :: GetChild(k) == Some(m[k])
      ensures forall k | k !in m :: !HasChild(k)
    {
      children
    }
  }

  /** `new Node(name)`: delegates to the two-argument constructor with no type. */
  method NewNode<T>(name: string) returns (n: Node<T>)
    ensures fresh(n)
    ensures n.GetName() == name && n.GetType() == None
    ensures forall k :: !n.HasChild(k)
    ensures n.Valid()
  {
    n := new Node(name, None);
  }

  /** `new Node(name, type)`. */
  method NewTypedNode<T>(name: string, typ: Option<T>) returns (n: Node<T>)
    ensures fresh(n)
    ensures n.GetName() == name && n.GetType() == typ
    ensures forall k :: !n.HasChild(k)
    ensures n.Valid()
  {
    n := new Node(name, typ);
  }
}
