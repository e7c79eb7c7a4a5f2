# Schema-tree node

A model of `Node`, the tree node that Ballerina's GraphQL module builds while it
generates a schema. A node has a name that never changes, an optional type
descriptor (the Ballerina runtime `Type`, kept opaque as a type parameter `T`;
Java's `null` is `None`), and a `HashMap` from child name to child node.
`addChild` stores a child under its own name and silently replaces an earlier
child of the same name; `getChild` and `hasChild` look only at the direct
children.

- `wrappers.dfy`: `Option`, the absent sentinel.
- `node.dfy` (module `SchemaTree`): the class `Node<T>` with `const name`,
  `const typ`, `var children`, its accessors and `AddChild`, and the map
  operations it is built on (`Get` for `HashMap.get`, `Put` for
  `HashMap.put` keyed by the child's name).
- `history.dfy` (module `NodeHistory`): a node's lifecycle as a sequence of
  `addChild` calls on a fresh node. `Replay(h)` is the resulting children map;
  `LastIndexOf` is an independent description of which child a lookup must
  return; `ReplayLookup` proves the two agree.

The accessors `GetName`, `GetType`, `GetChild`, `HasChild` and `GetChildren`
are Dafny functions: they change nothing, and repeated calls with no
`AddChild` in between return the same result.

## Model

| member | source | states |
|---|---|---|
| SchemaTree.Get | graphql-native/src/main/java/io/ballerina/stdlib/graphql/schema/tree/Node.java:57-59 | a lookup finds a node exactly when the key is present and returns the stored node; when every entry is keyed by its child's name, the node found carries the name looked up |
| SchemaTree.Put | graphql-native/src/main/java/io/ballerina/stdlib/graphql/schema/tree/Node.java:53-55 | after inserting a child, looking up its name gives that very child; every other key looks up as before; the key set grows by the child's name only, and is unchanged when the name was already taken; keying by name is preserved |
| SchemaTree.Node.GetChild | graphql-native/src/main/java/io/ballerina/stdlib/graphql/schema/tree/Node.java:57-59 | a found child is one of this node's direct children, and on a valid node it carries the name asked for |
| SchemaTree.Node.HasChild | graphql-native/src/main/java/io/ballerina/stdlib/graphql/schema/tree/Node.java:61-63 | true exactly when `GetChild` finds a child |
| SchemaTree.Node.GetChildren | graphql-native/src/main/java/io/ballerina/stdlib/graphql/schema/tree/Node.java:65-67 | every entry of the returned map is what `GetChild` returns for its key, and no name outside it is a child |
| SchemaTree.Node.AddChild | graphql-native/src/main/java/io/ballerina/stdlib/graphql/schema/tree/Node.java:53-55 | afterwards the child is present and is the same object; every other name looks up as before; the keyed-by-name invariant is kept; name and type are constants and cannot change |
| SchemaTree.NewNode | graphql-native/src/main/java/io/ballerina/stdlib/graphql/schema/tree/Node.java:36-43 | the one-argument constructor gives a new node whose `GetName` is the name and whose `GetType` is absent, with no children, and a valid node; the accessors `SchemaTree.Node.GetName` and `SchemaTree.Node.GetType` are covered by this row and the next |
| SchemaTree.NewTypedNode | graphql-native/src/main/java/io/ballerina/stdlib/graphql/schema/tree/Node.java:39-50 | the two-argument constructor (the class constructor of `SchemaTree.Node`) gives a new node whose `GetName` and `GetType` return the arguments, with no children |
| NodeHistory.LastIndexOf | graphql-native/src/main/java/io/ballerina/stdlib/graphql/schema/tree/Node.java:53-55 | finds the last child in a history with a given name, none later has it, and there is none exactly when the name was never added |
| NodeHistory.Replay | graphql-native/src/main/java/io/ballerina/stdlib/graphql/schema/tree/Node.java:36-55 | after any sequence of insertions on a fresh node the keys are exactly the names added, and every entry is keyed by its child's own name |
| NodeHistory.ReplayLookup | graphql-native/src/main/java/io/ballerina/stdlib/graphql/schema/tree/Node.java:53-59 | last write wins: a lookup after any history returns the last child added under that name, and the absent sentinel for a name never added |
| NodeHistory.ReplayOverwrite | graphql-native/src/main/java/io/ballerina/stdlib/graphql/schema/tree/Node.java:53-55 | adding a second child under a taken name makes it the one found, and leaves the key set as it was |
| NodeHistory.LookupIsSingleLevel | graphql-native/src/main/java/io/ballerina/stdlib/graphql/schema/tree/Node.java:57-59 | in a chain root, mid, leaf the leaf is found through mid but not directly under root |
| NodeHistory.Build | graphql-native/src/main/java/io/ballerina/stdlib/graphql/schema/tree/Node.java:39-55 | constructing a node and calling `AddChild` for each child in order gives a new node holding exactly the children map `Replay` describes |

## Left out

- The Ballerina runtime `Type` is foreign; it is the uninterpreted type parameter `T`.
- SchemaTree.Node.GetChildren: returns the children map as an immutable value, whereas Java returns the live `HashMap`, through which a caller could insert entries that break the keyed-by-name invariant.
- A null name is a legal key in Java (`new Node(null)` works and `HashMap` stores it under the null key); Dafny strings cannot be null, so that case is not modelled.
- A null child (`addChild(null)` throws a `NullPointerException`) is excluded by Dafny's non-null reference types rather than modelled as an error.
- `HashMap` hashing, capacity and iteration order: only the abstract map semantics are kept.
- Cycles and subtrees shared between parents are allowed, as in Java; nothing walks the tree, so no traversal is modelled.
- Concurrency: the class is unsynchronised and meant for single-threaded build-then-read use.
