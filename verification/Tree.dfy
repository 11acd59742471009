/**
 The state tree seen from outside: a map from keys to leaf values, a
 collision-free root, a node store, and Merkle proofs.
 */
module Tree {
  import opened Wrappers

  type Leaves = map<nat, seq<int>>

  /** A collision-free digest of the leaves: roots are equal exactly when the leaves are. */
  datatype Root = Root(contents: Leaves)

  datatype Error = KeyNotFound | Failed(reason: string)

  /** A write transaction: the staged leaves, and the roots whose nodes are in the database. */
  datatype Tx = Tx(leaves: Leaves, stored: set<Root>)

  function Get(t: Tx, key: nat): Result<seq<int>, Error> {
    if key in t.leaves then Ok(t.leaves[key]) else Err(KeyNotFound)
  }

  function Write(t: Tx, key: nat, values: seq<int>): Tx {
    var leaves := t.leaves[key := values];
    Tx(leaves, t.stored + {Root(leaves)})
  }

  /** Adding an existing key is an error. */
  function Add(t: Tx, key: nat, values: seq<int>): Result<Tx, Error> {
    if key in t.leaves then Err(Failed("key already exists")) else Ok(Write(t, key, values))
  }

  /** Updating an absent key is an error. */
  function Update(t: Tx, key: nat, values: seq<int>): Result<Tx, Error> {
    if key in t.leaves then Ok(Write(t, key, values)) else Err(KeyNotFound)
  }

  /** Only a root whose nodes are stored can become the current one. */
  function SetRoot(t: Tx, root: Root): Result<Tx, Error> {
    if root in t.stored then Ok(t.(leaves := root.contents)) else Err(KeyNotFound)
  }

  datatype LeafHash = EmptyLeaf | LeafHash(values: seq<int>)

  /** A membership or non-membership proof; `fnc` is 0 for membership. Siblings are left out. */
  datatype Proof = Proof(root: Root, key: nat, value: LeafHash,
                         oldKey: nat, oldValue: LeafHash, isOld0: int, fnc: int)

  /** What a proof for `key` says about the leaves it was generated from. */
  ghost predicate Proves(p: Proof, leaves: Leaves, key: nat) {
    && p.root == Root(leaves)
    && p.key == key
    && (p.fnc == 0 <==> key in leaves)
    && (key in leaves ==> p.value == LeafHash(leaves[key]))
    && (key !in leaves ==>
          || (p.isOld0 == 1 && p.oldKey == 0 && p.oldValue == EmptyLeaf)
          || (p.isOld0 == 0 && p.oldKey in leaves && p.oldKey != key && p.oldValue == LeafHash(leaves[p.oldKey])))
  }

  /** Which leaf an exclusion proof ends at depends on the tree's shape, so any other leaf may appear. */
  method GenerateProof(leaves: Leaves, key: nat) returns (p: Proof)
    ensures Proves(p, leaves, key)
  {
    if key in leaves {
      p := Proof(Root(leaves), key, LeafHash(leaves[key]), 0, EmptyLeaf, 0, 0);
    } else {
      p := Proof(Root(leaves), key, EmptyLeaf, 0, EmptyLeaf, 1, 1);
      var other: nat :| true;
      if other in leaves {
        p := p.(oldKey := other, oldValue := LeafHash(leaves[other]), isOld0 := 0);
      }
    }
  }

  /** A pair of leaves and roots as the circuit consumes them. */
  datatype Transition = Transition(newRoot: Root, newKey: nat, newValue: LeafHash,
                                   oldRoot: Root, oldKey: nat, oldValue: LeafHash,
                                   isOld0: int, fnc0: int, fnc1: int)
  {
    predicate IsNoop() { fnc0 == 0 && fnc1 == 0 }

    predicate IsUpdate() { fnc0 == 0 && fnc1 == 1 }

    predicate IsInsert() { fnc0 == 1 && fnc1 == 0 }

    predicate IsDelete() { fnc0 == 1 && fnc1 == 1 }
  }

  function FromProofPair(before: Proof, after: Proof): Transition {
    var beforeIn := before.fnc == 0;
    var afterIn := after.fnc == 0;
    var (fnc0, fnc1) :=
      if !beforeIn && !afterIn then (0, 0)
      else if beforeIn && afterIn then (0, 1)
      else if !beforeIn && afterIn then (1, 0)
      else (1, 1);
    Transition(
      after.root,
      if afterIn then after.key else after.oldKey,
      if afterIn then after.value else after.oldValue,
      before.root,
      if beforeIn then before.key else before.oldKey,
      if beforeIn then before.value else before.oldValue,
      before.isOld0, fnc0, fnc1)
  }

  /** The proof pair a padding slot is built from: the same exclusion proof twice. */
  function FromNoop(root: Root): Transition {
    var p := Proof(root, 0, EmptyLeaf, 0, EmptyLeaf, 0, 1);
    FromProofPair(p, p)
  }

  /** `t` takes `leaves` to `leaves[key := values]`: an insertion or an update, never anything else. */
  ghost predicate Writes(t: Transition, leaves: Leaves, key: nat, values: seq<int>) {
    && t.oldRoot == Root(leaves)
    && t.newRoot == Root(leaves[key := values])
    && t.newKey == key
    && t.newValue == LeafHash(values)
    && !t.IsNoop() && !t.IsDelete()
    && (t.IsInsert() <==> key !in leaves)
    && (t.IsUpdate() <==> key in leaves)
    && (t.IsUpdate() ==> t.oldKey == key && t.oldValue == LeafHash(leaves[key]))
    && (t.IsInsert() ==> t.oldKey == 0 || (t.oldKey in leaves && t.oldKey != key))
  }

  /** Proofs taken around a write classify it exactly. */
  lemma WriteIsClassified(before: Proof, after: Proof, leaves: Leaves, key: nat, values: seq<int>)
    requires Proves(before, leaves, key) && Proves(after, leaves[key := values], key)
    ensures Writes(FromProofPair(before, after), leaves, key, values)
  {
  }

  lemma NoopKeepsRoot(root: Root)
    ensures FromNoop(root).IsNoop()
    ensures FromNoop(root).oldRoot == root == FromNoop(root).newRoot
  {
  }
}
