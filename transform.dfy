/** `compute_world_matrices`: the world transform of every node, resolved depth first
    along integer parent indices and memoised in a dictionary keyed by node index.
    Matrices are an abstract type `M` with a multiplication `mul` (Python's `@`); the
    local matrix of each node is given. */
module Transform {

  /** Following parents from `i` stays in range and meets a root (a negative parent)
      within `fuel` steps. */
  predicate ReachesRoot(parents: seq<int>, i: int, fuel: nat)
    decreases fuel
  {
    0 <= i < |parents| && (parents[i] < 0 || (fuel > 0 && ReachesRoot(parents, parents[i], fuel - 1)))
  }

  /** Every parent chain is in range and acyclic: from every node a root is met within
      as many steps as there are nodes. The source has no cycle guard; it needs this. */
  predicate Acyclic(parents: seq<int>) {
    forall i :: 0 <= i < |parents| ==> ReachesRoot(parents, i, |parents|)
  }

  /** Number of parent steps from `i` to its root. */
  function Depth(parents: seq<int>, i: int, fuel: nat): nat
    requires ReachesRoot(parents, i, fuel)
    decreases fuel
  {
    if parents[i] < 0 then 0 else 1 + Depth(parents, parents[i], fuel - 1)
  }

  lemma {:induction false} DepthFuel(parents: seq<int>, i: int, f: nat, g: nat)
    requires ReachesRoot(parents, i, f) && ReachesRoot(parents, i, g)
    ensures Depth(parents, i, f) == Depth(parents, i, g)
    decreases f
  {
    if parents[i] >= 0 {
      DepthFuel(parents, parents[i], f - 1, g - 1);
    }
  }

  function Height(parents: seq<int>, i: int): nat
    requires Acyclic(parents) && 0 <= i < |parents|
  {
    Depth(parents, i, |parents|)
  }

  /** A parent is in range and strictly closer to the root than its child. */
  lemma ParentCloser(parents: seq<int>, i: int)
    requires Acyclic(parents) && 0 <= i < |parents| && parents[i] >= 0
    ensures 0 <= parents[i] < |parents|
    ensures Height(parents, parents[i]) < Height(parents, i)
  {
    assert ReachesRoot(parents, i, |parents|);
    DepthFuel(parents, parents[i], |parents| - 1, |parents|);
  }

  /** The world matrix of node `i`: its local matrix for a root, otherwise its
      parent's world matrix times its local matrix. */
  function World<M>(parents: seq<int>, locals: seq<M>, mul: (M, M) -> M, i: int): M
    requires |locals| == |parents| && Acyclic(parents) && 0 <= i < |parents|
    decreases Height(parents, i)
  {
    if parents[i] < 0 then locals[i]
    else
      ParentCloser(parents, i);
      mul(World(parents, locals, mul, parents[i]), locals[i])
  }

  /** Node `i` and all its ancestors. */
  function Ancestry(parents: seq<int>, i: int): (r: set<int>)
    requires Acyclic(parents) && 0 <= i < |parents|
    ensures i in r
    ensures forall k :: k in r ==> 0 <= k < |parents|
    decreases Height(parents, i)
  {
    if parents[i] < 0 then {i}
    else
      ParentCloser(parents, i);
      {i} + Ancestry(parents, parents[i])
  }

  /** Ancestors are never further from the root than the node itself, so a node is
      not among its parent's ancestors. */
  lemma {:induction false} AncestorsCloser(parents: seq<int>, i: int, k: int)
    requires Acyclic(parents) && 0 <= i < |parents| && k in Ancestry(parents, i)
    ensures Height(parents, k) <= Height(parents, i)
    decreases Height(parents, i)
  {
    if k != i {
      ParentCloser(parents, i);
      AncestorsCloser(parents, parents[i], k);
    }
  }

  /** A key set that holds the parent of each of its nodes holds all their ancestors. */
  lemma {:induction false} ClosedHoldsAncestry(parents: seq<int>, keys: set<int>, i: int)
    requires Acyclic(parents) && 0 <= i < |parents| && i in keys
    requires forall k :: k in keys && 0 <= k < |parents| && parents[k] >= 0 ==> parents[k] in keys
    ensures Ancestry(parents, i) <= keys
    decreases Height(parents, i)
  {
    if parents[i] >= 0 {
      ParentCloser(parents, i);
      ClosedHoldsAncestry(parents, keys, parents[i]);
    }
  }

  /** The memo dictionary `world_mats` and the nested `calc` of `compute_world_matrices`. */
  class WorldResolver<M> {
    const parents: seq<int>
    const locals: seq<M>
    const mul: (M, M) -> M
    var memo: map<int, M>

    /** Every stored matrix is the node's world matrix, and a node is stored only
        after its parent. */
    ghost predicate Valid()
      reads this
    {
      && |locals| == |parents|
      && Acyclic(parents)
      && (forall k :: k in memo ==> 0 <= k < |parents| && memo[k] == World(parents, locals, mul, k))
      && (forall k :: k in memo && 0 <= k < |parents| && parents[k] >= 0 ==> parents[k] in memo)
    }

    constructor (parents: seq<int>, locals: seq<M>, mul: (M, M) -> M)
      requires |locals| == |parents| && Acyclic(parents)
      ensures Valid()
      ensures this.parents == parents && this.locals == locals && this.mul == mul
      ensures memo == map[]
    {
      this.parents := parents;
      this.locals := locals;
      this.mul := mul;
      memo := map[];
    }

    /** `calc(idx)`: the stored matrix if there is one, otherwise the matrix computed
        from the parent's (computed first) and stored once. */
    method Calc(i: int) returns (m: M)
      requires Valid() && 0 <= i < |parents|
      modifies this
      ensures Valid()
      ensures m == World(parents, locals, mul, i)
      ensures memo.Keys == old(memo.Keys) + Ancestry(parents, i)
      ensures forall k :: k in old(memo) ==> memo[k] == old(memo[k])
      ensures i in old(memo) ==> memo == old(memo) && m == old(memo)[i]
      decreases Height(parents, i)
    {
      if i in memo {
        ClosedHoldsAncestry(parents, memo.Keys, i);
        return memo[i];
      }
      var local := locals[i];
      var p := parents[i];
      if p >= 0 {
        ParentCloser(parents, i);
        var pm := Calc(p);
        // acyclic: `i` is not among the ancestors the recursive call stored, so this is its only write
        assert i !in Ancestry(parents, p) by {
          if i in Ancestry(parents, p) {
            AncestorsCloser(parents, p, i);
          }
        }
        assert i !in memo;
        memo := memo[i := mul(pm, local)];
      } else {
        memo := memo[i := local];
      }
      m := memo[i];
    }
  }

  /** `compute_world_matrices(nodes)`: `calc` for every index in turn. */
  method ComputeWorldMatrices<M>(parents: seq<int>, locals: seq<M>, mul: (M, M) -> M) returns (world: map<int, M>)
    requires |locals| == |parents| && Acyclic(parents)
    ensures forall i :: i in world <==> 0 <= i < |parents|
    ensures forall i :: 0 <= i < |parents| && parents[i] < 0 ==> world[i] == locals[i]
    ensures forall i :: 0 <= i < |parents| && parents[i] >= 0 ==>
      parents[i] in world && world[i] == mul(world[parents[i]], locals[i])
    ensures forall i :: 0 <= i < |parents| ==> world[i] == World(parents, locals, mul, i)
  {
    var r := new WorldResolver(parents, locals, mul);
    for i := 0 to |parents|
      invariant r.Valid()
      invariant r.parents == parents && r.locals == locals && r.mul == mul
      invariant forall k :: 0 <= k < i ==> k in r.memo
    {
      var _ := r.Calc(i);
    }
    world := r.memo;
    forall i | 0 <= i < |parents| && parents[i] >= 0
      ensures parents[i] in world
    {
      ParentCloser(parents, i);
    }
  }
}
