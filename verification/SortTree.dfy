/**
 The sector-sorted request tree (sort_list): the descent loops of the scheduler over a
 binary search tree, each proved against the finite map from key to request that the
 tree stands for.  How the red-black library rebalances is not part of this model:
 Rebalance and Erase promise the map and the search order, never a shape.
 */
module SortTree {
  import opened Types

  datatype Tree = Leaf | Node(left: Tree, key: nat, id: nat, right: Tree)

  ghost function ToMap(t: Tree): map<nat, nat> {
    match t
    case Leaf => map[]
    case Node(l, k, i, r) => (ToMap(l) + ToMap(r))[k := i]
  }

  ghost predicate Bst(t: Tree) {
    match t
    case Leaf => true
    case Node(l, k, i, r) =>
      Bst(l) && Bst(r)
      && (forall j :: j in ToMap(l) ==> j < k)
      && (forall j :: j in ToMap(r) ==> k < j)
  }

  // ------------------------------------------------ neighbours in the map of keys

  /** rb_next seen on the map: the least key above k. */
  ghost function Succ(m: map<nat, nat>, k: nat): (r: Option<nat>)
    ensures r.None? ==> forall j :: j in m ==> j <= k
    ensures r.Some? ==> r.value in m && k < r.value
                        && forall j :: j in m && k < j ==> r.value <= j
  {
    var above := set j | j in m && k < j;
    assert forall j :: j in m && k < j ==> j in above;
    if above == {} then None else Some(Least(above))
  }

  /** rb_prev seen on the map: the greatest key below k. */
  ghost function Pred(m: map<nat, nat>, k: nat): (r: Option<nat>)
    ensures r.None? ==> forall j :: j in m ==> k <= j
    ensures r.Some? ==> r.value in m && r.value < k
                        && forall j :: j in m && j < k ==> j <= r.value
  {
    var below := set j | j in m && j < k;
    assert forall j :: j in m && j < k ==> j in below;
    if below == {} then None else Some(Greatest(below))
  }

  ghost function LeastKey(m: map<nat, nat>): (k: nat)
    requires m != map[]
    ensures k in m && forall j :: j in m ==> k <= j
  {
    assert m.Keys != {};
    Least(m.Keys)
  }

  ghost function ValueAt(m: map<nat, nat>, k: Option<nat>): Option<nat>
    requires k.Some? ==> k.value in m
  {
    if k.None? then None else Some(m[k.value])
  }

  // ----------------------------------------------------------------- descent loops

  /** deadline_find_drq_rb: the request starting at a sector. */
  method Find(t: Tree, sector: nat) returns (r: Option<nat>)
    requires Bst(t)
    ensures r.Some? <==> sector in ToMap(t)
    ensures r.Some? ==> r.value == ToMap(t)[sector]
  {
    var n := t;
    while n.Node?
      invariant Bst(n)
      invariant sector in ToMap(t) <==> sector in ToMap(n)
      invariant sector in ToMap(n) ==> ToMap(n)[sector] == ToMap(t)[sector]
      decreases n
    {
      if sector < n.key {
        n := n.left;
      } else if sector > n.key {
        n := n.right;
      } else {
        return Some(n.id);
      }
    }
    r := None;
  }

  /** deadline_find_first_drq: the request with the lowest sector. */
  method FindFirst(t: Tree) returns (id: nat)
    requires Bst(t) && t.Node?
    ensures ToMap(t) != map[] && id == ToMap(t)[LeastKey(ToMap(t))]
  {
    var n := t;
    assert t.key in ToMap(t);
    while n.left.Node?
      invariant n.Node? && Bst(n)
      invariant forall j :: j in ToMap(n) ==> j in ToMap(t) && ToMap(n)[j] == ToMap(t)[j]
      invariant forall j :: j in ToMap(t) ==> j in ToMap(n) || n.key < j
      decreases n
    {
      assert n.left.key in ToMap(n.left);
      n := n.left;
    }
    assert n.key in ToMap(n);
    id := n.id;
  }

  /** rb_next of the node with the given key, or of the gap where it would be. */
  method Next(t: Tree, key: nat) returns (r: Option<nat>)
    requires Bst(t)
    ensures r == ValueAt(ToMap(t), Succ(ToMap(t), key))
  {
    var n := t;
    ghost var best: Option<nat> := None;
    r := None;
    while n.Node?
      invariant Bst(n)
      invariant forall j :: j in ToMap(n) ==> j in ToMap(t) && ToMap(n)[j] == ToMap(t)[j]
      invariant best.Some? ==> best.value in ToMap(t) && key < best.value
      invariant best.Some? ==> forall j :: j in ToMap(n) ==> j < best.value
      invariant forall j :: j in ToMap(t) && key < j ==>
                  j in ToMap(n) || (best.Some? && best.value <= j)
      invariant r == ValueAt(ToMap(t), best)
      decreases n
    {
      assert n.key in ToMap(n);
      if key < n.key {
        best, r := Some(n.key), Some(n.id);
        n := n.left;
      } else {
        n := n.right;
      }
    }
  }

  /** rb_prev of the node with the given key, or of the gap where it would be. */
  method Prev(t: Tree, key: nat) returns (r: Option<nat>)
    requires Bst(t)
    ensures r == ValueAt(ToMap(t), Pred(ToMap(t), key))
  {
    var n := t;
    ghost var best: Option<nat> := None;
    r := None;
    while n.Node?
      invariant Bst(n)
      invariant forall j :: j in ToMap(n) ==> j in ToMap(t) && ToMap(n)[j] == ToMap(t)[j]
      invariant best.Some? ==> best.value in ToMap(t) && best.value < key
      invariant best.Some? ==> forall j :: j in ToMap(n) ==> best.value < j
      invariant forall j :: j in ToMap(t) && j < key ==>
                  j in ToMap(n) || (best.Some? && j <= best.value)
      invariant r == ValueAt(ToMap(t), best)
      decreases n
    {
      assert n.key in ToMap(n);
      if n.key < key {
        best, r := Some(n.key), Some(n.id);
        n := n.right;
      } else {
        n := n.left;
      }
    }
  }

  // ------------------------------------------------------------- linking a request

  lemma MapLinks(l: map<nat, nat>, r: map<nat, nat>, k: nat, i: nat, key: nat, id: nat)
    requires key != k
    ensures key !in r ==> (l[key := id] + r)[k := i] == (l + r)[k := i][key := id]
    ensures (l + r[key := id])[k := i] == (l + r)[k := i][key := id]
  {
  }

  ghost function Linked(t: Tree, key: nat, id: nat): (r: Tree)
    requires Bst(t) && key !in ToMap(t)
    ensures Bst(r) && ToMap(r) == ToMap(t)[key := id]
  {
    match t
    case Leaf => Node(Leaf, key, id, Leaf)
    case Node(left, k, i, right) =>
      MapLinks(ToMap(left), ToMap(right), k, i, key, id);
      if key < k then Node(Linked(left, key, id), k, i, right)
      else Node(left, k, i, Linked(right, key, id))
  }

  /** One step of the descent: the node passed, and whether its left child was taken. */
  datatype Turn = Turn(node: Tree, tookLeft: bool)

  /** The tree again, with `sub` hung where the descent has arrived. */
  function Hang(path: seq<Turn>, sub: Tree): Tree
    requires forall i :: 0 <= i < |path| ==> path[i].node.Node?
  {
    if path == [] then sub
    else
      var t := path[|path| - 1];
      Hang(path[..|path| - 1],
           if t.tookLeft then t.node.(left := sub) else t.node.(right := sub))
  }

  /**
   __deadline_add_drq_rb: descend to the place of a key.  A request already there is the
   alias and nothing changes; otherwise the new request is linked at the leaf reached.
   */
  method Link(t: Tree, key: nat, id: nat) returns (alias: Option<nat>, r: Tree)
    requires Bst(t)
    ensures alias.Some? <==> key in ToMap(t)
    ensures alias.Some? ==> alias.value == ToMap(t)[key] && r == t
    ensures alias.None? ==> Bst(r) && ToMap(r) == ToMap(t)[key := id]
  {
    var p := t;
    var path: seq<Turn> := [];
    while p.Node?
      invariant Bst(p)
      invariant forall i :: 0 <= i < |path| ==> path[i].node.Node?
      invariant key in ToMap(t) <==> key in ToMap(p)
      invariant key in ToMap(p) ==> ToMap(p)[key] == ToMap(t)[key]
      invariant key !in ToMap(t) ==> Hang(path, Linked(p, key, id)) == Linked(t, key, id)
      decreases p
    {
      ghost var up := path;
      if key < p.key {
        path := path + [Turn(p, true)];
        assert path[..|path| - 1] == up;
        p := p.left;
      } else if key > p.key {
        path := path + [Turn(p, false)];
        assert path[..|path| - 1] == up;
        p := p.right;
      } else {
        return Some(p.id), t;
      }
    }
    alias, r := None, Hang(path, Node(Leaf, key, id, Leaf));
  }

  /** rb_insert_color: any tree with the same contents. */
  method Rebalance(t: Tree) returns (r: Tree)
    requires Bst(t)
    ensures Bst(r) && ToMap(r) == ToMap(t)
  {
    r := t;
  }

  lemma MapGlues(ll: map<nat, nat>, lr: map<nat, nat>, r: map<nat, nat>, k: nat, i: nat)
    requires k !in r
    ensures (ll + (lr + r))[k := i] == (ll + lr)[k := i] + r
    ensures forall j :: j in lr ==> j in (ll + lr)[k := i]
  {
  }

  function Glue(l: Tree, r: Tree): (t: Tree)
    requires Bst(l) && Bst(r)
    requires forall i, j :: i in ToMap(l) && j in ToMap(r) ==> i < j
    ensures Bst(t) && ToMap(t) == ToMap(l) + ToMap(r)
  {
    match l
    case Leaf => r
    case Node(ll, k, i, lr) =>
      assert k in ToMap(l);
      MapGlues(ToMap(ll), ToMap(lr), ToMap(r), k, i);
      Node(ll, k, i, Glue(lr, r))
  }

  /** rb_erase: any search tree with the same contents less one key. */
  function Erased(t: Tree, key: nat): (r: Tree)
    requires Bst(t)
    ensures Bst(r) && ToMap(r) == ToMap(t) - {key}
  {
    match t
    case Leaf => Leaf
    case Node(left, k, i, right) =>
      if key < k then Node(Erased(left, key), k, i, right)
      else if k < key then Node(left, k, i, Erased(right, key))
      else Glue(left, right)
  }
}
