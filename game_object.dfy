// The game object base class of part IV (partIV/GameObject.swift): a process-wide
// id counter, the four-valued object state, `stop` and the recursive removal of
// every scheduled action from the object's node and all its descendants.

module GameObjects {
  import Decimal

  datatype ObjectState = Initialized | Alive | Died | Stopped

  /** The state after a `hit` or a `die` that only acts on an alive object. */
  function HitState(s: ObjectState): ObjectState
  {
    if s == Alive then Died else s
  }

  /** A guarded hit kills an alive object, leaves any other state alone, and a second hit changes nothing. */
  lemma HitStateGuarded(s: ObjectState)
    ensures s == Alive ==> HitState(s) == Died
    ensures s != Alive ==> HitState(s) == s
    ensures HitState(HitState(s)) == HitState(s)
  {
  }

  /** The static `count` every new game object draws its id from. */
  class IdCounter {
    var count: nat
    /** The ids handed out so far. */
    ghost var issued: set<nat>

    ghost predicate Valid()
      reads this
    {
      forall i :: i in issued ==> 1 <= i <= count
    }

    constructor ()
      ensures Valid() && count == 0 && issued == {}
    {
      count := 0;
      issued := {};
    }

    /** Increments the counter and hands out its new value, which was never handed out before. */
    method Next() returns (id: nat)
      requires Valid()
      modifies this
      ensures Valid()
      ensures id == old(count) + 1 && count == id
      ensures id !in old(issued) && issued == old(issued) + {id}
      ensures forall i :: i in old(issued) ==> i < id
    {
      count := count + 1;
      id := count;
      issued := issued + {id};
    }
  }

  /** A scene node: the keys of the actions it runs and its child nodes. */
  datatype SceneNode = SceneNode(actions: set<string>, children: seq<SceneNode>)

  /** `stopAllActions`: the node and, recursively, every child with no action left. */
  function StopAllActions(n: SceneNode): SceneNode
    decreases n
  {
    SceneNode({}, StopChildren(n.children))
  }

  function StopChildren(cs: seq<SceneNode>): seq<SceneNode>
    decreases cs
  {
    if cs == [] then [] else [StopAllActions(cs[0])] + StopChildren(cs[1..])
  }

  /** No action runs on the node or on any of its descendants. */
  predicate Idle(n: SceneNode)
    decreases n
  {
    n.actions == {} && AllIdle(n.children)
  }

  predicate AllIdle(cs: seq<SceneNode>)
    decreases cs
  {
    cs == [] || (Idle(cs[0]) && AllIdle(cs[1..]))
  }

  /** Two trees with the same nodes in the same places, whatever actions they run. */
  predicate SameShape(a: SceneNode, b: SceneNode)
    decreases a
  {
    AllSameShape(a.children, b.children)
  }

  predicate AllSameShape(xs: seq<SceneNode>, ys: seq<SceneNode>)
    decreases xs
  {
    |xs| == |ys| && (xs == [] || (SameShape(xs[0], ys[0]) && AllSameShape(xs[1..], ys[1..])))
  }

  /** Stopping visits every node of the tree: none keeps an action, and no node is added or lost. */
  lemma {:induction false} StopAllActionsStopsEveryNode(n: SceneNode)
    ensures Idle(StopAllActions(n)) && SameShape(StopAllActions(n), n)
    decreases n
  {
    StopChildrenStopsEveryNode(n.children);
  }

  lemma {:induction false} StopChildrenStopsEveryNode(cs: seq<SceneNode>)
    ensures AllIdle(StopChildren(cs)) && AllSameShape(StopChildren(cs), cs)
    decreases cs
  {
    if cs != [] {
      StopAllActionsStopsEveryNode(cs[0]);
      StopChildrenStopsEveryNode(cs[1..]);
      var r := StopChildren(cs);
      assert r[0] == StopAllActions(cs[0]) && r[1..] == StopChildren(cs[1..]);
    }
  }

  /** Stopping a tree on which nothing runs leaves it as it was. */
  lemma {:induction false} StopAllActionsOfIdle(n: SceneNode)
    requires Idle(n)
    ensures StopAllActions(n) == n
    decreases n
  {
    StopChildrenOfIdle(n.children);
  }

  lemma {:induction false} StopChildrenOfIdle(cs: seq<SceneNode>)
    requires AllIdle(cs)
    ensures StopChildren(cs) == cs
    decreases cs
  {
    if cs != [] {
      StopAllActionsOfIdle(cs[0]);
      StopChildrenOfIdle(cs[1..]);
      assert cs == [cs[0]] + cs[1..];
    }
  }

  /** The base game object: an id fixed at creation, a state, a tag and its scene node. */
  class GameObject {
    const id: nat
    var state: ObjectState
    var tag: int
    var node: SceneNode

    /** Draws the next id from the process-wide counter; a new object is `initialized`. */
    constructor (counter: IdCounter)
      requires counter.Valid()
      modifies counter
      ensures counter.Valid()
      ensures id == old(counter.count) + 1 && counter.count == id
      ensures id !in old(counter.issued) && counter.issued == old(counter.issued) + {id}
      ensures state == Initialized && tag == 0 && node == SceneNode({}, [])
    {
      var next := counter.Next();
      id := next;
      state := Initialized;
      tag := 0;
      node := SceneNode({}, []);
    }

    function Description(): string
    {
      "game object " + Decimal.Show(id)
    }

    /** `stop`: the object is `stopped` from any state and no action runs anywhere in its tree. */
    method Stop()
      modifies this
      ensures state == Stopped && tag == old(tag)
      ensures node == StopAllActions(old(node))
      ensures Idle(node) && SameShape(node, old(node))
    {
      state := Stopped;
      StopAllActionsStopsEveryNode(node);
      node := StopAllActions(node);
    }

    /** The default `hit` hook does nothing. */
    method Hit()
      ensures unchanged(this)
    {
    }

    /** The default per-tick `update` hook does nothing. */
    method Update(time: real)
      ensures unchanged(this)
    {
    }

    /** The default `collision` hook does nothing to either object. */
    method Collision(other: GameObject)
      ensures unchanged(this) && unchanged(other)
    {
    }
  }

  /** Two objects drawn one after the other from the counter get different, increasing ids. */
  method SuccessiveIdsIncrease(counter: IdCounter) returns (first: GameObject, second: GameObject)
    requires counter.Valid()
    modifies counter
    ensures first.id < second.id && second.id == first.id + 1
    ensures first.Description() != second.Description()
  {
    first := new GameObject(counter);
    second := new GameObject(counter);
    var d1, d2 := first.Description(), second.Description();
    assert d1[|"game object "|..] == Decimal.Show(first.id);
    assert d2[|"game object "|..] == Decimal.Show(second.id);
    if d1 == d2 {
      Decimal.ShowInjective(first.id, second.id);
    }
  }
}
