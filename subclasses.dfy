/** The tree of subclasses that `Resource.__subclasses__()` exposes, level by level,
    and the two orders in which it can be walked: breadth first (the order of the
    worklist in `get_related_resource_class`) and depth first (pre-order). */
module Subclasses {

  /** A class and its direct subclasses, in definition order. */
  datatype Tree<T> = Tree(node: T, subclasses: seq<Tree<T>>)

  function Size<T>(t: Tree<T>): nat {
    1 + ForestSize(t.subclasses)
  }

  function ForestSize<T>(f: seq<Tree<T>>): nat {
    if f == [] then 0 else Size(f[0]) + ForestSize(f[1..])
  }

  lemma {:induction false} ForestSizeAppend<T>(a: seq<Tree<T>>, b: seq<Tree<T>>)
    ensures ForestSize(a + b) == ForestSize(a) + ForestSize(b)
  {
    if a != [] {
      assert (a + b)[0] == a[0];
      assert (a + b)[1..] == a[1..] + b;
      ForestSizeAppend(a[1..], b);
    } else {
      assert a + b == b;
    }
  }

  /** Replacing the head of a worklist by its subclasses shrinks the worklist. */
  lemma ForestSizeNext<T>(queue: seq<Tree<T>>)
    requires queue != []
    ensures ForestSize(queue[1..] + queue[0].subclasses) < ForestSize(queue)
  {
    ForestSizeAppend(queue[1..], queue[0].subclasses);
    assert ForestSize(queue) == Size(queue[0]) + ForestSize(queue[1..]);
    assert Size(queue[0]) == 1 + ForestSize(queue[0].subclasses);
  }

  /** Every class of a forest, each as often as it occurs. */
  function Nodes<T>(f: seq<Tree<T>>): multiset<T> {
    if f == [] then multiset{} else multiset{f[0].node} + Nodes(f[0].subclasses) + Nodes(f[1..])
  }

  lemma {:induction false} NodesAppend<T>(a: seq<Tree<T>>, b: seq<Tree<T>>)
    ensures Nodes(a + b) == Nodes(a) + Nodes(b)
  {
    if a != [] {
      assert (a + b)[0] == a[0];
      assert (a + b)[1..] == a[1..] + b;
      NodesAppend(a[1..], b);
    } else {
      assert a + b == b;
    }
  }

  /** Worklist order: take the head of the queue, append its subclasses to the tail. */
  function BreadthFirst<T>(queue: seq<Tree<T>>): seq<T>
    decreases ForestSize(queue)
  {
    if queue == [] then []
    else
      ForestSizeNext(queue);
      [queue[0].node] + BreadthFirst(queue[1..] + queue[0].subclasses)
  }

  /** Pre-order: a class, then everything below it, then its later siblings. */
  function DepthFirst<T>(f: seq<Tree<T>>): seq<T> {
    if f == [] then [] else [f[0].node] + DepthFirst(f[0].subclasses) + DepthFirst(f[1..])
  }

  /** The worklist walk visits every class of the tree exactly once. */
  lemma {:induction false} BreadthFirstVisitsAll<T>(queue: seq<Tree<T>>)
    ensures multiset(BreadthFirst(queue)) == Nodes(queue)
    decreases ForestSize(queue)
  {
    if queue != [] {
      var next := queue[1..] + queue[0].subclasses;
      ForestSizeNext(queue);
      BreadthFirstVisitsAll(next);
      NodesAppend(queue[1..], queue[0].subclasses);
    }
  }

  /** The classes already on the worklist come first, in order, before any of
      their subclasses: direct subclasses of `Resource` are tried before deeper ones. */
  lemma {:induction false} BreadthFirstStartsWithQueue<T>(queue: seq<Tree<T>>)
    ensures |BreadthFirst(queue)| >= |queue|
    ensures forall i :: 0 <= i < |queue| ==> BreadthFirst(queue)[i] == queue[i].node
    decreases ForestSize(queue)
  {
    if queue != [] {
      var next := queue[1..] + queue[0].subclasses;
      ForestSizeNext(queue);
      BreadthFirstStartsWithQueue(next);
      forall i | 1 <= i < |queue|
        ensures BreadthFirst(queue)[i] == queue[i].node
      {
        assert BreadthFirst(queue)[i] == BreadthFirst(next)[i - 1];
        assert next[i - 1] == queue[i];
      }
    }
  }

  /** The two orders differ as soon as a class has a subclass and a later sibling:
      a grandchild is tried after the sibling breadth first, before it depth first. */
  lemma BreadthFirstIsNotDepthFirst()
    ensures BreadthFirst([Tree(1, [Tree(2, [])]), Tree(3, [])]) == [1, 3, 2]
    ensures DepthFirst([Tree(1, [Tree(2, [])]), Tree(3, [])]) == [1, 2, 3]
  {
    var two := Tree(2, []);
    var three := Tree(3, []);
    var f := [Tree(1, [two]), three];
    assert f[1..] + f[0].subclasses == [three, two];
    assert [three, two][1..] + three.subclasses == [two];
    assert [two][1..] + two.subclasses == [];
    assert BreadthFirst([two]) == [2];
    assert BreadthFirst([three, two]) == [3] + BreadthFirst([two]);
    assert BreadthFirst(f) == [1] + BreadthFirst([three, two]);
    assert f[0].subclasses[1..] == [] && f[1..] == [three];
    assert DepthFirst([two]) == [2] + DepthFirst([]) + DepthFirst([]);
    assert DepthFirst([three]) == [3] + DepthFirst([]) + DepthFirst([]);
    assert DepthFirst(f) == [1] + DepthFirst([two]) + DepthFirst([three]);
  }

}
