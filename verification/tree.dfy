/** The observation store: a tree of named groups (`ParentNode`), each an
    ordered list of measured points (`Node`). Groups are edited in place:
    points are appended, or the first point close to a clicked position is
    deleted. Lookups return the points of a group as `(x, y)` pairs. */
module ObservationTree {
  import opened Util

  /** Squared distance below which a point counts as hit by `remove`. */
  const REMOVE_RADIUS_SQ: real := 0.8

  /** One observation: `x` is a time, `y` the measured value. The cost
      compares `x` with trajectory times in minutes. */
  datatype Node = Node(x: real, y: real)
  {
    function Point(): (real, real)
    {
      (x, y)
    }
  }

  /** A point as handed out by `get`, the `[x, y]` pair. */
  type Point = (real, real)

  /** The distance test of `ParentNode::remove`. */
  predicate Near(n: Node, x: real, y: real)
  {
    Square(n.x - x) + Square(n.y - y) < REMOVE_RADIUS_SQ
  }

  /** Position of the first point near `(x, y)`. */
  function FirstNear(s: seq<Node>, x: real, y: real): Option<nat>
  {
    Position(s, n => Near(n, x, y))
  }

  /** The points left after deleting the first point near `(x, y)`. */
  function RemoveNear(s: seq<Node>, x: real, y: real): (r: seq<Node>)
    ensures (forall j :: 0 <= j < |s| ==> !Near(s[j], x, y)) ==> r == s
    ensures forall p :: 0 <= p < |s| && Near(s[p], x, y) && (forall j :: 0 <= j < p ==> !Near(s[j], x, y))
                        ==> r == s[..p] + s[p + 1..]
    ensures |s| - 1 <= |r| <= |s|
  {
    match FirstNear(s, x, y)
    case None => s
    case Some(p) => s[..p] + s[p + 1..]
  }

  /** The `[x, y]` pairs of a list of points, in the same order. */
  function Points(s: seq<Node>): (r: seq<Point>)
    ensures |r| == |s|
    ensures forall i :: 0 <= i < |s| ==> r[i] == (s[i].x, s[i].y)
  {
    seq(|s|, i requires 0 <= i < |s| => s[i].Point())
  }

  class ParentNode {
    const name: string
    var children: seq<Node>

    constructor (name: string)
      ensures this.name == name && children == []
    {
      this.name := name;
      children := [];
    }

    /** Appends the point `(x, y)` at the end of the group. */
    method Add(x: real, y: real)
      modifies this
      ensures children == old(children) + [Node(x, y)]
    {
      children := children + [Node(x, y)];
    }

    /** Deletes the first point, in list order, whose squared distance to
        `(x, y)` is below the threshold; nothing otherwise. */
    method Remove(x: real, y: real)
      modifies this
      ensures children == RemoveNear(old(children), x, y)
    {
      var pos := FirstNear(children, x, y);
      if pos.Some? {
        children := children[..pos.value] + children[pos.value + 1..];
      }
    }

    /** All points as pairs, or None when the group is empty. */
    function GetVec(): (r: Option<seq<Point>>)
      reads this
      ensures r.None? <==> |children| == 0
      ensures r.Some? ==> |r.value| == |children|
      ensures r.Some? ==> forall i :: 0 <= i < |children| ==> r.value[i] == (children[i].x, children[i].y)
    {
      if |children| > 0 then Some(Points(children)) else None
    }
  }

  class Tree {
    var nodes: seq<ParentNode>

    /** The groups are distinct objects: each group is owned by the tree. */
    ghost predicate Valid()
      reads this
    {
      forall i, j :: 0 <= i < j < |nodes| ==> nodes[i] != nodes[j]
    }

    constructor (nodes: seq<ParentNode>)
      requires forall i, j :: 0 <= i < j < |nodes| ==> nodes[i] != nodes[j]
      ensures this.nodes == nodes && Valid()
    {
      this.nodes := nodes;
    }

    /** Index of the first group called `name`. */
    function IndexOf(name: string): (r: Option<nat>)
      reads this
      ensures r.Some? ==> r.value < |nodes| && nodes[r.value].name == name
      ensures r.Some? ==> forall j :: 0 <= j < r.value ==> nodes[j].name != name
      ensures r.None? <==> forall j :: 0 <= j < |nodes| ==> nodes[j].name != name
    {
      Position(nodes, (n: ParentNode) => n.name == name)
    }

    /** Deletes the first point near `(x, y)` from the group `name`, if
        that group exists. */
    method Remove(name: string, x: real, y: real)
      requires Valid()
      modifies nodes
      ensures nodes == old(nodes) && Valid()
      ensures IndexOf(name).Some? ==>
                nodes[IndexOf(name).value].children == RemoveNear(old(nodes[IndexOf(name).value].children), x, y)
      ensures forall i :: 0 <= i < |nodes| && IndexOf(name) != Some(i) ==> nodes[i].children == old(nodes[i].children)
    {
      var pos := IndexOf(name);
      if pos.Some? {
        nodes[pos.value].Remove(x, y);
      }
    }

    /** Appends `(x, y)` to the group `name`, if that group exists. */
    method Add(name: string, x: real, y: real)
      requires Valid()
      modifies nodes
      ensures nodes == old(nodes) && Valid()
      ensures IndexOf(name).Some? ==>
                nodes[IndexOf(name).value].children == old(nodes[IndexOf(name).value].children) + [Node(x, y)]
      ensures forall i :: 0 <= i < |nodes| && IndexOf(name) != Some(i) ==> nodes[i].children == old(nodes[i].children)
    {
      var pos := IndexOf(name);
      if pos.Some? {
        nodes[pos.value].Add(x, y);
      }
    }

    /** The points of the group `name`, or None when there is no such group
        or it is empty. */
    function Get(name: string): (r: Option<seq<Point>>)
      reads this, nodes
      ensures r.None? <==> IndexOf(name).None? || |nodes[IndexOf(name).value].children| == 0
      ensures r.Some? ==> Points(nodes[IndexOf(name).value].children) == r.value
    {
      match IndexOf(name)
      case None => None
      case Some(pos) => nodes[pos].GetVec()
    }
  }
}
