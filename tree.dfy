/**
 * The fractal tree of `binary_tree`: every call of positive depth records one
 * branch and then grows two sub-trees from the branch's tip, turned by
 * -pi/6 and +pi/6 and scaled by 0.7. `np.cos` and `np.sin` are the
 * parameters `cos` and `sin`.
 */
module Tree {
  import opened Powers
  import opened Geometry

  /** The tip of a branch of length `len` leaving (x, y) at `angle`. */
  function Tip(x: real, y: real, angle: real, len: real, cos: real -> real, sin: real -> real): Point
  {
    Point(x + len * cos(angle), y + len * sin(angle))
  }

  /**
   * The segments `binary_tree(x, y, angle, depth, len, lines)` appends to
   * `lines`, in the order it appends them: the trunk, then the whole
   * `angle - pi/6` sub-tree, then the whole `angle + pi/6` sub-tree.
   */
  function TreeSegments(x: real, y: real, angle: real, depth: nat, len: real,
                        cos: real -> real, sin: real -> real): (r: seq<Segment>)
    ensures |r| == Pow2(depth) - 1
    decreases depth
  {
    if depth == 0 then
      []
    else
      var tip := Tip(x, y, angle, len, cos, sin);
      [Segment(Point(x, y), tip)] +
      TreeSegments(tip.x, tip.y, angle - Pi / 6.0, depth - 1, len * 0.7, cos, sin) +
      TreeSegments(tip.x, tip.y, angle + Pi / 6.0, depth - 1, len * 0.7, cos, sin)
  }

  /**
   * Where each segment sits in pre-order: a tree of positive depth holds its
   * trunk at position 0, its left sub-tree (turned by -pi/6) at positions 1 to
   * 2^(depth-1) - 1 and its right sub-tree (turned by +pi/6) after that, each
   * sub-tree starting at the trunk's tip with 0.7 of its length.
   */
  lemma TreePreOrder(x: real, y: real, angle: real, depth: nat, len: real, cos: real -> real, sin: real -> real)
    requires depth > 0
    ensures var t, tip, n := TreeSegments(x, y, angle, depth, len, cos, sin), Tip(x, y, angle, len, cos, sin), Pow2(depth - 1) - 1;
            t[0] == Segment(Point(x, y), tip) &&
            t[1..n + 1] == TreeSegments(tip.x, tip.y, angle - Pi / 6.0, depth - 1, len * 0.7, cos, sin) &&
            t[n + 1..] == TreeSegments(tip.x, tip.y, angle + Pi / 6.0, depth - 1, len * 0.7, cos, sin)
  {
    var tip := Tip(x, y, angle, len, cos, sin);
    var left := TreeSegments(tip.x, tip.y, angle - Pi / 6.0, depth - 1, len * 0.7, cos, sin);
    var right := TreeSegments(tip.x, tip.y, angle + Pi / 6.0, depth - 1, len * 0.7, cos, sin);
    var t := TreeSegments(x, y, angle, depth, len, cos, sin);
    TreeStep(x, y, angle, depth, len, cos, sin);
    assert t == [Segment(Point(x, y), tip)] + left + right;
    assert t[1..|left| + 1] == left;
    assert t[|left| + 1..] == right;
  }

  /** The segment at position i starts where some earlier segment ends. */
  predicate GrowsFromEarlier(t: seq<Segment>, i: nat)
    requires i < |t|
  {
    exists j :: 0 <= j < i && t[j].end == t[i].start
  }

  /** Every segment but the first starts where some earlier segment ends. */
  predicate Chained(t: seq<Segment>)
  {
    forall i :: 0 < i < |t| ==> GrowsFromEarlier(t, i)
  }

  /**
   * A trunk followed by two chained runs of segments, each empty or starting
   * at the trunk's end, is chained.
   */
  lemma ChainedJoin(trunk: Segment, left: seq<Segment>, right: seq<Segment>)
    requires Chained(left) && Chained(right)
    requires |left| > 0 ==> left[0].start == trunk.end
    requires |right| > 0 ==> right[0].start == trunk.end
    ensures Chained([trunk] + left + right)
  {
    var t := [trunk] + left + right;
    forall i | 0 < i < |t|
      ensures GrowsFromEarlier(t, i)
    {
      if i == 1 || i == |left| + 1 {
        assert t[0].end == t[i].start;
      } else if i <= |left| {
        assert GrowsFromEarlier(left, i - 1);
        var j :| 0 <= j < i - 1 && left[j].end == left[i - 1].start;
        assert t[j + 1] == left[j];
      } else {
        var k := i - 1 - |left|;
        assert GrowsFromEarlier(right, k);
        var j :| 0 <= j < k && right[j].end == right[k].start;
        assert t[j + 1 + |left|] == right[j];
      }
    }
  }

  /**
   * The segments chain: the trunk starts at (x, y) and every later segment
   * starts where an earlier segment ends.
   */
  lemma {:induction false} TreeChained(x: real, y: real, angle: real, depth: nat, len: real,
                                       cos: real -> real, sin: real -> real)
    ensures var t := TreeSegments(x, y, angle, depth, len, cos, sin);
            Chained(t) && (depth > 0 ==> t[0].start == Point(x, y))
    decreases depth
  {
    if depth > 0 {
      var tip := Tip(x, y, angle, len, cos, sin);
      TreeStep(x, y, angle, depth, len, cos, sin);
      TreeChained(tip.x, tip.y, angle - Pi / 6.0, depth - 1, len * 0.7, cos, sin);
      TreeChained(tip.x, tip.y, angle + Pi / 6.0, depth - 1, len * 0.7, cos, sin);
      ChainedJoin(Segment(Point(x, y), tip),
                  TreeSegments(tip.x, tip.y, angle - Pi / 6.0, depth - 1, len * 0.7, cos, sin),
                  TreeSegments(tip.x, tip.y, angle + Pi / 6.0, depth - 1, len * 0.7, cos, sin));
    }
  }

  /** Segment s is 0.7^k times as long as `len`, for some level k below `depth`. */
  predicate ScaledBranch(s: Segment, len: real, depth: nat)
  {
    exists k :: 0 <= k < depth && SqLength(s) == Sq(len * RealPow(0.7, k))
  }

  /** Every segment of t is a scaled branch of `len` below `depth`. */
  predicate AllScaled(t: seq<Segment>, len: real, depth: nat)
  {
    forall i :: 0 <= i < |t| ==> ScaledBranch(t[i], len, depth)
  }

  /** A branch scaled from 0.7 * len is scaled from len one level deeper. */
  lemma ScaledDown(s: Segment, len: real, depth: nat)
    requires ScaledBranch(s, len * 0.7, depth)
    ensures ScaledBranch(s, len, depth + 1)
  {
    var k :| 0 <= k < depth && SqLength(s) == Sq(len * 0.7 * RealPow(0.7, k));
    assert len * 0.7 * RealPow(0.7, k) == len * RealPow(0.7, k + 1);
  }

  /**
   * A trunk of length len followed by two runs of branches scaled from
   * 0.7 * len is a run of branches scaled from len, one level deeper.
   */
  lemma ScaledJoin(trunk: Segment, left: seq<Segment>, right: seq<Segment>, len: real, depth: nat)
    requires SqLength(trunk) == Sq(len)
    requires AllScaled(left, len * 0.7, depth) && AllScaled(right, len * 0.7, depth)
    ensures AllScaled([trunk] + left + right, len, depth + 1)
  {
    var t := [trunk] + left + right;
    forall i | 0 <= i < |t|
      ensures ScaledBranch(t[i], len, depth + 1)
    {
      if i == 0 {
        assert SqLength(t[i]) == Sq(len * RealPow(0.7, 0));
      } else if i <= |left| {
        assert t[i] == left[i - 1];
        ScaledDown(t[i], len, depth);
      } else {
        assert t[i] == right[i - 1 - |left|];
        ScaledDown(t[i], len, depth);
      }
    }
  }

  /**
   * The segment at position i grows from the end of some earlier segment and
   * is 0.7 times as long as it: it is one of that segment's two children.
   */
  predicate ChildOfEarlier(t: seq<Segment>, i: nat)
    requires i < |t|
  {
    exists j :: 0 <= j < i && t[j].end == t[i].start && SqLength(t[i]) == Sq(0.7) * SqLength(t[j])
  }

  /** Every segment but the first is a child of an earlier one. */
  predicate Branched(t: seq<Segment>)
  {
    forall i :: 0 < i < |t| ==> ChildOfEarlier(t, i)
  }

  /**
   * A trunk followed by two branched runs of segments, each empty or starting
   * at the trunk's end with 0.7 of the trunk's length, is branched.
   */
  lemma BranchedJoin(trunk: Segment, left: seq<Segment>, right: seq<Segment>)
    requires Branched(left) && Branched(right)
    requires |left| > 0 ==> left[0].start == trunk.end && SqLength(left[0]) == Sq(0.7) * SqLength(trunk)
    requires |right| > 0 ==> right[0].start == trunk.end && SqLength(right[0]) == Sq(0.7) * SqLength(trunk)
    ensures Branched([trunk] + left + right)
  {
    var t := [trunk] + left + right;
    forall i | 0 < i < |t|
      ensures ChildOfEarlier(t, i)
    {
      if i == 1 && |left| > 0 {
        assert t[i] == left[0];
        assert t[0].end == t[i].start;
      } else if i == |left| + 1 {
        assert t[i] == right[0];
        assert t[0].end == t[i].start;
      } else if i <= |left| {
        assert ChildOfEarlier(left, i - 1);
        var j :| 0 <= j < i - 1 && left[j].end == left[i - 1].start && SqLength(left[i - 1]) == Sq(0.7) * SqLength(left[j]);
        assert t[j + 1] == left[j] && t[i] == left[i - 1];
      } else {
        var k := i - 1 - |left|;
        assert ChildOfEarlier(right, k);
        var j :| 0 <= j < k && right[j].end == right[k].start && SqLength(right[k]) == Sq(0.7) * SqLength(right[j]);
        assert t[j + 1 + |left|] == right[j] && t[i] == right[k];
      }
    }
  }

  /** Scaling a length by f scales its square by f^2. */
  lemma SqScale(a: real, f: real)
    ensures Sq(a * f) == Sq(f) * Sq(a)
  {
  }

  /**
   * Where cos and sin satisfy cos^2 + sin^2 = 1: the trunk leaves (x, y) and
   * is exactly `len` long, and every other segment is a child of an earlier
   * segment, starting at that segment's end with 0.7 times its length.
   */
  lemma {:induction false} TreeBranched(x: real, y: real, angle: real, depth: nat, len: real,
                                        cos: real -> real, sin: real -> real)
    requires forall a :: cos(a) * cos(a) + sin(a) * sin(a) == 1.0
    ensures var t := TreeSegments(x, y, angle, depth, len, cos, sin);
            Branched(t) && (depth > 0 ==> t[0].start == Point(x, y) && SqLength(t[0]) == Sq(len))
    decreases depth
  {
    if depth > 0 {
      var tip := Tip(x, y, angle, len, cos, sin);
      TreeStep(x, y, angle, depth, len, cos, sin);
      BranchLength(x, y, angle, len, cos, sin);
      TreeBranched(tip.x, tip.y, angle - Pi / 6.0, depth - 1, len * 0.7, cos, sin);
      TreeBranched(tip.x, tip.y, angle + Pi / 6.0, depth - 1, len * 0.7, cos, sin);
      SqScale(len, 0.7);
      BranchedJoin(Segment(Point(x, y), tip),
                   TreeSegments(tip.x, tip.y, angle - Pi / 6.0, depth - 1, len * 0.7, cos, sin),
                   TreeSegments(tip.x, tip.y, angle + Pi / 6.0, depth - 1, len * 0.7, cos, sin));
    }
  }

  /**
   * Where cos and sin satisfy cos^2 + sin^2 = 1, every segment is 0.7^k times
   * as long as the trunk for some recursion level k below the depth.
   */
  lemma {:induction false} TreeScaled(x: real, y: real, angle: real, depth: nat, len: real,
                                      cos: real -> real, sin: real -> real)
    requires forall a :: cos(a) * cos(a) + sin(a) * sin(a) == 1.0
    ensures AllScaled(TreeSegments(x, y, angle, depth, len, cos, sin), len, depth)
    decreases depth
  {
    if depth > 0 {
      var tip := Tip(x, y, angle, len, cos, sin);
      TreeStep(x, y, angle, depth, len, cos, sin);
      BranchLength(x, y, angle, len, cos, sin);
      TreeScaled(tip.x, tip.y, angle - Pi / 6.0, depth - 1, len * 0.7, cos, sin);
      TreeScaled(tip.x, tip.y, angle + Pi / 6.0, depth - 1, len * 0.7, cos, sin);
      ScaledJoin(Segment(Point(x, y), tip),
                 TreeSegments(tip.x, tip.y, angle - Pi / 6.0, depth - 1, len * 0.7, cos, sin),
                 TreeSegments(tip.x, tip.y, angle + Pi / 6.0, depth - 1, len * 0.7, cos, sin),
                 len, depth - 1);
    }
  }

  /**
   * Where cos and sin satisfy cos^2 + sin^2 = 1: the trunk is exactly `len`
   * long, every other segment is a child of an earlier segment (it starts at
   * that segment's end and is 0.7 times as long), and so every segment is
   * 0.7^k times as long as the trunk for a recursion level k below the depth.
   */
  lemma TreeLengths(x: real, y: real, angle: real, depth: nat, len: real,
                    cos: real -> real, sin: real -> real)
    requires forall a :: cos(a) * cos(a) + sin(a) * sin(a) == 1.0
    ensures var t := TreeSegments(x, y, angle, depth, len, cos, sin);
            AllScaled(t, len, depth) && Branched(t) && (depth > 0 ==> SqLength(t[0]) == Sq(len))
  {
    TreeBranched(x, y, angle, depth, len, cos, sin);
    TreeScaled(x, y, angle, depth, len, cos, sin);
  }

  /**
   * Below the trunk, the first branch of each sub-tree leaves the trunk's tip,
   * turned by -pi/6 (left) or +pi/6 (right), with 0.7 of the trunk's length.
   */
  lemma TreeChildren(x: real, y: real, angle: real, depth: nat, len: real, cos: real -> real, sin: real -> real)
    requires depth > 1
    ensures var t, tip, n := TreeSegments(x, y, angle, depth, len, cos, sin), Tip(x, y, angle, len, cos, sin), Pow2(depth - 1) - 1;
            t[0] == Segment(Point(x, y), tip) &&
            t[1] == Segment(tip, Tip(tip.x, tip.y, angle - Pi / 6.0, len * 0.7, cos, sin)) &&
            t[n + 1] == Segment(tip, Tip(tip.x, tip.y, angle + Pi / 6.0, len * 0.7, cos, sin))
  {
    var tip := Tip(x, y, angle, len, cos, sin);
    var n := Pow2(depth - 1) - 1;
    var t := TreeSegments(x, y, angle, depth, len, cos, sin);
    TreePreOrder(x, y, angle, depth, len, cos, sin);
    TreePreOrder(tip.x, tip.y, angle - Pi / 6.0, depth - 1, len * 0.7, cos, sin);
    TreePreOrder(tip.x, tip.y, angle + Pi / 6.0, depth - 1, len * 0.7, cos, sin);
    assert t[1] == t[1..n + 1][0];
    assert t[n + 1] == t[n + 1..][0];
  }

  /** Where cos^2 + sin^2 = 1, a branch of length `len` is exactly that long. */
  lemma BranchLength(x: real, y: real, angle: real, len: real, cos: real -> real, sin: real -> real)
    requires cos(angle) * cos(angle) + sin(angle) * sin(angle) == 1.0
    ensures SqLength(Segment(Point(x, y), Tip(x, y, angle, len, cos, sin))) == Sq(len)
  {
    var c, s := cos(angle), sin(angle);
    calc {
      SqLength(Segment(Point(x, y), Tip(x, y, angle, len, cos, sin)));
      Sq(len * c) + Sq(len * s);
      { assert Sq(len * c) == Sq(len) * (c * c) && Sq(len * s) == Sq(len) * (s * s); }
      Sq(len) * (c * c + s * s);
      Sq(len);
    }
  }

  /** The list `lines` that `binary_tree` appends to in place. */
  class SegmentList {
    var items: seq<Segment>

    constructor ()
      ensures items == []
    {
      items := [];
    }

    /** `lines.append(s)` */
    method Append(s: Segment)
      modifies this
      ensures items == old(items) + [s]
    {
      items := items + [s];
    }
  }

  /**
   * `binary_tree(x, y, angle, depth, branch_length, lines)`: appends the
   * tree's 2^depth - 1 segments to `lines` in pre-order and leaves what
   * `lines` held before untouched.
   */
  method BinaryTree(x: real, y: real, angle: real, depth: nat, branchLength: real,
                    lines: SegmentList, cos: real -> real, sin: real -> real)
    modifies lines
    ensures lines.items == old(lines.items) + TreeSegments(x, y, angle, depth, branchLength, cos, sin)
    ensures |lines.items| == |old(lines.items)| + Pow2(depth) - 1
    ensures lines.items[..|old(lines.items)|] == old(lines.items)
    decreases depth
  {
    if depth == 0 {
      return;
    }
    ghost var before := lines.items;
    var tip := Tip(x, y, angle, branchLength, cos, sin);
    var x2, y2 := tip.x, tip.y;
    lines.Append(Segment(Point(x, y), tip));
    BinaryTree(x2, y2, angle - Pi / 6.0, depth - 1, branchLength * 0.7, lines, cos, sin);
    BinaryTree(x2, y2, angle + Pi / 6.0, depth - 1, branchLength * 0.7, lines, cos, sin);
    TreeStep(x, y, angle, depth, branchLength, cos, sin);
    Regroup(before, [Segment(Point(x, y), tip)],
            TreeSegments(x2, y2, angle - Pi / 6.0, depth - 1, branchLength * 0.7, cos, sin),
            TreeSegments(x2, y2, angle + Pi / 6.0, depth - 1, branchLength * 0.7, cos, sin));
  }

  /** A tree of positive depth is its trunk, then its left sub-tree, then its right sub-tree. */
  lemma TreeStep(x: real, y: real, angle: real, depth: nat, len: real, cos: real -> real, sin: real -> real)
    requires depth > 0
    ensures var tip := Tip(x, y, angle, len, cos, sin);
            TreeSegments(x, y, angle, depth, len, cos, sin) ==
            [Segment(Point(x, y), tip)] +
            TreeSegments(tip.x, tip.y, angle - Pi / 6.0, depth - 1, len * 0.7, cos, sin) +
            TreeSegments(tip.x, tip.y, angle + Pi / 6.0, depth - 1, len * 0.7, cos, sin)
  {
  }

  lemma Regroup<T>(a: seq<T>, b: seq<T>, c: seq<T>, d: seq<T>)
    ensures a + b + c + d == a + (b + c + d)
  {
  }
}
