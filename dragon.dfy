/**
 * The dragon curve of `dragon_curve`: `build_sequence` rewrites the string
 * "F" `order` times by s |-> s + "L" + flip(reverse(s)), and a turtle walks
 * the result on the integer lattice, one unit step per 'F', a quarter turn
 * per 'L' (clockwise, -pi/2) or 'R' (counter-clockwise, +pi/2).
 */
module Dragon {
  import opened Powers

  /** The symbols `build_sequence` writes. */
  predicate Symbol(c: char)
  {
    c == 'F' || c == 'L' || c == 'R'
  }

  /** Swaps 'L' and 'R' and leaves every other character alone. */
  function Flip(c: char): char
  {
    if c == 'L' then 'R' else if c == 'R' then 'L' else c
  }

  /** The string of flipped characters of s, in reverse order. */
  function FlipReverse(s: string): (r: string)
    ensures |r| == |s|
    ensures forall i :: 0 <= i < |s| ==> r[i] == Flip(s[|s| - 1 - i])
  {
    if s == [] then [] else [Flip(s[|s| - 1])] + FlipReverse(s[..|s| - 1])
  }

  /** Flipping the reverse twice gives back the original string. */
  lemma FlipReverseInvolution(s: string)
    ensures FlipReverse(FlipReverse(s)) == s
  {
    var r := FlipReverse(FlipReverse(s));
    forall i | 0 <= i < |s|
      ensures r[i] == s[i]
    {
      assert FlipReverse(s)[|s| - 1 - i] == Flip(s[i]);
    }
  }

  /** One rewriting round of `build_sequence`. */
  function Unfold(s: string): string
  {
    s + "L" + FlipReverse(s)
  }

  /**
   * The string `build_sequence(n)` returns: "F" rewritten n times. It has
   * 2^(n+1) - 1 symbols, all of them F, L or R.
   */
  function Sequence(n: nat): (s: string)
    ensures |s| == Pow2(n + 1) - 1
    ensures forall i :: 0 <= i < |s| ==> Symbol(s[i])
  {
    if n == 0 then "F" else Unfold(Sequence(n - 1))
  }

  /** `build_sequence(order)`: the loop that rewrites `seq` `order` times. */
  method BuildSequence(order: nat) returns (s: string)
    ensures s == Sequence(order)
  {
    s := "F";
    var i := 0;
    while i < order
      invariant 0 <= i <= order
      invariant s == Sequence(i)
    {
      s := s + "L" + FlipReverse(s);
      i := i + 1;
    }
  }

  /** How often c occurs in s. */
  function Count(s: string, c: char): nat
  {
    if s == [] then 0 else Count(s[..|s| - 1], c) + (if s[|s| - 1] == c then 1 else 0)
  }

  lemma {:induction false} CountConcat(a: string, b: string, c: char)
    ensures Count(a + b, c) == Count(a, c) + Count(b, c)
    decreases |b|
  {
    if b == [] {
      assert a + b == a;
    } else {
      assert (a + b)[..|a + b| - 1] == a + b[..|b| - 1];
      CountConcat(a, b[..|b| - 1], c);
    }
  }

  /**
   * Flipping the reverse keeps the number of F's and swaps the numbers of
   * L's and R's.
   */
  lemma {:induction false} FlipReverseCounts(s: string)
    ensures Count(FlipReverse(s), 'F') == Count(s, 'F')
    ensures Count(FlipReverse(s), 'L') == Count(s, 'R')
    ensures Count(FlipReverse(s), 'R') == Count(s, 'L')
    decreases |s|
  {
    if s != [] {
      var init := s[..|s| - 1];
      var head := [Flip(s[|s| - 1])];
      FlipReverseCounts(init);
      CountConcat(head, FlipReverse(init), 'F');
      CountConcat(head, FlipReverse(init), 'L');
      CountConcat(head, FlipReverse(init), 'R');
      assert head[..0] == [];
    }
  }

  /** The symbols of one rewriting round: s, the inserted 'L', then FlipReverse(s). */
  lemma UnfoldCount(s: string, c: char)
    ensures Count(Unfold(s), c) == Count(s, c) + (if c == 'L' then 1 else 0) + Count(FlipReverse(s), c)
  {
    CountConcat(s + "L", FlipReverse(s), c);
    CountConcat(s, "L", c);
    assert "L"[..0] == [];
  }

  /** `build_sequence(n)` holds exactly 2^n F's. */
  lemma {:induction false} SequenceCountF(n: nat)
    ensures Count(Sequence(n), 'F') == Pow2(n)
  {
    if n > 0 {
      var s := Sequence(n - 1);
      SequenceCountF(n - 1);
      FlipReverseCounts(s);
      UnfoldCount(s, 'F');
    }
  }

  /** Once rewritten at least once, `build_sequence(n)` holds one more L than R. */
  lemma SequenceTurnBalance(n: nat)
    requires n > 0
    ensures Count(Sequence(n), 'L') == Count(Sequence(n), 'R') + 1
  {
    var s := Sequence(n - 1);
    FlipReverseCounts(s);
    UnfoldCount(s, 'L');
    UnfoldCount(s, 'R');
  }

  /**
   * Each rewriting keeps the previous string as a prefix, so `build_sequence(m)`
   * is a prefix of `build_sequence(n)` for m <= n.
   */
  lemma {:induction false} SequencePrefix(m: nat, n: nat)
    requires m <= n
    ensures Sequence(m) <= Sequence(n)
    decreases n
  {
    if m < n {
      SequencePrefix(m, n - 1);
      var r := Sequence(n - 1);
      PrefixOfConcat(r, "L" + FlipReverse(r));
      assert r + ("L" + FlipReverse(r)) == Sequence(n);
      PrefixTransitive(Sequence(m), r, Sequence(n));
    }
  }

  /** In `build_sequence(n + 1)` the symbol right after `build_sequence(n)` is the inserted 'L'. */
  lemma SequenceMiddle(n: nat)
    ensures Sequence(n + 1)[Pow2(n + 1) - 1] == 'L'
  {
    var s := Sequence(n);
    assert Sequence(n + 1) == s + ("L" + FlipReverse(s));
  }

  lemma PrefixOfConcat<T>(a: seq<T>, b: seq<T>)
    ensures a <= a + b
  {
    assert (a + b)[..|a|] == a;
  }

  lemma PrefixTransitive<T>(a: seq<T>, b: seq<T>, c: seq<T>)
    requires a <= b && b <= c
    ensures a <= c
  {
    assert c[..|b|][..|a|] == c[..|a|];
  }

  /** The quarter turn a command makes: 'L' subtracts pi/2 and 'R' adds pi/2. */
  function Turn(c: char): int
  {
    if c == 'L' then -1 else if c == 'R' then 1 else 0
  }

  /** The unit vector (cos(q * pi/2), sin(q * pi/2)). */
  function Dir(q: int): (d: (int, int))
    ensures (d.0 == 0) != (d.1 == 0)
    ensures -1 <= d.0 <= 1 && -1 <= d.1 <= 1
  {
    var m := q % 4;
    if m == 0 then (1, 0) else if m == 1 then (0, 1) else if m == 2 then (-1, 0) else (0, -1)
  }

  /**
   * The directions are the quarter turns of (1, 0): heading 0 points along
   * the x axis, and one more quarter turn rotates the direction by pi/2
   * counter-clockwise, (dx, dy) to (-dy, dx).
   */
  lemma DirQuarterTurn(q: int)
    ensures Dir(0) == (1, 0)
    ensures Dir(q + 1) == (-Dir(q).1, Dir(q).0)
  {
  }

  /**
   * The turtle's state in the walk: the lists x and y drawn so far, and
   * `angle` as a whole number of quarter turns.
   */
  datatype Turtle = Turtle(x: seq<int>, y: seq<int>, quarter: int)

  /**
   * One command of the walk: 'F' appends the point one unit ahead, 'L' and
   * 'R' turn, anything else is skipped. Only 'F' adds a point, and only the
   * turns change the heading.
   */
  function Step(t: Turtle, c: char): (r: Turtle)
    requires |t.x| > 0 && |t.y| > 0
    ensures |r.x| == |t.x| + (if c == 'F' then 1 else 0) && |r.y| == |t.y| + (if c == 'F' then 1 else 0)
    ensures r.quarter == t.quarter + Turn(c)
  {
    if c == 'F' then
      var d := Dir(t.quarter);
      Turtle(t.x + [t.x[|t.x| - 1] + d.0], t.y + [t.y[|t.y| - 1] + d.1], t.quarter)
    else if c == 'L' || c == 'R' then
      t.(quarter := t.quarter + Turn(c))
    else
      t
  }

  /**
   * The turtle after the commands of s, starting at (0, 0) facing along the
   * x axis: x and y hold one point more than s has F's, starting at 0.
   */
  function Run(s: string): (t: Turtle)
    ensures |t.x| == |t.y| == Count(s, 'F') + 1
    ensures t.x[0] == 0 && t.y[0] == 0
  {
    if s == [] then Turtle([0], [0], 0) else Step(Run(s[..|s| - 1]), s[|s| - 1])
  }

  function Abs(n: int): nat
  {
    if n < 0 then -n else n
  }

  /** Point k + 1 is one unit away from point k along exactly one axis. */
  predicate UnitStep(x: seq<int>, y: seq<int>, k: nat)
    requires k + 1 < |x| && k + 1 < |y|
  {
    Abs(x[k + 1] - x[k]) + Abs(y[k + 1] - y[k]) == 1
  }

  /** Each point of the lists after the first is a unit step from the one before. */
  predicate UnitSteps(x: seq<int>, y: seq<int>)
  {
    |x| == |y| && forall k :: 0 <= k < |x| - 1 ==> UnitStep(x, y, k)
  }

  /** Every 'F' moves the turtle by one unit along exactly one axis. */
  lemma {:induction false} WalkUnitSteps(s: string)
    ensures UnitSteps(Run(s).x, Run(s).y)
    decreases |s|
  {
    if s != [] {
      var init := s[..|s| - 1];
      WalkUnitSteps(init);
      var t0, t := Run(init), Run(s);
      forall k | 0 <= k < |t.x| - 1
        ensures UnitStep(t.x, t.y, k)
      {
        if k + 1 < |t0.x| {
          assert UnitStep(t0.x, t0.y, k);
        }
      }
    }
  }

  /** Walking further only appends points: the walk of a is the start of the walk of a + b. */
  lemma {:induction false} WalkPrefix(a: string, b: string)
    ensures Run(a).x <= Run(a + b).x && Run(a).y <= Run(a + b).y
    decreases |b|
  {
    if b == [] {
      assert a + b == a;
    } else {
      var init := b[..|b| - 1];
      assert (a + b)[..|a + b| - 1] == a + init;
      WalkPrefix(a, init);
      PrefixTransitive(Run(a).x, Run(a + init).x, Run(a + b).x);
      PrefixTransitive(Run(a).y, Run(a + init).y, Run(a + b).y);
    }
  }

  /** The curve of order n is the first part of the curve of order n + 1. */
  lemma DragonExtends(n: nat)
    ensures Run(Sequence(n)).x <= Run(Sequence(n + 1)).x
    ensures Run(Sequence(n)).y <= Run(Sequence(n + 1)).y
  {
    WalkPrefix(Sequence(n), "L" + FlipReverse(Sequence(n)));
    assert Sequence(n) + ("L" + FlipReverse(Sequence(n))) == Sequence(n + 1);
  }

  /** The heading is the number of R's less the number of L's. */
  lemma {:induction false} HeadingCounts(s: string)
    ensures Run(s).quarter == Count(s, 'R') - Count(s, 'L')
    decreases |s|
  {
    if s != [] {
      HeadingCounts(s[..|s| - 1]);
    }
  }

  /** After any curve of positive order the turtle faces -pi/2: one net clockwise quarter turn. */
  lemma FinalHeading(n: nat)
    requires n > 0
    ensures Run(Sequence(n)).quarter == -1
  {
    HeadingCounts(Sequence(n));
    SequenceTurnBalance(n);
  }

  /** One more command is one more step. */
  lemma RunSnoc(p: string, c: char)
    ensures Run(p + [c]) == Step(Run(p), c)
  {
    assert (p + [c])[..|p|] == p;
  }

  /**
   * Every 'F' moves along the current heading: after the commands p, the
   * point the next 'F' appends is the last point plus the unit vector of
   * (count of R's - count of L's) quarter turns, and the commands q after it
   * leave that point in place.
   */
  lemma StepAfter(p: string, q: string)
    ensures var a, b, h := Run(p), Run(p + "F" + q), Dir(Count(p, 'R') - Count(p, 'L'));
            |a.x| < |b.x| && |a.y| < |b.y| &&
            b.x[|a.x|] == b.x[|a.x| - 1] + h.0 && b.y[|a.y|] == b.y[|a.y| - 1] + h.1
  {
    NextPoint(p);
    HeadingCounts(p);
    WalkPrefix(p + "F", q);
  }

  /** The point an 'F' appends after the commands p. */
  lemma NextPoint(p: string)
    ensures var a, m := Run(p), Run(p + "F");
            m.x == a.x + [a.x[|a.x| - 1] + Dir(a.quarter).0] &&
            m.y == a.y + [a.y[|a.y| - 1] + Dir(a.quarter).1]
  {
    assert p + "F" == p + ['F'];
    RunSnoc(p, 'F');
  }

  /**
   * The walk loop of `dragon_curve` over the command string s: turning on 'L'
   * and 'R' and appending one point to x and y on every 'F'.
   */
  method TurtleWalk(s: string) returns (x: seq<int>, y: seq<int>)
    ensures x == Run(s).x && y == Run(s).y
  {
    x, y := [0], [0];
    var quarter := 0;
    var i := 0;
    while i < |s|
      invariant 0 <= i <= |s|
      invariant Turtle(x, y, quarter) == Run(s[..i])
    {
      var cmd := s[i];
      ghost var before := Turtle(x, y, quarter);
      if cmd == 'F' {
        var d := Dir(quarter);
        x := x + [x[|x| - 1] + d.0];
        y := y + [y[|y| - 1] + d.1];
      } else if cmd == 'L' || cmd == 'R' {
        quarter := quarter + (if cmd == 'L' then -1 else 1);
      }
      assert Turtle(x, y, quarter) == Step(before, cmd);
      RunSnoc(s[..i], cmd);
      assert s[..i] + [cmd] == s[..i + 1];
      i := i + 1;
    }
    assert s[..|s|] == s;
  }

  /**
   * `dragon_curve(order)`: builds the command string and walks it. It draws
   * 2^order + 1 points starting at (0, 0).
   */
  method DragonCurve(order: nat) returns (x: seq<int>, y: seq<int>)
    ensures x == Run(Sequence(order)).x && y == Run(Sequence(order)).y
    ensures |x| == |y| == Pow2(order) + 1
    ensures x[0] == 0 && y[0] == 0
  {
    var s := BuildSequence(order);
    x, y := TurtleWalk(s);
    SequenceCountF(order);
  }

  /** Order 0 draws one step along the x axis. */
  lemma DragonOrderZero()
    ensures Run(Sequence(0)) == Turtle([0, 1], [0, 0], 0)
  {
    assert "F"[..0] == [];
    assert [0] + [0 + 1] == [0, 1] && [0] + [0 + 0] == [0, 0];
  }

  /**
   * Order 1 is "FLF": (0, 0), (1, 0), then a clockwise turn and a step to
   * (1, -1).
   */
  lemma DragonOrderOne()
    ensures Sequence(1) == "FLF"
    ensures Run(Sequence(1)) == Turtle([0, 1, 1], [0, 0, -1], -1)
  {
    SequenceOne();
    DragonOrderZero();
    assert Run("F") == Turtle([0, 1], [0, 0], 0);
    assert "F" + ['L'] == "FL" && "FL" + ['F'] == "FLF";
    RunSnoc("F", 'L');
    RunSnoc("FL", 'F');
    assert Run("FL") == Turtle([0, 1], [0, 0], -1);
    assert Dir(-1) == (0, -1);
    assert [0, 1] + [1 + 0] == [0, 1, 1] && [0, 0] + [0 + -1] == [0, 0, -1];
  }

  /** The command string of order 1. */
  lemma SequenceOne()
    ensures Sequence(1) == "FLF"
  {
    assert FlipReverse("F") == "F" by {
      assert "F"[..0] == [];
    }
  }
}
