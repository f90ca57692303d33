# Fractal generators, modelled in Dafny

This project models three of the four fractal generators in `main.py` of the
`fractal` repository and proves their structural properties:

- **Koch curve and snowflake** (`koch.dfy`). `koch_curve(p1, p2, order)` splits
  a segment into thirds at pA and pB, raises the apex pC = pA + rotate60(delta/3),
  and concatenates the four sub-curves, dropping each joint point that would
  otherwise be repeated. `koch_snowflake` joins three such sides of the triangle
  (0, 0), (scale, 0), p2. Its default `scale=10` (main.py:8) becomes an ordinary
  parameter that every caller passes. Points are pairs of reals. `rotate60` is the parameter
  `rot60`, because no proved property depends on its value.
- **Binary tree** (`tree.dfy`). `binary_tree` appends the trunk segment to the
  caller's list `lines`, then recursively grows the sub-tree turned by -pi/6 and
  then the one turned by +pi/6, each with 0.7 of the length. `lines` is the
  class `SegmentList`, whose `items` field the recursive method `BinaryTree`
  extends in place. The method is proved against the pure function
  `TreeSegments`. `np.cos` and `np.sin` are the parameters `cos` and `sin`.
- **Dragon curve** (`dragon.dfy`). `build_sequence` rewrites "F" by
  s -> s + "L" + flip(reverse(s)), in a loop (`BuildSequence`, proved against
  `Sequence`). The turtle walk then turns a quarter turn on 'L' (angle - pi/2)
  or 'R' (angle + pi/2) and appends one point on 'F'. The heading is kept as a
  whole number of quarter turns and the points lie on the integer lattice. The
  loop is the method `TurtleWalk`, proved against the function `Run`. Because
  'L' subtracts pi/2 (main.py:75), the curve of order 1 ends at (1, -1), and the
  command string of order n has 2^(n+1) - 1 symbols.

`powers.dfy` holds 2^n, 4^n and real powers. `geometry.dfy` holds points,
segments, squared lengths and pi as 3.141592653589793, the shortest decimal
that reads back as the double `np.pi`.

## Model

| member | source | states |
|---|---|---|
| Koch.EqualThirds | main.py:14-16 | pA and pB cut the segment p1..p2 into three equal vectors delta/3 |
| Koch.KochCurve | main.py:9-23 | the curve of order k has exactly 4^k + 1 points, the first is p1 and the last is p2 |
| Koch.KochQuarterMarks | main.py:15-22 | for order k > 0 the curve passes through pA at position 4^(k-1), the apex pC = pA + rotate60(delta/3) at 2 * 4^(k-1) and pB at 3 * 4^(k-1) |
| Koch.KochSnowflake | main.py:31-37 | the snowflake has 3 * 4^k + 1 points, starts and ends at the origin, and passes through (scale, 0) at 4^k and through p2 at 2 * 4^k. Positions 0 to 4^k - 1 hold the side p0 -> p1 without its last point, the next 4^k positions hold the side p1 -> p2 without its last point, and the rest is the whole side p2 -> p0. For k = 0 it is exactly [p0, p1, p2, p0] |
| Tree.TreeSegments | main.py:57-64 | a tree of depth d consists of exactly 2^d - 1 segments, none at depth 0 |
| Tree.TreePreOrder | main.py:59-64 | pre-order: at positive depth the trunk from (x, y) to the tip comes first, then the whole angle - pi/6 sub-tree, then the whole angle + pi/6 sub-tree, both grown from the tip with 0.7 of the length |
| Tree.TreeChildren | main.py:60-64 | below the trunk, the first branch of each sub-tree starts at the trunk's tip, is turned by -pi/6 or +pi/6 and has length parameter 0.7 * len |
| Tree.TreeChained | main.py:59-64 | the trunk starts at (x, y) and every later segment starts where some earlier segment ends |
| Tree.BranchLength | main.py:60-61 | where cos^2 + sin^2 = 1, a branch drawn with length len is exactly len long |
| Tree.TreeBranched | main.py:60-64 | where cos^2 + sin^2 = 1, the trunk leaves (x, y) and is len long, and every later segment is a child of an earlier one: it starts at that segment's end and is 0.7 times as long |
| Tree.TreeScaled | main.py:60-64 | where cos^2 + sin^2 = 1, every segment is 0.7^k * len long for some recursion level k below the depth |
| Tree.TreeLengths | main.py:60-64 | where cos^2 + sin^2 = 1, the trunk is len long, every later segment starts at the end of an earlier segment and is 0.7 times as long as it, and every segment is 0.7^k * len long for some level k below the depth |
| Tree.SegmentList.constructor | main.py:116 | `lines = []`: a new list is empty |
| Tree.SegmentList.Append | main.py:62 | `lines.append(s)` adds s at the end and keeps everything before it |
| Tree.BinaryTree | main.py:57-64 | appends exactly the tree's 2^depth - 1 segments to `lines`, in pre-order, after the untouched earlier contents, and appends nothing at depth 0 |
| Dragon.FlipReverse | main.py:71 | the flipped reverse has the same length, and its position i holds the flip of position len - 1 - i |
| Dragon.FlipReverseInvolution | main.py:71 | flipping the reverse twice gives back the original string |
| Dragon.FlipReverseCounts | main.py:71 | the flipped reverse keeps the number of F's and swaps the numbers of L's and R's |
| Dragon.Sequence | main.py:68-72 | `build_sequence(n)` has 2^(n+1) - 1 symbols, each of them F, L or R |
| Dragon.BuildSequence | main.py:68-72 | the loop returns exactly "F" rewritten `order` times |
| Dragon.SequenceCountF | main.py:68-72 | `build_sequence(n)` holds exactly 2^n F's |
| Dragon.SequenceTurnBalance | main.py:71 | for n > 0, `build_sequence(n)` holds exactly one more L than R |
| Dragon.SequencePrefix | main.py:69-71 | `build_sequence(m)` is a prefix of `build_sequence(n)` whenever m <= n |
| Dragon.SequenceMiddle | main.py:71 | position 2^(n+1) - 1 of `build_sequence(n + 1)` is the inserted 'L' |
| Dragon.Dir | main.py:81-82 | the step at q quarter turns is a unit vector along exactly one axis |
| Dragon.DirQuarterTurn | main.py:77-84 | heading 0 steps along (1, 0), and one more quarter turn rotates the step (dx, dy) to (-dy, dx), as (cos, sin) does when pi/2 is added to the angle |
| Dragon.StepAfter | main.py:79-84 | every 'F' appends the point one unit ahead along the heading: after commands p, the new point is the last one plus the direction of (#R - #L) quarter turns in p, whatever commands follow |
| Dragon.Step | main.py:79-84 | only 'F' adds a point to x and y; the heading changes by -1 on 'L', +1 on 'R', and not otherwise |
| Dragon.Run | main.py:76-84 | after the walk, x and y both hold one point more than there are F's, and both start at 0 |
| Dragon.WalkUnitSteps | main.py:79-82 | each appended point is one unit away from the previous one along exactly one axis |
| Dragon.WalkPrefix | main.py:79-84 | walking more commands only appends points: the lists for a are prefixes of the lists for a + b |
| Dragon.DragonExtends | main.py:67-85 | the curve of order n is the first part of the curve of order n + 1 |
| Dragon.HeadingCounts | main.py:75-84 | the final heading is the number of R's minus the number of L's, in quarter turns |
| Dragon.FinalHeading | main.py:68-84 | after a curve of positive order the turtle faces -pi/2 |
| Dragon.TurtleWalk | main.py:76-84 | the loop produces exactly the lists x and y of the walk over the given commands |
| Dragon.DragonCurve | main.py:67-85 | `dragon_curve(order)` returns lists x and y of length 2^order + 1, both starting at 0, which are the walk over `build_sequence(order)` |
| Dragon.DragonOrderZero | main.py:67-85 | order 0 draws (0, 0), (1, 0) |
| Dragon.DragonOrderOne | main.py:67-85 | order 1 is "FLF" and draws (0, 0), (1, 0), (1, -1), ending facing -pi/2 |

## Left out

- `mandelbrot` (main.py:40-54) is not modelled. It is floating-point complex iteration over numpy arrays.
- The driver (main.py:5, 88-139) is not modelled: the constant `N`, timing with `time.time`, `print`, and every matplotlib call. It is I/O and plotting.
- `np.cos`, `np.sin` and `rotate60` are function parameters, so their exact values are not modelled. The tree's length properties assume cos^2 + sin^2 = 1, which holds for the real functions but only approximately for doubles.
- Floating point is modelled by exact reals, and `np.pi` by the decimal 3.141592653589793 rather than the double's exact binary value. The effects of rounding in `delta / 3`, `delta * 2 / 3`, `branch_length * 0.7` and `angle ± pi/6` are not modelled.
- Dragon.Run: the walk uses exact quarter turns and integer coordinates. The source adds the doubles cos(angle) and sin(angle), which are only close to 0 or ±1 at multiples of pi/2; for example, cos(pi/2) is about 6e-17. The model therefore does not capture the tiny drift of the float coordinates.
- The conversion to numpy arrays (`np.array` at main.py:13 and 37) is not modelled. Points are `Point` values and lists are sequences.
- Negative `order` or `depth` is not modelled: these are natural numbers here. In the source a negative Koch order never reaches the base case, a negative tree depth recurses without end, and a negative dragon order returns "F".
- The walk loop of `dragon_curve` is moved into its own method, `TurtleWalk`, which `DragonCurve` calls after `BuildSequence`.
- The Koch curve's lack of repeated consecutive points is not proved. It depends on the value of `rotate60`, which is a parameter here.
