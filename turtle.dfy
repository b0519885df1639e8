/** The turtle that reads the derived string and draws a tree into the world:
    F and G place a trunk block (and, inside a branch, a cube of leaves),
    [ and ] save and restore the turtle, and +, -, &, ^, *, / turn it. */
module Turtle {
  import opened LSystem

  /** Block ids are Java bytes; 0 is air. */
  newtype BlockId = x: int | -128 <= x < 128
  const Air: BlockId := 0

  datatype Cell = Cell(x: int, y: int, z: int)

  function Plus(a: Cell, b: Cell): Cell
  {
    Cell(a.x + b.x, a.y + b.y, a.z + b.z)
  }

  function Offset(c: Cell, dx: int, dy: int, dz: int): Cell
  {
    Cell(c.x + dx, c.y + dy, c.z + dz)
  }

  /** The world as the generator sees it: cells absent from the map hold air. */
  type World = map<Cell, BlockId>

  function BlockAt(w: World, c: Cell): BlockId
  {
    if c in w then w[c] else Air
  }

  datatype Axis = XAxis | YAxis | ZAxis

  /** A rotation by pi/3 (positive) or -pi/3 (negative) about an axis. */
  datatype Turn = Turn(axis: Axis, positive: bool)

  /** The turtle's orientation: the initial rotation by pi/2 about z,
      followed by the rotations in `turns`, in order. */
  datatype Heading = Heading(turns: seq<Turn>)

  const InitialHeading: Heading := Heading([])

  function Rotate(h: Heading, t: Turn): Heading
  {
    Heading(h.turns + [t])
  }

  /** The turtle's position relative to the origin, a vector of reals
      standing for the generator's float vector. */
  datatype Pos = Pos(x: real, y: real, z: real)

  const Origin: Pos := Pos(0.0, 0.0, 0.0)

  /** One step: the position moves by the direction vector. */
  function Move(p: Pos, dir: Pos): Pos
  {
    Pos(p.x + dir.x, p.y + dir.y, p.z + dir.z)
  }

  /** The (int) cast of a coordinate: rounds toward zero. */
  function Trunc(r: real): (n: int)
    ensures 0.0 <= r ==> n as real <= r < n as real + 1.0
    ensures r < 0.0 ==> n as real - 1.0 < r <= n as real
  {
    if 0.0 <= r then r.Floor else -((-r).Floor)
  }

  /** The cell of a position, coordinate by coordinate truncated toward zero. */
  function CellOf(p: Pos): Cell
  {
    Cell(Trunc(p.x), Trunc(p.y), Trunc(p.z))
  }

  /** What the generator takes from its collaborators: the tree's origin, the
      ids of the trunk and leaf blocks, and the direction (1, 0, 0) transformed
      by a heading. */
  datatype Env = Env(origin: Cell, trunk: BlockId, leaf: BlockId, direction: Heading -> Pos)

  /** The turtle: its position, its orientation and the two stacks that
      [ pushes and ] pops. */
  datatype Pen = Pen(position: Pos, rotation: Heading, positionStack: seq<Pos>, orientationStack: seq<Heading>)

  const Start: Pen := Pen(Origin, InitialHeading, [], [])

  /** The state of a drawing; `failed` records that a ] found the stacks empty. */
  datatype Drawing = Drawing(pen: Pen, world: World, failed: bool)

  // ---------------------------------------------------------------------
  // The leaf cube: the 3x3x3 cube around a cell without its 8 corners

  function Abs(x: int): nat
  {
    if x < 0 then -x else x
  }

  predicate Corner(dx: int, dy: int, dz: int)
  {
    Abs(dx) == 1 && Abs(dy) == 1 && Abs(dz) == 1
  }

  /** The position of an offset in the order of the three nested loops (x outermost). */
  function Rank(dx: int, dy: int, dz: int): int
  {
    9 * (dx + 1) + 3 * (dy + 1) + (dz + 1)
  }

  /** An offset of the 3x3x3 cube. */
  predicate InCube(dx: int, dy: int, dz: int)
  {
    -1 <= dx <= 1 && -1 <= dy <= 1 && -1 <= dz <= 1
  }

  predicate InBox(center: Cell, c: Cell)
  {
    -1 <= c.x - center.x <= 1 && -1 <= c.y - center.y <= 1 && -1 <= c.z - center.z <= 1
  }

  /** The non-corner cells around `center` whose offset comes before rank k. */
  function CubePrefix(center: Cell, k: int): set<Cell>
  {
    set dx: int, dy: int, dz: int
      | -1 <= dx <= 1 && -1 <= dy <= 1 && -1 <= dz <= 1 && !Corner(dx, dy, dz) && Rank(dx, dy, dz) < k
      :: Offset(center, dx, dy, dz)
  }

  function LeafCube(center: Cell): set<Cell>
  {
    CubePrefix(center, 27)
  }

  lemma CubePrefixMembers(center: Cell, k: int)
    ensures forall c :: c in CubePrefix(center, k) <==>
      InBox(center, c) && !Corner(c.x - center.x, c.y - center.y, c.z - center.z)
      && Rank(c.x - center.x, c.y - center.y, c.z - center.z) < k
  {
    forall c | InBox(center, c) && !Corner(c.x - center.x, c.y - center.y, c.z - center.z)
      && Rank(c.x - center.x, c.y - center.y, c.z - center.z) < k
      ensures c in CubePrefix(center, k)
    {
      assert c == Offset(center, c.x - center.x, c.y - center.y, c.z - center.z);
    }
  }

  /** The leaf cube holds exactly the cells at most one step away on each axis
      that are not corners. */
  lemma LeafCubeMembers(center: Cell)
    ensures forall c :: c in LeafCube(center) <==>
      InBox(center, c) && !Corner(c.x - center.x, c.y - center.y, c.z - center.z)
  {
    CubePrefixMembers(center, 27);
  }

  lemma RankInjective(a: int, b: int, c: int, dx: int, dy: int, dz: int)
    requires InCube(a, b, c) && InCube(dx, dy, dz)
    requires Rank(a, b, c) == Rank(dx, dy, dz)
    ensures a == dx && b == dy && c == dz
  {
  }

  /** One pass of the innermost loop adds the current offset unless it is a corner. */
  lemma CubePrefixStep(center: Cell, dx: int, dy: int, dz: int)
    requires InCube(dx, dy, dz)
    ensures Offset(center, dx, dy, dz) !in CubePrefix(center, Rank(dx, dy, dz))
    ensures Corner(dx, dy, dz) ==> CubePrefix(center, Rank(dx, dy, dz) + 1) == CubePrefix(center, Rank(dx, dy, dz))
    ensures !Corner(dx, dy, dz) ==>
      CubePrefix(center, Rank(dx, dy, dz) + 1) == CubePrefix(center, Rank(dx, dy, dz)) + {Offset(center, dx, dy, dz)}
  {
    var k := Rank(dx, dy, dz);
    var o := Offset(center, dx, dy, dz);
    var before, after := CubePrefix(center, k), CubePrefix(center, k + 1);
    var added: set<Cell> := if Corner(dx, dy, dz) then {} else {o};
    CubePrefixMembers(center, k);
    CubePrefixMembers(center, k + 1);
    forall c | c in after
      ensures c in before + added
    {
      var a, b, e := c.x - center.x, c.y - center.y, c.z - center.z;
      if Rank(a, b, e) == k {
        RankInjective(a, b, e, dx, dy, dz);
        assert c == o;
      }
    }
    assert before + added <= after;
  }

  lemma CubePrefixGrows(center: Cell, dx: int, dy: int, dz: int)
    requires InCube(dx, dy, dz)
    ensures |CubePrefix(center, Rank(dx, dy, dz) + 1)|
      == |CubePrefix(center, Rank(dx, dy, dz))| + (if Corner(dx, dy, dz) then 0 else 1)
  {
    CubePrefixStep(center, dx, dy, dz);
  }

  /** One row of the innermost loop adds one cell when it runs along a corner edge, three otherwise. */
  lemma CubeRow(center: Cell, dx: int, dy: int)
    requires -1 <= dx <= 1 && -1 <= dy <= 1
    ensures |CubePrefix(center, Rank(dx, dy, -1) + 3)|
      == |CubePrefix(center, Rank(dx, dy, -1))| + (if Abs(dx) == 1 && Abs(dy) == 1 then 1 else 3)
  {
    CubePrefixGrows(center, dx, dy, -1);
    CubePrefixGrows(center, dx, dy, 0);
    CubePrefixGrows(center, dx, dy, 1);
  }

  /** One plane of the middle loop adds five cells on the outer planes and nine in the middle. */
  lemma CubePlane(center: Cell, dx: int)
    requires -1 <= dx <= 1
    ensures |CubePrefix(center, Rank(dx, -1, -1) + 9)|
      == |CubePrefix(center, Rank(dx, -1, -1))| + (if Abs(dx) == 1 then 5 else 9)
  {
    CubeRow(center, dx, -1);
    CubeRow(center, dx, 0);
    CubeRow(center, dx, 1);
  }

  /** The leaf cube has 19 cells: the 27 of the 3x3x3 cube less its 8 corners. */
  lemma LeafCubeSize(center: Cell)
    ensures |LeafCube(center)| == 19
  {
    CubePrefixMembers(center, 0);
    assert CubePrefix(center, 0) == {};
    CubePlane(center, -1);
    CubePlane(center, 0);
    CubePlane(center, 1);
  }

  /** Every air cell of `cells` becomes `leaf`; nothing else changes. */
  function FillLeaves(w: World, cells: set<Cell>, leaf: BlockId): (r: World)
    ensures forall c :: BlockAt(r, c) == if c in cells && BlockAt(w, c) == Air then leaf else BlockAt(w, c)
  {
    map c | c in w.Keys + cells :: if c in cells && BlockAt(w, c) == Air then leaf else w[c]
  }

  // ---------------------------------------------------------------------
  // The leaf loops, pass by pass

  /** The reach of the leaf loops on each axis: offsets run from -Size to Size. */
  const Size: int := 1

  /** One pass of the innermost leaf loop: a corner is skipped, and any other
      cell receives the leaf only if it holds air. */
  function FillCell(w: World, center: Cell, dx: int, dy: int, dz: int, leaf: BlockId): World
  {
    var c := Offset(center, dx, dy, dz);
    if Corner(dx, dy, dz) || BlockAt(w, c) != Air then w else w[c := leaf]
  }

  /** The world after the passes of the innermost loop for offsets dz = -Size .. z - 1. */
  function RowStage(w: World, center: Cell, dx: int, dy: int, z: int, leaf: BlockId): World
    decreases z + Size
  {
    if z <= -Size then w else FillCell(RowStage(w, center, dx, dy, z - 1, leaf), center, dx, dy, z - 1, leaf)
  }

  /** The world after the rows dy = -Size .. y - 1 of the plane dx. */
  function PlaneStage(w: World, center: Cell, dx: int, y: int, leaf: BlockId): World
    decreases y + Size
  {
    if y <= -Size then w else RowStage(PlaneStage(w, center, dx, y - 1, leaf), center, dx, y - 1, Size + 1, leaf)
  }

  /** The world after the planes dx = -Size .. x - 1 of the cube. */
  function CubeStage(w: World, center: Cell, x: int, leaf: BlockId): World
    decreases x + Size
  {
    if x <= -Size then w else PlaneStage(CubeStage(w, center, x - 1, leaf), center, x - 1, Size + 1, leaf)
  }

  /** The non-corner cells that the passes dz = -Size .. z - 1 of row (dx, dy) visit. */
  predicate RowHas(center: Cell, dx: int, dy: int, z: int, c: Cell)
  {
    c.x - center.x == dx && c.y - center.y == dy && -Size <= c.z - center.z < z
    && !Corner(dx, dy, c.z - center.z)
  }

  /** The non-corner cells that the rows dy = -Size .. y - 1 of plane dx visit. */
  predicate PlaneHas(center: Cell, dx: int, y: int, c: Cell)
  {
    -Size <= c.y - center.y < y && RowHas(center, dx, c.y - center.y, Size + 1, c)
  }

  /** The non-corner cells that the planes dx = -Size .. x - 1 visit. */
  predicate CubeHas(center: Cell, x: int, c: Cell)
  {
    -Size <= c.x - center.x < x && PlaneHas(center, c.x - center.x, Size + 1, c)
  }

  /** A stage of the leaf loops as seen at one cell: a visited air cell holds
      the leaf, every other cell is unchanged, and the cells present are those
      of `w` and the visited ones. */
  predicate StageAt(w': World, w: World, visited: bool, c: Cell, leaf: BlockId)
  {
    && BlockAt(w', c) == (if visited && BlockAt(w, c) == Air then leaf else BlockAt(w, c))
    && (c in w' <==> c in w || visited)
  }

  /** Two stages over disjoint sets of visited cells make one stage over both. */
  lemma StageCompose(u: World, v: World, w: World, a: bool, b: bool, c: Cell, leaf: BlockId)
    requires StageAt(v, w, a, c, leaf) && StageAt(u, v, b, c, leaf) && !(a && b)
    ensures StageAt(u, w, a || b, c, leaf)
  {
  }

  lemma PlaneHasSplit(center: Cell, dx: int, y: int, c: Cell)
    requires -Size <= y
    ensures PlaneHas(center, dx, y + 1, c) == (PlaneHas(center, dx, y, c) || RowHas(center, dx, y, Size + 1, c))
    ensures !(PlaneHas(center, dx, y, c) && RowHas(center, dx, y, Size + 1, c))
  {
  }

  lemma CubeHasSplit(center: Cell, x: int, c: Cell)
    requires -Size <= x
    ensures CubeHas(center, x + 1, c) == (CubeHas(center, x, c) || PlaneHas(center, x, Size + 1, c))
    ensures !(CubeHas(center, x, c) && PlaneHas(center, x, Size + 1, c))
  {
  }

  lemma {:induction false} RowStageAt(w: World, center: Cell, dx: int, dy: int, z: int, leaf: BlockId, c: Cell)
    requires z <= Size + 1
    ensures StageAt(RowStage(w, center, dx, dy, z, leaf), w, RowHas(center, dx, dy, z, c), c, leaf)
    decreases z + 1
  {
    if z > -Size {
      var o := Offset(center, dx, dy, z - 1);
      RowStageAt(w, center, dx, dy, z - 1, leaf, c);
      RowStageAt(w, center, dx, dy, z - 1, leaf, o);
    }
  }

  lemma {:induction false} PlaneStageAt(w: World, center: Cell, dx: int, y: int, leaf: BlockId, c: Cell)
    requires y <= Size + 1
    ensures StageAt(PlaneStage(w, center, dx, y, leaf), w, PlaneHas(center, dx, y, c), c, leaf)
    decreases y + 1
  {
    if y > -Size {
      var v := PlaneStage(w, center, dx, y - 1, leaf);
      PlaneStageAt(w, center, dx, y - 1, leaf, c);
      RowStageAt(v, center, dx, y - 1, Size + 1, leaf, c);
      PlaneHasSplit(center, dx, y - 1, c);
      StageCompose(RowStage(v, center, dx, y - 1, Size + 1, leaf), v, w,
        PlaneHas(center, dx, y - 1, c), RowHas(center, dx, y - 1, Size + 1, c), c, leaf);
    }
  }

  lemma {:induction false} CubeStageAt(w: World, center: Cell, x: int, leaf: BlockId, c: Cell)
    requires x <= Size + 1
    ensures StageAt(CubeStage(w, center, x, leaf), w, CubeHas(center, x, c), c, leaf)
    decreases x + 1
  {
    if x > -Size {
      var v := CubeStage(w, center, x - 1, leaf);
      CubeStageAt(w, center, x - 1, leaf, c);
      PlaneStageAt(v, center, x - 1, Size + 1, leaf, c);
      CubeHasSplit(center, x - 1, c);
      StageCompose(PlaneStage(v, center, x - 1, Size + 1, leaf), v, w,
        CubeHas(center, x - 1, c), PlaneHas(center, x - 1, Size + 1, c), c, leaf);
    }
  }

  /** The cells the three loops visit are those of the leaf cube. */
  lemma CubeHasLeafCube(center: Cell, c: Cell)
    ensures CubeHas(center, Size + 1, c) <==> c in LeafCube(center)
  {
    LeafCubeMembers(center);
  }

  /** The three nested leaf loops fill exactly the air cells of the leaf cube. */
  lemma LeafLoopsFill(w: World, center: Cell, leaf: BlockId)
    ensures CubeStage(w, center, Size + 1, leaf) == FillLeaves(w, LeafCube(center), leaf)
  {
    var filled, spec := CubeStage(w, center, Size + 1, leaf), FillLeaves(w, LeafCube(center), leaf);
    forall c
      ensures (c in filled <==> c in spec) && BlockAt(filled, c) == BlockAt(spec, c)
    {
      CubeStageAt(w, center, Size + 1, leaf, c);
      CubeHasLeafCube(center, c);
    }
    assert filled.Keys == spec.Keys;
  }

  // ---------------------------------------------------------------------
  // The turtle program

  /** One character of the turtle loop. */
  function Exec(c: char, d: Drawing, env: Env): Drawing
  {
    if d.failed then d
    else
      var p := d.pen;
      match c
      case 'G' => DrawBlock(d, env)
      case 'F' => DrawBlock(d, env)
      case '[' =>
        d.(pen := p.(positionStack := p.positionStack + [p.position],
                     orientationStack := p.orientationStack + [p.rotation]))
      case ']' =>
        if |p.orientationStack| == 0 || |p.positionStack| == 0 then d.(failed := true)
        else
          var n, m := |p.positionStack|, |p.orientationStack|;
          d.(pen := Pen(p.positionStack[n - 1], p.orientationStack[m - 1],
                        p.positionStack[..n - 1], p.orientationStack[..m - 1]))
      case '+' => d.(pen := p.(rotation := Rotate(p.rotation, Turn(ZAxis, true))))
      case '-' => d.(pen := p.(rotation := Rotate(p.rotation, Turn(ZAxis, false))))
      case '&' => d.(pen := p.(rotation := Rotate(p.rotation, Turn(YAxis, true))))
      case '^' => d.(pen := p.(rotation := Rotate(p.rotation, Turn(YAxis, false))))
      case '*' => d.(pen := p.(rotation := Rotate(p.rotation, Turn(XAxis, true))))
      case '/' => d.(pen := p.(rotation := Rotate(p.rotation, Turn(XAxis, false))))
      case _ => d
  }

  /** F or G: a trunk block at the turtle's cell, leaves around it inside a
      branch, then one step forward. */
  function DrawBlock(d: Drawing, env: Env): Drawing
  {
    var p := d.pen;
    var cell := Plus(env.origin, CellOf(p.position));
    var trunked := d.world[cell := env.trunk];
    var leafed := if |p.orientationStack| > 0 then FillLeaves(trunked, LeafCube(cell), env.leaf) else trunked;
    Drawing(p.(position := Move(p.position, env.direction(p.rotation))), leafed, d.failed)
  }

  /** The whole turtle loop over s, from the start pen, on world w. */
  function Run(s: string, env: Env, w: World): Drawing
  {
    if s == [] then Drawing(Start, w, false)
    else Exec(s[|s| - 1], Run(s[..|s| - 1], env, w), env)
  }

  predicate Handled(c: char)
  {
    c == 'F' || c == 'G' || c == '[' || c == ']' || c == '+' || c == '-' || c == '&' || c == '^' || c == '*' || c == '/'
  }

  // ---------------------------------------------------------------------
  // Properties of one step

  /** A character the loop does not handle changes nothing. */
  lemma ExecIgnores(c: char, d: Drawing, env: Env)
    requires !Handled(c)
    ensures Exec(c, d, env) == d
  {
  }

  /** F and G write the trunk block at the turtle's cell, place leaves only
      inside a branch, only around that cell and only into air, and move the
      turtle one step along its heading. */
  lemma DrawBlockEffect(c: char, d: Drawing, env: Env)
    requires c == 'F' || c == 'G'
    requires !d.failed && env.trunk != Air
    ensures var d' := Exec(c, d, env); var p := d.pen; var cell := Plus(env.origin, CellOf(p.position));
      && !d'.failed
      && d'.pen == p.(position := Move(p.position, env.direction(p.rotation)))
      && BlockAt(d'.world, cell) == env.trunk
      && (|p.orientationStack| == 0 ==> d'.world == d.world[cell := env.trunk])
      && (forall c' :: c' != cell && BlockAt(d'.world, c') != BlockAt(d.world, c') ==>
            |p.orientationStack| > 0 && c' in LeafCube(cell) && BlockAt(d.world, c') == Air && BlockAt(d'.world, c') == env.leaf)
      && (forall c' :: c' != cell && c' in LeafCube(cell) && |p.orientationStack| > 0 && BlockAt(d.world, c') == Air ==>
            BlockAt(d'.world, c') == env.leaf)
  {
  }

  /** The cell is taken from the position only when a block is written, so
      two steps shorter than a cell can write the trunk into the same cell. */
  lemma SubCellSteps(env: Env)
    requires forall h :: env.direction(h) == Pos(0.5, 0.0, 0.0)
    ensures Run("GG", env, map[]).world == map[env.origin := env.trunk]
    ensures Run("GG", env, map[]).pen.position == Pos(1.0, 0.0, 0.0)
  {
    var w1 := map[env.origin := env.trunk];
    var d0 := Drawing(Start, map[], false);
    var d1 := Drawing(Start.(position := Pos(0.5, 0.0, 0.0)), w1, false);
    assert "G"[..0] == [] && "GG"[..1] == "G";
    assert CellOf(Origin) == Cell(0, 0, 0) && Plus(env.origin, Cell(0, 0, 0)) == env.origin;
    assert Run("G", env, map[]) == d1 by {
      assert Run("G", env, map[]) == Exec('G', d0, env);
      assert Exec('G', d0, env) == DrawBlock(d0, env);
    }
    assert CellOf(d1.pen.position) == Cell(0, 0, 0);
    assert Run("GG", env, map[]) == DrawBlock(d1, env);
    assert w1[env.origin := env.trunk] == w1;
  }

  // ---------------------------------------------------------------------
  // Properties of the whole loop

  /** The two stacks always have equal size; while no ] has failed, that size
      is the net bracket depth of what has been read. The loop fails exactly
      when some ] meets an empty stack. */
  lemma {:induction false} RunStacks(s: string, env: Env, w: World)
    ensures var d := Run(s, env, w);
      && |d.pen.positionStack| == |d.pen.orientationStack|
      && (!d.failed ==> |d.pen.orientationStack| == Net(s))
      && (d.failed <==> !NeverUnderflows(s, 0))
  {
    if s != [] {
      var init, c := s[..|s| - 1], s[|s| - 1];
      assert s == init + [c];
      RunStacks(init, env, w);
      NetConcat(init, [c]);
      UnderflowConcat(init, [c], 0);
      assert [c][1..] == [];
      var d := Run(init, env, w);
      if !d.failed {
        UnderflowFreeDepth(init, 0);
      }
    }
  }

  /** Once a ] has failed, the rest of the string changes nothing. */
  lemma {:induction false} RunAfterFailure(s: string, k: nat, env: Env, w: World)
    requires k <= |s| && Run(s[..k], env, w).failed
    ensures Run(s, env, w) == Run(s[..k], env, w)
  {
    if k < |s| {
      assert s[..|s| - 1][..k] == s[..k];
      RunAfterFailure(s[..|s| - 1], k, env, w);
    } else {
      assert s[..k] == s;
    }
  }

  /** Between the world before and after a run, every changed cell holds the
      trunk block or a leaf that replaced air: leaves never overwrite a
      non-air block. */
  lemma {:induction false} RunLeavesOnlyAir(s: string, env: Env, w: World)
    requires env.trunk != Air
    ensures var w' := Run(s, env, w).world;
      forall c :: BlockAt(w', c) == BlockAt(w, c) || BlockAt(w', c) == env.trunk
        || (BlockAt(w', c) == env.leaf && BlockAt(w, c) == Air)
  {
    if s != [] {
      var init, ch := s[..|s| - 1], s[|s| - 1];
      RunLeavesOnlyAir(init, env, w);
      var d := Run(init, env, w);
      if !d.failed && (ch == 'F' || ch == 'G') {
        DrawBlockEffect(ch, d, env);
      }
    }
  }

  /** Drawing the derived tree string never pops an empty stack, and ends with
      both stacks empty. */
  lemma GeneratedTreeDraws(env: Env, w: World)
    ensures var d := Run(Derive(Iterations), env, w);
      !d.failed && d.pen.positionStack == [] && d.pen.orientationStack == []
  {
    DeriveBalanced(Iterations);
    RunStacks(Derive(Iterations), env, w);
  }

  // ---------------------------------------------------------------------
  // The generator, over a world provider updated in place

  class WorldProvider {
    var blocks: World

    constructor (initial: World)
      ensures blocks == initial
    {
      blocks := initial;
    }

    function GetBlock(c: Cell): BlockId
      reads this
    {
      BlockAt(blocks, c)
    }

    method SetBlock(c: Cell, b: BlockId)
      modifies this
      ensures blocks == old(blocks)[c := b]
    {
      blocks := blocks[c := b];
    }
  }

  class TreeGenerator {
    const worldProvider: WorldProvider

    constructor (w: WorldProvider)
      ensures worldProvider == w
    {
      worldProvider := w;
    }

    /** Rewrites the axiom and draws the tree rooted at env.origin. */
    method Generate(env: Env) returns (ok: bool)
      modifies worldProvider
      ensures ok
      ensures worldProvider.blocks == Run(Derive(Iterations), env, old(worldProvider.blocks)).world
    {
      var axiom := Rewrite();
      ok := Draw(axiom, env);
      GeneratedTreeDraws(env, old(worldProvider.blocks));
    }

    /** The turtle loop over `axiom`; false when a ] found the stacks empty. */
    method Draw(axiom: string, env: Env) returns (ok: bool)
      modifies worldProvider
      ensures ok == !Run(axiom, env, old(worldProvider.blocks)).failed
      ensures worldProvider.blocks == Run(axiom, env, old(worldProvider.blocks)).world
    {
      ghost var w0 := worldProvider.blocks;
      var position := Origin;
      var rotation := InitialHeading;
      var stackPosition: seq<Pos> := [];
      var stackOrientation: seq<Heading> := [];
      for i := 0 to |axiom|
        invariant Run(axiom[..i], env, w0)
          == Drawing(Pen(position, rotation, stackPosition, stackOrientation), worldProvider.blocks, false)
      {
        var c := axiom[i];
        assert axiom[..i + 1][..i] == axiom[..i];
        if c == 'G' || c == 'F' {
          var cell := Plus(env.origin, CellOf(position));
          worldProvider.SetBlock(cell, env.trunk);
          if |stackOrientation| > 0 {
            PlaceLeafCube(cell, env.leaf);
          }
          var dir := env.direction(rotation);
          position := Move(position, dir);
        } else if c == '[' {
          stackOrientation := stackOrientation + [rotation];
          stackPosition := stackPosition + [position];
        } else if c == ']' {
          if |stackOrientation| == 0 || |stackPosition| == 0 {
            RunAfterFailure(axiom, i + 1, env, w0);
            return false;
          }
          rotation := stackOrientation[|stackOrientation| - 1];
          stackOrientation := stackOrientation[..|stackOrientation| - 1];
          position := stackPosition[|stackPosition| - 1];
          stackPosition := stackPosition[..|stackPosition| - 1];
        } else if c == '+' {
          rotation := Rotate(rotation, Turn(ZAxis, true));
        } else if c == '-' {
          rotation := Rotate(rotation, Turn(ZAxis, false));
        } else if c == '&' {
          rotation := Rotate(rotation, Turn(YAxis, true));
        } else if c == '^' {
          rotation := Rotate(rotation, Turn(YAxis, false));
        } else if c == '*' {
          rotation := Rotate(rotation, Turn(XAxis, true));
        } else if c == '/' {
          rotation := Rotate(rotation, Turn(XAxis, false));
        }
      }
      assert axiom[..|axiom|] == axiom;
      ok := true;
    }

    /** The three nested loops that put leaves into the air cells of the cube
        around `center`, skipping its corners. The loop over y and the loop
        over z are the methods PlaceLeafPlane and PlaceLeafRow. */
    method PlaceLeafCube(center: Cell, leaf: BlockId)
      modifies worldProvider
      ensures worldProvider.blocks == FillLeaves(old(worldProvider.blocks), LeafCube(center), leaf)
    {
      ghost var w0 := worldProvider.blocks;
      for x := -Size to Size + 1
        invariant worldProvider.blocks == CubeStage(w0, center, x, leaf)
      {
        PlaceLeafPlane(center, x, leaf);
      }
      LeafLoopsFill(w0, center, leaf);
    }

    /** The loop over y for one x. */
    method PlaceLeafPlane(center: Cell, x: int, leaf: BlockId)
      modifies worldProvider
      ensures worldProvider.blocks == PlaneStage(old(worldProvider.blocks), center, x, Size + 1, leaf)
    {
      ghost var w0 := worldProvider.blocks;
      for y := -Size to Size + 1
        invariant worldProvider.blocks == PlaneStage(w0, center, x, y, leaf)
      {
        PlaceLeafRow(center, x, y, leaf);
      }
    }

    /** The loop over z for one x and y: corners are skipped, and a leaf goes
        into a cell only if it holds air. */
    method PlaceLeafRow(center: Cell, x: int, y: int, leaf: BlockId)
      modifies worldProvider
      ensures worldProvider.blocks == RowStage(old(worldProvider.blocks), center, x, y, Size + 1, leaf)
    {
      ghost var w0 := worldProvider.blocks;
      for z := -Size to Size + 1
        invariant worldProvider.blocks == RowStage(w0, center, x, y, z, leaf)
      {
        if Abs(x) == Size && Abs(y) == Size && Abs(z) == Size {
          continue;
        }
        var cell := Offset(center, x, y, z);
        if worldProvider.GetBlock(cell) == Air {
          worldProvider.SetBlock(cell, leaf);
        }
      }
    }
  }
}
