/**
  The state model of the 2x2 cube solver: a configuration is six faces, each a
  2x2 grid of colours; a move is one of six quarter turns, each a fixed
  rearrangement of the 24 cells; `Solved` is the per-face monochrome goal test
  and `Serialize` the canonical key the search uses for membership tests.
 */
module CubeState {

  /** Colours are only ever compared for equality. */
  type Color = char

  type Index = i: nat | i < 2

  datatype Face = Front | Top | Left | Right | Bottom | Back

  datatype Move = U | D | L | R | F | B

  /** The six moves in the order the search tries them. */
  const Moves: seq<Move> := [U, D, L, R, F, B]

  /** Position of a move in `Moves`. */
  function MoveIndex(m: Move): (k: nat)
    ensures k < |Moves| && Moves[k] == m
  {
    match m
    case U => 0
    case D => 1
    case L => 2
    case R => 3
    case F => 4
    case B => 5
  }

  /** One row of a face: the cells in columns 0 and 1. */
  datatype Row = Row(c0: Color, c1: Color)
  {
    function At(c: Index): Color
    {
      if c == 0 then c0 else c1
    }
  }

  /** A face: rows 0 and 1. */
  datatype Grid = Grid(r0: Row, r1: Row)
  {
    function At(r: Index, c: Index): Color
    {
      if r == 0 then r0.At(c) else r1.At(c)
    }
  }

  /** A cell position: a face and a row and column on it. */
  datatype Pos = Pos(face: Face, row: Index, col: Index)

  /** A configuration: one grid per face. */
  datatype Cube = Cube(front: Grid, top: Grid, left: Grid, right: Grid, bottom: Grid, back: Grid)
  {
    function Face(f: Face): Grid
    {
      match f
      case Front => front
      case Top => top
      case Left => left
      case Right => right
      case Bottom => bottom
      case Back => back
    }

    function At(p: Pos): Color
    {
      Face(p.face).At(p.row, p.col)
    }
  }

  // ---------------------------------------------------------------------------
  // The goal test
  // ---------------------------------------------------------------------------

  /** Every cell of the grid has the colour of its cell [0][0]. */
  ghost predicate Uniform(g: Grid)
  {
    forall r: Index, c: Index :: g.At(r, c) == g.At(0, 0)
  }

  /** Each face is monochrome; different faces may share a colour. */
  ghost predicate Solved(s: Cube)
  {
    forall f: Face :: Uniform(s.Face(f))
  }

  /** The faces in the order the goal test visits them. */
  const FaceOrder: seq<Face> := [Front, Top, Left, Right, Bottom, Back]

  /** The goal test: nested loops over faces, rows and cells that return
      false at the first cell differing from its face's cell [0][0]. */
  method IsSolved(s: Cube) returns (b: bool)
    ensures b <==> Solved(s)
  {
    for k := 0 to |FaceOrder|
      invariant forall j :: 0 <= j < k ==> Uniform(s.Face(FaceOrder[j]))
    {
      var grid := s.Face(FaceOrder[k]);
      var first := grid.At(0, 0);
      for r := 0 to 2
        invariant forall r': Index, c: Index :: r' < r ==> grid.At(r', c) == first
      {
        for c := 0 to 2
          invariant forall c': Index :: c' < c ==> grid.At(r, c') == first
        {
          if grid.At(r, c) != first {
            assert !Uniform(s.Face(FaceOrder[k]));
            return false;
          }
        }
      }
    }
    forall f: Face ensures Uniform(s.Face(f)) {
      assert f == FaceOrder[FaceIndex(f)];
    }
    return true;
  }

  /** Position of a face in `FaceOrder`. */
  function FaceIndex(f: Face): (k: nat)
    ensures k < |FaceOrder| && FaceOrder[k] == f
  {
    match f
    case Front => 0
    case Top => 1
    case Left => 2
    case Right => 3
    case Bottom => 4
    case Back => 5
  }

  /** The solved test rejects a solved cube with any single cell recoloured. */
  lemma {:induction false} SolvedRejectsOneChange(s: Cube, p: Pos, x: Color)
    requires Solved(s) && x != s.At(p)
    ensures !Solved(Recolour(s, p, x))
  {
    var t := Recolour(s, p, x);
    RecolourAt(s, p, x, p);
    if p.row == 0 && p.col == 0 {
      var q := Pos(p.face, 1, 1);
      RecolourAt(s, p, x, q);
      assert s.At(q) == s.At(p) by { assert Uniform(s.Face(p.face)); }
      assert t.Face(p.face).At(1, 1) != t.Face(p.face).At(0, 0);
    } else {
      var q := Pos(p.face, 0, 0);
      RecolourAt(s, p, x, q);
      assert s.At(q) == s.At(p) by { assert Uniform(s.Face(p.face)); }
      assert t.Face(p.face).At(p.row, p.col) != t.Face(p.face).At(0, 0);
    }
  }

  /** The cube `s` with the cell at `p` painted `x`. */
  function Recolour(s: Cube, p: Pos, x: Color): Cube
  {
    var g := s.Face(p.face);
    var row := if p.row == 0 then g.r0 else g.r1;
    var row' := if p.col == 0 then row.(c0 := x) else row.(c1 := x);
    var g' := if p.row == 0 then g.(r0 := row') else g.(r1 := row');
    match p.face
    case Front => s.(front := g')
    case Top => s.(top := g')
    case Left => s.(left := g')
    case Right => s.(right := g')
    case Bottom => s.(bottom := g')
    case Back => s.(back := g')
  }

  lemma RecolourAt(s: Cube, p: Pos, x: Color, q: Pos)
    ensures Recolour(s, p, x).At(q) == if q == p then x else s.At(q)
  {
  }

  /** A fresh copy built face by face and row by row; configurations are
      values, so the copy is equal to the original. */
  method CopyCube(state: Cube) returns (copy: Cube)
    ensures copy == state
  {
    var faces: map<Face, Grid> := map[];
    for k := 0 to |FaceOrder|
      invariant forall j :: 0 <= j < k ==> FaceOrder[j] in faces && faces[FaceOrder[j]] == state.Face(FaceOrder[j])
    {
      var g := state.Face(FaceOrder[k]);
      faces := faces[FaceOrder[k] := Grid(Row(g.r0.c0, g.r0.c1), Row(g.r1.c0, g.r1.c1))];
    }
    assert FaceOrder[0] == Front && FaceOrder[1] == Top && FaceOrder[2] == Left;
    assert FaceOrder[3] == Right && FaceOrder[4] == Bottom && FaceOrder[5] == Back;
    copy := Cube(faces[Front], faces[Top], faces[Left], faces[Right], faces[Bottom], faces[Back]);
  }

  // ---------------------------------------------------------------------------
  // Moves
  // ---------------------------------------------------------------------------

  /** The face a move turns. */
  function TurnedFace(m: Move): Face
  {
    match m
    case U => Top
    case D => Bottom
    case L => Left
    case R => Right
    case F => Front
    case B => Back
  }

  /** Each move as three 4-cycles of cells: within a cycle [a, b, c, d] the
      colour at a moves to b, b to c, c to d and d to a. The first cycle turns
      the face itself, the other two carry the adjacent rows or columns. */
  function Cycles(m: Move): seq<seq<Pos>>
  {
    match m
    case U => [[Pos(Top, 0, 0), Pos(Top, 1, 0), Pos(Top, 1, 1), Pos(Top, 0, 1)],
               [Pos(Front, 0, 0), Pos(Right, 0, 0), Pos(Back, 0, 0), Pos(Left, 0, 0)],
               [Pos(Front, 0, 1), Pos(Right, 0, 1), Pos(Back, 0, 1), Pos(Left, 0, 1)]]
    case D => [[Pos(Bottom, 0, 0), Pos(Bottom, 0, 1), Pos(Bottom, 1, 1), Pos(Bottom, 1, 0)],
               [Pos(Front, 1, 0), Pos(Right, 1, 0), Pos(Back, 1, 0), Pos(Left, 1, 0)],
               [Pos(Front, 1, 1), Pos(Right, 1, 1), Pos(Back, 1, 1), Pos(Left, 1, 1)]]
    case R => [[Pos(Right, 0, 0), Pos(Right, 1, 0), Pos(Right, 1, 1), Pos(Right, 0, 1)],
               [Pos(Front, 0, 1), Pos(Bottom, 0, 1), Pos(Back, 1, 0), Pos(Top, 0, 1)],
               [Pos(Front, 1, 1), Pos(Bottom, 1, 1), Pos(Back, 0, 0), Pos(Top, 1, 1)]]
    case L => [[Pos(Left, 0, 0), Pos(Left, 0, 1), Pos(Left, 1, 1), Pos(Left, 1, 0)],
               [Pos(Front, 0, 0), Pos(Bottom, 0, 0), Pos(Back, 1, 1), Pos(Top, 0, 0)],
               [Pos(Front, 1, 0), Pos(Bottom, 1, 0), Pos(Back, 0, 1), Pos(Top, 1, 0)]]
    case F => [[Pos(Front, 0, 0), Pos(Front, 1, 0), Pos(Front, 1, 1), Pos(Front, 0, 1)],
               [Pos(Left, 0, 1), Pos(Bottom, 0, 0), Pos(Right, 1, 0), Pos(Top, 1, 1)],
               [Pos(Left, 1, 1), Pos(Bottom, 0, 1), Pos(Right, 0, 0), Pos(Top, 1, 0)]]
    case B => [[Pos(Back, 0, 0), Pos(Back, 0, 1), Pos(Back, 1, 1), Pos(Back, 1, 0)],
               [Pos(Left, 0, 0), Pos(Bottom, 1, 0), Pos(Right, 1, 1), Pos(Top, 0, 1)],
               [Pos(Left, 1, 0), Pos(Bottom, 1, 1), Pos(Right, 0, 1), Pos(Top, 0, 0)]]
  }

  /** The cell whose colour lands at `p` when `m` is applied. */
  function Source(m: Move, p: Pos): Pos
  {
    var cs := Cycles(m);
    if p == cs[0][1] then cs[0][0] else if p == cs[0][2] then cs[0][1]
    else if p == cs[0][3] then cs[0][2] else if p == cs[0][0] then cs[0][3]
    else if p == cs[1][1] then cs[1][0] else if p == cs[1][2] then cs[1][1]
    else if p == cs[1][3] then cs[1][2] else if p == cs[1][0] then cs[1][3]
    else if p == cs[2][1] then cs[2][0] else if p == cs[2][2] then cs[2][1]
    else if p == cs[2][3] then cs[2][2] else if p == cs[2][0] then cs[2][3]
    else p
  }

  /** The configuration after move `m`, written out face by face: the turned
      face rotated a quarter turn, one row or column of each of the four
      faces around it taken from the neighbour before it, the opposite face
      unchanged. */
  function Turn(s: Cube, m: Move): Cube
  {
    match m
    case U =>
      Cube(Grid(Row(s.left.r0.c0, s.left.r0.c1), Row(s.front.r1.c0, s.front.r1.c1)),
           Grid(Row(s.top.r0.c1, s.top.r1.c1), Row(s.top.r0.c0, s.top.r1.c0)),
           Grid(Row(s.back.r0.c0, s.back.r0.c1), Row(s.left.r1.c0, s.left.r1.c1)),
           Grid(Row(s.front.r0.c0, s.front.r0.c1), Row(s.right.r1.c0, s.right.r1.c1)),
           s.bottom,
           Grid(Row(s.right.r0.c0, s.right.r0.c1), Row(s.back.r1.c0, s.back.r1.c1)))
    case D =>
      Cube(Grid(Row(s.front.r0.c0, s.front.r0.c1), Row(s.left.r1.c0, s.left.r1.c1)),
           s.top,
           Grid(Row(s.left.r0.c0, s.left.r0.c1), Row(s.back.r1.c0, s.back.r1.c1)),
           Grid(Row(s.right.r0.c0, s.right.r0.c1), Row(s.front.r1.c0, s.front.r1.c1)),
           Grid(Row(s.bottom.r1.c0, s.bottom.r0.c0), Row(s.bottom.r1.c1, s.bottom.r0.c1)),
           Grid(Row(s.back.r0.c0, s.back.r0.c1), Row(s.right.r1.c0, s.right.r1.c1)))
    case L =>
      Cube(Grid(Row(s.top.r0.c0, s.front.r0.c1), Row(s.top.r1.c0, s.front.r1.c1)),
           Grid(Row(s.back.r1.c1, s.top.r0.c1), Row(s.back.r0.c1, s.top.r1.c1)),
           Grid(Row(s.left.r1.c0, s.left.r0.c0), Row(s.left.r1.c1, s.left.r0.c1)),
           s.right,
           Grid(Row(s.front.r0.c0, s.bottom.r0.c1), Row(s.front.r1.c0, s.bottom.r1.c1)),
           Grid(Row(s.back.r0.c0, s.bottom.r1.c0), Row(s.back.r1.c0, s.bottom.r0.c0)))
    case R =>
      Cube(Grid(Row(s.front.r0.c0, s.top.r0.c1), Row(s.front.r1.c0, s.top.r1.c1)),
           Grid(Row(s.top.r0.c0, s.back.r1.c0), Row(s.top.r1.c0, s.back.r0.c0)),
           s.left,
           Grid(Row(s.right.r0.c1, s.right.r1.c1), Row(s.right.r0.c0, s.right.r1.c0)),
           Grid(Row(s.bottom.r0.c0, s.front.r0.c1), Row(s.bottom.r1.c0, s.front.r1.c1)),
           Grid(Row(s.bottom.r1.c1, s.back.r0.c1), Row(s.bottom.r0.c1, s.back.r1.c1)))
    case F =>
      Cube(Grid(Row(s.front.r0.c1, s.front.r1.c1), Row(s.front.r0.c0, s.front.r1.c0)),
           Grid(Row(s.top.r0.c0, s.top.r0.c1), Row(s.right.r0.c0, s.right.r1.c0)),
           Grid(Row(s.left.r0.c0, s.top.r1.c1), Row(s.left.r1.c0, s.top.r1.c0)),
           Grid(Row(s.bottom.r0.c1, s.right.r0.c1), Row(s.bottom.r0.c0, s.right.r1.c1)),
           Grid(Row(s.left.r0.c1, s.left.r1.c1), Row(s.bottom.r1.c0, s.bottom.r1.c1)),
           s.back)
    case B =>
      Cube(s.front,
           Grid(Row(s.right.r0.c1, s.right.r1.c1), Row(s.top.r1.c0, s.top.r1.c1)),
           Grid(Row(s.top.r0.c1, s.left.r0.c1), Row(s.top.r0.c0, s.left.r1.c1)),
           Grid(Row(s.right.r0.c0, s.bottom.r1.c1), Row(s.right.r1.c0, s.bottom.r1.c0)),
           Grid(Row(s.bottom.r0.c0, s.bottom.r0.c1), Row(s.left.r0.c0, s.left.r1.c0)),
           Grid(Row(s.back.r1.c0, s.back.r0.c0), Row(s.back.r1.c1, s.back.r0.c1)))
  }

  /** Applies a move to a copy of the configuration: the turned face is
      rebuilt from its own cells, the adjacent rows or columns are saved and
      then written back one place further round. The input is a value and is
      never changed. */
  method ApplyMove(state: Cube, m: Move) returns (next: Cube)
    ensures next == Turn(state, m)
  {
    match m {
      case U => next := TurnUp(state);
      case D => next := TurnDown(state);
      case L => next := TurnLeft(state);
      case R => next := TurnRight(state);
      case F => next := TurnFront(state);
      case B => next := TurnBack(state);
    }
  }

  /** The `U` branch of `ApplyMove`. */
  method TurnUp(state: Cube) returns (next: Cube)
    ensures next == Turn(state, U)
  {
    var ns := state;
    ns := ns.(top := Grid(Row(ns.top.r0.c1, ns.top.r1.c1), Row(ns.top.r0.c0, ns.top.r1.c0)));
    var frontTop, leftTop, backTop, rightTop := ns.front.r0, ns.left.r0, ns.back.r0, ns.right.r0;
    ns := ns.(front := ns.front.(r0 := leftTop));
    ns := ns.(left := ns.left.(r0 := backTop));
    ns := ns.(back := ns.back.(r0 := rightTop));
    ns := ns.(right := ns.right.(r0 := frontTop));
    next := ns;
  }

  /** The `D` branch of `ApplyMove`. */
  method TurnDown(state: Cube) returns (next: Cube)
    ensures next == Turn(state, D)
  {
    var ns := state;
    ns := ns.(bottom := Grid(Row(ns.bottom.r1.c0, ns.bottom.r0.c0), Row(ns.bottom.r1.c1, ns.bottom.r0.c1)));
    var frontBottom, leftBottom, backBottom, rightBottom := ns.front.r1, ns.left.r1, ns.back.r1, ns.right.r1;
    ns := ns.(front := ns.front.(r1 := leftBottom));
    ns := ns.(left := ns.left.(r1 := backBottom));
    ns := ns.(back := ns.back.(r1 := rightBottom));
    ns := ns.(right := ns.right.(r1 := frontBottom));
    next := ns;
  }

  /** The `R` branch of `ApplyMove`. */
  method TurnRight(state: Cube) returns (next: Cube)
    ensures next == Turn(state, R)
  {
    var ns := state;
    ns := ns.(right := Grid(Row(ns.right.r0.c1, ns.right.r1.c1), Row(ns.right.r0.c0, ns.right.r1.c0)));
    var frontRight := Row(ns.front.r0.c1, ns.front.r1.c1);
    var topRight := Row(ns.top.r0.c1, ns.top.r1.c1);
    var backLeft := Row(ns.back.r1.c0, ns.back.r0.c0);
    var bottomRight := Row(ns.bottom.r0.c1, ns.bottom.r1.c1);
    ns := ns.(front := Grid(ns.front.r0.(c1 := topRight.c0), ns.front.r1.(c1 := topRight.c1)));
    ns := ns.(top := Grid(ns.top.r0.(c1 := backLeft.c0), ns.top.r1.(c1 := backLeft.c1)));
    ns := ns.(back := Grid(ns.back.r0.(c0 := bottomRight.c1), ns.back.r1.(c0 := bottomRight.c0)));
    ns := ns.(bottom := Grid(ns.bottom.r0.(c1 := frontRight.c0), ns.bottom.r1.(c1 := frontRight.c1)));
    next := ns;
  }

  /** The `L` branch of `ApplyMove`. */
  method TurnLeft(state: Cube) returns (next: Cube)
    ensures next == Turn(state, L)
  {
    var ns := state;
    ns := ns.(left := Grid(Row(ns.left.r1.c0, ns.left.r0.c0), Row(ns.left.r1.c1, ns.left.r0.c1)));
    var frontLeft := Row(ns.front.r0.c0, ns.front.r1.c0);
    var topLeft := Row(ns.top.r0.c0, ns.top.r1.c0);
    var backRight := Row(ns.back.r1.c1, ns.back.r0.c1);
    var bottomLeft := Row(ns.bottom.r0.c0, ns.bottom.r1.c0);
    ns := ns.(front := Grid(ns.front.r0.(c0 := topLeft.c0), ns.front.r1.(c0 := topLeft.c1)));
    ns := ns.(top := Grid(ns.top.r0.(c0 := backRight.c0), ns.top.r1.(c0 := backRight.c1)));
    ns := ns.(back := Grid(ns.back.r0.(c1 := bottomLeft.c1), ns.back.r1.(c1 := bottomLeft.c0)));
    ns := ns.(bottom := Grid(ns.bottom.r0.(c0 := frontLeft.c0), ns.bottom.r1.(c0 := frontLeft.c1)));
    next := ns;
  }

  /** The `F` branch of `ApplyMove`. */
  method TurnFront(state: Cube) returns (next: Cube)
    ensures next == Turn(state, F)
  {
    var ns := state;
    ns := ns.(front := Grid(Row(ns.front.r0.c1, ns.front.r1.c1), Row(ns.front.r0.c0, ns.front.r1.c0)));
    var leftRight := Row(ns.left.r0.c1, ns.left.r1.c1);
    var topBottom := Row(ns.top.r1.c1, ns.top.r1.c0);
    var rightLeft := Row(ns.right.r1.c0, ns.right.r0.c0);
    var bottomTop := Row(ns.bottom.r0.c0, ns.bottom.r0.c1);
    ns := ns.(left := Grid(ns.left.r0.(c1 := topBottom.c0), ns.left.r1.(c1 := topBottom.c1)));
    ns := ns.(top := ns.top.(r1 := Row(rightLeft.c1, rightLeft.c0)));
    ns := ns.(right := Grid(ns.right.r0.(c0 := bottomTop.c1), ns.right.r1.(c0 := bottomTop.c0)));
    ns := ns.(bottom := ns.bottom.(r0 := Row(leftRight.c0, leftRight.c1)));
    next := ns;
  }

  /** The `B` branch of `ApplyMove`. */
  method TurnBack(state: Cube) returns (next: Cube)
    ensures next == Turn(state, B)
  {
    var ns := state;
    ns := ns.(back := Grid(Row(ns.back.r1.c0, ns.back.r0.c0), Row(ns.back.r1.c1, ns.back.r0.c1)));
    var leftLeft := Row(ns.left.r0.c0, ns.left.r1.c0);
    var topTop := Row(ns.top.r0.c1, ns.top.r0.c0);
    var rightRight := Row(ns.right.r1.c1, ns.right.r0.c1);
    var bottomBottom := Row(ns.bottom.r1.c0, ns.bottom.r1.c1);
    ns := ns.(left := Grid(ns.left.r0.(c0 := topTop.c0), ns.left.r1.(c0 := topTop.c1)));
    ns := ns.(top := ns.top.(r0 := Row(rightRight.c1, rightRight.c0)));
    ns := ns.(right := Grid(ns.right.r0.(c1 := bottomBottom.c1), ns.right.r1.(c1 := bottomBottom.c0)));
    ns := ns.(bottom := ns.bottom.(r1 := Row(leftLeft.c0, leftLeft.c1)));
    next := ns;
  }

  /** The cell `p` of the turned configuration holds the colour of `Source(m, p)`. */
  lemma {:induction false} TurnAt(s: Cube, m: Move, p: Pos)
    ensures Turn(s, m).At(p) == s.At(Source(m, p))
  {
    match m
    case U => UpAt(s, p);
    case D => DownAt(s, p);
    case L => LeftAt(s, p);
    case R => RightAt(s, p);
    case F => FrontAt(s, p);
    case B => BackAt(s, p);
  }

  lemma UpAt(s: Cube, p: Pos)
    ensures Turn(s, U).At(p) == s.At(Source(U, p))
  {
    match p.face
    case Front => case Top => case Left => case Right => case Bottom => case Back =>
  }

  lemma DownAt(s: Cube, p: Pos)
    ensures Turn(s, D).At(p) == s.At(Source(D, p))
  {
    match p.face
    case Front => case Top => case Left => case Right => case Bottom => case Back =>
  }

  lemma LeftAt(s: Cube, p: Pos)
    ensures Turn(s, L).At(p) == s.At(Source(L, p))
  {
    match p.face
    case Front => case Top => case Left => case Right => case Bottom => case Back =>
  }

  lemma RightAt(s: Cube, p: Pos)
    ensures Turn(s, R).At(p) == s.At(Source(R, p))
  {
    match p.face
    case Front => case Top => case Left => case Right => case Bottom => case Back =>
  }

  lemma FrontAt(s: Cube, p: Pos)
    ensures Turn(s, F).At(p) == s.At(Source(F, p))
  {
    match p.face
    case Front => case Top => case Left => case Right => case Bottom => case Back =>
  }

  lemma BackAt(s: Cube, p: Pos)
    ensures Turn(s, B).At(p) == s.At(Source(B, p))
  {
    match p.face
    case Front => case Top => case Left => case Right => case Bottom => case Back =>
  }

  /** The cells a move touches, described face by face: the turned face, and
      one row or column on each of the four faces around it. */
  predicate Moved(m: Move, p: Pos)
  {
    match m
    case U => p.face == Top || (p.face != Bottom && p.row == 0)
    case D => p.face == Bottom || (p.face != Top && p.row == 1)
    case R => p.face == Right || (p.face in {Front, Top, Bottom} && p.col == 1) || (p.face == Back && p.col == 0)
    case L => p.face == Left || (p.face in {Front, Top, Bottom} && p.col == 0) || (p.face == Back && p.col == 1)
    case F => p.face == Front || (p.face == Left && p.col == 1) || (p.face == Top && p.row == 1)
              || (p.face == Right && p.col == 0) || (p.face == Bottom && p.row == 0)
    case B => p.face == Back || (p.face == Left && p.col == 0) || (p.face == Top && p.row == 0)
              || (p.face == Right && p.col == 1) || (p.face == Bottom && p.row == 1)
  }

  /** A move relocates exactly the cells of `Moved`: those get their colour
      from another cell, every other cell keeps its own. */
  lemma SourceMovesExactly(m: Move, p: Pos)
    ensures Source(m, p) != p <==> Moved(m, p)
  {
  }

  /** Cells outside the turned face and its four adjacent rows or columns are
      unchanged by a move. */
  lemma {:induction false} TurnFrame(s: Cube, m: Move, p: Pos)
    requires !Moved(m, p)
    ensures Turn(s, m).At(p) == s.At(p)
  {
    SourceMovesExactly(m, p);
    TurnAt(s, m, p);
  }

  /** The turned face is rotated within itself: a cell of it takes its colour
      from a cell of the same face, and a cell elsewhere from a cell elsewhere. */
  lemma FaceTurnsInPlace(m: Move, p: Pos)
    ensures (Source(m, p).face == TurnedFace(m)) <==> (p.face == TurnedFace(m))
  {
    match m
    case U => case D => case L => case R => case F => case B =>
  }

  // ---------------------------------------------------------------------------
  // Colours
  // ---------------------------------------------------------------------------

  /** The four cells of a grid, row by row. */
  function Flat(g: Grid): seq<Color>
  {
    [g.r0.c0, g.r0.c1, g.r1.c0, g.r1.c1]
  }

  /** All 24 cells, face by face in the order front, top, left, right, bottom, back. */
  function Cells(s: Cube): seq<Color>
  {
    Flat(s.front) + Flat(s.top) + Flat(s.left) + Flat(s.right) + Flat(s.bottom) + Flat(s.back)
  }

  function One(a: Color, x: Color): nat
  {
    if a == x then 1 else 0
  }

  function GridCount(g: Grid, x: Color): nat
  {
    One(g.r0.c0, x) + One(g.r0.c1, x) + One(g.r1.c0, x) + One(g.r1.c1, x)
  }

  /** How many of the 24 cells have colour `x`. */
  function Count(s: Cube, x: Color): nat
  {
    GridCount(s.front, x) + GridCount(s.top, x) + GridCount(s.left, x)
    + GridCount(s.right, x) + GridCount(s.bottom, x) + GridCount(s.back, x)
  }

  lemma GridMultiset(g: Grid, x: Color)
    ensures multiset(Flat(g))[x] == GridCount(g, x)
  {
  }

  lemma {:induction false} CellsMultiset(s: Cube, x: Color)
    ensures multiset(Cells(s))[x] == Count(s, x)
  {
    GridMultiset(s.front, x); GridMultiset(s.top, x); GridMultiset(s.left, x);
    GridMultiset(s.right, x); GridMultiset(s.bottom, x); GridMultiset(s.back, x);
  }

  lemma {:induction false} TurnKeepsCount(s: Cube, m: Move, x: Color)
    ensures Count(Turn(s, m), x) == Count(s, x)
  {
    match m
    case U => UpKeepsCount(s, x);
    case D => DownKeepsCount(s, x);
    case L => LeftKeepsCount(s, x);
    case R => RightKeepsCount(s, x);
    case F => FrontKeepsCount(s, x);
    case B => BackKeepsCount(s, x);
  }

  lemma UpKeepsCount(s: Cube, x: Color)
    ensures Count(Turn(s, U), x) == Count(s, x)
  {
  }

  lemma DownKeepsCount(s: Cube, x: Color)
    ensures Count(Turn(s, D), x) == Count(s, x)
  {
  }

  lemma LeftKeepsCount(s: Cube, x: Color)
    ensures Count(Turn(s, L), x) == Count(s, x)
  {
  }

  lemma RightKeepsCount(s: Cube, x: Color)
    ensures Count(Turn(s, R), x) == Count(s, x)
  {
  }

  lemma FrontKeepsCount(s: Cube, x: Color)
    ensures Count(Turn(s, F), x) == Count(s, x)
  {
  }

  lemma BackKeepsCount(s: Cube, x: Color)
    ensures Count(Turn(s, B), x) == Count(s, x)
  {
  }

  /** A move only relocates colours: the multiset of the 24 cells is unchanged. */
  lemma {:induction false} TurnKeepsColours(s: Cube, m: Move)
    ensures multiset(Cells(Turn(s, m))) == multiset(Cells(s))
  {
    forall x ensures multiset(Cells(Turn(s, m)))[x] == multiset(Cells(s))[x] {
      CellsMultiset(s, x);
      CellsMultiset(Turn(s, m), x);
      TurnKeepsCount(s, m, x);
    }
  }

  // ---------------------------------------------------------------------------
  // The canonical key
  // ---------------------------------------------------------------------------

  /** A canonical key: equal keys exactly for equal configurations. */
  type Key = seq<Color>

  /** The faces in alphabetical order of their names, the order in which a
      sorted-key serialization lays them out. */
  const KeyOrder: seq<Face> := [Back, Bottom, Front, Left, Right, Top]

  /** Cell `i` of the key: face `KeyOrder[i / 4]`, then row by row. */
  function KeyCell(s: Cube, i: nat): Color
    requires i < 24
  {
    var j := i % 4;
    s.Face(KeyOrder[i / 4]).At(j / 2, j % 2)
  }

  /** The key of a configuration: its cells with the faces in `KeyOrder`;
      rows and cells keep their order. */
  function Serialize(s: Cube): (k: Key)
    ensures |k| == 24
  {
    seq(24, i requires 0 <= i < 24 => KeyCell(s, i))
  }

  /** The key is the faces' cells, row by row, with the faces in alphabetical
      order of their names: back, bottom, front, left, right, top. */
  lemma SerializeLayout(s: Cube)
    ensures Serialize(s) == Flat(s.back) + Flat(s.bottom) + Flat(s.front) + Flat(s.left) + Flat(s.right) + Flat(s.top)
  {
    var k := Flat(s.back) + Flat(s.bottom) + Flat(s.front) + Flat(s.left) + Flat(s.right) + Flat(s.top);
    assert forall i :: 0 <= i < 24 ==> Serialize(s)[i] == k[i];
  }

  function Unflat(k: seq<Color>, i: nat): Grid
    requires i + 4 <= |k|
  {
    Grid(Row(k[i], k[i + 1]), Row(k[i + 2], k[i + 3]))
  }

  /** Reads a configuration back from a key. */
  function Deserialize(k: seq<Color>): Cube
    requires |k| == 24
  {
    Cube(Unflat(k, 8), Unflat(k, 20), Unflat(k, 12), Unflat(k, 16), Unflat(k, 4), Unflat(k, 0))
  }

  /** Reading a key back gives the configuration it was made from. */
  lemma {:induction false} DeserializeSerialize(s: Cube)
    ensures Deserialize(Serialize(s)) == s
  {
  }

  /** Every key of length 24 is the key of the configuration it reads back as. */
  lemma {:induction false} SerializeDeserialize(k: seq<Color>)
    requires |k| == 24
    ensures Serialize(Deserialize(k)) == k
  {
    var t := Serialize(Deserialize(k));
    assert forall i :: 0 <= i < 24 ==> t[i] == k[i];
  }

  /** Equal keys mean equal configurations, and conversely. */
  lemma {:induction false} SerializeInjective(a: Cube, b: Cube)
    ensures Serialize(a) == Serialize(b) <==> a == b
  {
    DeserializeSerialize(a);
    DeserializeSerialize(b);
  }

  /** `U` followed by `D` turns the whole cube about the vertical axis: the
      side rows of `U` and `D` cycle the same way, so a solved cube stays
      solved. From a solved cube with `U` applied, the single move `D`
      therefore solves it again. */
  lemma {:induction false} UpThenDown(s: Cube)
    requires Solved(s)
    ensures Solved(Turn(Turn(s, U), D))
  {
    forall f: Face ensures SameCells(s.Face(f)) {
      UniformCells(s.Face(f));
    }
    var t := Turn(Turn(s, U), D);
    forall f: Face ensures Uniform(t.Face(f)) {
      assert SameCells(s.Face(Front)) && SameCells(s.Face(Top)) && SameCells(s.Face(Left));
      assert SameCells(s.Face(Right)) && SameCells(s.Face(Bottom)) && SameCells(s.Face(Back));
    }
  }

  /** `Uniform` unfolded field by field: the four cells of the grid are equal.
      `UpThenDown` needs this form, since the move tables pick single fields. */
  predicate SameCells(g: Grid)
  {
    g.r0.c1 == g.r0.c0 && g.r1.c0 == g.r0.c0 && g.r1.c1 == g.r0.c0
  }

  /** A uniform grid has all its fields equal. */
  lemma UniformCells(g: Grid)
    requires Uniform(g)
    ensures SameCells(g)
  {
    assert g.At(0, 1) == g.At(0, 0) && g.At(1, 0) == g.At(0, 0) && g.At(1, 1) == g.At(0, 0);
  }

  /** Four quarter turns of the same face give back the configuration. */
  lemma {:induction false} FourTurns(s: Cube, m: Move)
    ensures Turn(Turn(Turn(Turn(s, m), m), m), m) == s
  {
    match m
    case U => FourTurnsU(s);
    case D => FourTurnsD(s);
    case L => FourTurnsL(s);
    case R => FourTurnsR(s);
    case F => FourTurnsF(s);
    case B => FourTurnsB(s);
  }

  lemma FourTurnsU(s: Cube)
    ensures Turn(Turn(Turn(Turn(s, U), U), U), U) == s
  {
  }

  lemma FourTurnsD(s: Cube)
    ensures Turn(Turn(Turn(Turn(s, D), D), D), D) == s
  {
  }

  lemma FourTurnsL(s: Cube)
    ensures Turn(Turn(Turn(Turn(s, L), L), L), L) == s
  {
  }

  lemma FourTurnsR(s: Cube)
    ensures Turn(Turn(Turn(Turn(s, R), R), R), R) == s
  {
  }

  lemma FourTurnsF(s: Cube)
    ensures Turn(Turn(Turn(Turn(s, F), F), F), F) == s
  {
  }

  lemma FourTurnsB(s: Cube)
    ensures Turn(Turn(Turn(Turn(s, B), B), B), B) == s
  {
  }
}
