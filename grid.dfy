/** The playing field: a square grid of GRID_SIZE x GRID_SIZE integer cells,
    the four directions of the DIRECTIONS table, and the orders the engine
    compares things by. */
module Grid {

  datatype Option<+T> = None | Some(value: T)

  /** Side of the square grid. */
  const GRID_SIZE: int := 20

  /** Number of cells on the grid. */
  const GRID_CELLS: int := GRID_SIZE * GRID_SIZE

  /** A cell `(x, y)`; in bounds when both coordinates lie in `0 .. GRID_SIZE - 1`. */
  type Cell = (int, int)

  /** The keys of the DIRECTIONS table. */
  datatype Direction = Up | Down | Left | Right

  /** The DIRECTIONS table in insertion order, the order its items are visited in. */
  const DIRECTION_ORDER: seq<Direction> := [Up, Down, Left, Right]

  /** The unit step of each direction; `y` grows downwards. */
  function Delta(d: Direction): (int, int)
  {
    match d
    case Up => (0, -1)
    case Down => (0, 1)
    case Left => (-1, 0)
    case Right => (1, 0)
  }

  /** The string key of each direction, as clients send it and as the AI compares it. */
  function Name(d: Direction): string
  {
    match d
    case Up => "up"
    case Down => "down"
    case Left => "left"
    case Right => "right"
  }

  /** Membership test `s in DIRECTIONS`, giving the direction whose key is `s`. */
  function ParseDirection(s: string): (r: Option<Direction>)
    ensures r.Some? ==> Name(r.value) == s
    ensures r.None? ==> forall d :: Name(d) != s
  {
    if s == "up" then Some(Up)
    else if s == "down" then Some(Down)
    else if s == "left" then Some(Left)
    else if s == "right" then Some(Right)
    else None
  }

  lemma ParseName(d: Direction)
    ensures ParseDirection(Name(d)) == Some(d)
  {
  }

  lemma DirectionOrderComplete(d: Direction)
    ensures d in DIRECTION_ORDER
  {
  }

  predicate InBounds(c: Cell)
  {
    0 <= c.0 < GRID_SIZE && 0 <= c.1 < GRID_SIZE
  }

  /** The neighbour of `c` one step in direction `d`. */
  function Step(c: Cell, d: Direction): Cell
  {
    (c.0 + Delta(d).0, c.1 + Delta(d).1)
  }

  function Abs(n: int): nat
  {
    if n < 0 then -n else n
  }

  function Manhattan(a: Cell, b: Cell): nat
  {
    Abs(a.0 - b.0) + Abs(a.1 - b.1)
  }

  lemma StepIsUnitMove(c: Cell, d: Direction)
    ensures Manhattan(c, Step(c, d)) == 1
    ensures Step(c, d) != c
  {
  }

  // ---------------------------------------------------------------------
  // Python's order on strings: lexicographic by code point, a proper
  // prefix before any of its extensions.

  predicate StrLess(a: string, b: string)
  {
    if |a| == 0 then |b| > 0
    else if |b| == 0 then false
    else if a[0] != b[0] then a[0] < b[0]
    else StrLess(a[1..], b[1..])
  }

  lemma {:induction false} StrLessIrreflexive(a: string)
    ensures !StrLess(a, a)
  {
    if |a| > 0 {
      StrLessIrreflexive(a[1..]);
    }
  }

  /** Position of a direction's name in alphabetical order: down < left < right < up. */
  function AlphabeticalRank(d: Direction): nat
  {
    match d
    case Down => 0
    case Left => 1
    case Right => 2
    case Up => 3
  }

  /** Comparing direction names as strings is comparing their alphabetical rank,
      which differs from the table order (up, down, left, right). */
  lemma NameOrder(d1: Direction, d2: Direction)
    ensures StrLess(Name(d1), Name(d2)) <==> AlphabeticalRank(d1) < AlphabeticalRank(d2)
  {
    if d1 == d2 {
      StrLessIrreflexive(Name(d1));
    }
  }

  // ---------------------------------------------------------------------
  // Counting cells: a set of fewer than GRID_CELLS cells leaves a cell of
  // the grid free.

  /** The cell with row-major index `i`. */
  function CellAt(i: int): Cell
  {
    (i / GRID_SIZE, i % GRID_SIZE)
  }

  /** The cells with row-major index below `n`. */
  ghost function CellsBelow(n: nat): set<Cell>
  {
    set i | 0 <= i < n :: CellAt(i)
  }

  lemma CellAtInjective(i: int, j: int)
    requires 0 <= i && 0 <= j && i != j
    ensures CellAt(i) != CellAt(j)
  {
  }

  lemma {:induction false} CellsBelowCount(n: nat)
    ensures |CellsBelow(n)| == n
  {
    if n > 0 {
      CellsBelowCount(n - 1);
      assert CellsBelow(n) == CellsBelow(n - 1) + {CellAt(n - 1)};
      forall i | 0 <= i < n - 1
        ensures CellAt(i) != CellAt(n - 1)
      {
        CellAtInjective(i, n - 1);
      }
    }
  }

  lemma CellsBelowInBounds(n: nat, c: Cell)
    requires n <= GRID_CELLS && c in CellsBelow(n)
    ensures InBounds(c)
  {
  }

  lemma SubsetCount<T>(a: set<T>, b: set<T>)
    requires a <= b
    ensures |a| <= |b|
  {
    assert b == a + (b - a);
  }

  /** Pigeonhole: a set of fewer cells than the grid holds misses a cell of the grid. */
  lemma FreeCellExists(occupied: set<Cell>)
    requires |occupied| < GRID_CELLS
    ensures exists c :: InBounds(c) && c !in occupied
  {
    CellsBelowCount(GRID_CELLS);
    if !(CellsBelow(GRID_CELLS) <= occupied) {
      var c :| c in CellsBelow(GRID_CELLS) && c !in occupied;
      CellsBelowInBounds(GRID_CELLS, c);
    } else {
      SubsetCount(CellsBelow(GRID_CELLS), occupied);
    }
  }
}
