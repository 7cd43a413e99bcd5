/** The pieces of the `window.onload` bootstrap (index.js:66-154) that hold logic of
    their own: the `remote` handler that moves the opponent by the deltas a peer
    reports, the fixed order in which a frame is drawn, and the test that decides
    whether the canvas is scaled down to the window. */
module Match {

  /** The `{dx, dy}` payload of a `remote` event. */
  datatype Delta = Delta(dx: int, dy: int)

  /** A point on the canvas. */
  datatype Point = Point(x: int, y: int)

  /** The point reached from `p` by one payload. */
  function Shift(p: Point, d: Delta): Point
  {
    Point(p.x + d.dx, p.y + d.dy)
  }

  /** The point reached from `p` by handling the payloads `ds` in arrival order. */
  function ShiftAll(p: Point, ds: seq<Delta>): Point
    decreases ds
  {
    if ds == [] then p else ShiftAll(Shift(p, ds[0]), ds[1..])
  }

  /** Sum of the horizontal components of `ds`. */
  function SumDx(ds: seq<Delta>): int
  {
    if ds == [] then 0 else ds[0].dx + SumDx(ds[1..])
  }

  /** Sum of the vertical components of `ds`. */
  function SumDy(ds: seq<Delta>): int
  {
    if ds == [] then 0 else ds[0].dy + SumDy(ds[1..])
  }

  /** Handling a run of payloads moves the point by their componentwise sums: the
      deltas add up and none overwrites another. */
  lemma {:induction false} ShiftAllAddsSums(p: Point, ds: seq<Delta>)
    ensures ShiftAll(p, ds) == Point(p.x + SumDx(ds), p.y + SumDy(ds))
    decreases ds
  {
    if ds != [] {
      ShiftAllAddsSums(Shift(p, ds[0]), ds[1..]);
    }
  }

  /** The sums of two runs of payloads add up. */
  lemma {:induction false} SumsOfConcatenation(a: seq<Delta>, b: seq<Delta>)
    ensures SumDx(a + b) == SumDx(a) + SumDx(b)
    ensures SumDy(a + b) == SumDy(a) + SumDy(b)
  {
    if a == [] {
      assert a + b == b;
    } else {
      assert (a + b)[1..] == a[1..] + b;
      SumsOfConcatenation(a[1..], b);
    }
  }

  /** Two runs of payloads lead to the same point whichever arrives first. */
  lemma ArrivalOrderIrrelevant(p: Point, a: seq<Delta>, b: seq<Delta>)
    ensures ShiftAll(p, a + b) == ShiftAll(p, b + a)
  {
    ShiftAllAddsSums(p, a + b);
    ShiftAllAddsSums(p, b + a);
    SumsOfConcatenation(a, b);
    SumsOfConcatenation(b, a);
  }

  /** The two payloads {5, 0} and {-2, 3}, handled from (10, 10), end at (13, 13). */
  lemma TwoPayloadsFromTenTen()
    ensures ShiftAll(Point(10, 10), [Delta(5, 0), Delta(-2, 3)]) == Point(13, 13)
  {
    ShiftAllAddsSums(Point(10, 10), [Delta(5, 0), Delta(-2, 3)]);
  }

  /** A sprite's position; the opponent is the one the `remote` handler moves. */
  class Entity {
    var x: int
    var y: int

    constructor (x0: int, y0: int)
      ensures x == x0 && y == y0
    {
      x := x0;
      y := y0;
    }

    /** The entity's current position. */
    function At(): Point
      reads this
    {
      Point(x, y)
    }

    /** The `remote` handler: adds the payload's deltas to this entity's coordinates
        and changes nothing else. Successive calls with payloads `ds` therefore take
        the entity from `p` to `ShiftAll(p, ds)`, which `ShiftAllAddsSums` evaluates. */
    method OnRemote(payload: Delta)
      modifies this`x, this`y
      ensures x == old(x) + payload.dx && y == old(y) + payload.dy
      ensures At() == Shift(old(At()), payload)
    {
      x := x + payload.dx;
      y := y + payload.dy;
    }
  }

  /** The things a frame draws. */
  datatype Drawable =
    | Ground | Control | PlayerScore | OpponentScore | Player | Opponent
    | PlayerBasket | OpponentBasket | Ball

  /** The order in which `render` draws a frame, every tick the same; what is drawn
      later covers what was drawn earlier. */
  const RenderOrder: seq<Drawable> :=
    [Ground, Control, PlayerScore, OpponentScore, Player, Opponent,
     PlayerBasket, OpponentBasket, Ball]

  /** The position of `d` in a frame: every drawable is drawn, and drawn once. */
  function DrawIndex(d: Drawable): (i: nat)
    ensures i < |RenderOrder| && RenderOrder[i] == d
    ensures forall j :: 0 <= j < |RenderOrder| && RenderOrder[j] == d ==> j == i
  {
    match d
    case Ground => 0
    case Control => 1
    case PlayerScore => 2
    case OpponentScore => 3
    case Player => 4
    case Opponent => 5
    case PlayerBasket => 6
    case OpponentBasket => 7
    case Ball => 8
  }

  /** The ground is drawn beneath everything and the ball above everything; the
      scores lie under the players, and the players under the baskets. */
  lemma RenderLayers()
    ensures forall d :: d != Ground ==> DrawIndex(Ground) < DrawIndex(d)
    ensures forall d :: d != Ball ==> DrawIndex(d) < DrawIndex(Ball)
    ensures DrawIndex(PlayerScore) < DrawIndex(Player) && DrawIndex(OpponentScore) < DrawIndex(Player)
    ensures DrawIndex(PlayerScore) < DrawIndex(Opponent) && DrawIndex(OpponentScore) < DrawIndex(Opponent)
    ensures DrawIndex(Player) < DrawIndex(PlayerBasket) && DrawIndex(Player) < DrawIndex(OpponentBasket)
    ensures DrawIndex(Opponent) < DrawIndex(PlayerBasket) && DrawIndex(Opponent) < DrawIndex(OpponentBasket)
  {
  }

  /** The test in `maybeRescale`: the context is scaled only when the window is
      neither wider nor taller than the canvas (equal sizes scale too). */
  function ScalesCanvas(windowWidth: int, windowHeight: int, canvasWidth: int, canvasHeight: int): (r: bool)
    ensures r <==> windowWidth <= canvasWidth && windowHeight <= canvasHeight
  {
    if windowWidth > canvasWidth then false
    else if windowHeight > canvasHeight then false
    else true
  }
}
