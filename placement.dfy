/**
 * The client's fleet-placement builder (`ShipPlacement`).
 *
 * The player places the five classic ships in a fixed order. A click at
 * `(x, y)` proposes a straight run of the current ship's size from that
 * anchor, horizontally or vertically; the run is refused when a cell falls
 * past the board's right or bottom edge or lands on a ship already placed.
 * This is the only placement check anywhere in the system: the server stores
 * whatever fleet it is sent.
 */
module Placement {

  import opened Wrappers
  import opened Fleet

  datatype Orientation = Horizontal | Vertical

  /** An entry `{name, size}` of `CLASSIC_SHIPS`. */
  datatype ShipClass = ShipClass(name: string, size: nat)

  /** `CLASSIC_SHIPS`, in the order in which they are placed. */
  const ClassicShips: seq<ShipClass> := [
    ShipClass("Carrier", 5),
    ShipClass("Battleship", 4),
    ShipClass("Cruiser", 3),
    ShipClass("Submarine", 3),
    ShipClass("Destroyer", 2)
  ]

  /** `handleOrientationToggle`: the other orientation. */
  function Toggled(o: Orientation): (r: Orientation)
    ensures r != o
  {
    if o == Horizontal then Vertical else Horizontal
  }

  /** The `i`-th cell from anchor `(x, y)`: `(x + i, y)` horizontally, `(x, y + i)` vertically. */
  function RunCell(x: int, y: int, o: Orientation, i: int): Cell
  {
    Cell(if o == Horizontal then x + i else x, if o == Vertical then y + i else y)
  }

  /** The `size` cells that a ship anchored at `(x, y)` would cover. */
  function Run(x: int, y: int, o: Orientation, size: nat): seq<Cell>
  {
    seq(size, i => RunCell(x, y, o, i))
  }

  /** No cell reaches the right or bottom edge: the only bound the builder checks. */
  predicate FitsBoard(cells: seq<Cell>, boardSize: int)
  {
    forall c :: c in cells ==> c.x < boardSize && c.y < boardSize
  }

  /** Some cell of `cells` is a position of a placed ship. */
  predicate Overlaps(cells: seq<Cell>, ships: seq<Ship>)
  {
    exists i, c :: 0 <= i < |ships| && c in ships[i].positions && c in cells
  }

  /** `cells` runs from its first cell one step at a time in orientation `o`. */
  predicate StraightAs(cells: seq<Cell>, o: Orientation)
  {
    forall k :: 0 <= k < |cells| ==> cells[k] == RunCell(cells[0].x, cells[0].y, o, k)
  }

  /** A single straight, contiguous run of cells. */
  predicate Straight(cells: seq<Cell>)
  {
    StraightAs(cells, Horizontal) || StraightAs(cells, Vertical)
  }

  /** The `placeShip` guards: a ship class is left, and its run fits and is free. */
  predicate Placeable(ships: seq<Ship>, idx: nat, o: Orientation, boardSize: int, x: int, y: int)
  {
    && idx < |ClassicShips|
    && FitsBoard(Run(x, y, o, ClassicShips[idx].size), boardSize)
    && !Overlaps(Run(x, y, o, ClassicShips[idx].size), ships)
  }

  /** Ship `s` is a well-placed ship of class `k`. */
  predicate ShipOfClass(s: Ship, k: ShipClass, boardSize: int)
  {
    && s.name == k.name
    && |s.positions| == k.size
    && Straight(s.positions)
    && NoRepeats(s.positions)
    && FitsBoard(s.positions, boardSize)
  }

  /**
   * The fleet placed so far: the first `|ships|` classic ships, in order,
   * each straight and inside the board's upper bounds, no two sharing a cell.
   */
  ghost predicate PlacedFleet(ships: seq<Ship>, boardSize: int)
  {
    && |ships| <= |ClassicShips|
    && (forall i :: 0 <= i < |ships| ==> ShipOfClass(ships[i], ClassicShips[i], boardSize))
    && (forall i, j :: 0 <= i < j < |ships| ==> Disjoint(ships[i].positions, ships[j].positions))
  }

  /** A run is straight, has exactly `size` distinct cells, and starts at its anchor. */
  lemma RunShape(x: int, y: int, o: Orientation, size: nat)
    ensures |Run(x, y, o, size)| == size
    ensures size > 0 ==> Run(x, y, o, size)[0] == Cell(x, y)
    ensures o == Horizontal ==> forall i :: 0 <= i < size ==> Run(x, y, o, size)[i] == Cell(x + i, y)
    ensures o == Vertical ==> forall i :: 0 <= i < size ==> Run(x, y, o, size)[i] == Cell(x, y + i)
    ensures Straight(Run(x, y, o, size))
    ensures NoRepeats(Run(x, y, o, size))
  {
    var run := Run(x, y, o, size);
    assert StraightAs(run, o);
  }

  /** Adding a placeable run as the next ship keeps the placed fleet well formed. */
  lemma PlaceableExtends(ships: seq<Ship>, o: Orientation, boardSize: int, x: int, y: int)
    requires PlacedFleet(ships, boardSize)
    requires Placeable(ships, |ships|, o, boardSize, x, y)
    ensures PlacedFleet(ships + [Ship(ClassicShips[|ships|].name, Run(x, y, o, ClassicShips[|ships|].size))], boardSize)
  {
    var run := Run(x, y, o, ClassicShips[|ships|].size);
    var ships' := ships + [Ship(ClassicShips[|ships|].name, run)];
    RunShape(x, y, o, ClassicShips[|ships|].size);
    forall i, j | 0 <= i < j < |ships'|
      ensures Disjoint(ships'[i].positions, ships'[j].positions)
    {
      if j == |ships| {
        forall c | c in ships[i].positions
          ensures c !in run
        {
          if c in run {
            assert Overlaps(run, ships);
          }
        }
      }
    }
  }

  /** The `for` loop of `placeShip` that builds `positions`, stopping at the first cell off the board. */
  method BuildRun(x: int, y: int, o: Orientation, size: nat, boardSize: int) returns (positions: Option<seq<Cell>>)
    ensures positions.Some? <==> FitsBoard(Run(x, y, o, size), boardSize)
    ensures positions.Some? ==> positions.value == Run(x, y, o, size)
  {
    var cells: seq<Cell> := [];
    var i := 0;
    while i < size
      invariant 0 <= i <= size
      invariant cells == Run(x, y, o, i)
      invariant FitsBoard(cells, boardSize)
    {
      var px := if o == Horizontal then x + i else x;
      var py := if o == Vertical then y + i else y;
      if px >= boardSize || py >= boardSize {
        assert Run(x, y, o, size)[i] == Cell(px, py);
        return None;
      }
      cells := cells + [Cell(px, py)];
      assert cells == Run(x, y, o, i + 1);
      i := i + 1;
    }
    return Some(cells);
  }

  /** The nested overlap loops of `placeShip`: does any placed ship use one of `positions`? */
  method HasOverlap(positions: seq<Cell>, ships: seq<Ship>) returns (found: bool)
    ensures found <==> Overlaps(positions, ships)
  {
    for i := 0 to |ships|
      invariant forall j, c :: 0 <= j < i && c in ships[j].positions ==> c !in positions
    {
      var s := ships[i];
      for k := 0 to |s.positions|
        invariant forall m :: 0 <= m < k ==> s.positions[m] !in positions
      {
        if s.positions[k] in positions {
          assert s.positions[k] in ships[i].positions;
          return true;
        }
      }
    }
    return false;
  }

  /** The state of one `ShipPlacement` component. */
  class ShipPlacement {

    const boardSize: int
    var ships: seq<Ship>
    var currentShipIdx: nat
    var orientation: Orientation
    var tempPositions: seq<Cell>

    /** One ship placed per class so far, and the placed fleet well formed. */
    ghost predicate Valid()
      reads this
    {
      currentShipIdx == |ships| && PlacedFleet(ships, boardSize)
    }

    /** The initial `useState` values. */
    constructor (boardSize: int)
      ensures Valid()
      ensures this.boardSize == boardSize
      ensures ships == [] && currentShipIdx == 0 && orientation == Horizontal && tempPositions == []
    {
      this.boardSize := boardSize;
      ships := [];
      currentShipIdx := 0;
      orientation := Horizontal;
      tempPositions := [];
    }

    /**
     * `placeShip(x, y)` (reached through `handleCellClick`): appends the
     * current class's run and moves to the next class, or changes nothing.
     */
    method PlaceShip(x: int, y: int)
      requires Valid()
      modifies this
      ensures Valid()
      ensures orientation == old(orientation)
      ensures Placeable(old(ships), old(currentShipIdx), orientation, boardSize, x, y) ==>
        && ships == old(ships) + [Ship(ClassicShips[old(currentShipIdx)].name,
                                       Run(x, y, orientation, ClassicShips[old(currentShipIdx)].size))]
        && currentShipIdx == old(currentShipIdx) + 1
        && tempPositions == []
      ensures !Placeable(old(ships), old(currentShipIdx), orientation, boardSize, x, y) ==>
        ships == old(ships) && currentShipIdx == old(currentShipIdx) && tempPositions == old(tempPositions)
    {
      if currentShipIdx >= |ClassicShips| {
        return;
      }
      var ship := ClassicShips[currentShipIdx];
      var positions := BuildRun(x, y, orientation, ship.size, boardSize);
      if positions.None? {
        return;
      }
      var overlap := HasOverlap(positions.value, ships);
      if overlap {
        return;
      }
      PlaceableExtends(ships, orientation, boardSize, x, y);
      ships := ships + [Ship(ship.name, positions.value)];
      currentShipIdx := currentShipIdx + 1;
      tempPositions := [];
    }

    /** `previewShip(x, y)`: shows exactly the cells `placeShip(x, y)` would add, or nothing. */
    method PreviewShip(x: int, y: int)
      requires Valid()
      modifies this`tempPositions
      ensures Placeable(ships, currentShipIdx, orientation, boardSize, x, y) ==>
        tempPositions == Run(x, y, orientation, ClassicShips[currentShipIdx].size)
      ensures !Placeable(ships, currentShipIdx, orientation, boardSize, x, y) ==> tempPositions == []
    {
      if currentShipIdx >= |ClassicShips| {
        tempPositions := [];
        return;
      }
      var ship := ClassicShips[currentShipIdx];
      var positions := BuildRun(x, y, orientation, ship.size, boardSize);
      if positions.None? {
        tempPositions := [];
        return;
      }
      var overlap := HasOverlap(positions.value, ships);
      if overlap {
        tempPositions := [];
        return;
      }
      tempPositions := positions.value;
    }

    /** `clearPreview`. */
    method ClearPreview()
      modifies this`tempPositions
      ensures tempPositions == []
    {
      tempPositions := [];
    }

    /** `handleOrientationToggle`. */
    method ToggleOrientation()
      modifies this`orientation
      ensures orientation == Toggled(old(orientation))
    {
      orientation := Toggled(orientation);
    }

    /**
     * `handleSubmit`: hands the fleet to `onPlaceShips` only once all five
     * classes are placed; what it hands over is then a complete fleet.
     */
    method HandleSubmit() returns (sent: Option<seq<Ship>>)
      requires Valid()
      ensures sent.Some? <==> |ships| == |ClassicShips|
      ensures sent.Some? ==> sent.value == ships && PlacedFleet(sent.value, boardSize)
    {
      if |ships| == |ClassicShips| {
        sent := Some(ships);
      } else {
        sent := None;
      }
    }
  }

}
