/**
  The 5x5 mini-map of the game page. Cell i (0 <= i < 25) is labelled with
  the room in row i / 5 and column i % 5 + 1, so the cells list the rooms in
  row-major order; the cell whose label equals the current room is highlighted.
*/
module MiniGrid {
  import opened Grid
  import GridProperties

  const CellCount: int := 25

  /** The room shown in cell i. */
  function CellRoom(i: int): (r: Room)
    requires 0 <= i < CellCount
    ensures Valid(r)
  {
    Room(i / 5, i % 5 + 1)
  }

  /**
    The label of cell i: the row letter of i / 5 followed by the number
    i % 5 + 1. The second ensures only says that this label is the room's
    name; what the labels promise as a whole (each room once, row by row) is
    stated by CellsAreRoomNames, CellIndexRoundTrip and CellsRowMajor.
  */
  function CellName(i: int): (s: string)
    requires 0 <= i < CellCount
    ensures IsRoomName(s)
    ensures s == Name(CellRoom(i))
  {
    [Letters[i / 5], DigitChar(i % 5 + 1)]
  }

  /** The cell that shows room r; the inverse of CellRoom. */
  function CellIndex(r: Room): (i: int)
    requires Valid(r)
    ensures 0 <= i < CellCount && CellRoom(i) == r
  {
    r.row * 5 + r.col - 1
  }

  /** The labels of all cells, in the order they are laid out. */
  function Cells(): (cs: seq<string>)
    ensures |cs| == CellCount
  {
    seq(CellCount, i requires 0 <= i < CellCount => CellName(i))
  }

  /**
    Whether cell i is drawn highlighted while the player is in room
    currentRoom: exactly when currentRoom is a room name and cell i shows
    that room.
  */
  predicate Highlighted(i: int, currentRoom: string)
    requires 0 <= i < CellCount
    ensures Highlighted(i, currentRoom) <==>
      IsRoomName(currentRoom) && i == CellIndex(ParseRoom(currentRoom))
  {
    GridProperties.NameRoundTrip(CellRoom(i));
    CellIndexRoundTrip(i);
    CellName(i) == currentRoom
  }

  function HighlightedCells(currentRoom: string): set<int> {
    set i | 0 <= i < CellCount && Highlighted(i, currentRoom)
  }

  /** CellRoom and CellIndex are inverse: the cells 0..24 and the 25 rooms correspond one to one. */
  lemma CellIndexRoundTrip(i: int)
    requires 0 <= i < CellCount
    ensures CellIndex(CellRoom(i)) == i
  {
  }

  /** The cells list the rooms row by row, each row from column 1 to column 5. */
  lemma CellsRowMajor(i: int, j: int)
    requires 0 <= i < j < CellCount
    ensures CellRoom(i).row < CellRoom(j).row ||
      (CellRoom(i).row == CellRoom(j).row && CellRoom(i).col < CellRoom(j).col)
  {
  }

  /** The labels are exactly the 25 room names, each appearing once. */
  lemma CellsAreRoomNames()
    ensures forall s :: s in Cells() <==> IsRoomName(s)
    ensures forall i, j :: 0 <= i < j < CellCount ==> Cells()[i] != Cells()[j]
  {
    forall s | IsRoomName(s)
      ensures s in Cells()
    {
      var i := CellIndex(ParseRoom(s));
      assert Cells()[i] == s;
    }
    forall i, j | 0 <= i < j < CellCount
      ensures Cells()[i] != Cells()[j]
    {
      GridProperties.NameInjective(CellRoom(i), CellRoom(j));
      CellIndexRoundTrip(i);
      CellIndexRoundTrip(j);
    }
  }

  /**
    Exactly one cell is highlighted when the current room is a room name: the
    cell that shows that room. No cell is highlighted for any other string.
  */
  lemma HighlightedExactlyOne(currentRoom: string)
    ensures IsRoomName(currentRoom) ==>
      HighlightedCells(currentRoom) == {CellIndex(ParseRoom(currentRoom))}
    ensures !IsRoomName(currentRoom) ==> HighlightedCells(currentRoom) == {}
  {
  }
}
