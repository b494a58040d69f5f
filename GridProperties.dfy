/**
  What the room-grid topology promises: names and rooms correspond one to one,
  a step moves exactly one row or one column, the wall marker appears exactly at
  the edges, steps are undone by the opposite step, and each room has two, three
  or four doors that lead somewhere depending on where it lies.
*/
module GridProperties {
  import opened Wrappers
  import opened Grid

  function Opposite(d: Direction): Direction {
    match d
    case North => South
    case South => North
    case West => East
    case East => West
  }

  function Abs(x: int): int {
    if x < 0 then -x else x
  }

  /** The directions of the four doors, in the order the room view lays them out. */
  const DoorDirections: seq<Direction> := [North, East, South, West]

  predicate IsCorner(r: Room) {
    (r.row == 0 || r.row == |Letters| - 1) && (r.col == 1 || r.col == Columns)
  }

  predicate OnBorder(r: Room) {
    r.row == 0 || r.row == |Letters| - 1 || r.col == 1 || r.col == Columns
  }

  /** The rooms the doors in directions ds lead to, skipping the doors that show the wall marker. */
  function RoomsThrough(r: Room, ds: seq<Direction>): (rs: seq<Room>)
    requires Valid(r)
    ensures |rs| <= |ds|
    ensures forall n :: n in rs ==> Valid(n)
    ensures forall n :: n in rs <==> exists i :: 0 <= i < |ds| && Adjacent(r, ds[i]) == Some(n)
  {
    if ds == [] then []
    else
      var rest := RoomsThrough(r, ds[1..]);
      match Adjacent(r, ds[0])
      case None => rest
      case Some(n) => [n] + rest
  }

  /** Names and rooms correspond one to one: rendering a valid room and decoding gives it back. */
  lemma NameRoundTrip(r: Room)
    requires Valid(r)
    ensures ParseRoom(Name(r)) == r
  {
  }

  lemma NameInjective(r: Room, q: Room)
    requires Valid(r) && Valid(q)
    ensures Name(r) == Name(q) <==> r == q
  {
  }

  /** North and south change only the row, by one; west and east change only the column, by one. */
  lemma AdjacentMovesOneStep(r: Room, d: Direction, n: Room)
    requires Valid(r) && Adjacent(r, d) == Some(n)
    ensures n.col == r.col <==> (d == North || d == South)
    ensures n.row == r.row <==> (d == West || d == East)
    ensures n.row == r.row - 1 <==> d == North
    ensures n.row == r.row + 1 <==> d == South
    ensures n.col == r.col - 1 <==> d == West
    ensures n.col == r.col + 1 <==> d == East
  {
  }

  /** A door is a wall exactly when it faces out of the grid. */
  lemma AdjacentWallIff(r: Room, d: Direction)
    requires Valid(r)
    ensures Adjacent(r, d) == None <==>
      (d == North && r.row == 0) || (d == South && r.row == |Letters| - 1) ||
      (d == West && r.col == 1) || (d == East && r.col == Columns)
  {
  }

  /** Stepping back in the opposite direction returns to the room one came from. */
  lemma AdjacentOpposite(r: Room, d: Direction)
    requires Valid(r) && Adjacent(r, d).Some?
    ensures Adjacent(Adjacent(r, d).value, Opposite(d)) == Some(r)
  {
  }

  /** The rooms reachable in one step are exactly the valid rooms at grid distance one. */
  lemma AdjacentIffNextTo(r: Room, n: Room)
    requires Valid(r) && Valid(n)
    ensures (exists d :: Adjacent(r, d) == Some(n)) <==> Abs(r.row - n.row) + Abs(r.col - n.col) == 1
  {
    if Abs(r.row - n.row) + Abs(r.col - n.col) == 1 {
      var d :=
        if n.row == r.row - 1 then North
        else if n.row == r.row + 1 then South
        else if n.col == r.col - 1 then West
        else East;
      assert Adjacent(r, d) == Some(n);
    }
  }

  /** Corners have two doors that lead to a room (do not show "X"), other border rooms three, inner rooms four. */
  lemma DoorCount(r: Room)
    requires Valid(r)
    ensures |RoomsThrough(r, DoorDirections)| ==
      if IsCorner(r) then 2 else if OnBorder(r) then 3 else 4
  {
    var ds := DoorDirections;
    assert ds[1..] == [East, South, West];
    assert ds[2..] == [South, West];
    assert ds[3..] == [West];
    assert ds[4..] == [];
  }

  /**
    The wall marker is never a room name, so a door label (which AdjacentName
    promises is "X" or a room name) always tells a wall from a room.
  */
  lemma WallMarkerIsNoRoomName()
    ensures !IsRoomName(OffGrid)
  {
  }

  /** The directions whose door, in the room named s, shows a room name rather than "X". */
  function OpenDoors(s: string): set<Direction>
    requires IsRoomName(s)
  {
    set d | d in DoorDirections && AdjacentName(s, d) != OffGrid
  }

  /** The directions open to north or south from row letter c: both, except on the edge rows A and E. */
  function VerticalDoors(c: char): set<Direction> {
    if c == 'A' then {South} else if c == 'E' then {North} else {North, South}
  }

  /** The directions open to west or east from column digit c: both, except on the edge columns 1 and 5. */
  function HorizontalDoors(c: char): set<Direction> {
    if c == '1' then {East} else if c == '5' then {West} else {West, East}
  }

  /** The open doors of room s: north/south unless on an edge row, west/east unless on an edge column. */
  lemma OpenDoorsByEdges(s: string)
    requires IsRoomName(s)
    ensures OpenDoors(s) == VerticalDoors(s[0]) + HorizontalDoors(s[1])
  {
    forall d | d in DoorDirections
      ensures d in OpenDoors(s) <==> d in VerticalDoors(s[0]) + HorizontalDoors(s[1])
    {
      AdjacentNameWallIff(s, d);
    }
    forall d ensures d in DoorDirections {
      assert d == DoorDirections[match d case North => 0 case East => 1 case South => 2 case West => 3];
    }
  }

  /** Two open directions on an edge row and an edge column, three on one edge, four inside. */
  lemma EdgeDoorCount(row: char, col: char)
    ensures |VerticalDoors(row) + HorizontalDoors(col)| ==
      if (row == 'A' || row == 'E') && (col == '1' || col == '5') then 2
      else if row == 'A' || row == 'E' || col == '1' || col == '5' then 3
      else 4
  {
    var v, h := VerticalDoors(row), HorizontalDoors(col);
    assert v !! h;
    assert |v| == (if row == 'A' || row == 'E' then 1 else 2);
    assert |h| == (if col == '1' || col == '5' then 1 else 2);
    if row == 'A' || row == 'E' {
      if col == '1' || col == '5' {
        assert |v + h| == 2;
      } else {
        assert |v + {West, East}| == 3;
      }
    } else if col == '1' || col == '5' {
      assert |{North, South} + h| == 3;
    } else {
      assert |{North, South} + {West, East}| == 4;
    }
  }

  /**
    Of the four door labels of room s, two show a room in the corners A1, A5,
    E1, E5, three in the other rooms of row A or E or column 1 or 5, and four
    in the inner rooms.
  */
  lemma OpenDoorCount(s: string)
    requires IsRoomName(s)
    ensures |OpenDoors(s)| ==
      if (s[0] == 'A' || s[0] == 'E') && (s[1] == '1' || s[1] == '5') then 2
      else if s[0] == 'A' || s[0] == 'E' || s[1] == '1' || s[1] == '5' then 3
      else 4
  {
    OpenDoorsByEdges(s);
    EdgeDoorCount(s[0], s[1]);
  }

  /** The door shows "X" exactly when it faces out of the grid: north of row A, south of row E, west of column 1, east of column 5. */
  lemma AdjacentNameWallIff(s: string, d: Direction)
    requires IsRoomName(s)
    ensures AdjacentName(s, d) == OffGrid <==>
      (d == North && s[0] == 'A') || (d == South && s[0] == 'E') ||
      (d == West && s[1] == '1') || (d == East && s[1] == '5')
  {
  }

  /**
    Moving north or south keeps the column digit and takes the previous or next
    row letter; moving west or east keeps the row letter and takes the previous
    or next column digit.
  */
  lemma AdjacentNameChangesOneCharacter(s: string, d: Direction)
    requires IsRoomName(s) && AdjacentName(s, d) != OffGrid
    ensures var t := AdjacentName(s, d); var i := IndexOf(Letters, s[0]);
      && (d == North ==> t[1] == s[1] && 0 < i && t[0] == Letters[i - 1])
      && (d == South ==> t[1] == s[1] && i + 1 < |Letters| && t[0] == Letters[i + 1])
      && (d == West ==> t[0] == s[0] && t[1] as int == s[1] as int - 1)
      && (d == East ==> t[0] == s[0] && t[1] as int == s[1] as int + 1)
  {
  }

  /** If a door leads to a room, that room's door in the opposite direction leads back. */
  lemma AdjacentNameRoundTrip(s: string, d: Direction)
    requires IsRoomName(s) && AdjacentName(s, d) != OffGrid
    ensures AdjacentName(AdjacentName(s, d), Opposite(d)) == s
  {
  }
}
