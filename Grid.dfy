/**
  Room-grid topology of the game.

  The dungeon is a 5x5 grid. A room's name is a row letter A..E followed by a
  column digit 1..5, so "C3" is the centre room (row C, column 3). Stepping
  north or south changes the row letter, stepping west or east changes the
  column digit; a step that leaves the grid yields the wall marker "X".
*/
module Grid {
  import opened Wrappers

  /** The row letters, top row first (`letters` in the component). */
  const Letters: seq<char> := ['A', 'B', 'C', 'D', 'E']
  /** Columns are numbered 1..Columns. */
  const Columns: int := 5
  /** The name shown on a door that leads off the grid. */
  const OffGrid: string := "X"

  datatype Direction = North | South | East | West

  /** A room by coordinates: `row` indexes Letters, `col` is the column number as shown. */
  datatype Room = Room(row: int, col: int)

  predicate InGrid(row: int, col: int) {
    0 <= row < |Letters| && 1 <= col <= Columns
  }

  predicate Valid(r: Room) {
    InGrid(r.row, r.col)
  }

  /** A well-formed room name: one of the letters A..E, then one of the digits 1..5. */
  predicate IsRoomName(s: string) {
    |s| == 2 && s[0] in Letters && '1' <= s[1] <= '5'
  }

  /** `xs.indexOf(c)`: the position of the first c in xs, or -1 when there is none. */
  function IndexOf(xs: seq<char>, c: char): (k: int)
    ensures -1 <= k < |xs|
    ensures 0 <= k ==> xs[k] == c
    ensures forall j :: 0 <= j < |xs| && (k < 0 || j < k) ==> xs[j] != c
  {
    if xs == [] then -1
    else if xs[0] == c then 0
    else
      var k := IndexOf(xs[1..], c);
      if k < 0 then -1 else k + 1
  }

  /** The decimal digit character of n: how a column number 1..5 is turned into text. */
  function DigitChar(n: int): (c: char)
    requires 0 <= n <= 9
    ensures '0' <= c <= '9' && DigitValue(c) == n
  {
    ('0' as int + n) as char
  }

  /** `parseInt` of a one-character string holding a decimal digit. */
  function DigitValue(c: char): (v: int)
    requires '0' <= c <= '9'
    ensures 0 <= v <= 9
    ensures ('0' as int + v) as char == c
  {
    c as int - '0' as int
  }

  /** The name of a room: its row letter followed by its column number in decimal. */
  function Name(r: Room): (s: string)
    requires Valid(r)
    ensures IsRoomName(s)
  {
    [Letters[r.row], DigitChar(r.col)]
  }

  /** The room a well-formed name denotes: row from the letter's position, column from the digit. */
  function ParseRoom(s: string): (r: Room)
    requires IsRoomName(s)
    ensures Valid(r)
    ensures Name(r) == s
  {
    Room(IndexOf(Letters, s[0]), DigitValue(s[1]))
  }

  /** The (row, column) change of one step: north is one row up, east one column right. */
  function Delta(d: Direction): (int, int) {
    match d
    case North => (-1, 0)
    case South => (1, 0)
    case West => (0, -1)
    case East => (0, 1)
  }

  /** The room one step from r in direction d, or None when the step leaves the grid. */
  function Adjacent(r: Room, d: Direction): (n: Option<Room>)
    requires Valid(r)
    ensures n.Some? ==> Valid(n.value)
  {
    var (dr, dc) := Delta(d);
    if InGrid(r.row + dr, r.col + dc) then Some(Room(r.row + dr, r.col + dc)) else None
  }

  /** The name on the door from the room named s in direction d: a room name, or "X" for a wall. */
  function AdjacentName(s: string, d: Direction): (t: string)
    requires IsRoomName(s)
    ensures t == OffGrid || IsRoomName(t)
    ensures t != OffGrid <==> Adjacent(ParseRoom(s), d).Some?
  {
    match Adjacent(ParseRoom(s), d)
    case None => OffGrid
    case Some(n) => Name(n)
  }

  /**
    `getAdjacentRoom(current, dir)`: decode the name into a row index and a
    column number, move one step, and either report the wall or rebuild the
    name from the new row letter and column number.
  */
  method GetAdjacentRoom(current: string, dir: Direction) returns (next: string)
    requires IsRoomName(current)
    ensures next == AdjacentName(current, dir)
  {
    var row := IndexOf(Letters, current[0]);
    var col := DigitValue(current[1]);

    var newRow := row;
    var newCol := col;

    if dir == North { newRow := newRow - 1; }
    if dir == South { newRow := newRow + 1; }
    if dir == West { newCol := newCol - 1; }
    if dir == East { newCol := newCol + 1; }

    if newRow < 0 || newRow >= |Letters| || newCol < 1 || newCol > Columns {
      return OffGrid;
    }
    return [Letters[newRow], DigitChar(newCol)];
  }
}
