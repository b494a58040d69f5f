# possible-futures: room grid and page flow

A Dafny model of the game component of *possible-futures*, a small browser
game in which the player walks through a 5x5 grid of rooms. The component
holds three pieces of logic, and this project models each of them:

- **Room-grid topology** (`Grid`, `GridProperties`). A room is named by a row
  letter A..E and a column digit 1..5; `"C3"` is the centre. The door
  function decodes a name into a row index and a column number. It steps one
  row (north/south) or one column (west/east), then answers `"X"` if the step
  leaves the grid, or else the name of the new room. `GetAdjacentRoom` is the
  step-by-step procedure, with local variables and the same chain of `if`s
  as the component. It is proved equal to the pure `AdjacentName`, which
  is defined through the coordinate-level `Adjacent`.
- **Mini-map** (`MiniGrid`). Cell `i` of the 25-cell map is labelled
  `letters[i / 5]` followed by `i % 5 + 1`. The cell whose label equals the
  current room is highlighted.
- **Page flow** (`App`). The page is `start`, `game` or `end`. The current room
  starts at `"C3"`. Buttons move start to game, game to end, and end to game.
  A door click only logs the room behind the door, so it changes nothing.
  The component's `useState` cells are modelled as a plain `AppState` value.
  `Step` gives the state after one click, or `None` when the shown page has
  no such control.

Letters name rows and digits name columns, so north of `C3` is `B3` and east
of `C3` is `C4` (src/App.tsx:21-24, 29).

## Model

| member | source | states |
|---|---|---|
| `Grid.IndexOf` | src/App.tsx:15 | `indexOf` gives the first position of the letter, or -1 exactly when the letter is absent |
| `Grid.DigitChar` | src/App.tsx:29 | turning a column number into text gives a digit character that `parseInt` reads back as that number |
| `Grid.DigitValue` | src/App.tsx:16 | `parseInt` of one digit character is a number 0..9 whose digit character is the character read |
| `Grid.Name` | src/App.tsx:29 | a room's name (row letter, then column number) is always a well-formed room name |
| `Grid.ParseRoom` | src/App.tsx:14-16 | decoding a well-formed name gives a room inside the grid whose name is the decoded string |
| `Grid.Adjacent` | src/App.tsx:18-27 | a step from a room either leaves the grid or reaches a room inside it |
| `Grid.AdjacentName` | src/App.tsx:13-30 | a door shows "X" or a well-formed room name, and shows a room exactly when the step stays on the grid |
| `Grid.GetAdjacentRoom` | src/App.tsx:13-30 | the step-by-step procedure returns the same door name as `AdjacentName` for every room name and direction |
| `GridProperties.RoomsThrough` | src/App.tsx:76-117 | the rooms listed are exactly the rooms behind those of the given doors that do not show "X", all inside the grid, no more than there are doors |
| `GridProperties.NameRoundTrip` | src/App.tsx:15-16 | decoding the name of a valid room gives that room back |
| `GridProperties.NameInjective` | src/App.tsx:29 | two valid rooms have the same name exactly when they are the same room |
| `GridProperties.AdjacentMovesOneStep` | src/App.tsx:21-24 | north/south change only the row, by exactly one (up for north); west/east change only the column, by exactly one (right for east) |
| `GridProperties.AdjacentWallIff` | src/App.tsx:26-27 | a step leaves the grid exactly when going north from row A, south from row E, west from column 1 or east from column 5 |
| `GridProperties.AdjacentOpposite` | src/App.tsx:18-29 | a step that stays on the grid is undone by the step in the opposite direction |
| `GridProperties.AdjacentIffNextTo` | src/App.tsx:18-29 | the rooms reachable in one step are exactly the valid rooms at grid distance one |
| `GridProperties.DoorCount` | src/App.tsx:21-29 | the rooms behind the doors that do not show "X" number 2 for a corner room, 3 for another border room, 4 for an inner room |
| `GridProperties.WallMarkerIsNoRoomName` | src/App.tsx:27 | the wall marker "X" is never a room name, so a door label tells a wall from a room |
| `GridProperties.OpenDoorsByEdges` | src/App.tsx:21-27 | a door label shows a room for north/south unless the room is on row A/E, and for west/east unless it is in column 1/5 |
| `GridProperties.EdgeDoorCount` | src/App.tsx:26 | a room on an edge row and an edge column has 2 open directions, on one edge 3, inside 4 |
| `GridProperties.OpenDoorCount` | src/App.tsx:76-117 | of the four door labels drawn, the number not showing "X" is 2 for A1, A5, E1, E5, 3 for other rooms on row A/E or column 1/5, and 4 otherwise |
| `GridProperties.AdjacentNameWallIff` | src/App.tsx:26-27 | a door name is "X" exactly when it faces north from A, south from E, west from 1 or east from 5 |
| `GridProperties.AdjacentNameChangesOneCharacter` | src/App.tsx:21-29 | north/south keep the digit and take the previous/next letter; west/east keep the letter and take the previous/next digit |
| `GridProperties.AdjacentNameRoundTrip` | src/App.tsx:13-30 | when a door leads to a room, that room's opposite door leads back to the first room |
| `MiniGrid.CellRoom` | src/App.tsx:48-49 | cell i shows a room inside the grid |
| `MiniGrid.CellName` | src/App.tsx:48-50 | the label of cell i is the well-formed name of the room in row i / 5, column i % 5 + 1 |
| `MiniGrid.CellIndex` | src/App.tsx:47-50 | every valid room is shown by some cell in 0..24 |
| `MiniGrid.Cells` | src/App.tsx:47 | the mini-map has 25 cells |
| `MiniGrid.CellIndexRoundTrip` | src/App.tsx:47-50 | the cell-to-room map is one to one, inverse to `CellIndex` |
| `MiniGrid.CellsRowMajor` | src/App.tsx:48-49 | cells list the rooms row by row, each row from column 1 to 5 |
| `MiniGrid.CellsAreRoomNames` | src/App.tsx:47-50 | the labels are exactly the 25 room names, each once |
| `MiniGrid.Highlighted` | src/App.tsx:56 | a cell is highlighted exactly when the current room is a room name and the cell is the one that shows it |
| `MiniGrid.HighlightedExactlyOne` | src/App.tsx:56 | for a room name exactly one cell is highlighted, the one showing that room; for any other string none is |
| `App.Step` | src/App.tsx:9-11 | a click never changes the room; every change of page goes to or from the game page; a door click is possible only on the game page and changes nothing |
| `App.PageTransitions` | src/App.tsx:37 | the page changes exactly on start to game, game to end ("End Game", line 129) and end to game (line 139) |
| `App.RunKeepsRoom` | src/App.tsx:5-11 | along any run of clicks the room stays the same, and the start page is left for good on the first click |
| `App.ReachableRoomIsStart` | src/App.tsx:6 | in every reachable state the current room is the start room C3 |
| `App.StartRoomDoors` | src/App.tsx:6 | the doors of C3 show B3 (north), D3 (south), C2 (west) and C4 (east) |
| `App.ReachableHighlight` | src/App.tsx:40-63 | in every reachable state on the game page exactly one mini-map cell is highlighted, cell 12 (C3); on the start and end pages no mini-map is drawn, so none is |

## Left out

- Rendering, layout, styling and the direction flavour texts: presentation only.
- The `console.log` in the door-click handler: output with no effect on state.
- `Grid.GetAdjacentRoom` and `Grid.AdjacentName` require a well-formed room name. For other strings the component computes meaningless names such as "ANaN". The game only ever passes its current room, which is always "C3".
- `parseInt` is modelled only for a single decimal digit, the only case that well-formed names reach. JavaScript number-to-string conversion is modelled only for the column numbers 1..5.
- React's `useState` scheduling and re-rendering: state is a plain value updated by `Step`.
- src/lifeFutures.ts: a static table of life events that nothing in the component reads.
- Scoring, survival points, random exit corners, random event cards, round limits and a stored highscore: none of these exist in src/App.tsx.
