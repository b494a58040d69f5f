/**
  The game component's state: which page is shown and which room the player
  is in. The start page's button opens the game page, the game page's "End
  Game" button opens the end page, and the end page's button opens the game
  page again. Clicking a door only reports the room behind it, so the player
  stays in the start room "C3" for good.
*/
module App {
  import opened Wrappers
  import opened Grid
  import GridProperties
  import MiniGrid

  datatype Page = Start | Game | End

  /** The controls a player can use; each exists only on some pages. */
  datatype Action = StartGame | EndGame | Door(dir: Direction)

  datatype AppState = AppState(page: Page, currentRoom: string)

  const StartRoom: string := "C3"

  /** The state the component mounts with. */
  const Initial: AppState := AppState(Start, StartRoom)

  /**
    The state after the player uses action a, or None when the current page
    does not show that control.
  */
  function Step(s: AppState, a: Action): (t: Option<AppState>)
    ensures t.Some? ==> t.value.currentRoom == s.currentRoom
    ensures t.Some? ==> (s.page == Game || t.value.page == Game)
    ensures a.Door? ==> (t.Some? <==> s.page == Game) && (t.Some? ==> t.value == s)
  {
    match (s.page, a)
    case (Start, StartGame) => Some(s.(page := Game))
    case (Game, EndGame) => Some(s.(page := End))
    case (Game, Door(_)) => Some(s)
    case (End, StartGame) => Some(s.(page := Game))
    case _ => None
  }

  /** The state after the actions as in order, or None if one of them is not on the page shown at its turn. */
  function Run(s: AppState, actions: seq<Action>): Option<AppState>
    decreases |actions|
  {
    if actions == [] then Some(s)
    else
      match Step(s, actions[0])
      case None => None
      case Some(t) => Run(t, actions[1..])
  }

  /** The page changes are exactly start to game, game to end and end to game. */
  lemma PageTransitions(s: AppState, a: Action)
    ensures Step(s, a).Some? && Step(s, a).value.page != s.page <==>
      (s.page == Start && a == StartGame) ||
      (s.page == Game && a == EndGame) ||
      (s.page == End && a == StartGame)
    ensures Step(s, a).Some? && Step(s, a).value.page != s.page ==>
      (s.page, Step(s, a).value.page) in {(Start, Game), (Game, End), (End, Game)}
  {
  }

  /**
    Along any sequence of actions the room never changes, and the start page
    is left for good on the first action.
  */
  lemma {:induction false} RunKeepsRoom(s: AppState, actions: seq<Action>)
    requires Run(s, actions).Some?
    ensures Run(s, actions).value.currentRoom == s.currentRoom
    ensures Run(s, actions).value.page == Start <==> (s.page == Start && actions == [])
    decreases |actions|
  {
    if actions != [] {
      var t := Step(s, actions[0]).value;
      RunKeepsRoom(t, actions[1..]);
    }
  }

  /** In every state the player can reach, the room is the start room C3. */
  lemma ReachableRoomIsStart(actions: seq<Action>)
    requires Run(Initial, actions).Some?
    ensures Run(Initial, actions).value.currentRoom == StartRoom
    ensures IsRoomName(Run(Initial, actions).value.currentRoom)
  {
    RunKeepsRoom(Initial, actions);
  }

  /** The doors of the start room C3 lead to B3 (north), D3 (south), C2 (west) and C4 (east). */
  lemma StartRoomDoors()
    ensures AdjacentName(StartRoom, North) == "B3"
    ensures AdjacentName(StartRoom, South) == "D3"
    ensures AdjacentName(StartRoom, West) == "C2"
    ensures AdjacentName(StartRoom, East) == "C4"
  {
  }

  /** The highlighted mini-map cells: the mini-map is drawn only on the game page. */
  function MiniMapHighlight(s: AppState): set<int> {
    if s.page == Game then MiniGrid.HighlightedCells(s.currentRoom) else {}
  }

  /**
    In every reachable state on the game page exactly one mini-map cell is
    highlighted, cell 12, labelled C3; on the start and end pages there is no
    mini-map and so no highlighted cell.
  */
  lemma ReachableHighlight(actions: seq<Action>)
    requires Run(Initial, actions).Some?
    ensures var t := Run(Initial, actions).value;
      MiniMapHighlight(t) == if t.page == Game then {12} else {}
  {
    ReachableRoomIsStart(actions);
    MiniGrid.HighlightedExactlyOne(StartRoom);
    assert IndexOf(Letters, 'C') == 2;
  }
}
