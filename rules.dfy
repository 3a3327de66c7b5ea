/** The rules of the lake-crossing puzzle, common to the three game variants
    (the puzzle code of lake_crossing_game_gemini2.py, _gemini4.py and
    _gemini6.py differs only in the store gate on a crossing).

    Three priests and three carnivores start on the left shore with the boat.
    The player loads units into the two-seat boat, sends it across, and unloads
    them.  The game is lost as soon as, on some shore (counting the cargo of a
    boat docked there), carnivores outnumber priests while priests are present;
    it is won when everybody stands on the right shore with the boat empty and
    docked there. */
module Rules {

  /** Priests, and carnivores, in the puzzle. */
  const Population: nat := 3
  /** Seats in the boat. */
  const Capacity: nat := 2

  datatype Kind = Priests | Carnivores

  datatype Side = Left | Right

  /** One population bucket: a shore or the boat's cargo (a `{"priests", "carnivores"}` dict). */
  datatype Shore = Shore(priests: nat, carnivores: nat)

  /** The puzzle fields of one game; `movingBoat` is the flag set while a crossing is under way. */
  datatype Game = Game(left: Shore, right: Shore, boat: Shore, position: Side,
                       moves: nat, movingBoat: bool, gameOver: bool, win: bool)

  function Other(k: Kind): Kind {
    match k
    case Priests => Carnivores
    case Carnivores => Priests
  }

  function Flip(side: Side): Side {
    match side
    case Left => Right
    case Right => Left
  }

  function Count(s: Shore, k: Kind): nat {
    match k
    case Priests => s.priests
    case Carnivores => s.carnivores
  }

  /** `sum(shore.values())`. */
  function Total(s: Shore): nat {
    s.priests + s.carnivores
  }

  function Plus(a: Shore, b: Shore): Shore {
    Shore(a.priests + b.priests, a.carnivores + b.carnivores)
  }

  /** `s` with one more unit of kind `k`. */
  function Inc(s: Shore, k: Kind): Shore {
    if k == Priests then Shore(s.priests + 1, s.carnivores) else Shore(s.priests, s.carnivores + 1)
  }

  /** `s` with one unit of kind `k` fewer. */
  function Dec(s: Shore, k: Kind): Shore
    requires Count(s, k) > 0
  {
    if k == Priests then Shore(s.priests - 1, s.carnivores) else Shore(s.priests, s.carnivores - 1)
  }

  /** The shore at `boat_position`. */
  function Docked(g: Game): Shore {
    if g.position == Left then g.left else g.right
  }

  /** The shore across the lake from the boat. */
  function Undocked(g: Game): Shore {
    if g.position == Left then g.right else g.left
  }

  /** `g` with the shore at `boat_position` replaced by `s`. */
  function WithDocked(g: Game, s: Shore): Game {
    if g.position == Left then g.(left := s) else g.(right := s)
  }

  /** The state `reset_game` sets up. */
  function Initial(): Game {
    Game(Shore(Population, Population), Shore(0, 0), Shore(0, 0), Left, 0, false, false, false)
  }

  /** Each kind totals `Population` over the shores and the boat, and the boat holds at most `Capacity`. */
  predicate Conserved(g: Game) {
    && g.left.priests + g.right.priests + g.boat.priests == Population
    && g.left.carnivores + g.right.carnivores + g.boat.carnivores == Population
    && Total(g.boat) <= Capacity
  }

  /** Carnivores outnumber the priests present. */
  predicate Endangered(s: Shore) {
    s.priests > 0 && s.carnivores > s.priests
  }

  /** The counts `is_valid_state` tests when its loop visits `shore`: the cargo is added
      when the boat is at the left and `shore == left_shore`, or at the right and
      `shore == right_shore`.  Those tests compare dicts by value, so when both shores
      hold equal counts the cargo is added on both visits. */
  function CountedAsWritten(g: Game, shore: Shore): Shore {
    if (g.position == Left && shore == g.left) || (g.position == Right && shore == g.right)
    then Plus(shore, g.boat)
    else shore
  }

  /** `is_valid_state`: neither shore, counted as that loop counts it, is endangered. */
  predicate IsValidState(g: Game) {
    !Endangered(CountedAsWritten(g, g.left)) && !Endangered(CountedAsWritten(g, g.right))
  }

  /** The intended reading of the loss rule: the cargo counts once, toward the docked shore only. */
  predicate SafeWithCargoDocked(g: Game) {
    !Endangered(Plus(Docked(g), g.boat)) && !Endangered(Undocked(g))
  }

  /** `is_win_state`: the exact target state. */
  predicate IsWinState(g: Game) {
    && g.right == Shore(Population, Population)
    && g.left == Shore(0, 0)
    && g.boat == Shore(0, 0)
    && g.position == Right
  }

  /** `check_game_state`: a win is tested first, then validity; otherwise the flags stay. */
  function CheckGameState(g: Game): (r: Game)
    ensures r.(gameOver := g.gameOver, win := g.win) == g
    ensures r.gameOver == (g.gameOver || IsWinState(g) || !IsValidState(g))
    ensures r.win == (IsWinState(g) || (g.win && IsValidState(g)))
  {
    if IsWinState(g) then g.(gameOver := true, win := true)
    else if !IsValidState(g) then g.(gameOver := true, win := false)
    else g
  }

  /** The guard of `move_character`: unloading needs a unit of that kind in the boat;
      loading needs one on the docked shore and a free seat. */
  predicate TransferAllowed(g: Game, k: Kind, fromBoat: bool) {
    if fromBoat then Count(g.boat, k) > 0
    else Count(Docked(g), k) > 0 && Total(g.boat) < Capacity
  }

  /** The count update of `move_character`, without the verdict that follows it. */
  function Transfer(g: Game, k: Kind, fromBoat: bool): Game
  {
    if !TransferAllowed(g, k, fromBoat) then g
    else if fromBoat then WithDocked(g.(boat := Dec(g.boat, k)), Inc(Docked(g), k))
    else WithDocked(g.(boat := Inc(g.boat, k)), Dec(Docked(g), k))
  }

  /** `move_character`: the transfer, then `check_game_state` whether or not it happened. */
  function MoveCharacter(g: Game, k: Kind, fromBoat: bool): (r: Game)
    ensures !TransferAllowed(g, k, fromBoat) ==> r == CheckGameState(g)
    ensures r.position == g.position && r.moves == g.moves && r.movingBoat == g.movingBoat
  {
    CheckGameState(Transfer(g, k, fromBoat))
  }

  /** `start_boat_movement`: the boat sets off only with cargo. */
  function StartBoatMovement(g: Game): (r: Game)
    ensures r.movingBoat <==> g.movingBoat || Total(g.boat) > 0
    ensures r.(movingBoat := g.movingBoat) == g
  {
    if Total(g.boat) > 0 then g.(movingBoat := true) else g
  }

  /** `finish_boat_movement`: with the store connected the boat lands on the other
      side, one move is counted and the verdict is taken; otherwise nothing happens. */
  function FinishBoatMovement(g: Game, storeConnected: bool): (r: Game)
    ensures !storeConnected ==> r == g
    ensures storeConnected ==>
              && r.position == Flip(g.position) && r.moves == g.moves + 1 && !r.movingBoat
              && r.left == g.left && r.right == g.right && r.boat == g.boat
    ensures Total(g.boat) > 0 ==> (r.win ==> g.win)
  {
    if !storeConnected then g
    else CheckGameState(g.(position := Flip(g.position), moves := g.moves + 1, movingBoat := false))
  }

  /** One crossing as a single step: start the boat, and finish the trip if it set off. */
  function Cross(g: Game, storeConnected: bool): (r: Game)
    ensures Total(g.boat) == 0 && !g.movingBoat ==> r == g
    ensures Total(g.boat) > 0 && !storeConnected ==> r == g.(movingBoat := true)
    ensures Total(g.boat) > 0 && storeConnected ==>
              && r.position == Flip(g.position) && r.moves == g.moves + 1 && !r.movingBoat
              && r.left == g.left && r.right == g.right && r.boat == g.boat
    ensures Total(g.boat) > 0 ==> (r.win ==> g.win)
  {
    var s := StartBoatMovement(g);
    if s.movingBoat then FinishBoatMovement(s, storeConnected) else s
  }

  /** What a click lands on, after hit-testing. */
  datatype Click =
    | TryAgainButton
    | EndGameButton
    | MoveBoatButton
    | Unit(kind: Kind, fromBoat: bool)  // a unit in the boat (fromBoat) or on the docked shore
    | OtherButton                       // hint, narration or statistics: no puzzle field changes

  /** The game after a click, and whether the program exits. */
  datatype Outcome = Outcome(game: Game, quit: bool)

  /** `handle_click`: while the game is over only the try-again and end-game buttons act;
      otherwise the move-boat button starts a crossing unless one is under way, and a
      click on an available unit moves it. */
  function HandleClick(g: Game, c: Click, storeConnected: bool): (o: Outcome)
    ensures g.gameOver ==> (if c == TryAgainButton then o.game == Initial() else o.game == g)
    ensures o.quit <==> g.gameOver && c == EndGameButton && !g.win
    ensures !g.gameOver && (c == MoveBoatButton || c.Unit?) ==> o.game.moves <= g.moves + 1
  {
    if g.gameOver then
      match c
      case TryAgainButton => Outcome(Initial(), false)
      case EndGameButton => Outcome(g, !g.win)
      case _ => Outcome(g, false)
    else
      match c
      case MoveBoatButton => Outcome(if g.movingBoat then g else Cross(g, storeConnected), false)
      case Unit(k, fromBoat) =>
        Outcome(if TransferAllowed(g, k, fromBoat) then MoveCharacter(g, k, fromBoat) else g, false)
      case _ => Outcome(g, false)
  }

  /** The game after a sequence of clicks; an exit ends the sequence. */
  function Run(g: Game, clicks: seq<Click>, storeConnected: bool): Game
    decreases |clicks|
  {
    if clicks == [] then g
    else
      var o := HandleClick(g, clicks[0], storeConnected);
      if o.quit then o.game else Run(o.game, clicks[1..], storeConnected)
  }
}
