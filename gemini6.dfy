/** `LakeCrossingGame` of lake_crossing_game_gemini6.py: the puzzle fields, updated in
    place by the click handler, with a crossing that only lands while the store is
    connected; plus the mistake tags it records with each move and its table of hints. */
module Gemini6 {
  import opened Wrappers
  import opened Rules
  import RulesProofs

  class LakeCrossingGame {
    var leftShore: Shore
    var rightShore: Shore
    var boatPosition: Side
    var boat: Shore
    var moves: nat
    var movingBoat: bool
    var gameOver: bool
    var win: bool

    /** The puzzle fields as one value. */
    function State(): Game
      reads this
    {
      Game(leftShore, rightShore, boat, boatPosition, moves, movingBoat, gameOver, win)
    }

    /** The constructor ends by calling `reset_game`. */
    constructor()
      ensures State() == Initial()
    {
      leftShore := Shore(Population, Population);
      rightShore := Shore(0, 0);
      boatPosition := Left;
      boat := Shore(0, 0);
      moves := 0;
      movingBoat := false;
      gameOver := false;
      win := false;
    }

    /** `reset_game`: everybody back on the left shore, boat empty, no moves, game on. */
    method ResetGame()
      modifies this
      ensures State() == Initial()
      ensures RulesProofs.Settled(State()) && !gameOver
    {
      leftShore := Shore(Population, Population);
      rightShore := Shore(0, 0);
      boatPosition := Left;
      boat := Shore(0, 0);
      moves := 0;
      movingBoat := false;
      gameOver := false;
      win := false;
      RulesProofs.InitialSettled();
    }

    /** `check_game_state`: a win first, then a loss; otherwise the flags stay. */
    method CheckGameState()
      modifies this
      ensures State() == Rules.CheckGameState(old(State()))
      ensures old(IsWinState(State())) ==> gameOver && win
      ensures old(!IsWinState(State()) && !IsValidState(State())) ==> gameOver && !win
    {
      if IsWinState(State()) {
        gameOver := true;
        win := true;
      } else if !IsValidState(State()) {
        gameOver := true;
        win := false;
      }
    }

    /** `move_character`: unload a unit of kind `k` onto the docked shore, or load one
        from it into a boat with a free seat; then take the verdict either way. */
    method MoveCharacter(k: Kind, fromBoat: bool)
      modifies this
      ensures State() == Rules.MoveCharacter(old(State()), k, fromBoat)
    {
      ghost var g := State();
      if fromBoat {
        if Count(boat, k) > 0 {
          boat := Dec(boat, k);
          if boatPosition == Left {
            leftShore := Inc(leftShore, k);
          } else {
            rightShore := Inc(rightShore, k);
          }
        }
      } else {
        var shore := if boatPosition == Left then leftShore else rightShore;
        if Count(shore, k) > 0 && Total(boat) < Capacity {
          shore := Dec(shore, k);
          if boatPosition == Left {
            leftShore := shore;
          } else {
            rightShore := shore;
          }
          boat := Inc(boat, k);
        }
      }
      assert State() == Transfer(g, k, fromBoat);
      CheckGameState();
    }

    /** `start_boat_movement`: the boat sets off only with cargo aboard. */
    method StartBoatMovement()
      modifies this
      ensures State() == Rules.StartBoatMovement(old(State()))
      ensures movingBoat <==> old(movingBoat) || Total(boat) > 0
    {
      if Total(boat) > 0 {
        movingBoat := true;
      }
    }

    /** `finish_boat_movement`: without the store nothing happens; otherwise the boat
        lands across the lake, one move is counted and the verdict is taken. */
    method FinishBoatMovement(storeConnected: bool)
      modifies this
      ensures State() == Rules.FinishBoatMovement(old(State()), storeConnected)
    {
      if !storeConnected {
        return;
      }
      ghost var landed := old(State()).(position := Flip(old(boatPosition)), moves := old(moves) + 1, movingBoat := false);
      boatPosition := Flip(boatPosition);
      moves := moves + 1;
      movingBoat := false;
      assert State() == landed;
      CheckGameState();
    }

    /** `handle_click`, after hit-testing: while the game is over only try-again (reset)
        and end-game (exit, unless won) act; otherwise the move-boat button makes a
        crossing unless one is under way, and a click on an available unit moves it. */
    method HandleClick(c: Click, storeConnected: bool) returns (quit: bool)
      modifies this
      ensures State() == Rules.HandleClick(old(State()), c, storeConnected).game
      ensures quit == Rules.HandleClick(old(State()), c, storeConnected).quit
      ensures old(gameOver) && c != TryAgainButton ==> State() == old(State())
      ensures old(RulesProofs.Settled(State())) ==> RulesProofs.Settled(State())
    {
      if RulesProofs.Settled(State()) {
        RulesProofs.ClickKeepsSettled(State(), c, storeConnected);
      }
      quit := false;
      if gameOver {
        if c == TryAgainButton {
          ResetGame();
        } else if c == EndGameButton && !win {
          quit := true;
        }
      } else {
        if c == MoveBoatButton && !movingBoat {
          StartBoatMovement();
          if movingBoat {
            FinishBoatMovement(storeConnected);
          }
        } else if c.Unit? && TransferAllowed(State(), c.kind, c.fromBoat) {
          MoveCharacter(c.kind, c.fromBoat);
        }
      }
    }
  }

  /** The mistake tags `track_mistakes` records. */
  const OutnumberTag: string := "carnivores_outnumber_priests"
  const InvalidLoadTag: string := "invalid_boat_load"

  /** The tags of one shore, as `track_mistakes`'s loop tests it: on the raw counts. */
  function ShoreTags(s: Shore): seq<string> {
    if Endangered(s) then [OutnumberTag] else []
  }

  /** `track_mistakes`: one outnumbering tag per shore where, without the cargo,
      carnivores outnumber the priests present, then a tag for an overloaded boat. */
  function TrackMistakes(g: Game): (r: seq<string>)
    ensures forall i :: 0 <= i < |r| ==> r[i] == OutnumberTag || r[i] == InvalidLoadTag
    ensures multiset(r)[OutnumberTag] == (if Endangered(g.left) then 1 else 0) + (if Endangered(g.right) then 1 else 0)
    ensures multiset(r)[InvalidLoadTag] == (if Total(g.boat) > Capacity then 1 else 0)
    ensures r == [] <==> !Endangered(g.left) && !Endangered(g.right) && Total(g.boat) <= Capacity
  {
    ShoreTags(g.left) + ShoreTags(g.right) + (if Total(g.boat) > Capacity then [InvalidLoadTag] else [])
  }

  /** Under conservation and capacity the boat-load tag never appears. */
  lemma NoInvalidLoadWhenConserved(g: Game)
    requires Conserved(g)
    ensures InvalidLoadTag !in TrackMistakes(g)
  {
  }

  /** With the boat empty the tags agree with the verdict: some tag appears exactly when
      `is_valid_state` fails. */
  lemma TagsMatchVerdictWithEmptyBoat(g: Game)
    requires Conserved(g) && Total(g.boat) == 0
    ensures TrackMistakes(g) != [] <==> !IsValidState(g)
  {
    RulesProofs.AliasingHarmless(g);
    assert Plus(Docked(g), g.boat) == Docked(g);
  }

  /** In a valid state at most the docked shore is tagged, and then only because priests
      in the boat make up the difference there. */
  lemma TagOnlyWhereCargoSaves(g: Game)
    requires Conserved(g) && IsValidState(g)
    ensures !Endangered(Undocked(g))
    ensures OutnumberTag in TrackMistakes(g) ==> Endangered(Docked(g)) && g.boat.priests > 0
  {
    RulesProofs.AliasingHarmless(g);
    if OutnumberTag in TrackMistakes(g) {
      assert multiset(TrackMistakes(g))[OutnumberTag] > 0;
    }
  }

  /** The tags are not the verdict: a valid state with the cargo docked can be tagged ... */
  lemma TaggedButValid()
    ensures var g := Game(Shore(1, 2), Shore(1, 1), Shore(1, 0), Left, 3, false, false, false);
            Conserved(g) && IsValidState(g) && TrackMistakes(g) == [OutnumberTag]
  {
    var g := Game(Shore(1, 2), Shore(1, 1), Shore(1, 0), Left, 3, false, false, false);
    assert CountedAsWritten(g, g.left) == Shore(2, 2);
  }

  /** ... and a lost state can be untagged, since the cargo that loses it is not counted. */
  lemma LostButUntagged()
    ensures var g := Game(Shore(1, 1), Shore(2, 0), Shore(0, 2), Left, 3, false, false, false);
            Conserved(g) && !IsValidState(g) && TrackMistakes(g) == []
  {
    var g := Game(Shore(1, 1), Shore(2, 0), Shore(0, 2), Left, 3, false, false, false);
    assert CountedAsWritten(g, g.left) == Shore(1, 3);
  }

  /** The key `get_hint` builds: the two shores' counts and the boat's side (not its cargo). */
  datatype HintKey = HintKey(left: Shore, right: Shore, position: Side)

  function KeyOf(g: Game): HintKey {
    HintKey(g.left, g.right, g.position)
  }

  /** `get_hint`'s table of hints along the known solution. */
  const HintTable: map<HintKey, string> := map[
    HintKey(Shore(3, 3), Shore(0, 0), Left) := "Consider moving 1 priest and 1 carnivore to start safely.",
    HintKey(Shore(2, 2), Shore(1, 1), Right) := "Bring the priest back, leaving the carnivore on the right shore.",
    HintKey(Shore(3, 2), Shore(0, 1), Left) := "Take 2 carnivores to the right shore now.",
    HintKey(Shore(3, 0), Shore(0, 3), Right) := "Bring 1 carnivore back to balance the shores.",
    HintKey(Shore(3, 1), Shore(0, 2), Left) := "Now it's safe to move 2 priests to the right.",
    HintKey(Shore(1, 1), Shore(2, 2), Right) := "Return with 1 priest and 1 carnivore to help the remaining group.",
    HintKey(Shore(2, 2), Shore(1, 1), Left) := "Take the remaining 2 priests to the right shore.",
    HintKey(Shore(0, 2), Shore(3, 1), Right) := "Move 1 carnivore to the left to help with final crossing.",
    HintKey(Shore(0, 3), Shore(3, 0), Left) := "Take 2 carnivores to the right shore.",
    HintKey(Shore(0, 1), Shore(3, 2), Right) := "One last trip: bring back 1 carnivore.",
    HintKey(Shore(0, 2), Shore(3, 1), Left) := "Final move: take the last 2 carnivores across!"
  ]

  /** The table lookup of `get_hint`; `None` is the fall-through to the external generator. */
  function GetHint(g: Game): (r: Option<string>)
    ensures r.Some? <==> KeyOf(g) in HintTable
    ensures r.Some? ==> r.value == HintTable[KeyOf(g)] && r.value != ""
  {
    if KeyOf(g) in HintTable then Some(HintTable[KeyOf(g)]) else None
  }

  /** The state before each crossing of the known solution. */
  function BeforeCrossing(n: nat): Game
    requires n < |RulesProofs.Solution|
  {
    if n == 0 then Initial()
    else if n == 1 then RulesProofs.After1()
    else if n == 2 then RulesProofs.After2()
    else if n == 3 then RulesProofs.After3()
    else if n == 4 then RulesProofs.After4()
    else if n == 5 then RulesProofs.After5()
    else if n == 6 then RulesProofs.After6()
    else if n == 7 then RulesProofs.After7()
    else if n == 8 then RulesProofs.After8()
    else if n == 9 then RulesProofs.After9()
    else RulesProofs.After10()
  }

  /** The keys of the table, in the order of the known solution. */
  const HintKeys: seq<HintKey> := [
    HintKey(Shore(3, 3), Shore(0, 0), Left), HintKey(Shore(2, 2), Shore(1, 1), Right),
    HintKey(Shore(3, 2), Shore(0, 1), Left), HintKey(Shore(3, 0), Shore(0, 3), Right),
    HintKey(Shore(3, 1), Shore(0, 2), Left), HintKey(Shore(1, 1), Shore(2, 2), Right),
    HintKey(Shore(2, 2), Shore(1, 1), Left), HintKey(Shore(0, 2), Shore(3, 1), Right),
    HintKey(Shore(0, 3), Shore(3, 0), Left), HintKey(Shore(0, 1), Shore(3, 2), Right),
    HintKey(Shore(0, 2), Shore(3, 1), Left)]

  lemma HintKeysAreTable()
    ensures forall key :: key in HintTable <==> key in HintKeys
  {
  }

  /** The table holds a hint for exactly the eleven states the known solution stops at
      before a crossing, in order, and for no other key. */
  lemma HintsFollowSolution()
    ensures |HintKeys| == |RulesProofs.Solution|
    ensures forall n :: 0 <= n < |HintKeys| ==> KeyOf(BeforeCrossing(n)) == HintKeys[n]
    ensures forall g :: GetHint(g).Some? <==> KeyOf(g) in HintKeys
  {
    HintKeysAreTable();
  }

  /** A game in progress with the boat empty at the given key. */
  function AtKey(key: HintKey): Game {
    Game(key.left, key.right, Shore(0, 0), key.position, 0, false, false, false)
  }

  /** With the boat empty, `is_valid_state` reads the raw counts of both shores. */
  lemma EmptyBoatVerdict(g: Game)
    requires g.boat == Shore(0, 0)
    ensures IsValidState(g) <==> !Endangered(g.left) && !Endangered(g.right)
  {
    assert CountedAsWritten(g, g.left) == g.left && CountedAsWritten(g, g.right) == g.right;
  }

  /** Both shores of the key together hold everybody, and neither is endangered. */
  predicate KeyInPlay(key: HintKey) {
    && key.left.priests + key.right.priests == Population
    && key.left.carnivores + key.right.carnivores == Population
    && !Endangered(key.left) && !Endangered(key.right)
    && key.left != Shore(0, 0)
  }

  /** Every state the table names, with the boat empty, is a game in progress: conserved,
      valid and not yet won. */
  lemma HintStatesInPlay(n: nat)
    requires n < |HintKeys|
    ensures Conserved(AtKey(HintKeys[n])) && IsValidState(AtKey(HintKeys[n])) && !IsWinState(AtKey(HintKeys[n]))
  {
    assert forall i :: 0 <= i < |HintKeys| ==> KeyInPlay(HintKeys[i]);
    EmptyBoatVerdict(AtKey(HintKeys[n]));
  }
}
