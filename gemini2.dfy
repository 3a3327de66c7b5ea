/** `LakeCrossingGame` of lake_crossing_game_gemini2.py: the same puzzle fields and
    handlers as the later variants, except that a crossing always lands. */
module Gemini2 {
  import opened Rules
  import RulesProofs

  class LakeCrossingGame {
    var leftShore: Shore
    var rightShore: Shore
    var boatPosition: Side
    var boat: Shore
    var moves: nat
    var movingBoat: bool
    var gameOver: bool
    var win: bool

    /** The puzzle fields as one value. */
    function State(): Game
      reads this
    {
      Game(leftShore, rightShore, boat, boatPosition, moves, movingBoat, gameOver, win)
    }

    /** The constructor ends by calling `reset_game`. */
    constructor()
      ensures State() == Initial()
    {
      leftShore := Shore(Population, Population);
      rightShore := Shore(0, 0);
      boatPosition := Left;
      boat := Shore(0, 0);
      moves := 0;
      movingBoat := false;
      gameOver := false;
      win := false;
    }

    /** `reset_game`: everybody back on the left shore, boat empty, no moves, game on. */
    method ResetGame()
      modifies this
      ensures State() == Initial()
      ensures RulesProofs.Settled(State()) && !gameOver
    {
      leftShore := Shore(Population, Population);
      rightShore := Shore(0, 0);
      boatPosition := Left;
      boat := Shore(0, 0);
      moves := 0;
      movingBoat := false;
      gameOver := false;
      win := false;
      RulesProofs.InitialSettled();
    }

    /** `check_game_state`: a win first, then a loss; otherwise the flags stay. */
    method CheckGameState()
      modifies this
      ensures State() == Rules.CheckGameState(old(State()))
      ensures old(IsWinState(State())) ==> gameOver && win
      ensures old(!IsWinState(State()) && !IsValidState(State())) ==> gameOver && !win
    {
      if IsWinState(State()) {
        gameOver := true;
        win := true;
      } else if !IsValidState(State()) {
        gameOver := true;
        win := false;
      }
    }

    /** `move_character`: unload a unit of kind `k` onto the docked shore, or load one
        from it into a boat with a free seat; then take the verdict either way. */
    method MoveCharacter(k: Kind, fromBoat: bool)
      modifies this
      ensures State() == Rules.MoveCharacter(old(State()), k, fromBoat)
    {
      ghost var g := State();
      if fromBoat {
        if Count(boat, k) > 0 {
          boat := Dec(boat, k);
          if boatPosition == Left {
            leftShore := Inc(leftShore, k);
          } else {
            rightShore := Inc(rightShore, k);
          }
        }
      } else {
        var shore := if boatPosition == Left then leftShore else rightShore;
        if Count(shore, k) > 0 && Total(boat) < Capacity {
          shore := Dec(shore, k);
          if boatPosition == Left {
            leftShore := shore;
          } else {
            rightShore := shore;
          }
          boat := Inc(boat, k);
        }
      }
      assert State() == Transfer(g, k, fromBoat);
      CheckGameState();
    }

    /** `start_boat_movement`: the boat sets off only with cargo aboard. */
    method StartBoatMovement()
      modifies this
      ensures State() == Rules.StartBoatMovement(old(State()))
      ensures movingBoat <==> old(movingBoat) || Total(boat) > 0
    {
      if Total(boat) > 0 {
        movingBoat := true;
      }
    }

    /** `finish_boat_movement`: the boat lands across the lake, one move is counted and
        the verdict is taken; this variant has no store gate. */
    method FinishBoatMovement()
      modifies this
      ensures State() == Rules.FinishBoatMovement(old(State()), true)
      ensures boatPosition == Flip(old(boatPosition)) && moves == old(moves) + 1 && !movingBoat
    {
      ghost var landed := old(State()).(position := Flip(old(boatPosition)), moves := old(moves) + 1, movingBoat := false);
      boatPosition := Flip(boatPosition);
      moves := moves + 1;
      movingBoat := false;
      assert State() == landed;
      CheckGameState();
    }

    /** `handle_click`, after hit-testing: while the game is over only try-again (reset)
        and end-game (exit, unless won) act; otherwise the move-boat button makes a
        crossing unless one is under way, and a click on an available unit moves it.
        Every crossing lands, as in the rules with the store connected. */
    method HandleClick(c: Click) returns (quit: bool)
      modifies this
      ensures State() == Rules.HandleClick(old(State()), c, true).game
      ensures quit == Rules.HandleClick(old(State()), c, true).quit
      ensures old(gameOver) && c != TryAgainButton ==> State() == old(State())
      ensures old(RulesProofs.Settled(State())) ==> RulesProofs.Settled(State())
    {
      if RulesProofs.Settled(State()) {
        RulesProofs.ClickKeepsSettled(State(), c, true);
      }
      quit := false;
      if gameOver {
        if c == TryAgainButton {
          ResetGame();
        } else if c == EndGameButton && !win {
          quit := true;
        }
      } else {
        if c == MoveBoatButton && !movingBoat {
          StartBoatMovement();
          if movingBoat {
            FinishBoatMovement();
          }
        } else if c.Unit? && TransferAllowed(State(), c.kind, c.fromBoat) {
          MoveCharacter(c.kind, c.fromBoat);
        }
      }
    }
  }
}
