/** Properties of the puzzle rules: conservation and capacity, the flags agreeing
    with the verdict, the game-over gate, the harmless value-equality aliasing in
    `is_valid_state`, and two concrete games. */
module RulesProofs {
  import opened Rules

  /** The flags agree with the verdict on the current counts, which are conserved. */
  predicate Settled(g: Game) {
    && Conserved(g)
    && g.gameOver == (IsWinState(g) || !IsValidState(g))
    && g.win == IsWinState(g)
  }

  lemma InitialSettled()
    ensures Settled(Initial()) && !Initial().gameOver && IsValidState(Initial())
  {
  }

  lemma WinIsValid(g: Game)
    requires IsWinState(g)
    ensures IsValidState(g) && Conserved(g)
  {
  }

  /** Under conservation and capacity both shores hold equal counts only in one
      configuration: one priest and one carnivore on each shore and in the boat. */
  lemma EqualShoresOnlyWhenBalanced(g: Game)
    requires Conserved(g) && g.left == g.right
    ensures g.left == Shore(1, 1) && g.boat == Shore(1, 1)
  {
  }

  /** The aliasing does happen: with equal shores the cargo is counted on both. */
  lemma AliasingCountsCargoTwice()
    ensures var g := Game(Shore(1, 1), Shore(1, 1), Shore(1, 1), Left, 5, false, false, false);
            CountedAsWritten(g, g.left) == Shore(2, 2) && CountedAsWritten(g, g.right) == Shore(2, 2)
  {
  }

  /** ... but never changes the verdict of a conserved state. */
  lemma AliasingHarmless(g: Game)
    requires Conserved(g)
    ensures IsValidState(g) <==> SafeWithCargoDocked(g)
  {
    if g.left == g.right {
      EqualShoresOnlyWhenBalanced(g);
    } else {
      assert CountedAsWritten(g, Undocked(g)) == Undocked(g);
    }
  }

  /** What `move_character`'s update does: a refused transfer changes nothing; an accepted
      one moves one unit of kind `k` between the boat and the docked shore, leaving the
      other shore, the other kind, the side and the flags alone. */
  lemma TransferEffect(g: Game, k: Kind, fromBoat: bool)
    ensures var r := Transfer(g, k, fromBoat);
            && (!TransferAllowed(g, k, fromBoat) ==> r == g)
            && r.(left := g.left, right := g.right, boat := g.boat) == g
            && Undocked(r) == Undocked(g)
            && Plus(Docked(r), r.boat) == Plus(Docked(g), g.boat)
            && Count(r.boat, Other(k)) == Count(g.boat, Other(k))
            && (TransferAllowed(g, k, fromBoat) ==>
                  Count(r.boat, k) == if fromBoat then Count(g.boat, k) - 1 else Count(g.boat, k) + 1)
  {
  }

  lemma TransferKeepsConserved(g: Game, k: Kind, fromBoat: bool)
    requires Conserved(g)
    ensures Conserved(Transfer(g, k, fromBoat))
  {
    TransferEffect(g, k, fromBoat);
  }

  /** A transfer never changes the verdict on validity: it only moves a unit between
      the docked shore and the boat, whose sum is what the rule counts. */
  lemma TransferKeepsValidity(g: Game, k: Kind, fromBoat: bool)
    requires Conserved(g)
    ensures IsValidState(Transfer(g, k, fromBoat)) == IsValidState(g)
  {
    var r := Transfer(g, k, fromBoat);
    TransferEffect(g, k, fromBoat);
    TransferKeepsConserved(g, k, fromBoat);
    AliasingHarmless(g);
    AliasingHarmless(r);
  }

  lemma CrossKeepsConserved(g: Game, storeConnected: bool)
    requires Conserved(g)
    ensures Conserved(Cross(g, storeConnected))
  {
  }

  /** The verdict only reads the counts and the boat's side, not the flags. */
  lemma VerdictIgnoresFlags(a: Game, b: Game)
    requires a.(gameOver := b.gameOver, win := b.win, movingBoat := b.movingBoat) == b
    ensures IsValidState(a) == IsValidState(b) && IsWinState(a) == IsWinState(b)
  {
    assert a.left == b.left && a.right == b.right && a.boat == b.boat && a.position == b.position;
  }

  /** `check_game_state` settles a conserved state whose flags were clear, or right already. */
  lemma CheckSettles(g: Game)
    requires Conserved(g)
    requires (!g.gameOver && !g.win) || (g.gameOver == (IsWinState(g) || !IsValidState(g)) && g.win == IsWinState(g))
    ensures Settled(CheckGameState(g))
  {
    var r := CheckGameState(g);
    VerdictIgnoresFlags(r, g);
    if IsWinState(g) {
      WinIsValid(g);
    }
  }

  /** An accepted transfer keeps a game in progress settled. */
  lemma MoveKeepsSettled(g: Game, k: Kind, fromBoat: bool)
    requires Settled(g) && !g.gameOver
    ensures Settled(MoveCharacter(g, k, fromBoat))
  {
    var t := Transfer(g, k, fromBoat);
    TransferEffect(g, k, fromBoat);
    TransferKeepsConserved(g, k, fromBoat);
    assert !t.gameOver && !t.win;
    CheckSettles(t);
  }

  /** A crossing keeps a game in progress settled. */
  lemma CrossKeepsSettled(g: Game, storeConnected: bool)
    requires Settled(g) && !g.gameOver
    ensures Settled(Cross(g, storeConnected))
  {
    var s := StartBoatMovement(g);
    if !s.movingBoat {
      assert Cross(g, storeConnected) == g;
    } else if !storeConnected {
      assert Cross(g, storeConnected) == s;
      VerdictIgnoresFlags(s, g);
    } else {
      var f := s.(position := Flip(s.position), moves := s.moves + 1, movingBoat := false);
      assert Cross(g, storeConnected) == CheckGameState(f);
      assert Conserved(f) && !f.gameOver && !f.win;
      CheckSettles(f);
    }
  }

  /** Every click keeps the state settled. */
  lemma ClickKeepsSettled(g: Game, c: Click, storeConnected: bool)
    requires Settled(g)
    ensures Settled(HandleClick(g, c, storeConnected).game)
  {
    if g.gameOver {
      InitialSettled();
    } else {
      match c
      case MoveBoatButton =>
        if !g.movingBoat {
          CrossKeepsSettled(g, storeConnected);
        }
      case Unit(k, fromBoat) =>
        if TransferAllowed(g, k, fromBoat) {
          MoveKeepsSettled(g, k, fromBoat);
        }
      case _ =>
    }
  }

  /** Every state reachable by clicks from a settled state is settled: in particular
      conservation and capacity hold, and a game that is not over is valid. */
  lemma {:induction false} RunKeepsSettled(g: Game, clicks: seq<Click>, storeConnected: bool)
    requires Settled(g)
    ensures Settled(Run(g, clicks, storeConnected))
    decreases |clicks|
  {
    if clicks != [] {
      ClickKeepsSettled(g, clicks[0], storeConnected);
      RunKeepsSettled(HandleClick(g, clicks[0], storeConnected).game, clicks[1..], storeConnected);
    }
  }

  /** A transfer click never loses a game in progress: it can only win it. */
  lemma TransferNeverLoses(g: Game, k: Kind, fromBoat: bool, storeConnected: bool)
    requires Settled(g) && !g.gameOver
    ensures var r := HandleClick(g, Unit(k, fromBoat), storeConnected).game;
            r.gameOver ==> r.win
  {
    TransferKeepsValidity(g, k, fromBoat);
  }

  /** A game is only ever won by unloading the boat: a crossing leaves cargo aboard. */
  lemma WinOnlyByUnloading(g: Game, c: Click, storeConnected: bool)
    requires Settled(g) && !g.gameOver
    ensures HandleClick(g, c, storeConnected).game.win ==> c.Unit? && c.fromBoat
  {
    match c
    case Unit(k, fromBoat) =>
      if !fromBoat && TransferAllowed(g, k, false) {
        LoadNeverWins(g, k);
      }
    case _ =>
  }

  /** Loading leaves cargo aboard, so it cannot produce the (empty-boat) win state. */
  lemma LoadNeverWins(g: Game, k: Kind)
    requires !g.win && TransferAllowed(g, k, false)
    ensures !MoveCharacter(g, k, false).win
  {
    TransferEffect(g, k, false);
  }

  /** Once the game is over, clicks that never hit try-again change nothing. */
  lemma {:induction false} GameOverFrozen(g: Game, clicks: seq<Click>, storeConnected: bool)
    requires g.gameOver
    requires forall i :: 0 <= i < |clicks| ==> clicks[i] != TryAgainButton
    ensures Run(g, clicks, storeConnected) == g
    decreases |clicks|
  {
    if clicks != [] {
      GameOverFrozen(g, clicks[1..], storeConnected);
    }
  }

  /** Without the store a crossing never lands, so a game started on the left cannot be won. */
  lemma {:induction false} DisconnectedNeverWins(g: Game, clicks: seq<Click>)
    requires g.position == Left && !g.win
    ensures Run(g, clicks, false).position == Left && !Run(g, clicks, false).win
    decreases |clicks|
  {
    if clicks != [] {
      var o := HandleClick(g, clicks[0], false);
      assert o.game.position == Left && !o.game.win;
      if !o.quit {
        DisconnectedNeverWins(o.game, clicks[1..]);
      }
    }
  }

  /** Clicks that never exit can be run in two parts. */
  lemma {:induction false} RunAppend(g: Game, a: seq<Click>, b: seq<Click>, storeConnected: bool)
    requires forall i :: 0 <= i < |a| ==> a[i] != EndGameButton
    ensures Run(g, a + b, storeConnected) == Run(Run(g, a, storeConnected), b, storeConnected)
    decreases |a|
  {
    if a == [] {
      assert a + b == b;
    } else {
      var o := HandleClick(g, a[0], storeConnected);
      assert (a + b)[0] == a[0] && (a + b)[1..] == a[1..] + b;
      assert !o.quit;
      assert Run(g, a + b, storeConnected) == Run(o.game, a[1..] + b, storeConnected);
      assert Run(g, a, storeConnected) == Run(o.game, a[1..], storeConnected);
      assert forall i :: 0 <= i < |a[1..]| ==> a[1..][i] == a[i + 1];
      RunAppend(o.game, a[1..], b, storeConnected);
    }
  }

  /** One click of a run, when it does not exit. */
  lemma RunStep(g: Game, clicks: seq<Click>, after: Game)
    requires clicks != [] && HandleClick(g, clicks[0], true) == Outcome(after, false)
    ensures Run(g, clicks, true) == Run(after, clicks[1..], true)
  {
  }

  const P := Priests
  const C := Carnivores

  /** Load one or two units, cross, unload them in the same order. */
  function Trip(load: seq<Kind>): (r: seq<Click>)
    ensures forall i :: 0 <= i < |r| ==> r[i] != EndGameButton
  {
    if |load| == 1 then [Unit(load[0], false), MoveBoatButton, Unit(load[0], true)]
    else if |load| == 2 then
      [Unit(load[0], false), Unit(load[1], false), MoveBoatButton, Unit(load[0], true), Unit(load[1], true)]
    else []
  }

  /** Two priests loaded and sent across leave one priest with three carnivores: lost at once. */
  lemma EarlyLoss()
    ensures var g := Run(Initial(), [Unit(P, false), Unit(P, false), MoveBoatButton], true);
            g.gameOver && !g.win && g.moves == 1 && g.left == Shore(1, 3)
  {
    var g1 := Game(Shore(2, 3), Shore(0, 0), Shore(1, 0), Left, 0, false, false, false);
    var g2 := Game(Shore(1, 3), Shore(0, 0), Shore(2, 0), Left, 0, false, false, false);
    var g3 := Game(Shore(1, 3), Shore(0, 0), Shore(2, 0), Right, 1, false, true, false);
    RunStep(Initial(), [Unit(P, false), Unit(P, false), MoveBoatButton], g1);
    RunStep(g1, [Unit(P, false), MoveBoatButton], g2);
    RunStep(g2, [MoveBoatButton], g3);
  }

  /** The loads of the eleven crossings of the known shortest solution. */
  const Solution: seq<seq<Kind>> :=
    [[P, C], [P], [C, C], [C], [P, P], [P, C], [P, P], [C], [C, C], [C], [C, C]]

  /** The clicks of a sequence of trips. */
  function Trips(ts: seq<seq<Kind>>): (r: seq<Click>)
    ensures forall i :: 0 <= i < |r| ==> r[i] != EndGameButton
  {
    if ts == [] then [] else Trip(ts[0]) + Trips(ts[1..])
  }

  /** One trip of the solution, from the state before it to the state after it. */
  lemma SolutionStep(g: Game, load: seq<Kind>, rest: seq<seq<Kind>>, after: Game)
    requires Run(g, Trip(load), true) == after
    ensures Run(g, Trips([load] + rest), true) == Run(after, Trips(rest), true)
  {
    assert ([load] + rest)[0] == load && ([load] + rest)[1..] == rest;
    RunAppend(g, Trip(load), Trips(rest), true);
  }

  /** A game in play with no crossing under way. */
  function InPlay(left: Shore, right: Shore, boat: Shore, position: Side, moves: nat): Game {
    Game(left, right, boat, position, moves, false, false, false)
  }

  /** A one-unit trip through the states `m1`, `m2` to `after`. */
  lemma OneUnitTrip(g: Game, load: seq<Kind>, m1: Game, m2: Game, after: Game)
    requires |load| == 1
    requires HandleClick(g, Unit(load[0], false), true) == Outcome(m1, false)
    requires HandleClick(m1, MoveBoatButton, true) == Outcome(m2, false)
    requires HandleClick(m2, Unit(load[0], true), true) == Outcome(after, false)
    ensures Run(g, Trip(load), true) == after
  {
    var t := Trip(load);
    RunStep(g, t, m1);
    RunStep(m1, t[1..], m2);
    RunStep(m2, t[2..], after);
  }

  /** A two-unit trip through the states `m1` .. `m4` to `after`. */
  lemma TwoUnitTrip(g: Game, load: seq<Kind>, m1: Game, m2: Game, m3: Game, m4: Game, after: Game)
    requires |load| == 2
    requires HandleClick(g, Unit(load[0], false), true) == Outcome(m1, false)
    requires HandleClick(m1, Unit(load[1], false), true) == Outcome(m2, false)
    requires HandleClick(m2, MoveBoatButton, true) == Outcome(m3, false)
    requires HandleClick(m3, Unit(load[0], true), true) == Outcome(m4, false)
    requires HandleClick(m4, Unit(load[1], true), true) == Outcome(after, false)
    ensures Run(g, Trip(load), true) == after
  {
    var t := Trip(load);
    RunStep(g, t, m1);
    RunStep(m1, t[1..], m2);
    RunStep(m2, t[2..], m3);
    RunStep(m3, t[3..], m4);
    RunStep(m4, t[4..], after);
  }

  /** The states between the crossings of the solution. */
  function After1(): Game { InPlay(Shore(2, 2), Shore(1, 1), Shore(0, 0), Right, 1) }
  function After2(): Game { InPlay(Shore(3, 2), Shore(0, 1), Shore(0, 0), Left, 2) }
  function After3(): Game { InPlay(Shore(3, 0), Shore(0, 3), Shore(0, 0), Right, 3) }
  function After4(): Game { InPlay(Shore(3, 1), Shore(0, 2), Shore(0, 0), Left, 4) }
  function After5(): Game { InPlay(Shore(1, 1), Shore(2, 2), Shore(0, 0), Right, 5) }
  function After6(): Game { InPlay(Shore(2, 2), Shore(1, 1), Shore(0, 0), Left, 6) }
  function After7(): Game { InPlay(Shore(0, 2), Shore(3, 1), Shore(0, 0), Right, 7) }
  function After8(): Game { InPlay(Shore(0, 3), Shore(3, 0), Shore(0, 0), Left, 8) }
  function After9(): Game { InPlay(Shore(0, 1), Shore(3, 2), Shore(0, 0), Right, 9) }
  function After10(): Game { InPlay(Shore(0, 2), Shore(3, 1), Shore(0, 0), Left, 10) }
  function After11(): Game { Game(Shore(0, 0), Shore(3, 3), Shore(0, 0), Right, 11, false, true, true) }

  /** Crossing 1 of the solution. */
  lemma Crossing1()
    ensures Run(Initial(), Trips(Solution), true) == Run(After1(), Trips(Solution[1..]), true)
  {
    TwoUnitTrip(Initial(), [P, C],
      InPlay(Shore(2, 3), Shore(0, 0), Shore(1, 0), Left, 0),
      InPlay(Shore(2, 2), Shore(0, 0), Shore(1, 1), Left, 0),
      InPlay(Shore(2, 2), Shore(0, 0), Shore(1, 1), Right, 1),
      InPlay(Shore(2, 2), Shore(1, 0), Shore(0, 1), Right, 1),
      After1());
    SolutionStep(Initial(), Solution[0], Solution[1..], After1());
  }

  /** Crossing 2 of the solution. */
  lemma Crossing2()
    ensures Run(After1(), Trips(Solution[1..]), true) == Run(After2(), Trips(Solution[2..]), true)
  {
    OneUnitTrip(After1(), [P],
      InPlay(Shore(2, 2), Shore(0, 1), Shore(1, 0), Right, 1),
      InPlay(Shore(2, 2), Shore(0, 1), Shore(1, 0), Left, 2),
      After2());
    SolutionStep(After1(), Solution[1], Solution[2..], After2());
  }

  /** Crossing 3 of the solution. */
  lemma Crossing3()
    ensures Run(After2(), Trips(Solution[2..]), true) == Run(After3(), Trips(Solution[3..]), true)
  {
    TwoUnitTrip(After2(), [C, C],
      InPlay(Shore(3, 1), Shore(0, 1), Shore(0, 1), Left, 2),
      InPlay(Shore(3, 0), Shore(0, 1), Shore(0, 2), Left, 2),
      InPlay(Shore(3, 0), Shore(0, 1), Shore(0, 2), Right, 3),
      InPlay(Shore(3, 0), Shore(0, 2), Shore(0, 1), Right, 3),
      After3());
    SolutionStep(After2(), Solution[2], Solution[3..], After3());
  }

  /** Crossing 4 of the solution. */
  lemma Crossing4()
    ensures Run(After3(), Trips(Solution[3..]), true) == Run(After4(), Trips(Solution[4..]), true)
  {
    OneUnitTrip(After3(), [C],
      InPlay(Shore(3, 0), Shore(0, 2), Shore(0, 1), Right, 3),
      InPlay(Shore(3, 0), Shore(0, 2), Shore(0, 1), Left, 4),
      After4());
    SolutionStep(After3(), Solution[3], Solution[4..], After4());
  }

  /** Crossing 5 of the solution. */
  lemma Crossing5()
    ensures Run(After4(), Trips(Solution[4..]), true) == Run(After5(), Trips(Solution[5..]), true)
  {
    TwoUnitTrip(After4(), [P, P],
      InPlay(Shore(2, 1), Shore(0, 2), Shore(1, 0), Left, 4),
      InPlay(Shore(1, 1), Shore(0, 2), Shore(2, 0), Left, 4),
      InPlay(Shore(1, 1), Shore(0, 2), Shore(2, 0), Right, 5),
      InPlay(Shore(1, 1), Shore(1, 2), Shore(1, 0), Right, 5),
      After5());
    SolutionStep(After4(), Solution[4], Solution[5..], After5());
  }

  /** Crossing 6 of the solution. */
  lemma Crossing6()
    ensures Run(After5(), Trips(Solution[5..]), true) == Run(After6(), Trips(Solution[6..]), true)
  {
    TwoUnitTrip(After5(), [P, C],
      InPlay(Shore(1, 1), Shore(1, 2), Shore(1, 0), Right, 5),
      InPlay(Shore(1, 1), Shore(1, 1), Shore(1, 1), Right, 5),
      InPlay(Shore(1, 1), Shore(1, 1), Shore(1, 1), Left, 6),
      InPlay(Shore(2, 1), Shore(1, 1), Shore(0, 1), Left, 6),
      After6());
    SolutionStep(After5(), Solution[5], Solution[6..], After6());
  }

  /** Crossing 7 of the solution. */
  lemma Crossing7()
    ensures Run(After6(), Trips(Solution[6..]), true) == Run(After7(), Trips(Solution[7..]), true)
  {
    TwoUnitTrip(After6(), [P, P],
      InPlay(Shore(1, 2), Shore(1, 1), Shore(1, 0), Left, 6),
      InPlay(Shore(0, 2), Shore(1, 1), Shore(2, 0), Left, 6),
      InPlay(Shore(0, 2), Shore(1, 1), Shore(2, 0), Right, 7),
      InPlay(Shore(0, 2), Shore(2, 1), Shore(1, 0), Right, 7),
      After7());
    SolutionStep(After6(), Solution[6], Solution[7..], After7());
  }

  /** Crossing 8 of the solution. */
  lemma Crossing8()
    ensures Run(After7(), Trips(Solution[7..]), true) == Run(After8(), Trips(Solution[8..]), true)
  {
    OneUnitTrip(After7(), [C],
      InPlay(Shore(0, 2), Shore(3, 0), Shore(0, 1), Right, 7),
      InPlay(Shore(0, 2), Shore(3, 0), Shore(0, 1), Left, 8),
      After8());
    SolutionStep(After7(), Solution[7], Solution[8..], After8());
  }

  /** Crossing 9 of the solution. */
  lemma Crossing9()
    ensures Run(After8(), Trips(Solution[8..]), true) == Run(After9(), Trips(Solution[9..]), true)
  {
    TwoUnitTrip(After8(), [C, C],
      InPlay(Shore(0, 2), Shore(3, 0), Shore(0, 1), Left, 8),
      InPlay(Shore(0, 1), Shore(3, 0), Shore(0, 2), Left, 8),
      InPlay(Shore(0, 1), Shore(3, 0), Shore(0, 2), Right, 9),
      InPlay(Shore(0, 1), Shore(3, 1), Shore(0, 1), Right, 9),
      After9());
    SolutionStep(After8(), Solution[8], Solution[9..], After9());
  }

  /** Crossing 10 of the solution. */
  lemma Crossing10()
    ensures Run(After9(), Trips(Solution[9..]), true) == Run(After10(), Trips(Solution[10..]), true)
  {
    OneUnitTrip(After9(), [C],
      InPlay(Shore(0, 1), Shore(3, 1), Shore(0, 1), Right, 9),
      InPlay(Shore(0, 1), Shore(3, 1), Shore(0, 1), Left, 10),
      After10());
    SolutionStep(After9(), Solution[9], Solution[10..], After10());
  }

  /** Crossing 11 of the solution. */
  lemma Crossing11()
    ensures Run(After10(), Trips(Solution[10..]), true) == After11()
  {
    TwoUnitTrip(After10(), [C, C],
      InPlay(Shore(0, 1), Shore(3, 1), Shore(0, 1), Left, 10),
      InPlay(Shore(0, 0), Shore(3, 1), Shore(0, 2), Left, 10),
      InPlay(Shore(0, 0), Shore(3, 1), Shore(0, 2), Right, 11),
      InPlay(Shore(0, 0), Shore(3, 2), Shore(0, 1), Right, 11),
      After11());
    SolutionStep(After10(), Solution[10], Solution[11..], After11());
    assert Solution[11..] == [];
  }

  /** The eleven-crossing solution wins, with exactly eleven moves counted.  The sixth
      crossing passes through the state with one priest and one carnivore on each
      shore and in the boat, where `is_valid_state` counts the cargo on both shores. */
  lemma ElevenCrossingsWin()
    ensures var g := Run(Initial(), Trips(Solution), true);
            g.gameOver && g.win && g.moves == 11 && IsWinState(g)
  {
    Crossing1();
    Crossing2();
    Crossing3();
    Crossing4();
    Crossing5();
    Crossing6();
    Crossing7();
    Crossing8();
    Crossing9();
    Crossing10();
    Crossing11();
  }
}
