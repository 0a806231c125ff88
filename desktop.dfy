/** The desktop front-end: the MontyHallSimulator class, whose methods update
    the game fields and the two tallies in place. */
module Desktop {
  import opened Game

  /** The draws of one auto-simulate trial. The stay game and the switch game
      are two independent deals: (stayCar, stayChoice) for the first, and
      (switchCar, switchFirst) with the host's draw `hostDraw` for the second. */
  datatype Trial = Trial(stayCar: Door, stayChoice: Door, switchCar: Door, switchFirst: Door, hostDraw: nat)

  /** How many trials the stay player wins: those whose choice is the car. */
  function StayWins(ts: seq<Trial>): (n: nat)
    ensures n <= |ts|
  {
    if ts == [] then 0
    else
      var last := ts[|ts| - 1];
      StayWins(ts[..|ts| - 1]) + (if last.stayChoice == last.stayCar then 1 else 0)
  }

  /** How many trials the switch player wins: those whose first choice missed the car. */
  function SwitchWins(ts: seq<Trial>): (n: nat)
    ensures n <= |ts|
  {
    if ts == [] then 0
    else
      var last := ts[|ts| - 1];
      SwitchWins(ts[..|ts| - 1]) + (if last.switchFirst != last.switchCar then 1 else 0)
  }

  class Simulator {
    var carPosition: Door
    var chosenDoor: Option<Door>
    var revealedDoor: Option<Door>
    var gameState: Phase
    var statsSwitch: Tally
    var statsStay: Tally

    /** Both tallies keep wins <= games. */
    ghost predicate TalliesValid()
      reads this
    {
      statsSwitch.Valid() && statsStay.Valid()
    }

    /** The game invariant: nothing is chosen or revealed while choosing; once a
        door is revealed it is neither the car nor the chosen door. */
    ghost predicate Valid()
      reads this
    {
      TalliesValid() &&
      (gameState == Choosing ==> chosenDoor == None && revealedDoor == None) &&
      (gameState != Choosing ==>
        chosenDoor.Some? && revealedDoor.Some? &&
        revealedDoor.value != carPosition && revealedDoor.value != chosenDoor.value)
    }

    /** Both tallies start at {0, 0}, then a new game is set up with the car drawn as `car`. */
    constructor (car: Door)
      ensures Valid()
      ensures statsSwitch == Tally(0, 0) && statsStay == Tally(0, 0)
      ensures carPosition == car && chosenDoor == None && revealedDoor == None && gameState == Choosing
    {
      statsSwitch := Tally(0, 0);
      statsStay := Tally(0, 0);
      new;
      ResetGame(car);
    }

    /** A new game: the car is placed behind `car`, the choices are cleared and
        the tallies are kept. */
    method ResetGame(car: Door)
      requires TalliesValid()
      modifies this
      ensures Valid()
      ensures carPosition == car && chosenDoor == None && revealedDoor == None && gameState == Choosing
      ensures statsSwitch == old(statsSwitch) && statsStay == old(statsStay)
    {
      carPosition := car;
      chosenDoor := None;
      revealedDoor := None;
      gameState := Choosing;
    }

    /** The host opens a goat door: the `r`-th draw from the doors that are
        neither the car nor the chosen door. */
    method RevealGoatDoor(r: nat)
      requires TalliesValid() && chosenDoor.Some?
      modifies this
      ensures carPosition == old(carPosition) && chosenDoor == old(chosenDoor)
      ensures Valid()
      ensures revealedDoor == Some(Pick(Remaining(carPosition, chosenDoor.value), r))
      ensures revealedDoor.value != carPosition && revealedDoor.value != chosenDoor.value
      ensures gameState == Deciding
      ensures statsSwitch == old(statsSwitch) && statsStay == old(statsStay)
    {
      var possibleReveals := Remaining(carPosition, chosenDoor.value);
      revealedDoor := Some(Pick(possibleReveals, r));
      gameState := Deciding;
    }

    /** The final choice: the revealed door is refused; otherwise the stay tally
        is charged when the choice is the first door and the switch tally when
        it is not, each winning exactly when the choice is the car. */
    method MakeFinalChoice(finalChoice: Door)
      requires Valid() && gameState == Deciding
      modifies this
      ensures Valid()
      ensures carPosition == old(carPosition) && chosenDoor == old(chosenDoor) && revealedDoor == old(revealedDoor)
      ensures Some(finalChoice) == revealedDoor ==>
        gameState == Deciding && statsSwitch == old(statsSwitch) && statsStay == old(statsStay)
      ensures Some(finalChoice) != revealedDoor ==> gameState == Finished
      ensures Some(finalChoice) != revealedDoor && Some(finalChoice) == chosenDoor ==>
        statsStay == old(statsStay).Record(finalChoice == carPosition) && statsSwitch == old(statsSwitch)
      ensures Some(finalChoice) != revealedDoor && Some(finalChoice) != chosenDoor ==>
        statsSwitch == old(statsSwitch).Record(finalChoice == carPosition) && statsStay == old(statsStay)
    {
      if Some(finalChoice) == revealedDoor {
        return;
      }
      if Some(finalChoice) == chosenDoor {
        statsStay := statsStay.(games := statsStay.games + 1);
        if finalChoice == carPosition {
          statsStay := statsStay.(wins := statsStay.wins + 1);
        }
      } else {
        statsSwitch := statsSwitch.(games := statsSwitch.games + 1);
        if finalChoice == carPosition {
          statsSwitch := statsSwitch.(wins := statsSwitch.wins + 1);
        }
      }
      gameState := Finished;
    }

    /** An automatic strategy right after the first choice: reveal a goat, then
        stay with the chosen door or switch to the one door left. Staying wins
        exactly when the first choice is the car, switching exactly when it is not. */
    method ProcessAutomaticChoice(strategy: Strategy, r: nat)
      requires TalliesValid() && chosenDoor.Some? && strategy != Manual
      modifies this
      ensures carPosition == old(carPosition) && chosenDoor == old(chosenDoor)
      ensures Valid()
      ensures gameState == Finished
      ensures revealedDoor == Some(Pick(Remaining(carPosition, chosenDoor.value), r))
      ensures strategy == AlwaysStay ==>
        statsStay == old(statsStay).Record(chosenDoor.value == carPosition) && statsSwitch == old(statsSwitch)
      ensures strategy == AlwaysSwitch ==>
        statsSwitch == old(statsSwitch).Record(chosenDoor.value != carPosition) && statsStay == old(statsStay)
    {
      RevealGoatDoor(r);
      if strategy == AlwaysStay {
        MakeFinalChoice(chosenDoor.value);
      } else {
        var finalDoor := SwitchTarget(chosenDoor.value, revealedDoor.value);
        SwitchWinsIffFirstMissed(chosenDoor.value, carPosition, revealedDoor.value);
        MakeFinalChoice(finalDoor);
      }
    }

    /** A click on door `doorNum`: while choosing it is the first choice (then a
        goat is revealed, and an automatic strategy finishes the game); while
        deciding it is the final choice; once finished it does nothing. */
    method ChooseDoor(doorNum: Door, strategy: Strategy, r: nat)
      requires Valid()
      modifies this
      ensures Valid()
      ensures carPosition == old(carPosition)
      ensures old(gameState) == Choosing ==>
        chosenDoor == Some(doorNum) &&
        revealedDoor == Some(Pick(Remaining(carPosition, doorNum), r)) &&
        (strategy == Manual ==>
          gameState == Deciding && statsSwitch == old(statsSwitch) && statsStay == old(statsStay)) &&
        (strategy == AlwaysStay ==>
          gameState == Finished &&
          statsStay == old(statsStay).Record(doorNum == carPosition) && statsSwitch == old(statsSwitch)) &&
        (strategy == AlwaysSwitch ==>
          gameState == Finished &&
          statsSwitch == old(statsSwitch).Record(doorNum != carPosition) && statsStay == old(statsStay))
      ensures old(gameState) == Deciding ==>
        chosenDoor == old(chosenDoor) && revealedDoor == old(revealedDoor) &&
        (Some(doorNum) == revealedDoor ==>
          gameState == Deciding && statsSwitch == old(statsSwitch) && statsStay == old(statsStay)) &&
        (Some(doorNum) != revealedDoor ==> gameState == Finished) &&
        (Some(doorNum) != revealedDoor && Some(doorNum) == chosenDoor ==>
          statsStay == old(statsStay).Record(doorNum == carPosition) && statsSwitch == old(statsSwitch)) &&
        (Some(doorNum) != revealedDoor && Some(doorNum) != chosenDoor ==>
          statsSwitch == old(statsSwitch).Record(doorNum == carPosition) && statsStay == old(statsStay))
      ensures old(gameState) == Finished ==>
        chosenDoor == old(chosenDoor) && revealedDoor == old(revealedDoor) && gameState == Finished &&
        statsSwitch == old(statsSwitch) && statsStay == old(statsStay)
    {
      if gameState == Choosing {
        chosenDoor := Some(doorNum);
        if strategy != Manual {
          ProcessAutomaticChoice(strategy, r);
        } else {
          RevealGoatDoor(r);
        }
      } else if gameState == Deciding {
        MakeFinalChoice(doorNum);
      }
    }

    /** "Auto Simulate (100)": each trial plays one stay game and one
        independent switch game, adding exactly one game to each tally. The
        stay tally wins the trials whose choice is the car, the switch tally
        those whose first choice is not. The game in progress is untouched. */
    method AutoSimulate(trials: seq<Trial>)
      requires Valid() && |trials| == BatchSize
      modifies this
      ensures Valid()
      ensures statsStay == Tally(old(statsStay.wins) + StayWins(trials), old(statsStay.games) + BatchSize)
      ensures statsSwitch == Tally(old(statsSwitch.wins) + SwitchWins(trials), old(statsSwitch.games) + BatchSize)
      ensures statsStay.wins <= old(statsStay.wins) + BatchSize
      ensures statsSwitch.wins <= old(statsSwitch.wins) + BatchSize
      ensures carPosition == old(carPosition) && chosenDoor == old(chosenDoor)
      ensures revealedDoor == old(revealedDoor) && gameState == old(gameState)
    {
      ghost var stay0, switch0 := statsStay, statsSwitch;
      for i := 0 to BatchSize
        invariant statsStay == Tally(stay0.wins + StayWins(trials[..i]), stay0.games + i)
        invariant statsSwitch == Tally(switch0.wins + SwitchWins(trials[..i]), switch0.games + i)
        invariant carPosition == old(carPosition) && chosenDoor == old(chosenDoor)
        invariant revealedDoor == old(revealedDoor) && gameState == old(gameState)
      {
        assert trials[..i + 1][..i] == trials[..i];
        var t := trials[i];
        // Simulate staying
        var carPos := t.stayCar;
        var choice := t.stayChoice;
        statsStay := statsStay.(games := statsStay.games + 1);
        if choice == carPos {
          statsStay := statsStay.(wins := statsStay.wins + 1);
        }
        // Simulate switching
        carPos := t.switchCar;
        var firstChoice := t.switchFirst;
        var availableDoors := Remaining(firstChoice, carPos);
        var revealed := Pick(availableDoors, t.hostDraw);
        var finalChoice := SwitchTarget(firstChoice, revealed);
        SwitchWinsIffFirstMissed(firstChoice, carPos, revealed);
        statsSwitch := statsSwitch.(games := statsSwitch.games + 1);
        if finalChoice == carPos {
          statsSwitch := statsSwitch.(wins := statsSwitch.wins + 1);
        }
      }
      assert trials[..BatchSize] == trials;
    }
  }

  /** An example game: the car behind door 0, door 0 chosen by hand. The host
      opens door 1 or door 2, and keeping door 0 is a won stay. */
  method ManualStayScenario(r: nat)
  {
    var sim := new Simulator(0);
    sim.ChooseDoor(0, Manual, r);
    assert sim.revealedDoor == Some(1) || sim.revealedDoor == Some(2);
    sim.ChooseDoor(0, Manual, r);
    assert sim.statsStay == Tally(1, 1) && sim.statsSwitch == Tally(0, 0);
    assert sim.gameState == Finished;
  }
}
