/** The web front-end: the session state (three game fields, the phase and the
    two tallies), the free functions that assign into it and the door-button
    handler. */
module Web {
  import opened Game

  /** The draws of one auto-simulate trial: one deal, scored both ways. */
  datatype Trial = Trial(car: Door, first: Door, hostDraw: nat)

  /** How many trials staying wins: those whose first choice is the car. */
  function StayWins(ts: seq<Trial>): (n: nat)
    ensures n <= |ts|
  {
    if ts == [] then 0
    else
      var last := ts[|ts| - 1];
      StayWins(ts[..|ts| - 1]) + (if last.first == last.car then 1 else 0)
  }

  /** How many trials switching wins: those whose first choice is not the car. */
  function SwitchWins(ts: seq<Trial>): (n: nat)
    ensures n <= |ts|
  {
    if ts == [] then 0
    else
      var last := ts[|ts| - 1];
      SwitchWins(ts[..|ts| - 1]) + (if last.first != last.car then 1 else 0)
  }

  /** Scored on the same deal, exactly one of staying and switching wins each trial. */
  lemma {:induction false} OneWinnerPerTrial(ts: seq<Trial>)
    ensures StayWins(ts) + SwitchWins(ts) == |ts|
  {
    if ts != [] {
      OneWinnerPerTrial(ts[..|ts| - 1]);
    }
  }

  /** list.remove(x): drops the first occurrence of x and keeps the other
      elements in order; None is the ValueError raised when x is absent. */
  function RemoveFirst(s: seq<Door>, x: Door): (r: Option<seq<Door>>)
    ensures r.Some? <==> x in s
    ensures r.Some? ==> exists k :: 0 <= k < |s| && s[k] == x && x !in s[..k] && r.value == s[..k] + s[k + 1..]
  {
    if s == [] then None
    else if s[0] == x then
      assert s[..0] + s[0 + 1..] == s[1..];
      Some(s[1..])
    else
      var tail := s[1..];
      assert s == [s[0]] + tail;
      match RemoveFirst(tail, x)
      case None => None
      case Some(rest) =>
        var k :| 0 <= k < |tail| && tail[k] == x && x !in tail[..k] && rest == tail[..k] + tail[k + 1..];
        RemoveFirstSkipsHead(s, x, k, rest);
        Some([s[0]] + rest)
  }

  /** When the head of s is not x, the first x of s.tail at index k is the
      first x of s at index k + 1, and keeping the head in front of the
      shortened tail is s with that occurrence dropped. */
  lemma RemoveFirstSkipsHead(s: seq<Door>, x: Door, k: nat, rest: seq<Door>)
    requires |s| > 0 && s[0] != x && k < |s| - 1
    requires s[1..][k] == x && x !in s[1..][..k] && rest == s[1..][..k] + s[1..][k + 1..]
    ensures s[k + 1] == x && x !in s[..k + 1] && [s[0]] + rest == s[..k + 1] + s[k + 2..]
  {
    assert s[..k + 1] == [s[0]] + s[1..][..k];
    assert s[k + 2..] == s[1..][k + 1..];
  }

  /** The loop of reveal_goat that collects, in increasing order, the doors
      that are neither the chosen door nor the car. */
  method CollectReveals(chosen: Door, car: Door) returns (possibleReveals: seq<Door>)
    ensures possibleReveals == Remaining(chosen, car)
  {
    possibleReveals := [];
    for i := 0 to DoorCount
      invariant possibleReveals == Below(i, chosen, car)
    {
      if i != chosen && i != car {
        possibleReveals := possibleReveals + [i];
      }
    }
  }

  class Session {
    var carPosition: Door
    var chosenDoor: Option<Door>
    var revealedDoor: Option<Door>
    var gameState: Phase
    var statsSwitch: Tally
    var statsStay: Tally

    /** Both tallies keep wins <= games. */
    ghost predicate TalliesValid()
      reads this
    {
      statsSwitch.Valid() && statsStay.Valid()
    }

    /** The game invariant: nothing is chosen or revealed while choosing; once a
        door is revealed it is neither the car nor the chosen door. */
    ghost predicate Valid()
      reads this
    {
      TalliesValid() &&
      (gameState == Choosing ==> chosenDoor == None && revealedDoor == None) &&
      (gameState != Choosing ==>
        chosenDoor.Some? && revealedDoor.Some? &&
        revealedDoor.value != carPosition && revealedDoor.value != chosenDoor.value)
    }

    /** The first visit of a session: both tallies at {0, 0}, a car drawn as
        `car`, nothing chosen or revealed. */
    constructor (car: Door)
      ensures Valid()
      ensures statsSwitch == Tally(0, 0) && statsStay == Tally(0, 0)
      ensures gameState == Choosing && carPosition == car && chosenDoor == None && revealedDoor == None
    {
      statsSwitch := Tally(0, 0);
      statsStay := Tally(0, 0);
      gameState := Choosing;
      carPosition := car;
      chosenDoor := None;
      revealedDoor := None;
    }

    /** "New Game": the car is placed behind `car`, the choices are cleared and
        the tallies are kept. */
    method ResetGame(car: Door)
      requires TalliesValid()
      modifies this
      ensures Valid()
      ensures carPosition == car && chosenDoor == None && revealedDoor == None && gameState == Choosing
      ensures statsSwitch == old(statsSwitch) && statsStay == old(statsStay)
    {
      carPosition := car;
      chosenDoor := None;
      revealedDoor := None;
      gameState := Choosing;
    }

    /** The host opens a goat door: the doors that are neither chosen nor the
        car are collected in order and the `r`-th draw among them is revealed. */
    method RevealGoat(r: nat)
      requires TalliesValid() && chosenDoor.Some?
      modifies this
      ensures carPosition == old(carPosition) && chosenDoor == old(chosenDoor)
      ensures Valid()
      ensures revealedDoor == Some(Pick(Remaining(chosenDoor.value, carPosition), r))
      ensures revealedDoor.value != carPosition && revealedDoor.value != chosenDoor.value
      ensures gameState == Deciding
      ensures statsSwitch == old(statsSwitch) && statsStay == old(statsStay)
    {
      var possibleReveals := CollectReveals(chosenDoor.value, carPosition);
      revealedDoor := Some(Pick(possibleReveals, r));
      gameState := Deciding;
    }

    /** A final choice: it becomes the chosen door, and the switch tally (when
        `isSwitch`) or else the stay tally gains a game, won exactly when the
        choice is the car. */
    method ProcessChoice(finalChoice: Door, isSwitch: bool)
      requires TalliesValid()
      modifies this
      ensures TalliesValid()
      ensures chosenDoor == Some(finalChoice) && gameState == Finished
      ensures carPosition == old(carPosition) && revealedDoor == old(revealedDoor)
      ensures isSwitch ==>
        statsSwitch == old(statsSwitch).Record(finalChoice == carPosition) && statsStay == old(statsStay)
      ensures !isSwitch ==>
        statsStay == old(statsStay).Record(finalChoice == carPosition) && statsSwitch == old(statsSwitch)
    {
      chosenDoor := Some(finalChoice);
      if isSwitch {
        statsSwitch := statsSwitch.(games := statsSwitch.games + 1);
        if finalChoice == carPosition {
          statsSwitch := statsSwitch.(wins := statsSwitch.wins + 1);
        }
      } else {
        statsStay := statsStay.(games := statsStay.games + 1);
        if finalChoice == carPosition {
          statsStay := statsStay.(wins := statsStay.wins + 1);
        }
      }
      gameState := Finished;
    }

    /** A press of the "Select Door i" button. A disabled button does nothing,
        so no button acts once finished and the revealed door is never a final
        choice. While choosing, i is the first choice, a goat is revealed and an
        automatic strategy finishes the game; while deciding, i is the final
        choice and is a switch exactly when it differs from the first choice. */
    method PressDoor(i: Door, strategy: Strategy, r: nat)
      requires Valid()
      modifies this
      ensures Valid()
      ensures carPosition == old(carPosition)
      ensures old(gameState) == Finished ==>
        gameState == Finished && chosenDoor == old(chosenDoor) && revealedDoor == old(revealedDoor) &&
        statsSwitch == old(statsSwitch) && statsStay == old(statsStay)
      ensures old(gameState) == Choosing ==>
        revealedDoor == Some(Pick(Remaining(i, carPosition), r)) &&
        (strategy == Manual ==>
          gameState == Deciding && chosenDoor == Some(i) &&
          statsSwitch == old(statsSwitch) && statsStay == old(statsStay)) &&
        (strategy == AlwaysStay ==>
          gameState == Finished && chosenDoor == Some(i) &&
          statsStay == old(statsStay).Record(i == carPosition) && statsSwitch == old(statsSwitch)) &&
        (strategy == AlwaysSwitch ==>
          gameState == Finished && chosenDoor == Some(SwitchTarget(i, revealedDoor.value)) &&
          statsSwitch == old(statsSwitch).Record(i != carPosition) && statsStay == old(statsStay))
      ensures old(gameState) == Deciding && old(revealedDoor) == Some(i) ==>
        gameState == Deciding && chosenDoor == old(chosenDoor) && revealedDoor == old(revealedDoor) &&
        statsSwitch == old(statsSwitch) && statsStay == old(statsStay)
      ensures old(gameState) == Deciding && old(revealedDoor) != Some(i) ==>
        gameState == Finished && chosenDoor == Some(i) && revealedDoor == old(revealedDoor) &&
        (Some(i) != old(chosenDoor) ==>
          statsSwitch == old(statsSwitch).Record(i == carPosition) && statsStay == old(statsStay)) &&
        (Some(i) == old(chosenDoor) ==>
          statsStay == old(statsStay).Record(i == carPosition) && statsSwitch == old(statsSwitch))
    {
      var disabled := gameState == Finished || (gameState == Deciding && Some(i) == revealedDoor);
      if !disabled {
        if gameState == Choosing {
          chosenDoor := Some(i);
          RevealGoat(r);
          if strategy != Manual {
            if strategy == AlwaysStay {
              ProcessChoice(i, false);
            } else {
              var finalChoice := SwitchTarget(i, revealedDoor.value);
              SwitchWinsIffFirstMissed(i, carPosition, revealedDoor.value);
              ProcessChoice(finalChoice, true);
            }
          }
        } else if gameState == Deciding {
          var isSwitch := Some(i) != chosenDoor;
          ProcessChoice(i, isSwitch);
        }
      }
    }

    /** "Auto Simulate (100 games)": each trial deals once and scores that deal
        both ways, adding one game to each tally; staying wins the trials whose
        first choice is the car, switching the others, so the two win counters
        together rise by exactly 100. The game in progress is untouched. */
    method AutoSimulate(trials: seq<Trial>)
      requires Valid() && |trials| == BatchSize
      modifies this
      ensures Valid()
      ensures statsStay == Tally(old(statsStay.wins) + StayWins(trials), old(statsStay.games) + BatchSize)
      ensures statsSwitch == Tally(old(statsSwitch.wins) + SwitchWins(trials), old(statsSwitch.games) + BatchSize)
      ensures statsStay.wins + statsSwitch.wins == old(statsStay.wins) + old(statsSwitch.wins) + BatchSize
      ensures carPosition == old(carPosition) && chosenDoor == old(chosenDoor)
      ensures revealedDoor == old(revealedDoor) && gameState == old(gameState)
    {
      ghost var stay0, switch0 := statsStay, statsSwitch;
      for k := 0 to BatchSize
        invariant statsStay == Tally(stay0.wins + StayWins(trials[..k]), stay0.games + k)
        invariant statsSwitch == Tally(switch0.wins + SwitchWins(trials[..k]), switch0.games + k)
        invariant carPosition == old(carPosition) && chosenDoor == old(chosenDoor)
        invariant revealedDoor == old(revealedDoor) && gameState == old(gameState)
      {
        assert trials[..k + 1][..k] == trials[..k];
        var t := trials[k];
        // Setup game
        var carPos := t.car;
        var firstChoice := t.first;
        // Find possible goat doors to reveal
        var possibleReveals := Remaining(firstChoice, carPos);
        // The fallback below is never taken: the list is never empty.
        assert |possibleReveals| > 0;
        if |possibleReveals| == 0 {
          possibleReveals := Remaining(firstChoice, firstChoice);
          if carPos in possibleReveals {
            match RemoveFirst(possibleReveals, carPos)
            case Some(rest) => possibleReveals := rest;
            case None =>
          }
        }
        var revealed := Pick(possibleReveals, t.hostDraw);
        // Simulate staying
        statsStay := statsStay.(games := statsStay.games + 1);
        if firstChoice == carPos {
          statsStay := statsStay.(wins := statsStay.wins + 1);
        }
        // Simulate switching
        statsSwitch := statsSwitch.(games := statsSwitch.games + 1);
        var finalChoice := SwitchTarget(firstChoice, revealed);
        SwitchWinsIffFirstMissed(firstChoice, carPos, revealed);
        if finalChoice == carPos {
          statsSwitch := statsSwitch.(wins := statsSwitch.wins + 1);
        }
      }
      assert trials[..BatchSize] == trials;
      OneWinnerPerTrial(trials);
    }
  }

  /** An example game: the car behind door 1, door 0 chosen by hand. The host
      can only open door 2, and moving to door 1 is a won switch. */
  method ManualSwitchScenario()
  {
    var s := new Session(1);
    s.PressDoor(0, Manual, 0);
    assert s.revealedDoor == Some(2);
    s.PressDoor(1, Manual, 0);
    assert s.statsSwitch == Tally(1, 1) && s.statsStay == Tally(0, 0);
    assert s.gameState == Finished;
  }
}
