# Monty Hall simulator, modelled in Dafny

The system is a demonstration of the Monty Hall puzzle with two front-ends that
each carry their own copy of the game logic: the desktop `MontyHallSimulator`
class and the web dashboard's session state with its free functions and door
buttons. A game moves from choosing to deciding to finished, and "New Game"
goes back to choosing. The state is the car position, the chosen door and the
revealed door. Beside it sit two `{wins, games}` tallies, one for staying and
one for switching, and an auto-simulate button that plays 100 games at once.

The project has three modules:

- `Game` (`game.dfy`) holds what both copies share. `Door` is the index range
  0..2. Other types: `Phase`, `Strategy`, and the `Tally` record with its
  invariant `wins <= games`. Also here: the door lists both copies build with
  `[i for i in range(3) if i != a and i != b]` (`Below`, `Remaining`), the draw
  `Pick`, the switch target, the central lemma that switching wins exactly when
  the first choice missed the car, and the zero-guarded win percentage.
- `Desktop` (`desktop.dfy`) is the class `Simulator`. Its fields are the ones
  `MontyHallSimulator` updates. Its methods are `ChooseDoor`, `RevealGoatDoor`,
  `ProcessAutomaticChoice`, `MakeFinalChoice`, `ResetGame` and `AutoSimulate`.
- `Web` (`web.dfy`) is the class `Session`, the web session state. Its methods
  model `reset_game`, `reveal_goat` and `process_choice`. `PressDoor` models the
  door-button handler together with its disabling rule, and `AutoSimulate`
  models the 100-game loop.

Both classes define the invariant `Valid()`:

- both tallies have `wins <= games`;
- nothing is chosen or revealed while choosing;
- once a door is revealed, it is neither the car nor the chosen door.

Every desktop method keeps it. On the web side the session's first run, "New
Game" (`ResetGame`), the door-button handler (`PressDoor`), the auto-simulate
button (`AutoSimulate`) and `RevealGoat`, which only the door-button handler
calls, keep it too. The one exception is the web `ProcessChoice`, which keeps only
the tallies' invariant. It accepts any final choice, including the revealed
door, because the web copy leaves that check to the disabled button in
`PressDoor`.

Every method also states its whole new state.

Random draws are parameters of the operations:

- `random.randint(0, 2)` becomes a `Door` argument.
- `random.choice(list)` becomes an arbitrary natural number `r`. The element
  picked is `list[r % |list|]` (`Game.Pick`). So every candidate can be drawn
  and nothing outside the list can. The list being non-empty is then something
  the model proves, not something it assumes.
- Each batch takes the sequence of its 100 trials' draws.

Every property holds for all draws. The strategy radio button is read from a
widget, so the model passes it as a `Strategy` parameter.

The two copies differ, and the model keeps each difference:

- The desktop `MakeFinalChoice` refuses the revealed door and keeps
  `chosenDoor`. The web `ProcessChoice` overwrites `chosenDoor` and does not
  check the revealed door. There, only `PressDoor`'s disabling rule keeps a
  final choice off the revealed door.
- The desktop batch plays two independent deals per trial. The web batch scores
  staying and switching on the same deal. It also keeps the fallback branch for
  an empty reveal list (monty_hall_streamlit.py:350-354), which is written out
  but can never run, because `Remaining` is never empty.

Preconditions are only what the callers in the source always satisfy:

- `RevealGoatDoor` and `RevealGoat` need a chosen door. Both callers set it
  first (monty_hall_simulator.py:131, monty_hall_streamlit.py:286).
- `MakeFinalChoice` is only called while deciding (monty_hall_simulator.py:147-148, 162-169).
- `ProcessAutomaticChoice` is only called under an automatic strategy
  (monty_hall_simulator.py:141).
- Each batch has exactly 100 trials of draws.

## Model

| member | source | states |
|---|---|---|
| `Game.Tally.Record` | monty_hall_simulator.py:176-183 | one more game: games rises by 1, wins rises by 1 exactly when the game was won, and `wins <= games` is kept |
| `Game.Below` | monty_hall_streamlit.py:87-92 | the doors below n that are neither a nor b: exactly those, in increasing order |
| `Game.Remaining` | monty_hall_simulator.py:151-152 | the candidate list holds exactly the doors other than a and b, in increasing order; it has 2 doors when a == b and 1 otherwise, so it is never empty |
| `Game.Pick` | monty_hall_simulator.py:153 | random.choice returns a member of the (non-empty) list, and a draw below the length selects that very element |
| `Game.SwitchTarget` | monty_hall_simulator.py:167-168 | the switch door is neither the first choice nor the revealed door; when those two differ it is the unique third door 3 - first - revealed, so `[0]` never fails |
| `Game.SwitchWinsIffFirstMissed` | monty_hall_simulator.py:161-169 | after a goat door other than the first choice is opened, switching finds the car if and only if the first choice was not the car |
| `Game.RevealIsGoat` | monty_hall_streamlit.py:85-96 | the revealed door is never the chosen door and never the car, for every draw |
| `Game.WinPercentage` | monty_hall_streamlit.py:321-330 | 0 when no games were played; otherwise p * games == wins * 100; p lies in [0, 100] when wins <= games, and is 100 exactly when every game was won |
| `Desktop.StayWins` | monty_hall_simulator.py:224-229 | the number of trials whose stay choice is the car, at most the number of trials |
| `Desktop.SwitchWins` | monty_hall_simulator.py:231-240 | the number of trials whose switch first choice missed the car, at most the number of trials |
| `Desktop.Simulator.constructor` | monty_hall_simulator.py:14-21 | both tallies at {0, 0}, then a reset game: car placed, nothing chosen or revealed, phase choosing, invariant established |
| `Desktop.Simulator.ResetGame` | monty_hall_simulator.py:196-200 | car placed at the drawn door, chosen and revealed doors cleared, phase choosing, tallies untouched, invariant restored |
| `Desktop.Simulator.RevealGoatDoor` | monty_hall_simulator.py:150-158 | the revealed door is the draw from Remaining(car, chosen), so neither the car nor the chosen door; phase deciding; car, choice and tallies unchanged |
| `Desktop.Simulator.MakeFinalChoice` | monty_hall_simulator.py:171-191 | the revealed door changes nothing; otherwise exactly one tally gains a game (stay if the choice is the first door, switch otherwise), won iff the choice is the car, the other tally is unchanged, chosen door kept, phase finished |
| `Desktop.Simulator.ProcessAutomaticChoice` | monty_hall_simulator.py:161-169 | reveal, then "stay" credits the stay tally with a win iff the first choice is the car, and "switch" credits the switch tally with a win iff it is not; phase finished |
| `Desktop.Simulator.ChooseDoor` | monty_hall_simulator.py:129-148 | while choosing: records the door, reveals a goat, and an automatic strategy finishes the game with the tally outcome above; while deciding: the final choice as in MakeFinalChoice; when finished: nothing changes; the car never moves and the invariant is kept |
| `Desktop.Simulator.AutoSimulate` | monty_hall_simulator.py:222-240 | each tally gains exactly 100 games; the stay tally gains StayWins(trials) wins and the switch tally SwitchWins(trials), each at most 100; the game in progress is untouched and wins <= games is kept |
| `Web.StayWins` | monty_hall_streamlit.py:358-361 | the number of trials whose first choice is the car, at most the number of trials |
| `Web.SwitchWins` | monty_hall_streamlit.py:363-369 | the number of trials whose first choice is not the car, at most the number of trials |
| `Web.OneWinnerPerTrial` | monty_hall_streamlit.py:342-369 | on one deal exactly one of staying and switching wins: the two counts add up to the number of trials |
| `Web.RemoveFirst` | monty_hall_streamlit.py:353-354 | `list.remove(x)`: when x is in the list, the result is the list with its first occurrence of x dropped and the other elements in their order; when x is absent, the ValueError (`None`). The call is guarded by `if car_pos in possible_reveals` and sits in the fallback branch, which never runs |
| `Web.CollectReveals` | monty_hall_streamlit.py:87-92 | the loop collects exactly Remaining(chosen, car), the doors neither chosen nor the car, in increasing order |
| `Web.Session.constructor` | monty_hall_streamlit.py:11-23 | both tallies at {0, 0}, phase choosing, car at the drawn door, nothing chosen or revealed, invariant established |
| `Web.Session.ResetGame` | monty_hall_streamlit.py:79-83 | car placed at the drawn door, chosen and revealed doors cleared, phase choosing, tallies untouched |
| `Web.Session.RevealGoat` | monty_hall_streamlit.py:85-96 | the revealed door is the draw from the collected list, neither the chosen door nor the car; phase deciding; nothing else changes |
| `Web.Session.ProcessChoice` | monty_hall_streamlit.py:98-114 | the chosen door becomes the final choice; the switch tally (if is_switch) or else the stay tally gains a game, won iff the choice is the car; the other tally is unchanged; phase finished; keeps wins <= games but not the revealed-door part of the invariant, which the button handler guarantees |
| `Web.Session.PressDoor` | monty_hall_streamlit.py:281-301 | no button acts once finished, and the revealed door's button does nothing while deciding; in choosing, "Always stay" credits the stay tally with a win iff the first choice is the car, and "Always switch" moves to the unique third door and credits the switch tally with a win iff it is not; in deciding a choice counts as a switch iff it differs from the first choice; the invariant is kept |
| `Web.Session.AutoSimulate` | monty_hall_streamlit.py:341-369 | each tally gains exactly 100 games; staying gains StayWins(trials) wins and switching SwitchWins(trials); together the two win counters rise by exactly 100; the game in progress is untouched |

## Left out

- create_images.py is not part of this model. It only draws images with PIL and writes PNG files.
- The drawing, the widget plumbing and the animation are not modelled: `create_door_image`, `create_monty_hall`, `create_door_animation`, `get_image_base64`, `create_clickable_image`, the audio markup, the donut chart, the tkinter layout, `animate_door`, the canvas colours and the status messages.
- The random number generator is not modelled; each draw is a parameter. The convergence of the win rates to 1/3 and 2/3 is a probabilistic claim and is not stated. Only its deterministic core is proved: `Game.SwitchWinsIffFirstMissed`.
- The `:.1f` float formatting of percentages is not modelled, including the desktop rate strings of `update_statistics` (monty_hall_simulator.py:213-220).
- Game.WinPercentage: computes `wins / games * 100` on exact reals, while the source computes it in binary floating point (monty_hall_streamlit.py:323, 330). Its bounds and its relation `p * games == wins * 100` hold for the exact quotient; rounding in the floating-point result is not modelled.
- Streamlit reruns and session rehydration are not modelled: the `if ... not in st.session_state` guards run on every rerun but assign only on the first, and the session state is modelled as one owned object whose constructor is that first run.
- The strategy radio button is not modelled as a widget; its value is a parameter of `ChooseDoor` and `PressDoor`.
