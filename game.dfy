/** The pieces of the Monty Hall game shared by the desktop and the web front-ends:
    doors, phases, strategies, the win/game tallies and the door lists both
    front-ends build by excluding one or two doors from range(3). */
module Game {

  /** A door index, as drawn by random.randint(0, 2). */
  type Door = d: int | 0 <= d < DoorCount

  /** The number of doors, range(3). */
  const DoorCount: int := 3

  /** Every auto-simulate button runs this many games. */
  const BatchSize: nat := 100

  /** Python's None for chosen_door and revealed_door. */
  datatype Option<T> = None | Some(value: T)

  /** The game_state strings "choosing", "deciding" and "finished". */
  datatype Phase = Choosing | Deciding | Finished

  /** The strategy radio buttons: "Choose manually", "Always stay", "Always switch". */
  datatype Strategy = Manual | AlwaysStay | AlwaysSwitch

  /** The {'wins': .., 'games': ..} dictionary kept per strategy. */
  datatype Tally = Tally(wins: nat, games: nat) {

    /** A tally never records more wins than games. */
    predicate Valid() {
      wins <= games
    }

    /** The tally after one more game, won or lost. */
    function Record(won: bool): (t: Tally)
      ensures t.games == games + 1
      ensures t.wins <= wins + 1 && (t.wins == wins + 1 <==> won) && (t.wins == wins <==> !won)
      ensures Valid() ==> t.Valid()
    {
      Tally(if won then wins + 1 else wins, games + 1)
    }
  }

  /** The doors below n, in increasing order, that are neither a nor b. */
  function Below(n: nat, a: Door, b: Door): (r: seq<Door>)
    requires n <= DoorCount
    ensures forall d: Door :: d in r <==> d < n && d != a && d != b
    ensures forall j, k :: 0 <= j < k < |r| ==> r[j] < r[k]
    ensures |r| <= n
  {
    if n == 0 then []
    else
      var lower := Below(n - 1, a, b);
      assert forall j :: 0 <= j < |lower| ==> lower[j] in lower;
      lower + (if n - 1 != a && n - 1 != b then [n - 1] else [])
  }

  /** The list comprehension [i for i in range(3) if i != a and i != b]. It is
      never empty: two doors when a == b, the single third door otherwise. */
  function Remaining(a: Door, b: Door): (r: seq<Door>)
    ensures forall d: Door :: d in r <==> d != a && d != b
    ensures forall j, k :: 0 <= j < k < |r| ==> r[j] < r[k]
    ensures |r| == if a == b then 2 else 1
  {
    var r := Below(DoorCount, a, b);
    assert r == Below(2, a, b) + (if 2 != a && 2 != b then [2] else []);
    assert Below(2, a, b) == Below(1, a, b) + (if 1 != a && 1 != b then [1] else []);
    assert Below(1, a, b) == (if 0 != a && 0 != b then [0] else []);
    r
  }

  /** random.choice(s): the draw r, any natural number, selects s[r mod |s|], so
      every element can be picked and nothing outside s can. */
  function Pick(s: seq<Door>, r: nat): (d: Door)
    requires |s| > 0
    ensures d in s
    ensures r < |s| ==> d == s[r]
  {
    s[r % |s|]
  }

  /** The door a switching player moves to: the first door that is neither the
      first choice nor the revealed one. When the two differ it is the third door. */
  function SwitchTarget(first: Door, revealed: Door): (d: Door)
    ensures d != first && d != revealed
    ensures first != revealed ==> d == DoorCount - first - revealed
  {
    var r := Remaining(first, revealed);
    assert r[0] in r;
    assert first != revealed ==> DoorCount - first - revealed in r;
    r[0]
  }

  /** The heart of the puzzle: once the host has opened a goat door other than
      the first choice, switching wins exactly when the first choice missed the
      car, and staying wins exactly when it hit. */
  lemma SwitchWinsIffFirstMissed(first: Door, car: Door, revealed: Door)
    requires revealed != first && revealed != car
    ensures SwitchTarget(first, revealed) == car <==> first != car
  {
    if first != car {
      assert car == DoorCount - first - revealed;
    }
  }

  /** The host's choice of goat door, random.choice over Remaining(first, car),
      is never the first choice and never the car. */
  lemma RevealIsGoat(first: Door, car: Door, r: nat)
    ensures Pick(Remaining(first, car), r) != first
    ensures Pick(Remaining(first, car), r) != car
  {
  }

  /** wins / games * 100 when games > 0, else 0, computed exactly. */
  function WinPercentage(t: Tally): (p: real)
    ensures t.games == 0 ==> p == 0.0
    ensures t.games > 0 ==> p * (t.games as real) == (t.wins as real) * 100.0
    ensures t.Valid() ==> 0.0 <= p <= 100.0
    ensures p == 100.0 <==> t.games > 0 && t.wins == t.games
  {
    if t.games > 0 then (t.wins as real) / (t.games as real) * 100.0 else 0.0
  }
}
