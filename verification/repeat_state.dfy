/** The repeat-state codec: a fixed name table and a cyclic successor computed on
    the enum's ordinal. The client library's enum is taken to number its members
    Track = 0, Context = 1, Off = 2. */
module RepeatStates {
  import opened Wrappers

  datatype RepeatState = Track | Context | Off

  /** The integer value of the enum member. */
  function Ordinal(s: RepeatState): (n: nat)
    ensures n < 3
  {
    match s
    case Track => 0
    case Context => 1
    case Off => 2
  }

  /** The `(State)n` cast for an ordinal in range. */
  function FromOrdinal(n: nat): (s: RepeatState)
    requires n < 3
    ensures Ordinal(s) == n
  {
    if n == 0 then Track else if n == 1 then Context else Off
  }

  /** The `_states` dictionary: lowercase name to state. */
  const States: map<string, RepeatState> :=
    map["track" := Track, "context" := Context, "off" := Off]

  /** The table's name for each state: the inverse of the dictionary. */
  function Name(s: RepeatState): (name: string)
    ensures name in States && States[name] == s
  {
    match s
    case Track => "track"
    case Context => "context"
    case Off => "off"
  }

  /** Lookup in the name table: the state named `name`, or KeyNotFound for any other string. */
  function GetState(name: string): (r: Result<RepeatState>)
    ensures r == Ok(Track) <==> name == "track"
    ensures r == Ok(Context) <==> name == "context"
    ensures r == Ok(Off) <==> name == "off"
    ensures r.Thrown? <==> name != "track" && name != "context" && name != "off"
    ensures r.Thrown? ==> r.fault == KeyNotFound
  {
    if name in States then Ok(States[name]) else Thrown(KeyNotFound)
  }

  /** The next repeat state: ordinal plus one, modulo three. */
  function Next(s: RepeatState): (r: RepeatState)
    ensures s == Track ==> r == Context
    ensures s == Context ==> r == Off
    ensures s == Off ==> r == Track
  {
    FromOrdinal((Ordinal(s) + 1) % 3)
  }

  /** Looking up a state's own name gives that state back, and no other name does. */
  lemma GetStateNameRoundTrip(s: RepeatState, name: string)
    ensures GetState(Name(s)) == Ok(s)
    ensures GetState(name) == Ok(s) ==> name == Name(s)
  {
  }

  /** Three steps of Next return to the start, and no state is its own successor. */
  lemma NextPeriodThree(s: RepeatState)
    ensures Next(Next(Next(s))) == s
    ensures Next(s) != s
    ensures Next(Next(s)) != s
  {
  }

  /** Next is a bijection: distinct states have distinct successors. */
  lemma NextInjective(s: RepeatState, t: RepeatState)
    ensures Next(s) == Next(t) ==> s == t
  {
  }

  /** Next applied `n` times. */
  function Iterate(s: RepeatState, n: nat): RepeatState
  {
    if n == 0 then s else Next(Iterate(s, n - 1))
  }

  /** n steps of Next advance the ordinal by n, modulo three. */
  lemma {:induction false} IterateOrdinal(s: RepeatState, n: nat)
    ensures Ordinal(Iterate(s, n)) == (Ordinal(s) + n) % 3
  {
    if n > 0 {
      IterateOrdinal(s, n - 1);
      var m := Ordinal(s) + n - 1;
      NextOrdinal(Iterate(s, n - 1));
      ModThreeStep(m);
    }
  }

  /** Next adds one to the ordinal, modulo three. */
  lemma NextOrdinal(s: RepeatState)
    ensures Ordinal(Next(s)) == (Ordinal(s) + 1) % 3
  {
  }

  lemma ModThreeStep(m: nat)
    ensures (m % 3 + 1) % 3 == (m + 1) % 3
  {
  }

  /** The cycle has period exactly three: n steps return to the start state
      if and only if n is a multiple of three. */
  lemma IteratePeriod(s: RepeatState, n: nat)
    ensures Iterate(s, n) == s <==> n % 3 == 0
  {
    IterateOrdinal(s, n);
    assert Iterate(s, n) == s <==> Ordinal(Iterate(s, n)) == Ordinal(s);
  }
}
