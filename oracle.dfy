/**
  The injected random functions. Each draw is a call to an oracle that
  records what it was given and returns the next scripted answer. All calls
  of one generation run go into a single trace (`log`), and the answer to a
  call is the script's answer for that call's position in the trace; so a
  fixed script makes every run deterministic, and contracts can speak of
  call counts, call arguments and the branch each answer selects.
 */
module Oracle {
  import opened Wrappers
  import opened Errors

  /** One call into an injected function, with the argument it was given. */
  datatype Call =
      /** `shouldDoAction(chance)` (also the stores' `chanceRoll(chance)`); `None` is `undefined`. */
    | ShouldDoAction(chance: Option<real>)
      /** `randomSample(collection)` */
    | RandomSample(collection: seq<string>)
      /** `randomInt(max)` */
    | RandomInt(max: int)
      /** the random generator's `randomChance()` */
    | RandomChance
      /** the stores' `chanceRoll()` that decides the litter size */
    | ChanceRoll
      /** the fertility treatment's `shouldDoAction(chance)` */
    | FertilityRoll(odds: real)
      /** the fertility treatment's `rollLitterSize(min, max)` */
    | RollLitterSize(min: int, max: int)

  /** The scripted answers, by position of the call in the trace. */
  datatype Script = Script(flag: nat -> bool, item: nat -> string, number: nat -> int, fraction: nat -> real)

  /** A value computed with draws, and the trace after them. */
  datatype Drawn<T> = Drawn(value: T, log: seq<Call>)

  /** A computation with draws that may throw: its value or its error, and the trace after the draws it made. */
  datatype Step<T> = Ok(value: T, log: seq<Call>) | Err(error: Error, log: seq<Call>)

  /** A computation that cannot throw, as a step. */
  function Lift<T>(d: Drawn<T>): Step<T>
  {
    Ok(d.value, d.log)
  }

  function Act(s: Script, log: seq<Call>, chance: real): Drawn<bool>
  {
    Drawn(s.flag(|log|), log + [ShouldDoAction(Some(chance))])
  }

  /** `shouldDoAction` given a chance that may be `undefined`. */
  function ActOn(s: Script, log: seq<Call>, chance: Option<real>): Drawn<bool>
  {
    Drawn(s.flag(|log|), log + [ShouldDoAction(chance)])
  }

  function Sample(s: Script, log: seq<Call>, collection: seq<string>): Drawn<string>
  {
    Drawn(s.item(|log|), log + [RandomSample(collection)])
  }

  function Int(s: Script, log: seq<Call>, max: int): Drawn<int>
  {
    Drawn(s.number(|log|), log + [RandomInt(max)])
  }

  function Chance(s: Script, log: seq<Call>): Drawn<real>
  {
    Drawn(s.fraction(|log|), log + [RandomChance])
  }

  function Roll(s: Script, log: seq<Call>): Drawn<real>
  {
    Drawn(s.fraction(|log|), log + [ChanceRoll])
  }

  function Fertility(s: Script, log: seq<Call>, chance: real): Drawn<bool>
  {
    Drawn(s.flag(|log|), log + [FertilityRoll(chance)])
  }

  function LitterDelta(s: Script, log: seq<Call>, min: int, max: int): Drawn<int>
  {
    Drawn(s.number(|log|), log + [RollLitterSize(min, max)])
  }

  /**
    The injected `randomSample` answers every sample of a non-empty
    collection in the trace with a member of that collection, as lodash's
    `sample` does.
   */
  predicate SamplesMembers(s: Script, log: seq<Call>)
  {
    forall p :: 0 <= p < |log| && log[p].RandomSample? && |log[p].collection| > 0 ==> s.item(p) in log[p].collection
  }

  /** An honest sampler over a trace is honest over each of its prefixes. */
  lemma SamplesMembersPrefix(s: Script, log: seq<Call>, prefix: seq<Call>)
    requires SamplesMembers(s, log) && |prefix| <= |log| && log[..|prefix|] == prefix
    ensures SamplesMembers(s, prefix)
  {
    forall p | 0 <= p < |prefix| ensures prefix[p] == log[p] {
      assert log[..|prefix|][p] == log[p];
    }
  }

  /**
    The injected `rollLitterSize(min, max)` answers every call in the trace
    with a whole number from `min` to `max`, as lodash's `random(min, max)`
    does.
   */
  predicate DrawsInRange(s: Script, log: seq<Call>)
  {
    forall p :: 0 <= p < |log| && log[p].RollLitterSize? ==> log[p].min <= s.number(p) <= log[p].max
  }

  /** `later` is `log` followed by more calls. */
  predicate Extends(log: seq<Call>, later: seq<Call>)
  {
    |log| <= |later| && later[..|log|] == log
  }

  lemma ExtendsTrans(a: seq<Call>, b: seq<Call>, c: seq<Call>)
    requires Extends(a, b) && Extends(b, c)
    ensures Extends(a, c)
  {
    assert c[..|a|] == c[..|b|][..|a|];
  }

  /** How many calls in a trace ask for a Bernoulli roll. */
  function CountActs(log: seq<Call>): nat
  {
    if |log| == 0 then 0
    else CountActs(log[..|log| - 1]) + if log[|log| - 1].ShouldDoAction? then 1 else 0
  }

  /** How many calls in a trace ask for a sample. */
  function CountSamples(log: seq<Call>): nat
  {
    if |log| == 0 then 0
    else CountSamples(log[..|log| - 1]) + if log[|log| - 1].RandomSample? then 1 else 0
  }

  /** Appending one call counts it once, in the tally of its own kind. */
  lemma CountSnoc(log: seq<Call>, c: Call)
    ensures CountActs(log + [c]) == CountActs(log) + if c.ShouldDoAction? then 1 else 0
    ensures CountSamples(log + [c]) == CountSamples(log) + if c.RandomSample? then 1 else 0
  {
    assert (log + [c])[..|log|] == log;
  }

  lemma {:induction false} CountAppend(a: seq<Call>, b: seq<Call>)
    ensures CountActs(a + b) == CountActs(a) + CountActs(b)
    ensures CountSamples(a + b) == CountSamples(a) + CountSamples(b)
    decreases |b|
  {
    if |b| == 0 {
      assert a + b == a;
    } else {
      assert (a + b)[..|a + b| - 1] == a + b[..|b| - 1];
      CountAppend(a, b[..|b| - 1]);
    }
  }
}
