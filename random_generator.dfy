/**
  The random generator (`NemeionRandomGenerator`): it ignores parents and
  fills the seven steps of the generator protocol from four injected
  functions — `shouldDoAction` (a roll at a chance), `randomSample` (one
  member of a collection), `randomInt(max)` (an integer from 0 to max) and
  `randomChance()` (a fraction in [0, 1]).
 */
module RandomGenerator {
  import opened Wrappers
  import opened Oracle
  import opened Seqs
  import opened Configuration
  import opened Creatures
  import opened Thresholds
  import opened Generator
  import opened Constants

  /** A random generator; one script answers all four injected functions. */
  datatype RandomGenerator = RandomGenerator(injected: Script)

  /** `_generateFur`: always the default fur, without any draw. */
  function DefaultFur(cfg: Config, log: seq<Call>): (r: Drawn<Option<string>>)
    ensures r.value == Some(cfg.furDefault) && r.log == log
  {
    Drawn(Some(cfg.furDefault), log)
  }

  // ------------------------------------------------------ weighted roll

  /** The weight of a `[value, weight]` entry. */
  function Weight(e: (string, real)): real
  {
    e.1
  }

  /** The value whose cumulative threshold the roll reaches first, or `undefined`. */
  function Pick(weights: seq<(string, real)>, roll: real): Option<string>
  {
    match Threshold(weights, Weight, roll)
    case None => None
    case Some(e) => Some(e.0)
  }

  /**
    The weighted roll picks a value of the table whose weight is at least the
    roll, with the least such weight; it picks nothing exactly when the roll
    exceeds every weight; and a roll equal to one of distinct weights picks
    that weight's value.
   */
  lemma PickFacts(weights: seq<(string, real)>, roll: real)
    ensures var r := Pick(weights, roll);
      (r.Some? ==> exists e :: e in weights && e.0 == r.value && roll <= e.1 &&
                     forall x :: x in weights && roll <= x.1 ==> e.1 <= x.1) &&
      (r.None? <==> forall x :: x in weights ==> x.1 < roll)
  {
    ThresholdFacts(weights, Weight, roll);
    var t := Threshold(weights, Weight, roll);
    if t.Some? {
      assert t.value in weights && t.value.0 == Pick(weights, roll).value;
    }
  }

  lemma PickExact(weights: seq<(string, real)>, k: nat)
    requires DistinctKeys(weights, Weight) && k < |weights|
    ensures Pick(weights, weights[k].1) == Some(weights[k].0)
  {
    ThresholdExact(weights, Weight, k);
  }

  /** `#_generateWeightedRandom`: one `randomChance()`, then a scan of the table sorted by weight. */
  method WeightedRandom(s: Script, log: seq<Call>, weights: seq<(string, real)>) returns (r: Drawn<Option<string>>)
    ensures r == Drawn(Pick(weights, s.fraction(|log|)), log + [RandomChance])
  {
    var chanceRoll := Chance(s, log);
    var sortedWeights := SortBy(weights, Weight);
    var i := 0;
    while i < |sortedWeights|
      invariant 0 <= i <= |sortedWeights|
      invariant FirstAtLeast(sortedWeights[i..], Weight, chanceRoll.value) ==
                FirstAtLeast(sortedWeights, Weight, chanceRoll.value)
    {
      var (value, weight) := sortedWeights[i];
      if chanceRoll.value <= weight {
        return Drawn(Some(value), chanceRoll.log);
      }
      assert sortedWeights[i..][1..] == sortedWeights[i + 1..];
      i := i + 1;
    }
    return Drawn(None, chanceRoll.log);
  }

  /** The weighted roll as a step value. */
  function WeightedSpec(s: Script, log: seq<Call>, weights: seq<(string, real)>): Drawn<Option<string>>
  {
    Drawn(Pick(weights, s.fraction(|log|)), log + [RandomChance])
  }

  // ----------------------------------------------------- random aspects

  /** One pass of the sampling loop: the gate (when there is one) is rolled, and on success one sample is kept. */
  function Draw(s: Script, d: Drawn<seq<string>>, pool: seq<string>, gate: Option<real>): Drawn<seq<string>>
  {
    match gate
    case None =>
      var x := Sample(s, d.log, pool);
      Drawn(d.value + [x.value], x.log)
    case Some(c) =>
      var a := Act(s, d.log, c);
      if a.value then
        var x := Sample(s, a.log, pool);
        Drawn(d.value + [x.value], x.log)
      else Drawn(d.value, a.log)
  }

  /** `n` passes of the sampling loop, from an empty result. */
  function Draws(s: Script, log: seq<Call>, pool: seq<string>, gate: Option<real>, n: nat): Drawn<seq<string>>
  {
    if n == 0 then Drawn([], log) else Draw(s, Draws(s, log, pool, gate, n - 1), pool, gate)
  }

  /**
    `n` passes only extend the trace and keep at most `n` values; without a
    gate they add exactly `n` samples of the pool and keep all `n`.
   */
  lemma {:induction false} DrawsTrace(s: Script, log: seq<Call>, pool: seq<string>, gate: Option<real>, n: nat)
    ensures var d := Draws(s, log, pool, gate, n);
      |log| <= |d.log| && d.log[..|log|] == log && |d.value| <= n &&
      (gate.None? ==> d.log == log + Repeat(RandomSample(pool), n) && |d.value| == n)
  {
    if n > 0 {
      var e := Draws(s, log, pool, gate, n - 1);
      DrawsTrace(s, log, pool, gate, n - 1);
      if gate.None? {
        assert Repeat(RandomSample(pool), n) == Repeat(RandomSample(pool), n - 1) + [RandomSample(pool)];
      }
    }
  }

  /** One gated pass adds one roll, and one sample exactly when it keeps a value. */
  lemma DrawGated(s: Script, e: Drawn<seq<string>>, pool: seq<string>, c: real)
    ensures var d := Draw(s, e, pool, Some(c));
      CountActs(d.log) == CountActs(e.log) + 1 &&
      CountSamples(d.log) + |e.value| == CountSamples(e.log) + |d.value| && |d.value| <= |e.value| + 1
  {
    var a := Act(s, e.log, c);
    CountSnoc(e.log, ShouldDoAction(Some(c)));
    if a.value {
      CountSnoc(a.log, RandomSample(pool));
    }
  }

  /** `n` applications of a pass, from an empty result. */
  function Iterate(pass: Drawn<seq<string>> -> Drawn<seq<string>>, log: seq<Call>, n: nat): Drawn<seq<string>>
  {
    if n == 0 then Drawn([], log) else pass(Iterate(pass, log, n - 1))
  }

  /** The sampling loop iterates its pass. */
  lemma {:induction false} DrawsIterate(s: Script, log: seq<Call>, pool: seq<string>, gate: Option<real>, n: nat)
    ensures Draws(s, log, pool, gate, n) == Iterate(d => Draw(s, d, pool, gate), log, n)
  {
    if n > 0 {
      DrawsIterate(s, log, pool, gate, n - 1);
    }
  }

  /** A pass that adds one roll, iterated `n` times, adds `n` rolls. */
  lemma {:induction false} IterateActs(pass: Drawn<seq<string>> -> Drawn<seq<string>>, log: seq<Call>, n: nat)
    requires forall e :: CountActs(pass(e).log) == CountActs(e.log) + 1
    ensures CountActs(Iterate(pass, log, n).log) == CountActs(log) + n
  {
    if n > 0 {
      IterateActs(pass, log, n - 1);
    }
  }

  /** With a gate, `n` passes add exactly `n` rolls. */
  lemma DrawsGated(s: Script, log: seq<Call>, pool: seq<string>, c: real, n: nat)
    ensures CountActs(Draws(s, log, pool, Some(c), n).log) == CountActs(log) + n
  {
    var pass := d => Draw(s, d, pool, Some(c));
    forall e ensures CountActs(pass(e).log) == CountActs(e.log) + 1 {
      DrawActs(s, e, pool, c);
    }
    IterateActs(pass, log, n);
    DrawsIterate(s, log, pool, Some(c), n);
  }

  /** One gated pass adds one roll. */
  lemma DrawActs(s: Script, e: Drawn<seq<string>>, pool: seq<string>, c: real)
    ensures CountActs(Draw(s, e, pool, Some(c)).log) == CountActs(e.log) + 1
  {
    var a := Act(s, e.log, c);
    CountSnoc(e.log, ShouldDoAction(Some(c)));
    if a.value {
      CountSnoc(a.log, RandomSample(pool));
    }
  }

  /** With a gate, `n` passes add one sample per value kept. */
  lemma {:induction false} DrawsGatedSamples(s: Script, log: seq<Call>, pool: seq<string>, c: real, n: nat)
    ensures var d := Draws(s, log, pool, Some(c), n);
      CountSamples(d.log) == CountSamples(log) + |d.value|
  {
    if n > 0 {
      DrawsGatedSamples(s, log, pool, c, n - 1);
      DrawGated(s, Draws(s, log, pool, Some(c), n - 1), pool, c);
    }
  }

  /** With an honest sampler and a non-empty pool, every value kept is a member of the pool. */
  lemma {:induction false} DrawsMembers(s: Script, log: seq<Call>, pool: seq<string>, gate: Option<real>, n: nat)
    requires |pool| > 0 && SamplesMembers(s, Draws(s, log, pool, gate, n).log)
    ensures forall x :: x in Draws(s, log, pool, gate, n).value ==> x in pool
  {
    if n > 0 {
      var e := Draws(s, log, pool, gate, n - 1);
      var d := Draws(s, log, pool, gate, n);
      assert SamplesMembers(s, e.log) by {
        forall p | 0 <= p < |e.log| ensures e.log[p] == d.log[p] { }
      }
      DrawsMembers(s, log, pool, gate, n - 1);
      forall x | x in d.value ensures x in pool {
        if x !in e.value {
          assert d.log[|d.log| - 1] == RandomSample(pool);
        }
      }
    }
  }

  /**
    `#_generateRandomAspects` as a value: one `randomInt(maxCount)` for the
    count, that many passes (none for a count below one), then each value once.
   */
  function RandomAspectsSpec(s: Script, log: seq<Call>, maxCount: int, pool: seq<string>, gate: Option<real>)
    : Drawn<seq<string>>
  {
    var total := Int(s, log, maxCount);
    var d := Draws(s, total.log, pool, gate, if total.value > 0 then total.value else 0);
    Drawn(Dedup(d.value), d.log)
  }

  /** `#_generateRandomAspects`; `gate` is the chance of the optional `shouldDoAction` argument, `None` for the default that always passes. */
  method RandomAspects(s: Script, log: seq<Call>, maxCount: int, pool: seq<string>, gate: Option<real>)
    returns (r: Drawn<seq<string>>)
    ensures r == RandomAspectsSpec(s, log, maxCount, pool, gate)
  {
    var totalCount := Int(s, log, maxCount);
    ghost var n: nat := if totalCount.value > 0 then totalCount.value else 0;
    var result: seq<string> := [];
    var trace := totalCount.log;
    var i := 0;
    while i < totalCount.value
      invariant 0 <= i <= n
      invariant Drawn(result, trace) == Draws(s, totalCount.log, pool, gate, i)
    {
      var keep := true;
      if gate.Some? {
        var a := Act(s, trace, gate.value);
        keep, trace := a.value, a.log;
      }
      if keep {
        var x := Sample(s, trace, pool);
        result, trace := result + [x.value], x.log;
      }
      i := i + 1;
    }
    r := Drawn(Dedup(result), trace);
  }

  /**
    The random aspects: each value once, no more than the count drawn; the
    count call comes first; without a gate exactly `count` samples follow,
    with a gate exactly `count` rolls; with an honest sampler every value is
    a member of a non-empty pool.
   */
  lemma RandomAspectsFacts(s: Script, log: seq<Call>, maxCount: int, pool: seq<string>, gate: Option<real>)
    ensures var r := RandomAspectsSpec(s, log, maxCount, pool, gate);
      var count := s.number(|log|);
      var n: nat := if count > 0 then count else 0;
      NoDup(r.value) && |r.value| <= n &&
      |log| < |r.log| && r.log[..|log| + 1] == log + [RandomInt(maxCount)] &&
      (gate.None? ==> r.log == log + [RandomInt(maxCount)] + Repeat(RandomSample(pool), n)) &&
      (gate.Some? ==> CountActs(r.log) == CountActs(log) + n) &&
      (|pool| > 0 && SamplesMembers(s, r.log) ==> forall x :: x in r.value ==> x in pool)
  {
    var total := Int(s, log, maxCount);
    var n: nat := if total.value > 0 then total.value else 0;
    var d := Draws(s, total.log, pool, gate, n);
    DrawsTrace(s, total.log, pool, gate, n);
    if gate.Some? {
      DrawsGated(s, total.log, pool, gate.value, n);
      CountAppend(log, [RandomInt(maxCount)]);
    }
    if |pool| > 0 && SamplesMembers(s, d.log) {
      DrawsMembers(s, total.log, pool, gate, n);
    }
    assert d.log[..|log| + 1] == total.log;
  }

  // --------------------------------------------------- weighted markings

  /** The copies a quality gets in the marking pool; a quality missing from the table gets 60. */
  function QualityWeight(quality: string): (w: nat)
    ensures w == 0 <==> quality == "Limited"
    ensures quality !in {"Limited", "Common", "Uncommon", "Rare", "Epic", "Legendary", "Dupes"} ==> w == 60
  {
    if quality == "Limited" then 0
    else if quality == "Common" then 100
    else if quality == "Uncommon" then 60
    else if quality == "Rare" then 15
    else if quality == "Epic" then 5
    else if quality == "Legendary" then 1
    else if quality == "Dupes" then 5
    else 60
  }

  /** A marking's quality; an absent or empty quality counts as Common. */
  function QualityOf(t: AspectTable, marking: string): string
  {
    if marking in t.quality && t.quality[marking] != "" then t.quality[marking] else "Common"
  }

  /** The copies of a marking in the pool. */
  function Copies(t: AspectTable, marking: string): nat
  {
    QualityWeight(QualityOf(t, marking))
  }

  /** The weighted pool: each key, in order, repeated by its weight. */
  function Pool(t: AspectTable, keys: seq<string>): seq<string>
  {
    if |keys| == 0 then [] else Pool(t, keys[..|keys| - 1]) + Repeat(keys[|keys| - 1], Copies(t, keys[|keys| - 1]))
  }

  /**
    Over keys that occur once, each key occurs in the pool exactly as often as
    its quality's weight and nothing else occurs; so a Limited marking is
    never in the pool, and a marking without a quality has 100 copies.
   */
  lemma {:induction false} PoolCount(t: AspectTable, keys: seq<string>)
    requires NoDup(keys)
    ensures forall m :: multiset(Pool(t, keys))[m] == if m in keys then Copies(t, m) else 0
  {
    if |keys| > 0 {
      var init, last := keys[..|keys| - 1], keys[|keys| - 1];
      assert keys == init + [last];
      assert NoDup(init);
      PoolCount(t, init);
      RepeatMultiset(last, Copies(t, last));
    }
  }

  /** The pool of the configured markings. */
  function MarkingPool(cfg: Config): seq<string>
  {
    Pool(cfg.markings, AllMarkings(cfg))
  }

  /** The weighted pool holds exactly the configured markings that are not Limited, each by its weight. */
  lemma MarkingPoolFacts(cfg: Config)
    ensures forall m :: multiset(MarkingPool(cfg))[m] == if m in cfg.markings.available then Copies(cfg.markings, m) else 0
    ensures forall m :: m in MarkingPool(cfg) <==> m in cfg.markings.available && QualityOf(cfg.markings, m) != "Limited"
  {
    var pool := MarkingPool(cfg);
    PoolCount(cfg.markings, AllMarkings(cfg));
    forall m ensures m in pool <==> m in cfg.markings.available && QualityOf(cfg.markings, m) != "Limited" {
      assert m in pool <==> multiset(pool)[m] > 0;
    }
  }

  /** The loops that build the weighted pool. */
  method BuildPool(t: AspectTable, keys: seq<string>) returns (weightedMarkings: seq<string>)
    ensures weightedMarkings == Pool(t, keys)
  {
    weightedMarkings := [];
    var i := 0;
    while i < |keys|
      invariant 0 <= i <= |keys|
      invariant weightedMarkings == Pool(t, keys[..i])
    {
      var markingKey := keys[i];
      var weight := QualityWeight(QualityOf(t, markingKey));
      ghost var before := weightedMarkings;
      var j := 0;
      while j < weight
        invariant 0 <= j <= weight
        invariant weightedMarkings == before + Repeat(markingKey, j)
      {
        assert Repeat(markingKey, j + 1) == Repeat(markingKey, j) + [markingKey];
        weightedMarkings := weightedMarkings + [markingKey];
        j := j + 1;
      }
      assert keys[..i + 1][..i] == keys[..i];
      i := i + 1;
    }
    assert keys[..|keys|] == keys;
  }

  /**
    `#_generateWeightedMarkings` as a value: one `randomInt(maxCount)`, then
    that many samples of the weighted pool (none when the pool is empty),
    then each marking once.
   */
  function WeightedMarkingsSpec(cfg: Config, s: Script, log: seq<Call>): Drawn<seq<string>>
  {
    var total := Int(s, log, cfg.markings.randomCap);
    var pool := MarkingPool(cfg);
    var d := if |pool| > 0 then Draws(s, total.log, pool, None, if total.value > 0 then total.value else 0)
             else Drawn([], total.log);
    Drawn(Dedup(d.value), d.log)
  }

  /** `#_generateWeightedMarkings`, with the loops of the pool and of the draws. */
  method WeightedMarkings(cfg: Config, s: Script, log: seq<Call>) returns (r: Drawn<seq<string>>)
    ensures r == WeightedMarkingsSpec(cfg, s, log)
  {
    var totalCount := Int(s, log, cfg.markings.randomCap);
    var weightedMarkings := BuildPool(cfg.markings, AllMarkings(cfg));
    ghost var n: nat := if totalCount.value > 0 then totalCount.value else 0;
    var result: seq<string> := [];
    var trace := totalCount.log;
    var i := 0;
    while i < totalCount.value
      invariant 0 <= i <= n
      invariant Drawn(result, trace) ==
        if |weightedMarkings| > 0 then Draws(s, totalCount.log, weightedMarkings, None, i) else Drawn([], totalCount.log)
    {
      if |weightedMarkings| > 0 {
        var selectedMarking := Sample(s, trace, weightedMarkings);
        result, trace := result + [selectedMarking.value], selectedMarking.log;
      }
      i := i + 1;
    }
    r := Drawn(Dedup(result), trace);
  }

  /**
    The weighted markings: each once, no more than the count drawn; after the
    count call, exactly that many samples of the pool (none when it is empty);
    with an honest sampler, only configured markings that are not Limited.
   */
  lemma WeightedMarkingsFacts(cfg: Config, s: Script, log: seq<Call>)
    ensures var r := WeightedMarkingsSpec(cfg, s, log);
      var count := s.number(|log|);
      var n: nat := if count > 0 && |MarkingPool(cfg)| > 0 then count else 0;
      NoDup(r.value) && |r.value| <= n &&
      r.log == log + [RandomInt(cfg.markings.randomCap)] + Repeat(RandomSample(MarkingPool(cfg)), n) &&
      (SamplesMembers(s, r.log) ==>
        forall m :: m in r.value ==> m in cfg.markings.available && QualityOf(cfg.markings, m) != "Limited")
  {
    var total := Int(s, log, cfg.markings.randomCap);
    var pool := MarkingPool(cfg);
    var k: nat := if total.value > 0 then total.value else 0;
    MarkingPoolFacts(cfg);
    if |pool| > 0 {
      DrawsTrace(s, total.log, pool, None, k);
      if SamplesMembers(s, Draws(s, total.log, pool, None, k).log) {
        DrawsMembers(s, total.log, pool, None, k);
      }
    } else {
      assert Repeat(RandomSample(pool), 0) == [];
    }
  }

  // ------------------------------------------------- exclusive markings

  /** Membership in an exclusive group, as the filter's predicate. */
  function InGroup(group: seq<string>): string -> bool
  {
    m => m in group
  }

  /** The markings of `result` in the group, in order and with their repeats. */
  function Found(result: seq<string>, group: seq<string>): (found: seq<string>)
    ensures forall m :: multiset(found)[m] == if m in group then multiset(result)[m] else 0
    ensures forall m :: m in found <==> m in result && m in group
  {
    Filter(result, InGroup(group))
  }

  /** Subtraction that stops at zero. */
  function Monus(a: nat, b: nat): nat
  {
    if a > b then a - b else 0
  }

  /** One turn of the removal loop: a marking other than the kept one loses its first occurrence, if it has one. */
  function RemoveFirst(result: seq<string>, marking: string, keep: string): (r: seq<string>)
    ensures IsSubseq(r, result)
    ensures multiset(r) == if marking != keep && marking in result then multiset(result) - multiset{marking} else multiset(result)
  {
    if marking != keep then
      Remove(result, marking)
    else
      SubseqRefl(result);
      result
  }

  /** The removal loop over the found markings. */
  function RemoveOthers(result: seq<string>, found: seq<string>, keep: string): seq<string>
    decreases |found|
  {
    if |found| == 0 then result
    else RemoveFirst(RemoveOthers(result, found[..|found| - 1], keep), found[|found| - 1], keep)
  }

  /** The removal loop leaves a subsequence. */
  lemma {:induction false} RemoveOthersSubseq(result: seq<string>, found: seq<string>, keep: string)
    ensures IsSubseq(RemoveOthers(result, found, keep), result)
    decreases |found|
  {
    if |found| == 0 {
      SubseqRefl(result);
    } else {
      var r0 := RemoveOthers(result, found[..|found| - 1], keep);
      RemoveOthersSubseq(result, found[..|found| - 1], keep);
      SubseqTrans(RemoveFirst(r0, found[|found| - 1], keep), r0, result);
    }
  }

  /** The occurrences of `m` the removal loop leaves. */
  function Remaining(result: seq<string>, found: seq<string>, keep: string, m: string): nat
  {
    if m == keep then multiset(result)[m] else Monus(multiset(result)[m], multiset(found)[m])
  }

  /** The kept marking keeps all its occurrences; every other marking loses one per time it was found. */
  lemma {:induction false} RemoveOthersCount(result: seq<string>, found: seq<string>, keep: string)
    ensures forall m :: multiset(RemoveOthers(result, found, keep))[m] == Remaining(result, found, keep, m)
    decreases |found|
  {
    if |found| > 0 {
      var init, marking := found[..|found| - 1], found[|found| - 1];
      assert found == init + [marking];
      RemoveOthersCount(result, init, keep);
      var r0 := RemoveOthers(result, init, keep);
      assert multiset(found) == multiset(init) + multiset{marking};
      forall m ensures multiset(RemoveFirst(r0, marking, keep))[m] == Remaining(result, found, keep, m) {
        RemoveFirstCount(r0, marking, keep, m);
      }
    }
  }

  /** One turn of the removal loop takes one occurrence of the marking, unless it is the kept one or absent. */
  lemma RemoveFirstCount(result: seq<string>, marking: string, keep: string, m: string)
    ensures multiset(RemoveFirst(result, marking, keep))[m] ==
      if m == marking && marking != keep then Monus(multiset(result)[m], 1) else multiset(result)[m]
  {
    assert marking in result <==> multiset(result)[marking] > 0;
  }

  /** A one-group pass: with more than one found marking, one sample decides the marking kept. */
  function GroupStep(s: Script, d: Drawn<seq<string>>, group: seq<string>): Drawn<seq<string>>
  {
    var found := Found(d.value, group);
    if |found| > 1 then
      var keepMarking := Sample(s, d.log, found);
      Drawn(RemoveOthers(d.value, found, keepMarking.value), keepMarking.log)
    else d
  }

  /** The passes over the groups, in key order. */
  function ApplyGroups(s: Script, d: Drawn<seq<string>>, groups: seq<seq<string>>): Drawn<seq<string>>
    decreases |groups|
  {
    if |groups| == 0 then d else ApplyGroups(s, GroupStep(s, d, groups[0]), groups[1..])
  }

  /** `#_filterExclusiveMarkings` as a value: unchanged without groups, else the passes over every group. */
  function ExclusiveSpec(groups: Option<seq<seq<string>>>, s: Script, markings: seq<string>, log: seq<Call>)
    : Drawn<seq<string>>
  {
    match groups
    case None => Drawn(markings, log)
    case Some(gs) => ApplyGroups(s, Drawn(markings, log), gs)
  }

  /** The removal loop of `#_filterExclusiveMarkings`. */
  method RemoveAll(markings: seq<string>, foundMarkings: seq<string>, keepMarking: string) returns (result: seq<string>)
    ensures result == RemoveOthers(markings, foundMarkings, keepMarking)
  {
    result := markings;
    var j := 0;
    while j < |foundMarkings|
      invariant 0 <= j <= |foundMarkings|
      invariant result == RemoveOthers(markings, foundMarkings[..j], keepMarking)
    {
      var marking := foundMarkings[j];
      assert foundMarkings[..j + 1][..j] == foundMarkings[..j];
      if marking != keepMarking {
        var index := IndexOf(result, marking);
        if index > -1 {
          result := RemoveAt(result, index);
        }
      }
      j := j + 1;
    }
    assert foundMarkings[..j] == foundMarkings;
  }

  /** One turn of the loop over the groups of `#_filterExclusiveMarkings`. */
  method GroupPass(s: Script, result: seq<string>, trace: seq<Call>, groupMarkings: seq<string>)
    returns (r: Drawn<seq<string>>)
    ensures r == GroupStep(s, Drawn(result, trace), groupMarkings)
  {
    var foundMarkings := Found(result, groupMarkings);
    if |foundMarkings| > 1 {
      var keepMarking := Sample(s, trace, foundMarkings);
      var kept := RemoveAll(result, foundMarkings, keepMarking.value);
      return Drawn(kept, keepMarking.log);
    }
    return Drawn(result, trace);
  }

  /** `#_filterExclusiveMarkings`, with its loop over the groups. */
  method FilterExclusive(groups: Option<seq<seq<string>>>, s: Script, markings: seq<string>, log: seq<Call>)
    returns (r: Drawn<seq<string>>)
    ensures r == ExclusiveSpec(groups, s, markings, log)
  {
    if groups.None? {
      return Drawn(markings, log);
    }
    var exclusiveGroups := groups.value;
    r := Drawn(markings, log);
    var g := 0;
    while g < |exclusiveGroups|
      invariant 0 <= g <= |exclusiveGroups|
      invariant ApplyGroups(s, r, exclusiveGroups[g..]) == ApplyGroups(s, Drawn(markings, log), exclusiveGroups)
    {
      assert exclusiveGroups[g..][1..] == exclusiveGroups[g + 1..];
      r := GroupPass(s, r.value, r.log, exclusiveGroups[g]);
      g := g + 1;
    }
  }

  /** At most one distinct marking of the group is present. */
  predicate AtMostOne(markings: seq<string>, group: seq<string>)
  {
    forall x, y :: x in markings && y in markings && x in group && y in group ==> x == y
  }

  /** Removing markings keeps a group at most one. */
  lemma AtMostOneSub(a: seq<string>, b: seq<string>, group: seq<string>)
    requires AtMostOne(a, group) && IsSubseq(b, a)
    ensures AtMostOne(b, group)
  {
    SubseqMultiset(b, a);
    assert forall x :: x in b ==> x in a by {
      forall x | x in b ensures x in a {
        assert multiset(b)[x] > 0;
      }
    }
  }

  /**
    One group's pass: it leaves a subsequence with at most one distinct
    marking of the group, keeps every marking outside the group, samples at
    most once, and changes nothing when at most one marking was found.
   */
  lemma GroupStepFacts(s: Script, d: Drawn<seq<string>>, group: seq<string>)
    ensures var r := GroupStep(s, d, group);
      IsSubseq(r.value, d.value) && AtMostOne(r.value, group) &&
      (forall m :: m !in group ==> multiset(r.value)[m] == multiset(d.value)[m]) &&
      |d.log| <= |r.log| <= |d.log| + 1 && r.log[..|d.log|] == d.log &&
      (|Found(d.value, group)| <= 1 ==> r == d)
  {
    var found := Found(d.value, group);
    var r := GroupStep(s, d, group);
    if |found| > 1 {
      var keep := s.item(|d.log|);
      RemoveOthersSubseq(d.value, found, keep);
      RemoveOthersCount(d.value, found, keep);
      forall x | x in r.value && x in group ensures x == keep {
        assert multiset(r.value)[x] > 0;
      }
    } else {
      SubseqRefl(d.value);
      forall x, y | x in r.value && y in r.value && x in group && y in group ensures x == y {
        assert x in found && y in found;
      }
    }
  }

  /** One pass leaves a subsequence of its input. */
  lemma GroupStepSubseq(s: Script, d: Drawn<seq<string>>, group: seq<string>)
    ensures IsSubseq(GroupStep(s, d, group).value, d.value)
  {
    var found := Found(d.value, group);
    if |found| > 1 {
      RemoveOthersSubseq(d.value, found, s.item(|d.log|));
    } else {
      SubseqRefl(d.value);
    }
  }

  /** The passes leave a subsequence of the input. */
  lemma {:induction false} ApplyGroupsSubseq(s: Script, d: Drawn<seq<string>>, groups: seq<seq<string>>)
    ensures IsSubseq(ApplyGroups(s, d, groups).value, d.value)
    decreases |groups|
  {
    if |groups| == 0 {
      SubseqRefl(d.value);
    } else {
      var e := GroupStep(s, d, groups[0]);
      GroupStepSubseq(s, d, groups[0]);
      ApplyGroupsSubseq(s, e, groups[1..]);
      SubseqTrans(ApplyGroups(s, e, groups[1..]).value, e.value, d.value);
    }
  }

  /** The passes only extend the trace, by at most one sample per group. */
  lemma {:induction false} ApplyGroupsLog(s: Script, d: Drawn<seq<string>>, groups: seq<seq<string>>)
    ensures var r := ApplyGroups(s, d, groups);
      |d.log| <= |r.log| <= |d.log| + |groups| && r.log[..|d.log|] == d.log
    decreases |groups|
  {
    if |groups| > 0 {
      var e := GroupStep(s, d, groups[0]);
      ApplyGroupsLog(s, e, groups[1..]);
      var r := ApplyGroups(s, e, groups[1..]);
      assert r.log[..|d.log|] == r.log[..|e.log|][..|d.log|];
    }
  }

  /** One pass leaves at most one distinct marking of its group. */
  lemma GroupStepExclusive(s: Script, d: Drawn<seq<string>>, group: seq<string>)
    ensures AtMostOne(GroupStep(s, d, group).value, group)
  {
    GroupStepFacts(s, d, group);
  }

  /** After the passes, at most one distinct marking of each group is left. */
  lemma {:induction false} ApplyGroupsExclusive(s: Script, d: Drawn<seq<string>>, groups: seq<seq<string>>)
    ensures forall g :: g in groups ==> AtMostOne(ApplyGroups(s, d, groups).value, g)
    decreases |groups|
  {
    if |groups| > 0 {
      var e := GroupStep(s, d, groups[0]);
      GroupStepExclusive(s, d, groups[0]);
      ApplyGroupsExclusive(s, e, groups[1..]);
      ApplyGroupsSubseq(s, e, groups[1..]);
      var r := ApplyGroups(s, e, groups[1..]);
      AtMostOneSub(e.value, r.value, groups[0]);
      assert groups == [groups[0]] + groups[1..];
    }
  }

  /** The passes keep every occurrence of a marking that is in no group. */
  lemma {:induction false} ApplyGroupsKeep(s: Script, d: Drawn<seq<string>>, groups: seq<seq<string>>, m: string)
    requires forall g :: g in groups ==> m !in g
    ensures multiset(ApplyGroups(s, d, groups).value)[m] == multiset(d.value)[m]
    decreases |groups|
  {
    if |groups| > 0 {
      assert groups[0] in groups;
      assert forall g :: g in groups[1..] ==> g in groups;
      GroupStepFacts(s, d, groups[0]);
      ApplyGroupsKeep(s, GroupStep(s, d, groups[0]), groups[1..], m);
    }
  }

  /** When no group has more than one marking in the input, the passes change nothing and sample nothing. */
  lemma {:induction false} ApplyGroupsQuiet(s: Script, d: Drawn<seq<string>>, groups: seq<seq<string>>)
    requires forall g :: g in groups ==> |Found(d.value, g)| <= 1
    ensures ApplyGroups(s, d, groups) == d
    decreases |groups|
  {
    if |groups| > 0 {
      assert groups[0] in groups;
      assert forall g :: g in groups[1..] ==> g in groups;
      GroupStepFacts(s, d, groups[0]);
      ApplyGroupsQuiet(s, d, groups[1..]);
    }
  }

  /**
    The filter over the configured groups: a subsequence of its input after
    at most one sample per group, with at most one distinct marking of each
    group; when no group has more than one marking in the input, nothing
    changes and nothing is sampled.
   */
  lemma ExclusiveFacts(groups: Option<seq<seq<string>>>, s: Script, markings: seq<string>, log: seq<Call>)
    ensures var r := ExclusiveSpec(groups, s, markings, log);
      IsSubseq(r.value, markings) && |log| <= |r.log| && r.log[..|log|] == log &&
      (groups.None? ==> r == Drawn(markings, log)) &&
      (groups.Some? ==> |r.log| <= |log| + |groups.value| &&
                        (forall g :: g in groups.value ==> AtMostOne(r.value, g)) &&
                        ((forall g :: g in groups.value ==> |Found(markings, g)| <= 1) ==> r == Drawn(markings, log)))
  {
    match groups
    case None =>
      SubseqRefl(markings);
    case Some(gs) =>
      var d := Drawn(markings, log);
      ApplyGroupsSubseq(s, d, gs);
      ApplyGroupsLog(s, d, gs);
      ApplyGroupsExclusive(s, d, gs);
      if forall g :: g in gs ==> |Found(markings, g)| <= 1 {
        ApplyGroupsQuiet(s, d, gs);
      }
  }

  // ------------------------------------------------------------ offspring

  /** `_generateMarkings`: the weighted draw, then the exclusive-group filter. */
  function RandomMarkings(cfg: Config, s: Script, log: seq<Call>): Drawn<seq<string>>
  {
    var m := WeightedMarkingsSpec(cfg, s, log);
    ExclusiveSpec(cfg.exclusiveGroups, s, m.value, m.log)
  }

  /** The steps of the random generator's `makeOffspring`. */
  function RandomSteps(cfg: Config, g: RandomGenerator): Steps
  {
    var s := g.injected;
    Steps(
      GenderStep(cfg, s),
      l => Lift(DefaultFur(cfg, l)),
      l => Lift(WeightedSpec(s, l, cfg.coatWeights)),
      l => Lift(WeightedSpec(s, l, cfg.buildWeights)),
      l => Lift(RandomAspectsSpec(s, l, cfg.traits.randomCap, AllTraits(cfg), None)),
      l => Lift(RandomMarkings(cfg, s, l)),
      l => Lift(RandomAspectsSpec(s, l, cfg.mutationCap, AllMutations(cfg), Some(cfg.mutationBase))))
  }

  /** A random offspring: the seven step results, each step on the trace the previous one left. */
  function Offspring(cfg: Config, g: RandomGenerator, log: seq<Call>): Step<Profile>
  {
    var s := g.injected;
    var gender := GenerateGender(cfg, s, log);
    var fur := DefaultFur(cfg, gender.log);
    var coat := WeightedSpec(s, fur.log, cfg.coatWeights);
    var build := WeightedSpec(s, coat.log, cfg.buildWeights);
    var traits := RandomAspectsSpec(s, build.log, cfg.traits.randomCap, AllTraits(cfg), None);
    var markings := RandomMarkings(cfg, s, traits.log);
    var mutations := RandomAspectsSpec(s, markings.log, cfg.mutationCap, AllMutations(cfg), Some(cfg.mutationBase));
    Chain(Ok(Some(gender.value), gender.log), Lift(fur), Lift(coat), Lift(build), Lift(traits), Lift(markings),
          Lift(mutations))
  }

  /** The random generator follows the generator protocol, with its own seven steps. */
  lemma Protocol(cfg: Config, g: RandomGenerator, log: seq<Call>)
    ensures Offspring(cfg, g, log) == MakeOffspring(RandomSteps(cfg, g), log)
  {
  }

  /** `makeOffspring` of the random generator: a new creature holding the random offspring, after its draws. */
  method GenerateOffspring(cfg: Config, g: RandomGenerator, log: seq<Call>) returns (child: Nemeion, trace: seq<Call>)
    ensures fresh(child)
    ensures var spec := Offspring(cfg, g, log); spec.Ok? && child.Record() == spec.value && trace == spec.log
  {
    var s := g.injected;
    var gender := GenerateGender(cfg, s, log);
    var fur := DefaultFur(cfg, gender.log);
    var coat := WeightedRandom(s, fur.log, cfg.coatWeights);
    var build := WeightedRandom(s, coat.log, cfg.buildWeights);
    var traits := RandomAspects(s, build.log, cfg.traits.randomCap, AllTraits(cfg), None);
    var weighted := WeightedMarkings(cfg, s, traits.log);
    var markings := FilterExclusive(cfg.exclusiveGroups, s, weighted.value, weighted.log);
    var mutations := RandomAspects(s, markings.log, cfg.mutationCap, AllMutations(cfg), Some(cfg.mutationBase));
    child := new Nemeion.FromRecord(Profile(Some(gender.value), fur.value, coat.value, build.value,
                                            traits.value, markings.value, mutations.value));
    trace := mutations.log;
  }

  /** The random aspects begin with the count call and only extend the trace. */
  lemma RandomAspectsExtend(s: Script, log: seq<Call>, maxCount: int, pool: seq<string>, gate: Option<real>)
    ensures Extends(log + [RandomInt(maxCount)], RandomAspectsSpec(s, log, maxCount, pool, gate).log)
  {
    var total := Int(s, log, maxCount);
    DrawsTrace(s, total.log, pool, gate, if total.value > 0 then total.value else 0);
  }

  /** The random markings only extend the trace. */
  lemma RandomMarkingsExtend(cfg: Config, s: Script, log: seq<Call>)
    ensures Extends(log, RandomMarkings(cfg, s, log).log)
  {
    var w := WeightedMarkingsSpec(cfg, s, log);
    WeightedMarkingsFacts(cfg, s, log);
    assert Extends(log, w.log) by {
      assert w.log[..|log|] == (log + [RandomInt(cfg.markings.randomCap)])[..|log|];
    }
    ExclusiveFacts(cfg.exclusiveGroups, s, w.value, w.log);
    ExtendsTrans(log, w.log, RandomMarkings(cfg, s, log).log);
  }

  /**
    A random offspring never fails; its gender follows the first roll, its
    fur is the default, and its coat and build are the weighted picks for
    the next two fractions.
   */
  lemma RandomOffspringValues(cfg: Config, g: RandomGenerator, log: seq<Call>)
    ensures var r := Offspring(cfg, g, log);
      var s := g.injected;
      r.Ok? &&
      r.value.gender == Some(if s.flag(|log|) then Female else Male) &&
      r.value.fur == Some(cfg.furDefault) &&
      r.value.coat == Pick(cfg.coatWeights, s.fraction(|log| + 1)) &&
      r.value.build == Pick(cfg.buildWeights, s.fraction(|log| + 2))
  {
  }

  /** The markings and mutations steps only extend the trace. */
  lemma LaterStepsExtend(cfg: Config, s: Script, log: seq<Call>)
    ensures Extends(log, RandomAspectsSpec(s, RandomMarkings(cfg, s, log).log, cfg.mutationCap, AllMutations(cfg),
                                          Some(cfg.mutationBase)).log)
  {
    var markings := RandomMarkings(cfg, s, log);
    RandomMarkingsExtend(cfg, s, log);
    var mutations := RandomAspectsSpec(s, markings.log, cfg.mutationCap, AllMutations(cfg), Some(cfg.mutationBase));
    RandomAspectsExtend(s, markings.log, cfg.mutationCap, AllMutations(cfg), Some(cfg.mutationBase));
    assert Extends(markings.log, mutations.log) by {
      assert mutations.log[..|markings.log|] == mutations.log[..|markings.log| + 1][..|markings.log|];
    }
    ExtendsTrans(log, markings.log, mutations.log);
  }

  /** The draws of a random offspring begin with the gender roll, two `randomChance()` calls and the trait count. */
  lemma RandomOffspringTrace(cfg: Config, g: RandomGenerator, log: seq<Call>)
    ensures Extends(log + [ShouldDoAction(Some(cfg.femaleChance))] + [RandomChance] + [RandomChance] +
                    [RandomInt(cfg.traits.randomCap)], Offspring(cfg, g, log).log)
  {
    var s := g.injected;
    var gender := GenerateGender(cfg, s, log);
    var coat := WeightedSpec(s, DefaultFur(cfg, gender.log).log, cfg.coatWeights);
    var build := WeightedSpec(s, coat.log, cfg.buildWeights).log;
    var traits := RandomAspectsSpec(s, build, cfg.traits.randomCap, AllTraits(cfg), None);
    RandomAspectsExtend(s, build, cfg.traits.randomCap, AllTraits(cfg), None);
    LaterStepsExtend(cfg, s, traits.log);
    ExtendsTrans(build + [RandomInt(cfg.traits.randomCap)], traits.log, Offspring(cfg, g, log).log);
  }

  /** A subsequence holds only elements of the whole. */
  lemma SubseqMembers(a: seq<string>, b: seq<string>)
    requires IsSubseq(a, b)
    ensures forall x :: x in a ==> x in b
  {
    SubseqMultiset(a, b);
    forall x | x in a ensures x in b {
      assert multiset(a)[x] > 0;
    }
  }

  /**
    The markings step: each marking once, at most one distinct marking of
    each exclusive group, and with an honest sampler only configured markings
    that are not Limited.
   */
  lemma RandomMarkingsFacts(cfg: Config, s: Script, log: seq<Call>)
    ensures var m := RandomMarkings(cfg, s, log);
      NoDup(m.value) &&
      (cfg.exclusiveGroups.Some? ==> forall grp :: grp in cfg.exclusiveGroups.value ==> AtMostOne(m.value, grp)) &&
      (SamplesMembers(s, m.log) ==>
        forall x :: x in m.value ==> x in cfg.markings.available && QualityOf(cfg.markings, x) != "Limited")
  {
    var w := WeightedMarkingsSpec(cfg, s, log);
    var m := RandomMarkings(cfg, s, log);
    WeightedMarkingsFacts(cfg, s, log);
    ExclusiveFacts(cfg.exclusiveGroups, s, w.value, w.log);
    SubseqNoDup(m.value, w.value);
    SubseqMembers(m.value, w.value);
    if SamplesMembers(s, m.log) {
      SamplesMembersPrefix(s, m.log, w.log);
    }
  }

  /**
    A random offspring carries each trait, marking and mutation once, and at
    most one distinct marking of each exclusive group.
   */
  lemma RandomOffspringAspects(cfg: Config, g: RandomGenerator, log: seq<Call>)
    ensures var r := Offspring(cfg, g, log);
      NoDup(r.value.traits) && NoDup(r.value.markings) && NoDup(r.value.mutations) &&
      (cfg.exclusiveGroups.Some? ==> forall grp :: grp in cfg.exclusiveGroups.value ==> AtMostOne(r.value.markings, grp))
  {
    var s := g.injected;
    var gender := GenerateGender(cfg, s, log);
    var coat := WeightedSpec(s, DefaultFur(cfg, gender.log).log, cfg.coatWeights);
    var build := WeightedSpec(s, coat.log, cfg.buildWeights).log;
    var traits := RandomAspectsSpec(s, build, cfg.traits.randomCap, AllTraits(cfg), None);
    RandomMarkingsFacts(cfg, s, traits.log);
  }

  /**
    With an honest sampler, a random offspring carries only configured
    traits (when there are any), configured markings that are not Limited,
    and configured mutations (when there are any).
   */
  lemma RandomOffspringMembers(cfg: Config, g: RandomGenerator, log: seq<Call>)
    requires SamplesMembers(g.injected, Offspring(cfg, g, log).log)
    ensures var r := Offspring(cfg, g, log);
      (|cfg.traits.available| > 0 ==> forall x :: x in r.value.traits ==> x in cfg.traits.available) &&
      (forall x :: x in r.value.markings ==> x in cfg.markings.available && QualityOf(cfg.markings, x) != "Limited") &&
      (|cfg.mutations| > 0 ==> forall x :: x in r.value.mutations ==> x in cfg.mutations)
  {
    var s := g.injected;
    var end := Offspring(cfg, g, log).log;
    var gender := GenerateGender(cfg, s, log);
    var coat := WeightedSpec(s, DefaultFur(cfg, gender.log).log, cfg.coatWeights);
    var build := WeightedSpec(s, coat.log, cfg.buildWeights).log;
    var traits := RandomAspectsSpec(s, build, cfg.traits.randomCap, AllTraits(cfg), None);
    var markings := RandomMarkings(cfg, s, traits.log);
    LaterStepsExtend(cfg, s, traits.log);
    SamplesMembersPrefix(s, end, traits.log);
    RandomAspectsFacts(s, build, cfg.traits.randomCap, AllTraits(cfg), None);
    if |cfg.traits.available| > 0 {
      assert cfg.traits.available[0] in AllTraits(cfg);
    }
    RandomAspectsExtend(s, markings.log, cfg.mutationCap, AllMutations(cfg), Some(cfg.mutationBase));
    ExtendsTrans(markings.log, markings.log + [RandomInt(cfg.mutationCap)], end);
    SamplesMembersPrefix(s, end, markings.log);
    RandomMarkingsFacts(cfg, s, traits.log);
    RandomAspectsFacts(s, markings.log, cfg.mutationCap, AllMutations(cfg), Some(cfg.mutationBase));
    if |cfg.mutations| > 0 {
      assert cfg.mutations[0] in AllMutations(cfg);
    }
  }
}
