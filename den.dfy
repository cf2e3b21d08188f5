/**
  The den store: a father, a mother, the last litter and the add-ons the
  player selected. `makeRandom` fills the litter from the random generator;
  `makeOffspring` breeds the parents, the add-ons changing the litter size,
  the first offspring's build (the one-shot potions, taken from the shared
  add-on list) and, with the mutation stone, giving one offspring a mutation
  when none has one.
 */
module DenStore {
  import opened Wrappers
  import opened Errors
  import opened Oracle
  import opened Seqs
  import opened Configuration
  import opened Creatures
  import opened Constants
  import opened Litters
  import BreedingGround
  import RandomGenerator

  /** A generator argument: falsy, an object of another kind, or a generator. */
  datatype Supplied<G> = Missing | Foreign | Given(generator: G)

  const Blossom := "AO_BLOSSOM_CHLORIS"
  const FertilityTreatment := "AO_FERTILITY_TREATMENT"
  const MutationStone := "AO_MUTATION_STONE"
  const Tincture := "AO_TINCTURE_TRANSFORMATION"
  const BrutePotion := "AO_BRUTE_POTION"
  const RegalPotion := "AO_REGAL_POTION"
  const DomesticPotion := "AO_DOMESTIC_POTION"

  /** The four build potions. */
  predicate IsPotion(a: string)
  {
    a == Tincture || a == BrutePotion || a == RegalPotion || a == DomesticPotion
  }

  /**
    `addons.includes(ADDONS[name])`: a name the add-on table lacks is
    `undefined`, which no list of names includes.
   */
  predicate Has(cfg: Config, addons: seq<string>, name: string)
  {
    AddOns(cfg).Lookup(name).Some? && name in addons
  }

  // ------------------------------------------------------------ litter size

  /** Adding nothing keeps a size. */
  lemma PlusZero(size: Size)
    ensures Plus(size, 0) == size
  {
  }

  /** Two additions are one addition of the sum. */
  lemma PlusPlus(size: Size, a: int, b: int)
    ensures Plus(Plus(size, a), b) == Plus(size, a + b)
  {
  }

  /**
    The litter size of `makeOffspring`: the looked-up size, plus the blossom's
    `additional` when it is selected, plus the fertility draw when the
    treatment is selected and its roll succeeds.
   */
  function FinalSize(cfg: Config, s: Script, addons: seq<string>, log: seq<Call>): Drawn<Size>
  {
    var roll := Roll(s, log);
    Grown(cfg, s, addons, SizeOf(LitterSize(cfg.litterWeights, roll.value)), roll.log)
  }

  /** What the add-ons make of the looked-up size, after the size roll. */
  function Grown(cfg: Config, s: Script, addons: seq<string>, base: Size, log: seq<Call>): Drawn<Size>
  {
    var blossomed := if Has(cfg, addons, Blossom) then Plus(base, cfg.blossomAdditional) else base;
    if Has(cfg, addons, FertilityTreatment) then
      var f := Fertility(s, log, cfg.fertilityChance);
      if f.value then
        var d := LitterDelta(s, f.log, cfg.fertilityMin, cfg.fertilityMax);
        Drawn(Plus(blossomed, d.value), d.log)
      else Drawn(blossomed, f.log)
    else Drawn(blossomed, log)
  }

  /**
    The add-ons add the blossom's amount, plus the fertility draw when the
    treatment is selected and its roll succeeds.
   */
  lemma GrownValue(cfg: Config, s: Script, addons: seq<string>, base: Size, log: seq<Call>)
    ensures var p := |log|;
      var extra := (if Has(cfg, addons, Blossom) then cfg.blossomAdditional else 0) +
                   (if Has(cfg, addons, FertilityTreatment) && s.flag(p) then s.number(p + 1) else 0);
      Grown(cfg, s, addons, base, log).value == Plus(base, extra)
  {
    var blossom := if Has(cfg, addons, Blossom) then cfg.blossomAdditional else 0;
    PlusZero(base);
    PlusPlus(base, blossom, s.number(|log| + 1));
  }

  /**
    The final size is the looked-up size for the first roll, plus the
    blossom's amount, plus the fertility draw when the treatment is
    selected and its roll succeeds.
   */
  lemma FinalSizeValue(cfg: Config, s: Script, addons: seq<string>, log: seq<Call>)
    ensures var p := |log| + 1;
      var extra := (if Has(cfg, addons, Blossom) then cfg.blossomAdditional else 0) +
                   (if Has(cfg, addons, FertilityTreatment) && s.flag(p) then s.number(p + 1) else 0);
      FinalSize(cfg, s, addons, log).value == Plus(SizeOf(LitterSize(cfg.litterWeights, s.fraction(|log|))), extra)
  {
    var roll := Roll(s, log);
    GrownValue(cfg, s, addons, SizeOf(LitterSize(cfg.litterWeights, roll.value)), roll.log);
  }

  /**
    The draws of the final size: the size roll, then the treatment's roll
    when it is selected, then its draw when that roll succeeds.
   */
  lemma FinalSizeLog(cfg: Config, s: Script, addons: seq<string>, log: seq<Call>)
    ensures var treated := Has(cfg, addons, FertilityTreatment);
      FinalSize(cfg, s, addons, log).log ==
        log + [ChanceRoll] +
        (if treated then [FertilityRoll(cfg.fertilityChance)] else []) +
        (if treated && s.flag(|log| + 1) then [RollLitterSize(cfg.fertilityMin, cfg.fertilityMax)] else [])
  {
    var roll := Roll(s, log);
    GrownLog(cfg, s, addons, SizeOf(LitterSize(cfg.litterWeights, roll.value)), roll.log);
  }

  /**
    Under an honest `rollLitterSize`, the final size is bounded by the
    table's size plus the blossom's amount, plus from `min_additional` up to
    `max_additional` when the treatment is selected and its roll succeeds;
    a roll above every weight leaves `NaN` whatever the add-ons.
   */
  lemma FinalSizeRange(cfg: Config, s: Script, addons: seq<string>, log: seq<Call>)
    requires DrawsInRange(s, FinalSize(cfg, s, addons, log).log)
    ensures var looked := LitterSize(cfg.litterWeights, s.fraction(|log|));
      var r := FinalSize(cfg, s, addons, log).value;
      var blossom := if Has(cfg, addons, Blossom) then cfg.blossomAdditional else 0;
      var fertile := Has(cfg, addons, FertilityTreatment) && s.flag(|log| + 1);
      (looked.None? ==> r == NotANumber) &&
      (looked.Some? ==> r.Count?) &&
      (looked.Some? && fertile ==>
        looked.value + blossom + cfg.fertilityMin <= r.n <= looked.value + blossom + cfg.fertilityMax) &&
      (looked.Some? && !fertile ==> r.n == looked.value + blossom)
  {
    FinalSizeValue(cfg, s, addons, log);
    FinalSizeLog(cfg, s, addons, log);
    if Has(cfg, addons, FertilityTreatment) && s.flag(|log| + 1) {
      assert FinalSize(cfg, s, addons, log).log[|log| + 2] == RollLitterSize(cfg.fertilityMin, cfg.fertilityMax);
    }
  }

  /** The draws of the add-ons: the treatment's roll when it is selected, then its draw when that roll succeeds. */
  lemma GrownLog(cfg: Config, s: Script, addons: seq<string>, base: Size, log: seq<Call>)
    ensures var treated := Has(cfg, addons, FertilityTreatment);
      Grown(cfg, s, addons, base, log).log ==
        log +
        (if treated then [FertilityRoll(cfg.fertilityChance)] else []) +
        (if treated && s.flag(|log|) then [RollLitterSize(cfg.fertilityMin, cfg.fertilityMax)] else [])
  {
    if Has(cfg, addons, FertilityTreatment) && s.flag(|log|) {
      assert log + [FertilityRoll(cfg.fertilityChance)] + [RollLitterSize(cfg.fertilityMin, cfg.fertilityMax)]
        == log + [FertilityRoll(cfg.fertilityChance), RollLitterSize(cfg.fertilityMin, cfg.fertilityMax)];
    }
  }

  // ---------------------------------------------------------------- potions

  /**
    One potion check of the slot callback, on the remaining add-ons and the
    child's build: when the potion is selected, one copy of it is removed
    and the build becomes `BUILDS[build]`.
   */
  function Potion(cfg: Config, d: (seq<string>, Option<string>), potion: string, build: string): (seq<string>, Option<string>)
  {
    if Has(cfg, d.0, potion) then (Remove(d.0, potion), Builds(cfg).Lookup(build)) else d
  }

  /** The four potion checks, in the order of the slot callback. */
  function Dose(cfg: Config, addons: seq<string>, build: Option<string>): (seq<string>, Option<string>)
  {
    var tincture := Potion(cfg, (addons, build), Tincture, "Dwarf");
    var brute := Potion(cfg, tincture, BrutePotion, "Brute");
    var regal := Potion(cfg, brute, RegalPotion, "Regal");
    Potion(cfg, regal, DomesticPotion, "Domestic")
  }

  /** The build a dose leaves: that of the last selected potion in the order of the checks, or the child's own. */
  function DosedBuild(cfg: Config, addons: seq<string>, build: Option<string>): Option<string>
  {
    if Has(cfg, addons, DomesticPotion) then Builds(cfg).Lookup("Domestic")
    else if Has(cfg, addons, RegalPotion) then Builds(cfg).Lookup("Regal")
    else if Has(cfg, addons, BrutePotion) then Builds(cfg).Lookup("Brute")
    else if Has(cfg, addons, Tincture) then Builds(cfg).Lookup("Dwarf")
    else build
  }

  /** How often a dose removes `a`: once for each selected potion. */
  function Taken(cfg: Config, addons: seq<string>, a: string): nat
  {
    if IsPotion(a) && Has(cfg, addons, a) then 1 else 0
  }

  /** A potion check leaves a subsequence of the add-ons, and sets the build only when the potion is selected. */
  lemma PotionFacts(cfg: Config, d: (seq<string>, Option<string>), potion: string, build: string)
    ensures var r := Potion(cfg, d, potion, build);
      IsSubseq(r.0, d.0) && r.1 == (if Has(cfg, d.0, potion) then Builds(cfg).Lookup(build) else d.1)
  {
    if !Has(cfg, d.0, potion) {
      SubseqRefl(d.0);
    }
  }

  /** A potion check removes one copy of the potion when it is selected, and keeps every other add-on with its count. */
  lemma PotionCount(cfg: Config, d: (seq<string>, Option<string>), potion: string, build: string, a: string)
    ensures var r := Potion(cfg, d, potion, build);
      multiset(r.0)[a] == multiset(d.0)[a] - (if a == potion && Has(cfg, d.0, potion) then 1 else 0) &&
      (a != potion ==> (a in r.0 <==> a in d.0))
  {
    var r := Potion(cfg, d, potion, build);
    assert a in r.0 <==> multiset(r.0)[a] > 0;
    assert a in d.0 <==> multiset(d.0)[a] > 0;
  }

  /** The four checks of a dose, on one add-on. */
  lemma DoseCount(cfg: Config, addons: seq<string>, build: Option<string>, a: string)
    ensures multiset(Dose(cfg, addons, build).0)[a] == multiset(addons)[a] - Taken(cfg, addons, a)
  {
    var d0 := (addons, build);
    var d1 := Potion(cfg, d0, Tincture, "Dwarf");
    var d2 := Potion(cfg, d1, BrutePotion, "Brute");
    var d3 := Potion(cfg, d2, RegalPotion, "Regal");
    PotionCount(cfg, d0, Tincture, "Dwarf", a);
    PotionCount(cfg, d1, BrutePotion, "Brute", a);
    PotionCount(cfg, d2, RegalPotion, "Regal", a);
    PotionCount(cfg, d3, DomesticPotion, "Domestic", a);
    PotionCount(cfg, d0, Tincture, "Dwarf", BrutePotion);
    PotionCount(cfg, d0, Tincture, "Dwarf", RegalPotion);
    PotionCount(cfg, d1, BrutePotion, "Brute", RegalPotion);
    PotionCount(cfg, d0, Tincture, "Dwarf", DomesticPotion);
    PotionCount(cfg, d1, BrutePotion, "Brute", DomesticPotion);
    PotionCount(cfg, d2, RegalPotion, "Regal", DomesticPotion);
  }

  /** A dose leaves the build of the last selected potion, in the order of the checks. */
  lemma DoseBuild(cfg: Config, addons: seq<string>, build: Option<string>)
    ensures Dose(cfg, addons, build).1 == DosedBuild(cfg, addons, build)
  {
    var d0 := (addons, build);
    var d1 := Potion(cfg, d0, Tincture, "Dwarf");
    var d2 := Potion(cfg, d1, BrutePotion, "Brute");
    PotionCount(cfg, d0, Tincture, "Dwarf", BrutePotion);
    PotionCount(cfg, d0, Tincture, "Dwarf", RegalPotion);
    PotionCount(cfg, d1, BrutePotion, "Brute", RegalPotion);
    PotionCount(cfg, d0, Tincture, "Dwarf", DomesticPotion);
    PotionCount(cfg, d1, BrutePotion, "Brute", DomesticPotion);
    PotionCount(cfg, d2, RegalPotion, "Regal", DomesticPotion);
  }

  /** A dose keeps the order of the add-ons it leaves. */
  lemma DoseSubseq(cfg: Config, addons: seq<string>, build: Option<string>)
    ensures IsSubseq(Dose(cfg, addons, build).0, addons)
  {
    var d0 := (addons, build);
    var d1 := Potion(cfg, d0, Tincture, "Dwarf");
    var d2 := Potion(cfg, d1, BrutePotion, "Brute");
    var d3 := Potion(cfg, d2, RegalPotion, "Regal");
    var d4 := Potion(cfg, d3, DomesticPotion, "Domestic");
    PotionFacts(cfg, d0, Tincture, "Dwarf");
    PotionFacts(cfg, d1, BrutePotion, "Brute");
    PotionFacts(cfg, d2, RegalPotion, "Regal");
    PotionFacts(cfg, d3, DomesticPotion, "Domestic");
    SubseqTrans(d2.0, d1.0, d0.0);
    SubseqTrans(d3.0, d2.0, d0.0);
    SubseqTrans(d4.0, d3.0, d0.0);
  }

  /**
    A dose removes exactly one copy of each selected potion and no other
    add-on, keeping the order of the rest.
   */
  lemma DoseFacts(cfg: Config, addons: seq<string>, build: Option<string>)
    ensures var r := Dose(cfg, addons, build);
      IsSubseq(r.0, addons) &&
      forall a :: multiset(r.0)[a] == multiset(addons)[a] - Taken(cfg, addons, a)
  {
    DoseSubseq(cfg, addons, build);
    forall a ensures multiset(Dose(cfg, addons, build).0)[a] == multiset(addons)[a] - Taken(cfg, addons, a) {
      DoseCount(cfg, addons, build, a);
    }
  }

  /** No potion is selected. */
  predicate NoPotion(cfg: Config, addons: seq<string>)
  {
    !Has(cfg, addons, Tincture) && !Has(cfg, addons, BrutePotion) &&
    !Has(cfg, addons, RegalPotion) && !Has(cfg, addons, DomesticPotion)
  }

  /** A dose without any selected potion changes nothing. */
  lemma DoseIdle(cfg: Config, addons: seq<string>, build: Option<string>)
    requires NoPotion(cfg, addons)
    ensures Dose(cfg, addons, build) == (addons, build)
  {
  }

  /** Each potion is selected at most once. */
  predicate PotionsOnce(addons: seq<string>)
  {
    multiset(addons)[Tincture] <= 1 && multiset(addons)[BrutePotion] <= 1 &&
    multiset(addons)[RegalPotion] <= 1 && multiset(addons)[DomesticPotion] <= 1
  }

  /** When each potion is selected at most once, a dose leaves none. */
  lemma DoseEmpties(cfg: Config, addons: seq<string>, build: Option<string>)
    requires PotionsOnce(addons)
    ensures NoPotion(cfg, Dose(cfg, addons, build).0)
  {
    var left := Dose(cfg, addons, build).0;
    DoseCount(cfg, addons, build, Tincture);
    DoseCount(cfg, addons, build, BrutePotion);
    DoseCount(cfg, addons, build, RegalPotion);
    DoseCount(cfg, addons, build, DomesticPotion);
    assert Tincture in left <==> multiset(left)[Tincture] > 0;
    assert BrutePotion in left <==> multiset(left)[BrutePotion] > 0;
    assert RegalPotion in left <==> multiset(left)[RegalPotion] > 0;
    assert DomesticPotion in left <==> multiset(left)[DomesticPotion] > 0;
    assert Tincture in addons <==> multiset(addons)[Tincture] > 0;
    assert BrutePotion in addons <==> multiset(addons)[BrutePotion] > 0;
    assert RegalPotion in addons <==> multiset(addons)[RegalPotion] > 0;
    assert DomesticPotion in addons <==> multiset(addons)[DomesticPotion] > 0;
  }

  /**
    The slot callbacks in order: each child's build is dosed from the add-ons
    that the earlier children left.
   */
  function DoseAll(cfg: Config, addons: seq<string>, litter: seq<Profile>): (r: (seq<Profile>, seq<string>))
    ensures |r.0| == |litter|
    decreases |litter|
  {
    if |litter| == 0 then ([], addons)
    else
      var prev := DoseAll(cfg, addons, litter[..|litter| - 1]);
      var child := litter[|litter| - 1];
      var d := Dose(cfg, prev.1, child.build);
      (prev.0 + [child.(build := d.1)], d.0)
  }

  /** The next slot's child is dosed from the add-ons the earlier slots left. */
  lemma DoseAllPush(cfg: Config, addons: seq<string>, litter: seq<Profile>, child: Profile)
    ensures var prev := DoseAll(cfg, addons, litter);
      var d := Dose(cfg, prev.1, child.build);
      DoseAll(cfg, addons, litter + [child]) == (prev.0 + [child.(build := d.1)], d.0)
  {
    assert (litter + [child])[..|litter|] == litter;
  }

  /** Dosing a litter changes only the children's builds. */
  lemma {:induction false} DoseAllBuilds(cfg: Config, addons: seq<string>, litter: seq<Profile>)
    ensures var r := DoseAll(cfg, addons, litter).0;
      forall k :: 0 <= k < |litter| ==> r[k] == litter[k].(build := r[k].build)
    decreases |litter|
  {
    if |litter| > 0 {
      DoseAllBuilds(cfg, addons, litter[..|litter| - 1]);
    }
  }

  /** Dosing a litter leaves the add-ons in their order. */
  lemma {:induction false} DoseAllSubseq(cfg: Config, addons: seq<string>, litter: seq<Profile>)
    ensures IsSubseq(DoseAll(cfg, addons, litter).1, addons)
    decreases |litter|
  {
    if |litter| == 0 {
      SubseqRefl(addons);
    } else {
      var prev := DoseAll(cfg, addons, litter[..|litter| - 1]);
      DoseAllSubseq(cfg, addons, litter[..|litter| - 1]);
      var child := litter[|litter| - 1];
      DoseSubseq(cfg, prev.1, child.build);
      SubseqTrans(Dose(cfg, prev.1, child.build).0, prev.1, addons);
    }
  }

  /** Dosing a litter takes no add-on other than a potion. */
  lemma {:induction false} DoseAllCount(cfg: Config, addons: seq<string>, litter: seq<Profile>, a: string)
    requires !IsPotion(a)
    ensures multiset(DoseAll(cfg, addons, litter).1)[a] == multiset(addons)[a]
    decreases |litter|
  {
    if |litter| > 0 {
      var prev := DoseAll(cfg, addons, litter[..|litter| - 1]);
      DoseAllCount(cfg, addons, litter[..|litter| - 1], a);
      DoseCount(cfg, prev.1, litter[|litter| - 1].build, a);
    }
  }

  /**
    Dosing a litter changes only builds, keeps the litter's length, and
    takes from the add-ons only potions, keeping the order of the rest.
   */
  lemma DoseAllFacts(cfg: Config, addons: seq<string>, litter: seq<Profile>)
    ensures var r := DoseAll(cfg, addons, litter);
      |r.0| == |litter| &&
      (forall k :: 0 <= k < |litter| ==> r.0[k] == litter[k].(build := r.0[k].build)) &&
      IsSubseq(r.1, addons) &&
      (forall a :: !IsPotion(a) ==> multiset(r.1)[a] == multiset(addons)[a])
  {
    DoseAllBuilds(cfg, addons, litter);
    DoseAllSubseq(cfg, addons, litter);
    forall a | !IsPotion(a) ensures multiset(DoseAll(cfg, addons, litter).1)[a] == multiset(addons)[a] {
      DoseAllCount(cfg, addons, litter, a);
    }
  }

  /** When each potion is selected at most once, the add-ons a litter leaves are those the first child's dose left. */
  lemma {:induction false} DoseAllOnce(cfg: Config, addons: seq<string>, litter: seq<Profile>)
    requires PotionsOnce(addons) && |litter| > 0
    ensures var first := Dose(cfg, addons, litter[0].build);
      DoseAll(cfg, addons, litter).1 == first.0 && DoseAll(cfg, addons, litter).0[0] == litter[0].(build := first.1)
    decreases |litter|
  {
    if |litter| == 1 {
      assert litter[..0] == [];
    } else {
      var init, last := litter[..|litter| - 1], litter[|litter| - 1];
      DoseAllOnce(cfg, addons, init);
      assert init[0] == litter[0];
      DoseEmpties(cfg, addons, litter[0].build);
      DoseIdle(cfg, DoseAll(cfg, addons, init).1, last.build);
    }
  }

  /** When each potion is selected at most once, the children after the first keep their builds. */
  lemma {:induction false} DoseAllRest(cfg: Config, addons: seq<string>, litter: seq<Profile>)
    requires PotionsOnce(addons) && |litter| > 0
    ensures forall k :: 1 <= k < |litter| ==> DoseAll(cfg, addons, litter).0[k] == litter[k]
    decreases |litter|
  {
    if |litter| > 1 {
      var init, last := litter[..|litter| - 1], litter[|litter| - 1];
      DoseAllRest(cfg, addons, init);
      DoseAllOnce(cfg, addons, init);
      DoseEmpties(cfg, addons, litter[0].build);
      DoseIdle(cfg, DoseAll(cfg, addons, init).1, last.build);
      assert last.(build := last.build) == last;
    }
  }

  /**
    The potions are one-shot: when each is selected at most once, the first
    child takes the dose and the later children keep their builds, and no
    selected potion is left.
   */
  lemma DoseAllOneShot(cfg: Config, addons: seq<string>, litter: seq<Profile>)
    requires PotionsOnce(addons) && |litter| > 0
    ensures var r := DoseAll(cfg, addons, litter);
      var first := Dose(cfg, addons, litter[0].build);
      r.0[0] == litter[0].(build := first.1) && r.1 == first.0 && NoPotion(cfg, r.1) &&
      forall k :: 1 <= k < |litter| ==> r.0[k] == litter[k]
  {
    DoseAllOnce(cfg, addons, litter);
    DoseAllRest(cfg, addons, litter);
    DoseEmpties(cfg, addons, litter[0].build);
  }

  // ---------------------------------------------------------------- litters

  /** The slot results so far: the children, the trace, and the error that stopped the loop, if any. */
  datatype Brood = Brood(litter: seq<Profile>, log: seq<Call>, error: Option<Error>)

  /**
    The slot loop over a child maker: the first `n` children `next` makes,
    each on the trace the previous one left; the first error ends the loop.
   */
  function Run(next: seq<Call> -> Step<Profile>, log: seq<Call>, n: nat): Brood
  {
    if n == 0 then Brood([], log, None)
    else
      var prev := Run(next, log, n - 1);
      if prev.error.Some? then prev
      else
        var r := next(prev.log);
        if r.Err? then Brood(prev.litter, r.log, Some(r.error))
        else Brood(prev.litter + [r.value], r.log, None)
  }

  /** The breeding ground's `makeOffspring`, as a child maker. */
  function Maker(cfg: Config, g: BreedingGround.Ground): seq<Call> -> Step<Profile>
  {
    l => BreedingGround.Offspring(cfg, g, l)
  }

  /** The first `n` children the breeding ground makes; the first error ends the loop. */
  function Bred(cfg: Config, g: BreedingGround.Ground, log: seq<Call>, n: nat): Brood
  {
    Run(Maker(cfg, g), log, n)
  }

  /** Once a slot throws, the later slots do not run. */
  lemma {:induction false} RunStops(next: seq<Call> -> Step<Profile>, log: seq<Call>, m: nat, n: nat)
    requires m <= n && Run(next, log, m).error.Some?
    ensures Run(next, log, n) == Run(next, log, m)
    decreases n - m
  {
    if m < n {
      RunStops(next, log, m, n - 1);
    }
  }

  /**
    A loop that completes has one child per slot; one that throws has
    fewer, and throws an error that some call of the maker throws.
   */
  lemma {:induction false} RunLength(next: seq<Call> -> Step<Profile>, allowed: Error -> bool, log: seq<Call>, n: nat)
    requires forall l :: next(l).Err? ==> allowed(next(l).error)
    ensures var b := Run(next, log, n);
      (b.error.None? ==> |b.litter| == n) &&
      (b.error.Some? ==> |b.litter| < n && allowed(b.error.value))
  {
    if n > 0 {
      RunLength(next, allowed, log, n - 1);
    }
  }

  /** Once a slot throws, the later slots do not run. */
  lemma BredStops(cfg: Config, g: BreedingGround.Ground, log: seq<Call>, m: nat, n: nat)
    requires m <= n && Bred(cfg, g, log, m).error.Some?
    ensures Bred(cfg, g, log, n) == Bred(cfg, g, log, m)
  {
    RunStops(Maker(cfg, g), log, m, n);
  }

  /** The errors `makeOffspring` of a breeding ground can throw. */
  predicate GroundError(g: BreedingGround.Ground, e: Error)
  {
    e == MissingConfig || (e == IncompatibleBuilds && g.father.build != g.mother.build)
  }

  /**
    A litter that completes has one child per slot; one that throws has
    fewer, and throws only what the breeding ground throws.
   */
  lemma BredLength(cfg: Config, g: BreedingGround.Ground, log: seq<Call>, n: nat)
    ensures var b := Bred(cfg, g, log, n);
      (b.error.None? ==> |b.litter| == n) &&
      (b.error.Some? ==> |b.litter| < n && GroundError(g, b.error.value))
  {
    var next := Maker(cfg, g);
    forall l | next(l).Err? ensures GroundError(g, next(l).error) {
      BreedingGround.OffspringErrors(cfg, g, l);
    }
    RunLength(next, e => GroundError(g, e), log, n);
  }

  /** The outcome of `makeOffspring`: the litter written, the add-ons left, the trace, and the error thrown, if any. */
  datatype Outcome = Outcome(litter: seq<Profile>, addons: seq<string>, log: seq<Call>, error: Option<Error>)

  /** No child of the litter has a mutation. */
  predicate NoneMutated(litter: seq<Profile>)
  {
    forall k :: 0 <= k < |litter| ==> !litter[k].HasMutations()
  }

  /**
    The mutation stone: when selected and no child has a mutation, one
    sample of all mutations becomes the first child's only mutation; an
    empty litter has no first child, and writing to it throws after the
    sample.
   */
  function Stone(cfg: Config, s: Script, litter: seq<Profile>, addons: seq<string>, log: seq<Call>): Outcome
  {
    if Has(cfg, addons, MutationStone) && NoneMutated(litter) then
      var x := Sample(s, log, AllMutations(cfg));
      if |litter| == 0 then Outcome([], addons, x.log, Some(NoFirstOffspring))
      else Outcome(litter[0 := litter[0].(mutations := [x.value])], addons, x.log, None)
    else Outcome(litter, addons, log, None)
  }

  /**
    `makeOffspring` with a breeding ground: the size, the slot loop with the
    potions, then the mutation stone; a throwing slot ends it with the
    add-ons the earlier slots left.
   */
  function BreedLitter(cfg: Config, g: BreedingGround.Ground, s: Script, addons: seq<string>, log: seq<Call>): Outcome
  {
    var size := FinalSize(cfg, s, addons, log);
    var bred := Bred(cfg, g, size.log, Slots(size.value));
    var dosed := DoseAll(cfg, addons, bred.litter);
    if bred.error.Some? then Outcome([], dosed.1, bred.log, bred.error)
    else Stone(cfg, s, dosed.0, dosed.1, bred.log)
  }

  /**
    A litter that is written has one child per slot of the final size; it
    throws only when a slot throws, or when the stone finds no first child.
   */
  lemma BreedLitterLength(cfg: Config, g: BreedingGround.Ground, s: Script, addons: seq<string>, log: seq<Call>)
    ensures var r := BreedLitter(cfg, g, s, addons, log);
      var n := Slots(FinalSize(cfg, s, addons, log).value);
      (r.error.None? ==> |r.litter| == n) &&
      (r.error == Some(NoFirstOffspring) ==> n == 0) &&
      (r.error.Some? ==> r.error.value in {MissingConfig, IncompatibleBuilds, NoFirstOffspring})
  {
    var size := FinalSize(cfg, s, addons, log);
    var bred := Bred(cfg, g, size.log, Slots(size.value));
    BredLength(cfg, g, size.log, Slots(size.value));
    DoseAllFacts(cfg, addons, bred.litter);
  }

  /**
    The stone, in the bred litter: when selected and no child has a mutation,
    the first child gets exactly one sampled mutation and the others stay as
    they were; otherwise the litter is written as dosed.
   */
  lemma BreedLitterStone(cfg: Config, g: BreedingGround.Ground, s: Script, addons: seq<string>, log: seq<Call>)
    ensures var r := BreedLitter(cfg, g, s, addons, log);
      var size := FinalSize(cfg, s, addons, log);
      var bred := Bred(cfg, g, size.log, Slots(size.value));
      var dosed := DoseAll(cfg, addons, bred.litter).0;
      bred.error.None? ==>
        (Has(cfg, addons, MutationStone) && NoneMutated(dosed) ==>
          r.log == bred.log + [RandomSample(AllMutations(cfg))] &&
          (|dosed| == 0 ==> r.error == Some(NoFirstOffspring)) &&
          (|dosed| > 0 ==> (r.error.None? && |r.litter| == |dosed| &&
            r.litter[0] == dosed[0].(mutations := [s.item(|bred.log|)]) &&
            forall k :: 1 <= k < |dosed| ==> r.litter[k] == dosed[k]))) &&
        (!(Has(cfg, addons, MutationStone) && NoneMutated(dosed)) ==>
          r == Outcome(dosed, DoseAll(cfg, addons, bred.litter).1, bred.log, None))
  {
    var size := FinalSize(cfg, s, addons, log);
    var bred := Bred(cfg, g, size.log, Slots(size.value));
    var dosed := DoseAll(cfg, addons, bred.litter);
    DoseAllKeepsStone(cfg, addons, bred.litter);
    StoneFacts(cfg, s, dosed.0, dosed.1, bred.log);
  }

  /** The potions leave the mutation stone selected exactly when it was. */
  lemma DoseAllKeepsStone(cfg: Config, addons: seq<string>, litter: seq<Profile>)
    ensures Has(cfg, DoseAll(cfg, addons, litter).1, MutationStone) == Has(cfg, addons, MutationStone)
  {
    var dosed := DoseAll(cfg, addons, litter);
    DoseAllCount(cfg, addons, litter, MutationStone);
    assert MutationStone in dosed.1 <==> multiset(dosed.1)[MutationStone] > 0;
    assert MutationStone in addons <==> multiset(addons)[MutationStone] > 0;
  }

  /**
    With the stone selected and no mutation in the litter, one sample is
    drawn; it becomes the first child's only mutation, the other children
    are kept, and an empty litter throws. Otherwise nothing happens.
   */
  lemma StoneFacts(cfg: Config, s: Script, litter: seq<Profile>, addons: seq<string>, log: seq<Call>)
    ensures var r := Stone(cfg, s, litter, addons, log);
      (Has(cfg, addons, MutationStone) && NoneMutated(litter) ==>
        r.log == log + [RandomSample(AllMutations(cfg))] &&
        (|litter| == 0 ==> r.error == Some(NoFirstOffspring)) &&
        (|litter| > 0 ==> (r.error.None? && |r.litter| == |litter| &&
          r.litter[0] == litter[0].(mutations := [s.item(|log|)]) &&
          forall k :: 1 <= k < |litter| ==> r.litter[k] == litter[k]))) &&
      (!(Has(cfg, addons, MutationStone) && NoneMutated(litter)) ==> r == Outcome(litter, addons, log, None))
  {
  }

  /** With an honest sampler and configured mutations, the stone's mutation is one of them. */
  lemma BreedLitterStoneMember(cfg: Config, g: BreedingGround.Ground, s: Script, addons: seq<string>, log: seq<Call>)
    requires |cfg.mutations| > 0
    ensures var r := BreedLitter(cfg, g, s, addons, log);
      var size := FinalSize(cfg, s, addons, log);
      var bred := Bred(cfg, g, size.log, Slots(size.value));
      var dosed := DoseAll(cfg, addons, bred.litter).0;
      bred.error.None? && Has(cfg, addons, MutationStone) && NoneMutated(dosed) && |dosed| > 0 &&
      SamplesMembers(s, r.log) ==>
        |r.litter[0].mutations| == 1 && r.litter[0].mutations[0] in cfg.mutations
  {
    var r := BreedLitter(cfg, g, s, addons, log);
    var size := FinalSize(cfg, s, addons, log);
    var bred := Bred(cfg, g, size.log, Slots(size.value));
    var dosed := DoseAll(cfg, addons, bred.litter).0;
    BreedLitterStone(cfg, g, s, addons, log);
    if bred.error.None? && Has(cfg, addons, MutationStone) && NoneMutated(dosed) && |dosed| > 0 && SamplesMembers(s, r.log) {
      var p := |bred.log|;
      assert r.log[p] == RandomSample(AllMutations(cfg));
      assert cfg.mutations[0] in AllMutations(cfg);
    }
  }

  /** The children `makeRandom` collects: `n` random offspring, each on the trace the previous left. */
  function RandomBrood(cfg: Config, g: RandomGenerator.RandomGenerator, log: seq<Call>, n: nat): (r: Drawn<seq<Profile>>)
    ensures |r.value| == n
    decreases n
  {
    if n == 0 then Drawn([], log)
    else
      var prev := RandomBrood(cfg, g, log, n - 1);
      var child := RandomGenerator.Offspring(cfg, g, prev.log);
      Drawn(prev.value + [child.value], child.log)
  }

  /** `makeRandom` with a random generator: the size roll, then one random offspring per slot. */
  function RandomLitter(cfg: Config, g: RandomGenerator.RandomGenerator, s: Script, log: seq<Call>): Drawn<seq<Profile>>
  {
    var size := Roll(s, log);
    RandomBrood(cfg, g, size.log, Slots(SizeOf(LitterSize(cfg.litterWeights, size.value))))
  }

  /**
    A random litter has one child per slot of the looked-up size; with
    distinct weights, a roll equal to the weight at position `k` gives
    `k + 1` children.
   */
  lemma RandomLitterSize(cfg: Config, g: RandomGenerator.RandomGenerator, s: Script, log: seq<Call>, k: nat)
    requires NoDup(cfg.litterWeights) && k < |cfg.litterWeights| && s.fraction(|log|) == cfg.litterWeights[k]
    ensures |RandomLitter(cfg, g, s, log).value| == k + 1
  {
    SlotsExact(cfg.litterWeights, k);
  }

  /** The creatures collected so far are the first `n` random offspring, and `trace` is where their draws ended. */
  predicate Collected(cfg: Config, g: RandomGenerator.RandomGenerator, log: seq<Call>, n: nat,
                      litter: seq<Nemeion>, trace: seq<Call>)
    reads litter
  {
    RandomBrood(cfg, g, log, n) == Drawn(Records(litter), trace)
  }

  /** One slot of `makeRandom`: the next random offspring, on the trace the earlier slots left, pushed onto the litter. */
  method NextRandom(cfg: Config, g: RandomGenerator.RandomGenerator, log: seq<Call>, n: nat,
                    litter: seq<Nemeion>, trace: seq<Call>)
    returns (grown: seq<Nemeion>, next: seq<Call>)
    requires Collected(cfg, g, log, n, litter, trace)
    ensures Collected(cfg, g, log, n + 1, grown, next)
    ensures |grown| == |litter| + 1 && grown == litter + [grown[|litter|]] && fresh(grown[|litter|])
  {
    var child;
    child, next := RandomGenerator.GenerateOffspring(cfg, g, trace);
    grown := litter + [child];
    assert grown[..|litter|] == litter;
  }

  /**
    `_generateLitter` with the random generator's slot callback: `n` random
    offspring, each a new creature, each on the trace the previous left.
   */
  method RandomSlots(cfg: Config, g: RandomGenerator.RandomGenerator, log: seq<Call>, n: nat)
    returns (litter: seq<Nemeion>, trace: seq<Call>)
    ensures Collected(cfg, g, log, n, litter, trace)
    ensures forall c :: c in litter ==> fresh(c)
  {
    litter, trace := [], log;
    while |litter| < n
      invariant |litter| <= n && Collected(cfg, g, log, |litter|, litter, trace) && forall c :: c in litter ==> fresh(c)
    {
      litter, trace := NextRandom(cfg, g, log, |litter|, litter, trace);
    }
  }

  /** One slot of `makeOffspring`: the breeding ground's next child, on the trace the earlier slots left. */
  method NextBred(cfg: Config, g: BreedingGround.Ground, log: seq<Call>, n: nat,
                  ghost raws: seq<Profile>, trace: seq<Call>)
    returns (r: Step<Nemeion>)
    requires Bred(cfg, g, log, n) == Brood(raws, trace, None)
    ensures r.Err? ==> Bred(cfg, g, log, n + 1) == Brood(raws, r.log, Some(r.error))
    ensures r.Ok? ==> fresh(r.value) && Bred(cfg, g, log, n + 1) == Brood(raws + [r.value.Record()], r.log, None)
  {
    r := BreedingGround.GenerateOffspring(cfg, g, trace);
  }

  /**
    The litter size of `makeOffspring`: the size roll, then the blossom's
    `additional`, then, with the fertility treatment, its roll and its draw.
   */
  method OffspringSize(cfg: Config, s: Script, addons: seq<string>, log: seq<Call>)
    returns (litterSize: Size, trace: seq<Call>)
    ensures FinalSize(cfg, s, addons, log) == Drawn(litterSize, trace)
  {
    litterSize, trace := Litters.RollLitterSize(cfg.litterWeights, s, log);
    if Has(cfg, addons, Blossom) {
      litterSize := Plus(litterSize, cfg.blossomAdditional);
    }
    if Has(cfg, addons, FertilityTreatment) {
      var f := Fertility(s, trace, cfg.fertilityChance);
      trace := f.log;
      if f.value {
        var d := LitterDelta(s, trace, cfg.fertilityMin, cfg.fertilityMax);
        trace := d.log;
        litterSize := Plus(litterSize, d.value);
      }
    }
  }

  /**
    The mutation stone of `makeOffspring` on the new litter: when selected
    and no child has a mutation, the sample becomes the first child's only
    mutation, or, with no first child, the write throws.
   */
  method UseStone(cfg: Config, s: Script, newLitter: seq<Nemeion>, addons: seq<string>, log: seq<Call>)
    returns (error: Option<Error>, trace: seq<Call>)
    requires NoDup(newLitter)
    modifies set c | c in newLitter
    ensures var r := Stone(cfg, s, old(Records(newLitter)), addons, log);
      error == r.error && trace == r.log && (r.error.None? ==> Records(newLitter) == r.litter)
  {
    error, trace := None, log;
    if Has(cfg, addons, MutationStone) {
      var litterWithZeroMutations := forall k :: 0 <= k < |newLitter| ==> !newLitter[k].HasMutations();
      if litterWithZeroMutations {
        var x := Sample(s, log, AllMutations(cfg));
        trace := x.log;
        if |newLitter| == 0 {
          return Some(NoFirstOffspring), trace;
        }
        newLitter[0].mutations := [x.value];
      }
    }
  }

  // ------------------------------------------------------------------ store

  /** The den store. */
  class Den {
    var father: Nemeion
    var mother: Nemeion
    /** The last litter. */
    var offspring: seq<Nemeion>
    /** The selected add-ons; `makeOffspring` takes potions from it in place. */
    var selectedAddons: seq<string>

    /** A Male father, a Female mother, no litter and no add-ons. */
    constructor ()
      ensures fresh(father) && fresh(mother) && father != mother
      ensures father.Record() == Blank.(gender := Some(Male))
      ensures mother.Record() == Blank.(gender := Some(Female))
      ensures offspring == [] && selectedAddons == []
    {
      father := new Nemeion.FromRecord(Blank.(gender := Some(Male)));
      mother := new Nemeion.FromRecord(Blank.(gender := Some(Female)));
      offspring := [];
      selectedAddons := [];
    }

    /**
      `makeRandom`: a missing or foreign generator throws before any roll;
      otherwise the litter is replaced by one random offspring per slot.
     */
    method MakeRandom(cfg: Config, generator: Supplied<RandomGenerator.RandomGenerator>, s: Script, log: seq<Call>)
      returns (error: Option<Error>, trace: seq<Call>)
      modifies this`offspring
      ensures generator.Missing? ==> error == Some(MissingGenerator) && trace == log && offspring == old(offspring)
      ensures generator.Foreign? ==> error == Some(WrongGenerator) && trace == log && offspring == old(offspring)
      ensures generator.Given? ==>
        var r := RandomLitter(cfg, generator.generator, s, log);
        error == None && trace == r.log && Records(offspring) == r.value &&
        forall c :: c in offspring ==> fresh(c)
    {
      if generator.Missing? {
        return Some(MissingGenerator), log;
      }
      if generator.Foreign? {
        return Some(WrongGenerator), log;
      }
      var litterSize;
      litterSize, trace := Litters.RollLitterSize(cfg.litterWeights, s, log);
      var litter;
      litter, trace := RandomSlots(cfg, generator.generator, log + [ChanceRoll], Slots(litterSize));
      offspring := litter;
      error := None;
    }

    /**
      `makeOffspring`: a missing or foreign breeding ground throws before any
      roll; otherwise the bred litter, with the potions taken from the
      selected add-ons, replaces the previous one, or the call throws
      leaving the litter as it was and the add-ons as the earlier slots
      left them.
     */
    method MakeOffspring(cfg: Config, ground: Supplied<BreedingGround.Ground>, s: Script, log: seq<Call>)
      returns (error: Option<Error>, trace: seq<Call>)
      modifies this`offspring, this`selectedAddons
      ensures ground.Missing? ==>
        error == Some(MissingGenerator) && trace == log && offspring == old(offspring) && selectedAddons == old(selectedAddons)
      ensures ground.Foreign? ==>
        error == Some(WrongGenerator) && trace == log && offspring == old(offspring) && selectedAddons == old(selectedAddons)
      ensures ground.Given? ==>
        var r := BreedLitter(cfg, ground.generator, s, old(selectedAddons), log);
        error == r.error && trace == r.log && selectedAddons == r.addons &&
        (r.error.Some? ==> offspring == old(offspring)) &&
        (r.error.None? ==> Records(offspring) == r.litter && forall c :: c in offspring ==> fresh(c))
    {
      if ground.Missing? {
        return Some(MissingGenerator), log;
      }
      if ground.Foreign? {
        return Some(WrongGenerator), log;
      }
      var litterSize;
      litterSize, trace := OffspringSize(cfg, s, selectedAddons, log);
      var newLitter;
      newLitter, error, trace := GenerateLitter(cfg, ground.generator, Slots(litterSize), trace);
      if error.Some? {
        return;
      }
      error, trace := UseStone(cfg, s, newLitter, selectedAddons, trace);
      if error.Some? {
        return;
      }
      offspring := newLitter;
    }

    /**
      `_generateLitter` with the breeding ground's slot callback: each slot
      makes a child and doses it from the selected add-ons, removing the
      potions it takes from them.
     */
    method GenerateLitter(cfg: Config, g: BreedingGround.Ground, n: nat, log: seq<Call>)
      returns (litter: seq<Nemeion>, error: Option<Error>, trace: seq<Call>)
      modifies this`selectedAddons
      ensures Generated(cfg, g, log, n, old(selectedAddons), litter, error, trace)
      ensures forall c :: c in litter ==> fresh(c)
    {
      ghost var addons := selectedAddons;
      ghost var raws: seq<Profile> := [];
      litter, error, trace := [], None, log;
      while |litter| < n
        invariant |litter| <= n && Bredded(cfg, g, log, addons, raws, trace, litter) && forall c :: c in litter ==> fresh(c)
      {
        var grown, next, thrown;
        ghost var more;
        grown, more, next, thrown := BreedSlot(cfg, g, log, addons, raws, trace, litter);
        if thrown.Some? {
          BredStops(cfg, g, log, |litter| + 1, n);
          return litter, thrown, next;
        }
        litter, raws, trace := grown, more, next;
      }
    }

    /**
      The `n` slots ran: the litter holds, each once, the children `Bred`
      makes, as the potions left them; the add-ons are what the potions left
      of `addons`; the error is the first a slot threw.
     */
    predicate Generated(cfg: Config, g: BreedingGround.Ground, log: seq<Call>, n: nat, addons: seq<string>,
                        litter: seq<Nemeion>, error: Option<Error>, trace: seq<Call>)
      reads this, litter
    {
      var bred := Bred(cfg, g, log, n);
      error == bred.error && trace == bred.log &&
      (Records(litter), selectedAddons) == DoseAll(cfg, addons, bred.litter) && NoDup(litter)
    }

    /** The first slots ran without a throw: they bred `raws`, left `trace`, and the litter holds them as the potions left them. */
    predicate Bredded(cfg: Config, g: BreedingGround.Ground, log: seq<Call>, addons: seq<string>,
                      raws: seq<Profile>, trace: seq<Call>, litter: seq<Nemeion>)
      reads this, litter
    {
      Bred(cfg, g, log, |litter|) == Brood(raws, trace, None) && Dosed(cfg, addons, raws, litter) && NoDup(litter)
    }

    /**
      One slot of `makeOffspring`: the breeding ground's next child, dosed
      and pushed onto the litter; or its throw, with nothing changed.
     */
    method BreedSlot(cfg: Config, g: BreedingGround.Ground, log: seq<Call>, ghost addons: seq<string>,
                     ghost raws: seq<Profile>, trace: seq<Call>, litter: seq<Nemeion>)
      returns (grown: seq<Nemeion>, ghost more: seq<Profile>, next: seq<Call>, error: Option<Error>)
      modifies this`selectedAddons
      requires Bredded(cfg, g, log, addons, raws, trace, litter)
      ensures error.Some? ==>
        Bred(cfg, g, log, |litter| + 1) == Brood(raws, next, error) && selectedAddons == old(selectedAddons)
      ensures error.None? ==>
        Bredded(cfg, g, log, addons, more, next, grown) &&
        |grown| == |litter| + 1 && grown == litter + [grown[|litter|]] && fresh(grown[|litter|])
    {
      var r := NextBred(cfg, g, log, |litter|, raws, trace);
      if r.Err? {
        return litter, raws, r.log, Some(r.error);
      }
      more := raws + [r.value.Record()];
      grown := TakeSlot(cfg, addons, raws, litter, r.value);
      next, error := r.log, None;
    }

    /** The litter holds the children bred so far as the potions left them, and the add-ons are what the potions left. */
    predicate Dosed(cfg: Config, addons: seq<string>, raws: seq<Profile>, litter: seq<Nemeion>)
      reads this, litter
    {
      DoseAll(cfg, addons, raws) == (Records(litter), selectedAddons)
    }

    /** The rest of a slot: the new child takes the potions, and the slot pushes it onto the litter. */
    method TakeSlot(cfg: Config, ghost addons: seq<string>, ghost raws: seq<Profile>, litter: seq<Nemeion>, newChild: Nemeion)
      returns (grown: seq<Nemeion>)
      modifies this`selectedAddons, newChild
      requires Dosed(cfg, addons, raws, litter) && NoDup(litter) && newChild !in litter
      ensures grown == litter + [newChild] && NoDup(grown)
      ensures Dosed(cfg, addons, raws + [old(newChild.Record())], grown)
    {
      ghost var raw := newChild.Record();
      Drink(cfg, newChild);
      grown := litter + [newChild];
      RecordsPush(litter, newChild);
      DoseAllPush(cfg, addons, raws, raw);
    }

    /** The potion checks of the slot callback, on the new child and the selected add-ons. */
    method Drink(cfg: Config, newChild: Nemeion)
      modifies this`selectedAddons, newChild
      ensures (selectedAddons, newChild.build) == Dose(cfg, old(selectedAddons), old(newChild.build))
      ensures newChild.Record() == old(newChild.Record()).(build := newChild.build)
    {
      TakePotion(cfg, newChild, Tincture, "Dwarf");
      TakePotion(cfg, newChild, BrutePotion, "Brute");
      TakePotion(cfg, newChild, RegalPotion, "Regal");
      TakePotion(cfg, newChild, DomesticPotion, "Domestic");
    }

    /** One potion check: a selected potion is taken from the add-ons and sets the child's build. */
    method TakePotion(cfg: Config, newChild: Nemeion, potion: string, build: string)
      modifies this`selectedAddons, newChild
      ensures (selectedAddons, newChild.build) == Potion(cfg, (old(selectedAddons), old(newChild.build)), potion, build)
      ensures newChild.Record() == old(newChild.Record()).(build := newChild.build)
    {
      if Has(cfg, selectedAddons, potion) {
        selectedAddons := Remove(selectedAddons, potion);
        newChild.build := Builds(cfg).Lookup(build);
      }
    }
  }
}
