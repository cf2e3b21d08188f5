/**
  The parent-based generator (`NemeionBreedingGround`): it checks its two
  parents once, at construction, and then runs the seven steps of the
  generator protocol with the inheritance rules, all rolls going to the
  injected `shouldDoAction` and all samples to the injected `randomSample`.
 */
module BreedingGround {
  import opened Wrappers
  import opened Errors
  import opened Oracle
  import opened Seqs
  import opened Configuration
  import opened Creatures
  import opened Inheritance
  import opened Generator
  import opened Constants

  /** What is passed as a parent: a falsy value, an object that is not a creature, or a creature. */
  datatype Candidate = Absent | NotCreature | Creature(profile: Profile)

  /** A constructed breeding ground: its parents and its injected functions. */
  datatype Ground = Ground(father: Profile, mother: Profile, injected: Script)

  /**
    The constructor: a missing parent throws first, then a parent that is not
    a creature, then parents that are not a Male father and a Female mother;
    otherwise both parents and the injected functions are kept.
   */
  function New(father: Candidate, mother: Candidate, injected: Script): (r: Result<Ground, Error>)
    ensures (father.Absent? || mother.Absent?) ==> r == Failure(BreedAsexually)
    ensures !(father.Absent? || mother.Absent?) && (father.NotCreature? || mother.NotCreature?) ==>
      r == Failure(OnlyNemeions)
    ensures r.Success? <==>
      father.Creature? && mother.Creature? &&
      father.profile.gender == Some(Male) && mother.profile.gender == Some(Female)
    ensures father.Creature? && mother.Creature? && r.Failure? ==> r.error == GendersMismatch
    ensures r.Success? ==> r.value.father == father.profile && r.value.mother == mother.profile && r.value.injected == injected
  {
    if father.Absent? || mother.Absent? then Failure(BreedAsexually)
    else if father.NotCreature? || mother.NotCreature? then Failure(OnlyNemeions)
    else if father.profile.gender != Some(Male) || mother.profile.gender != Some(Female) then Failure(GendersMismatch)
    else Success(Ground(father.profile, mother.profile, injected))
  }

  // ------------------------------------------------------------- steps

  /** `rollRandomFur`: one roll at the rare chance; a sample of the rare options on success, the default fur otherwise. */
  function RandomFur(cfg: Config, s: Script, log: seq<Call>): (r: Drawn<Option<string>>)
    ensures !s.flag(|log|) ==> r == Drawn(Some(cfg.furDefault), log + [ShouldDoAction(Some(cfg.furRareChance))])
    ensures s.flag(|log|) ==>
      r == Drawn(Some(s.item(|log| + 1)), log + [ShouldDoAction(Some(cfg.furRareChance)), RandomSample(cfg.rareFurs)])
  {
    var d := Act(s, log, cfg.furRareChance);
    if d.value then
      var x := Sample(s, d.log, cfg.rareFurs);
      assert x.log == log + [ShouldDoAction(Some(cfg.furRareChance)), RandomSample(cfg.rareFurs)];
      Drawn(Some(x.value), x.log)
    else Drawn(Some(cfg.furDefault), d.log)
  }

  /** The random-fur roll, as the fallback of the rare-fur rule. */
  function FurFallback(cfg: Config, s: Script): seq<Call> -> Drawn<Option<string>>
  {
    l => RandomFur(cfg, s, l)
  }

  /** `_generateBuild`: equal builds are copied without a roll; otherwise the lookup and roll. */
  function Build(cfg: Config, father: Profile, mother: Profile, s: Script, log: seq<Call>): (r: Step<Option<string>>)
    ensures father.build == mother.build ==> r == Ok(father.build, log)
    ensures father.build != mother.build ==> r == BuildRoll(cfg, father, mother, s, log)
  {
    if father.build == mother.build then Ok(father.build, log) else BuildRoll(cfg, father, mother, s, log)
  }

  /** `_generateTraits`: nothing to inherit, no roll; otherwise the aspect rule over the trait table. */
  function Traits(cfg: Config, father: Profile, mother: Profile, s: Script, log: seq<Call>): (r: Step<seq<string>>)
    ensures !father.HasTraits() && !mother.HasTraits() ==> r == Ok([], log)
  {
    if !father.HasTraits() && !mother.HasTraits() then Ok([], log)
    else InheritedSpec(cfg.traits, father.traits, mother.traits, s, log)
  }

  /** `_generateMarkings`: nothing to inherit, no roll; otherwise the aspect rule over the marking table. */
  function Markings(cfg: Config, father: Profile, mother: Profile, s: Script, log: seq<Call>): (r: Step<seq<string>>)
    ensures !father.HasMarkings() && !mother.HasMarkings() ==> r == Ok([], log)
  {
    if !father.HasMarkings() && !mother.HasMarkings() then Ok([], log)
    else InheritedSpec(cfg.markings, father.markings, mother.markings, s, log)
  }

  /** The steps of the breeding ground's `makeOffspring`. */
  function GroundSteps(cfg: Config, g: Ground): Steps
  {
    var s := g.injected;
    Steps(
      GenderStep(cfg, s),
      l => Lift(Fur(cfg, g.father, g.mother, s, l, FurFallback(cfg, s))),
      l => Coat(cfg.coatChances, g.father, g.mother, s, l),
      l => Build(cfg, g.father, g.mother, s, l),
      l => Traits(cfg, g.father, g.mother, s, l),
      l => Markings(cfg, g.father, g.mother, s, l),
      l => Lift(MutationsSpec(cfg, g.father, g.mother, AllMutations(cfg), s, l)))
  }

  /**
    The offspring of a breeding ground, or the error its steps throw: the
    seven step results, each step on the trace the previous one left, and
    the first error among them.
   */
  function Offspring(cfg: Config, g: Ground, log: seq<Call>): Step<Profile>
  {
    var s := g.injected;
    var gender := GenerateGender(cfg, s, log);
    var fur := Fur(cfg, g.father, g.mother, s, gender.log, FurFallback(cfg, s));
    var coat := Coat(cfg.coatChances, g.father, g.mother, s, fur.log);
    var build := Build(cfg, g.father, g.mother, s, coat.log);
    var traits := Traits(cfg, g.father, g.mother, s, build.log);
    var markings := Markings(cfg, g.father, g.mother, s, traits.log);
    var mutations := MutationsSpec(cfg, g.father, g.mother, AllMutations(cfg), s, markings.log);
    Chain(Ok(Some(gender.value), gender.log), Lift(fur), coat, build, traits, markings, Lift(mutations))
  }

  /** The breeding ground follows the generator protocol, with its own seven steps. */
  lemma Protocol(cfg: Config, g: Ground, log: seq<Call>)
    ensures Offspring(cfg, g, log) == MakeOffspring(GroundSteps(cfg, g), log)
  {
  }

  // ---------------------------------------------------- implementation

  /** `_generateTraits`, running the loops of the aspect rule. */
  method GenerateTraits(cfg: Config, father: Profile, mother: Profile, s: Script, log: seq<Call>)
    returns (r: Step<seq<string>>)
    ensures r == Traits(cfg, father, mother, s, log)
  {
    if !father.HasTraits() && !mother.HasTraits() {
      return Ok([], log);
    }
    r := InheritedAspects(cfg.traits, father.traits, mother.traits, s, log);
  }

  /** `_generateMarkings`, running the loops of the aspect rule. */
  method GenerateMarkings(cfg: Config, father: Profile, mother: Profile, s: Script, log: seq<Call>)
    returns (r: Step<seq<string>>)
    ensures r == Markings(cfg, father, mother, s, log)
  {
    if !father.HasMarkings() && !mother.HasMarkings() {
      return Ok([], log);
    }
    r := InheritedAspects(cfg.markings, father.markings, mother.markings, s, log);
  }

  /**
    `makeOffspring`: a new creature holding the offspring record, after the
    draws of the seven steps; or the error a step throws, after the draws
    made until then.
   */
  method GenerateOffspring(cfg: Config, g: Ground, log: seq<Call>) returns (r: Step<Nemeion>)
    ensures var spec := Offspring(cfg, g, log);
      r.Ok? == spec.Ok? && r.log == spec.log && (r.Err? ==> r.error == spec.error) &&
      (r.Ok? ==> fresh(r.value) && r.value.Record() == spec.value)
  {
    var s := g.injected;
    var gender := GenerateGender(cfg, s, log);
    var fur := Fur(cfg, g.father, g.mother, s, gender.log, FurFallback(cfg, s));
    var coat := Coat(cfg.coatChances, g.father, g.mother, s, fur.log);
    if coat.Err? {
      return Err(coat.error, coat.log);
    }
    var build := Build(cfg, g.father, g.mother, s, coat.log);
    if build.Err? {
      return Err(build.error, build.log);
    }
    var traits := GenerateTraits(cfg, g.father, g.mother, s, build.log);
    if traits.Err? {
      return Err(traits.error, traits.log);
    }
    var markings := GenerateMarkings(cfg, g.father, g.mother, s, traits.log);
    if markings.Err? {
      return Err(markings.error, markings.log);
    }
    var mutations := Mutations(cfg, g.father, g.mother, AllMutations(cfg), s, markings.log);
    var child := new Nemeion.FromRecord(Profile(Some(gender.value), fur.value, coat.value, build.value,
                                                traits.value, markings.value, mutations.value));
    r := Ok(child, mutations.log);
  }

  // ---------------------------------------------------------- properties

  /** The offspring's gender is Female exactly when the first roll succeeds. */
  lemma OffspringGender(cfg: Config, g: Ground, log: seq<Call>)
    ensures var r := Offspring(cfg, g, log);
      r.Ok? ==> r.value.gender == Some(if g.injected.flag(|log|) then Female else Male)
  {
  }

  /** The only errors of `makeOffspring` are a missing configuration entry and incompatible builds. */
  lemma OffspringErrors(cfg: Config, g: Ground, log: seq<Call>)
    ensures var r := Offspring(cfg, g, log);
      r.Err? ==> r.error == MissingConfig || (r.error == IncompatibleBuilds && g.father.build != g.mother.build)
  {
  }

  /**
    What an offspring inherits: one parent's coat and one parent's build;
    traits and markings that some parent carries, each once; mutations each
    once, at most one more than both parents list together.
   */
  lemma OffspringInherits(cfg: Config, g: Ground, log: seq<Call>)
    ensures var r := Offspring(cfg, g, log);
      r.Ok? ==>
        (r.value.coat == g.father.coat || r.value.coat == g.mother.coat) &&
        (r.value.build == g.father.build || r.value.build == g.mother.build) &&
        NoDup(r.value.traits) && (forall x :: x in r.value.traits ==> x in g.father.traits || x in g.mother.traits) &&
        NoDup(r.value.markings) && (forall x :: x in r.value.markings ==> x in g.father.markings || x in g.mother.markings) &&
        NoDup(r.value.mutations) && |r.value.mutations| <= |g.father.mutations| + |g.mother.mutations| + 1
  {
    var s, f, m := g.injected, g.father, g.mother;
    var r := Offspring(cfg, g, log);
    if r.Ok? {
      var l1 := GenerateGender(cfg, s, log).log;
      var l2 := Fur(cfg, f, m, s, l1, l => RandomFur(cfg, s, l)).log;
      var coat := Coat(cfg.coatChances, f, m, s, l2);
      var build := Build(cfg, f, m, s, coat.log);
      var traits := Traits(cfg, f, m, s, build.log);
      var markings := Markings(cfg, f, m, s, traits.log);
      assert coat.Ok? && build.Ok? && traits.Ok? && markings.Ok?;
      if f.HasTraits() || m.HasTraits() {
        AspectResult(cfg.traits, f.traits, m.traits, s, build.log);
      }
      if f.HasMarkings() || m.HasMarkings() {
        AspectResult(cfg.markings, f.markings, m.markings, s, traits.log);
      }
      MutationResult(cfg, f, m, AllMutations(cfg), s, markings.log);
    }
  }
}
