/**
  The older offspring store: one mutable offspring record that each
  `generate*` action fills in, field by field, with the same inheritance
  rules as the breeding ground. Its coat lookup reads the older layout of
  the coat table, its build step rolls even for equal builds, and its
  random-fur roll draws from the fur set with `randomValue`.
 */
module OffspringStore {
  import opened Wrappers
  import opened Errors
  import opened Oracle
  import opened Configuration
  import opened Creatures
  import opened Inheritance
  import opened Generator
  import opened ClosedSets
  import opened Constants

  /** `FURS.Sleek`: the key itself when the fur set has it, `undefined` otherwise. */
  function Sleek(cfg: Config): Option<string>
  {
    Furs(cfg).Lookup("Sleek")
  }

  /**
    The list passed to `randomValue`: `[FURS.Sleek]`. When the fur set has
    no Sleek, the list holds `undefined`, which excludes no key, so it is
    modelled as empty.
   */
  function SleekExclusion(cfg: Config): seq<string>
  {
    if Sleek(cfg).Some? then ["Sleek"] else []
  }

  /**
    `rollRandomFur`: one roll at the rare chance; on success a fur other
    than Sleek, picked by `randomValue` with the value `u` that
    `Math.random()` returned; otherwise Sleek.
   */
  function StoreRandomFur(cfg: Config, s: Script, log: seq<Call>, u: real): Drawn<Option<string>>
    requires 0.0 <= u < 1.0
  {
    var d := Act(s, log, cfg.furRareChance);
    Drawn(if d.value then RandomValue(Furs(cfg), SleekExclusion(cfg), u) else Sleek(cfg), d.log)
  }

  /** The store's random-fur roll, as the fallback of the rare-fur rule. */
  function StoreFallback(cfg: Config, s: Script, u: real): seq<Call> -> Drawn<Option<string>>
    requires 0.0 <= u < 1.0
  {
    l => StoreRandomFur(cfg, s, l, u)
  }

  /**
    The store's random fur: after exactly one roll at the rare chance, Sleek
    (or `undefined` when no Sleek is configured) on a failed roll; on a
    successful one, a configured fur other than Sleek, found exactly when
    there is one.
   */
  lemma StoreRandomFurFacts(cfg: Config, s: Script, log: seq<Call>, u: real)
    requires 0.0 <= u < 1.0
    ensures var r := StoreRandomFur(cfg, s, log, u);
      r.log == log + [ShouldDoAction(Some(cfg.furRareChance))] &&
      (!s.flag(|log|) ==> r.value == (if "Sleek" == cfg.furDefault || "Sleek" in cfg.rareFurs then Some("Sleek") else None)) &&
      (s.flag(|log|) ==>
        (r.value.Some? ==> (r.value.value == cfg.furDefault || r.value.value in cfg.rareFurs) && r.value.value != "Sleek") &&
        (r.value.Some? <==> cfg.furDefault != "Sleek" || exists i :: 0 <= i < |cfg.rareFurs| && cfg.rareFurs[i] != "Sleek"))
  {
    var r := StoreRandomFur(cfg, s, log, u);
    if s.flag(|log|) {
      var c := Furs(cfg);
      var x := SleekExclusion(cfg);
      assert forall k :: k in x <==> k == "Sleek" && k in c.keys;
      if cfg.furDefault != "Sleek" {
        assert cfg.furDefault in c.keys && cfg.furDefault !in x;
      } else if exists i :: 0 <= i < |cfg.rareFurs| && cfg.rareFurs[i] != "Sleek" {
        var i :| 0 <= i < |cfg.rareFurs| && cfg.rareFurs[i] != "Sleek";
        assert cfg.rareFurs[i] in c.keys && cfg.rareFurs[i] !in x;
      }
    }
  }

  /**
    The store's fur is a parent's fur, or a configured fur, or `undefined`
    (when no Sleek is configured, or Sleek is the only fur and the rare roll
    succeeds).
   */
  lemma StoreFurOrigin(cfg: Config, father: Profile, mother: Profile, s: Script, log: seq<Call>, u: real)
    requires 0.0 <= u < 1.0
    ensures var r := Fur(cfg, father, mother, s, log, StoreFallback(cfg, s, u)).value;
      r == father.fur || r == mother.fur || r.None? || r.value in Furs(cfg).keys
  {
    var fallback := StoreFallback(cfg, s, u);
    forall l: seq<Call> ensures var v := fallback(l).value; v.None? || v.value in Furs(cfg).keys {
      StoreRandomFurFacts(cfg, s, l, u);
    }
  }

  /**
    Parents with the same rare fur and a failed double-rate roll: exactly
    two rolls, the double-rate one and then the rare-chance one; when that
    fails too, the fur is Sleek (or `undefined` when no Sleek is
    configured).
   */
  lemma StoreSameRareRolls(cfg: Config, father: Profile, mother: Profile, s: Script, log: seq<Call>, u: real)
    requires 0.0 <= u < 1.0
    requires FurCaseOf(cfg, father, mother) == SameRare && !s.flag(|log|)
    ensures var r := Fur(cfg, father, mother, s, log, StoreFallback(cfg, s, u));
      r.log == log + [ShouldDoAction(Some(cfg.furInherit.double)), ShouldDoAction(Some(cfg.furRareChance))] &&
      (!s.flag(|log| + 1) ==> r.value == (if "Sleek" == cfg.furDefault || "Sleek" in cfg.rareFurs then Some("Sleek") else None))
  {
    var after := log + [ShouldDoAction(Some(cfg.furInherit.double))];
    StoreRandomFurFacts(cfg, s, after, u);
    assert after + [ShouldDoAction(Some(cfg.furRareChance))]
      == log + [ShouldDoAction(Some(cfg.furInherit.double)), ShouldDoAction(Some(cfg.furRareChance))];
  }

  /** The offspring store of the older user interface. */
  class Store {
    /** The offspring being put together. */
    var representation: Profile

    constructor ()
      ensures representation == Blank
    {
      representation := Blank;
    }

    /** `generateFur`: the rare-fur rule, with the store's random-fur roll as fallback. */
    method GenerateFur(cfg: Config, father: Profile, mother: Profile, s: Script, log: seq<Call>, u: real)
      returns (trace: seq<Call>)
      requires 0.0 <= u < 1.0
      modifies this
      ensures var d := Fur(cfg, father, mother, s, log, StoreFallback(cfg, s, u));
        representation == old(representation).(fur := d.value) && trace == d.log
    {
      var d := Fur(cfg, father, mother, s, log, StoreFallback(cfg, s, u));
      representation := representation.(fur := d.value);
      trace := d.log;
    }

    /** `generateCoat`: the coat rule over the older coat table; a throw leaves the record as it was. */
    method GenerateCoat(cfg: Config, father: Profile, mother: Profile, s: Script, log: seq<Call>)
      returns (error: Option<Error>, trace: seq<Call>)
      modifies this
      ensures var r := Coat(cfg.legacyCoatChances, father, mother, s, log);
        trace == r.log &&
        (r.Err? ==> error == Some(r.error) && representation == old(representation)) &&
        (r.Ok? ==> error == None && representation == old(representation).(coat := r.value))
    {
      var r := Coat(cfg.legacyCoatChances, father, mother, s, log);
      trace := r.log;
      if r.Err? {
        return Some(r.error), trace;
      }
      representation := representation.(coat := r.value);
      error := None;
    }

    /** `generateGender`: one roll at the female base chance. */
    method GenerateGender(cfg: Config, s: Script, log: seq<Call>) returns (trace: seq<Call>)
      modifies this
      ensures representation == old(representation).(gender := Some(if s.flag(|log|) then Female else Male))
      ensures trace == log + [ShouldDoAction(Some(cfg.femaleChance))]
    {
      var d := Generator.GenerateGender(cfg, s, log);
      representation := representation.(gender := Some(d.value));
      trace := d.log;
    }

    /**
      `generateMutations`: the mutation rule; the random mutation is a
      sample of the configured mutations.
     */
    method GenerateMutations(cfg: Config, father: Profile, mother: Profile, s: Script, log: seq<Call>)
      returns (trace: seq<Call>)
      modifies this
      ensures var d := MutationsSpec(cfg, father, mother, cfg.mutations, s, log);
        representation == old(representation).(mutations := d.value) && trace == d.log
    {
      var d := Mutations(cfg, father, mother, cfg.mutations, s, log);
      representation := representation.(mutations := d.value);
      trace := d.log;
    }

    /**
      `generateTraits`: nothing to inherit leaves the record as it was,
      without a roll; otherwise the aspect rule, whose throw also leaves it.
     */
    method GenerateTraits(cfg: Config, father: Profile, mother: Profile, s: Script, log: seq<Call>)
      returns (error: Option<Error>, trace: seq<Call>)
      modifies this
      ensures !father.HasTraits() && !mother.HasTraits() ==>
        error == None && trace == log && representation == old(representation)
      ensures father.HasTraits() || mother.HasTraits() ==>
        var r := InheritedSpec(cfg.traits, father.traits, mother.traits, s, log);
        trace == r.log &&
        (r.Err? ==> error == Some(r.error) && representation == old(representation)) &&
        (r.Ok? ==> error == None && representation == old(representation).(traits := r.value))
    {
      if !father.HasTraits() && !mother.HasTraits() {
        return None, log;
      }
      var r := InheritedAspects(cfg.traits, father.traits, mother.traits, s, log);
      trace := r.log;
      if r.Err? {
        return Some(r.error), trace;
      }
      representation := representation.(traits := r.value);
      error := None;
    }

    /**
      `generateMarkings`: nothing to inherit leaves the record as it was,
      without a roll; otherwise the aspect rule, whose throw also leaves it.
     */
    method GenerateMarkings(cfg: Config, father: Profile, mother: Profile, s: Script, log: seq<Call>)
      returns (error: Option<Error>, trace: seq<Call>)
      modifies this
      ensures !father.HasMarkings() && !mother.HasMarkings() ==>
        error == None && trace == log && representation == old(representation)
      ensures father.HasMarkings() || mother.HasMarkings() ==>
        var r := InheritedSpec(cfg.markings, father.markings, mother.markings, s, log);
        trace == r.log &&
        (r.Err? ==> error == Some(r.error) && representation == old(representation)) &&
        (r.Ok? ==> error == None && representation == old(representation).(markings := r.value))
    {
      if !father.HasMarkings() && !mother.HasMarkings() {
        return None, log;
      }
      var r := InheritedAspects(cfg.markings, father.markings, mother.markings, s, log);
      trace := r.log;
      if r.Err? {
        return Some(r.error), trace;
      }
      representation := representation.(markings := r.value);
      error := None;
    }

    /**
      `generateBuild`: the build lookup and roll, also when both parents
      have the same build; a throw leaves the record as it was.
     */
    method GenerateBuild(cfg: Config, father: Profile, mother: Profile, s: Script, log: seq<Call>)
      returns (error: Option<Error>, trace: seq<Call>)
      modifies this
      ensures var r := BuildRoll(cfg, father, mother, s, log);
        trace == r.log &&
        (r.Err? ==> error == Some(r.error) && representation == old(representation)) &&
        (r.Ok? ==> error == None && representation == old(representation).(build := r.value))
    {
      var r := BuildRoll(cfg, father, mother, s, log);
      trace := r.log;
      if r.Err? {
        return Some(r.error), trace;
      }
      representation := representation.(build := r.value);
      error := None;
    }
  }
}
