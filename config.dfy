/**
  The genetic configuration table (`data.yaml`), an abstract read-only
  parameter. Object literals of the table appear as maps, or as key lists in
  insertion order where the engine iterates over them.
 */
module Configuration {
  import opened Wrappers

  /** `inherit_chance` of a quality: the rate when one parent carries an aspect, and when both do. */
  datatype Rates = Rates(single: real, double: real)

  /** The table of one aspect category (`traits`, `markings`). */
  datatype AspectTable = AspectTable(
    /** keys of `available`, in insertion order */
    available: seq<string>,
    /** `available[aspect].quality`, for the aspects that have one */
    quality: map<string, string>,
    /** `qualities[quality].inherit_chance` */
    qualities: map<string, Rates>,
    /** `random_cap` */
    randomCap: int)

  datatype Config = Config(
    /** `genders.Female.base_chance` */
    femaleChance: real,
    /** `furs.default` */
    furDefault: string,
    /** `furs.rare_options` */
    rareFurs: seq<string>,
    /** `furs.rare_chance` */
    furRareChance: real,
    /** `furs.inherit_chance` */
    furInherit: Rates,
    /** `coats.available[fatherCoat].inherit_chance[motherCoat]` */
    coatChances: map<string, map<string, real>>,
    /** `coats[fatherCoat].inherit_chance[motherCoat]`, the older layout the offspring store reads */
    legacyCoatChances: map<string, map<string, real>>,
    /** `coats.random_chance`, as entries in insertion order */
    coatWeights: seq<(string, real)>,
    /** keys of `builds.available` */
    builds: seq<string>,
    /** `builds.available[fatherBuild].inherit_chance[motherBuild]`; an explicit `null` is an absent entry */
    buildChances: map<string, map<string, real>>,
    /** `builds.random_chance`, as entries in insertion order */
    buildWeights: seq<(string, real)>,
    traits: AspectTable,
    markings: AspectTable,
    /** `markings.exclusive_groups`, its groups in key order; `None` when not configured */
    exclusiveGroups: Option<seq<seq<string>>>,
    /** keys of `mutations.available` */
    mutations: seq<string>,
    /** `mutations.inherit_chance` */
    mutationInherit: real,
    /** `mutations.base_chance` */
    mutationBase: real,
    /** `mutations.random_cap` */
    mutationCap: int,
    /** `litters.weights` */
    litterWeights: seq<real>,
    /** keys of `add_ons` */
    addOns: seq<string>,
    /** `add_ons.AO_BLOSSOM_CHLORIS.options.additional` */
    blossomAdditional: int,
    /** `add_ons.AO_FERTILITY_TREATMENT.options`: `chance`, `min_additional`, `max_additional` */
    fertilityChance: real,
    fertilityMin: int,
    fertilityMax: int)
}
