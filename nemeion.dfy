/** The creature record (`Nemeion`). */
module Creatures {
  import opened Wrappers
  import opened Configuration

  datatype Gender = Male | Female

  /** The seven attributes of a creature, as a plain record. */
  datatype Profile = Profile(
    gender: Option<Gender>,
    fur: Option<string>,
    coat: Option<string>,
    build: Option<string>,
    traits: seq<string>,
    markings: seq<string>,
    mutations: seq<string>)
  {
    predicate HasTraits() { |traits| > 0 }

    predicate HasMarkings() { |markings| > 0 }

    predicate HasMutations() { |mutations| > 0 }

    /** `hasRareFur`: the fur is one of the configured rare options. */
    predicate HasRareFur(cfg: Config) { fur.Some? && fur.value in cfg.rareFurs }
  }

  /** The record of a new creature: no gender, fur, coat or build, and no traits, markings or mutations. */
  const Blank := Profile(None, None, None, None, [], [], [])

  /** A creature object; callers reassign its fields after construction. */
  class Nemeion {
    var gender: Option<Gender>
    var fur: Option<string>
    var coat: Option<string>
    var build: Option<string>
    var traits: seq<string>
    var markings: seq<string>
    var mutations: seq<string>

    function Record(): Profile
      reads this
    {
      Profile(gender, fur, coat, build, traits, markings, mutations)
    }

    constructor ()
      ensures Record() == Blank
    {
      gender, fur, coat, build := None, None, None, None;
      traits, markings, mutations := [], [], [];
    }

    /**
      `new Nemeion({ ... })` as the generators and tests use it: the creature
      takes the given record. The constructor of src/types/Nemeion.js takes
      no argument and would ignore the record, leaving the defaults of the
      constructor above; the tests expect the record to be copied, and this
      model follows them.
     */
    constructor FromRecord(p: Profile)
      ensures Record() == p
    {
      gender, fur, coat, build := p.gender, p.fur, p.coat, p.build;
      traits, markings, mutations := p.traits, p.markings, p.mutations;
    }

    predicate HasTraits()
      reads this
    {
      Record().HasTraits()
    }

    predicate HasMarkings()
      reads this
    {
      Record().HasMarkings()
    }

    predicate HasMutations()
      reads this
    {
      Record().HasMutations()
    }

    predicate HasRareFur(cfg: Config)
      reads this
    {
      Record().HasRareFur(cfg)
    }
  }

  /** The records of a list of creatures, in order. */
  function Records(creatures: seq<Nemeion>): (r: seq<Profile>)
    reads creatures
    ensures |r| == |creatures|
    ensures forall k :: 0 <= k < |creatures| ==> r[k] == creatures[k].Record()
  {
    if creatures == [] then []
    else Records(creatures[..|creatures| - 1]) + [creatures[|creatures| - 1].Record()]
  }

  /** Pushing a creature adds its record. */
  lemma RecordsPush(creatures: seq<Nemeion>, c: Nemeion)
    ensures Records(creatures + [c]) == Records(creatures) + [c.Record()]
  {
    assert (creatures + [c])[..|creatures|] == creatures;
  }
}
