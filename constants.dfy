/**
  The closed sets the engine builds from the configuration table once, at
  load time (`GENDERS`, `FURS`, `TRAITS`, `MARKINGS`, `MUTATIONS`), and the
  sorted member lists the generators sample from.
 */
module Constants {
  import opened Seqs
  import opened Configuration
  import opened ClosedSets

  /** `FURS`: the default fur followed by the rare options. */
  function Furs(cfg: Config): (c: ClosedSet)
    ensures c.Valid()
    ensures forall k :: k in c.keys <==> k == cfg.furDefault || k in cfg.rareFurs
  {
    Of([cfg.furDefault] + cfg.rareFurs)
  }

  /** `MUTATIONS.allValues`: the configured mutations, sorted, each once. */
  function AllMutations(cfg: Config): (pool: seq<string>)
    ensures NoDup(pool) && StrSorted(pool)
    ensures forall x :: x in pool <==> x in cfg.mutations
  {
    AllValues(Of(cfg.mutations))
  }

  /** `TRAITS.allValues`: the configured traits, sorted, each once. */
  function AllTraits(cfg: Config): (pool: seq<string>)
    ensures NoDup(pool) && StrSorted(pool)
    ensures forall x :: x in pool <==> x in cfg.traits.available
  {
    AllValues(Of(cfg.traits.available))
  }

  /** `MARKINGS.allValues`: the configured markings, sorted, each once. */
  function AllMarkings(cfg: Config): (pool: seq<string>)
    ensures NoDup(pool) && StrSorted(pool)
    ensures forall x :: x in pool <==> x in cfg.markings.available
  {
    AllValues(Of(cfg.markings.available))
  }

  /** `BUILDS`: the keys of the build table. */
  function Builds(cfg: Config): (c: ClosedSet)
    ensures c.Valid()
    ensures forall k :: k in c.keys <==> k in cfg.builds
  {
    Of(cfg.builds)
  }

  /** `ADDONS`: the keys of the add-on table. */
  function AddOns(cfg: Config): (c: ClosedSet)
    ensures c.Valid()
    ensures forall k :: k in c.keys <==> k in cfg.addOns
  {
    Of(cfg.addOns)
  }
}
