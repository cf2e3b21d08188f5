# Breeder offspring engine, modelled in Dafny

This project models the offspring-generation engine of Breeder, a companion
for a creature-breeding game. A creature (a Nemeion) has a gender, a fur, a
coat, a build, and lists of traits, markings and mutations. The engine makes
new creatures in two ways:

- the **breeding ground** (`NemeionBreedingGround`) inherits from a Male
  father and a Female mother;
- the **random generator** (`NemeionRandomGenerator`) draws every attribute
  from weighted tables.

Both follow the **generator protocol** (`NemeionGenerator`): seven steps in a
fixed order (gender, fur, coat, build, traits, markings, mutations). Three
stores drive them:

- the older **offspring store**, which fills one shared record field by field;
- the **litter store**, which rolls a litter size and fills that many slots;
- the **den store**, whose add-ons can grow the litter, change the first
  child's build (one-shot potions) and give the litter a mutation (the
  mutation stone).

The **closed sets** (`Enum`) are the frozen identifier sets built from the
configuration table.

Every random source is injected in the original, so the model makes the
engine deterministic:

- A `Script` holds the scripted answers, indexed by the position of the call
  in the trace.
- A trace (`seq<Call>`) records each call with the argument it was given:
  the chance of a roll, the collection of a sample, the maximum of a count.
- Each step takes a trace and returns its value with the extended trace.
  Contracts can therefore state exact call counts, call arguments and branch
  outcomes.

Other modelling choices:

- Chances are `real`.
- The configuration table (`data.yaml`) is an abstract read-only parameter
  `Config`.
- A JavaScript throw is an `Err`/`Failure` carrying the trace up to the throw.
- Objects that the source updates in place are classes; everything frozen or
  copied is a value:
  - `Nemeion`, whose fields the den store reassigns;
  - the offspring, litter and den stores.

| file | module | models |
|---|---|---|
| wrappers.dfy | Wrappers | `Option`, `Result` |
| errors.dfy | Errors | the engine's throws |
| oracle.dfy | Oracle | calls into the injected functions, scripts, traces |
| config.dfy | Configuration | the configuration table |
| seqs.dfy | Seqs | `[...new Set()]`, `indexOf`, `filter`, `splice`, `Array.remove`, the sorts |
| thresholds.dfy | Thresholds | "first entry of the ascending table at least the roll" |
| closed_set.dfy | ClosedSets | src/types/Enum.js |
| constants.dfy | Constants | src/Constants.js (the closed sets of the configuration) |
| nemeion.dfy | Creatures | src/types/Nemeion.js |
| generator.dfy | Generator | src/types/NemeionGenerator.js |
| inheritance.dfy | Inheritance | the rules the breeding ground and the offspring store share |
| breeding_ground.dfy | BreedingGround | src/types/NemeionBreedingGround.js |
| random_generator.dfy | RandomGenerator | src/types/NemeionRandomGenerator.js |
| offspring_store.dfy | OffspringStore | src/stores/offspring.js |
| litter.dfy | Litters | src/stores/litter.js, and the litter-size lookup that src/stores/den.js repeats |
| den.dfy | DenStore | src/stores/den.js |

Where the code and its tests or design disagree, the model follows the code,
with three exceptions noted here:

- **`hasRareFur`.** The breeding ground and the offspring store read
  `hasRareFur`, which src/types/Nemeion.js does not define. It would always be
  `undefined`, and the rare-fur branches would be dead. The model defines it
  as "the fur is one of the configured rare options", which is what the
  creature tests assert.
- **The `Nemeion` constructor.** The constructor in src/types/Nemeion.js takes
  no argument, so `new Nemeion({...})` in `makeOffspring` would yield a blank
  creature. The model copies the record (`Creatures.Nemeion.FromRecord`),
  as the tests expect.
- **The store's random mutation.** src/stores/offspring.js passes the
  `mutations.available` object to the injected sample. The model passes the
  list of its keys.

## Model

| member | source | states |
|---|---|---|
| ClosedSets.New | src/types/Enum.js:6-15 | refuses exactly a source that is neither an array nor an object; otherwise every array element (object key) becomes a member mapping to itself, in first-occurrence order, and nothing else is a member |
| ClosedSets.Of | src/types/Enum.js:10-14 | the closed set of a key list has exactly those keys, each once |
| ClosedSets.AllValues | src/types/Enum.js:34 | `allValues` lists exactly the members, sorted ascending, each once |
| ClosedSets.FirstValue | src/types/Enum.js:36 | `firstValue` is `allValues[0]`, a member no greater than any other; `undefined` exactly for the empty set |
| ClosedSets.PickIndex | src/types/Enum.js:27 | `(length * Math.random()) << 0` is a valid index of any non-empty candidate list |
| ClosedSets.RandomValue | src/types/Enum.js:21-28 | `randomValue(exclude)` yields a member not excluded, and yields one exactly when such a member exists |
| ClosedSets.RandomValueNoExclusions | src/types/Enum.js:22-27 | with no exclusions `randomValue()` yields a member exactly when the set is non-empty |
| Constants.Furs | src/Constants.js:19 | `FURS` holds exactly the default fur and the rare options |
| Constants.AllMutations | src/Constants.js:20 | `MUTATIONS.allValues` is exactly the configured mutations, sorted, each once |
| Constants.AllTraits | src/Constants.js:13 | `TRAITS.allValues` is exactly the configured traits, sorted, each once |
| Constants.AllMarkings | src/Constants.js:5 | `MARKINGS.allValues` is exactly the configured markings, sorted, each once |
| Constants.Builds | src/Constants.js:17 | `BUILDS` holds exactly the keys of the build table |
| Constants.AddOns | src/Constants.js:21 | `ADDONS` holds exactly the keys of the add-on table |
| Creatures.Nemeion.constructor | src/types/Nemeion.js:2-10 | a new creature has no gender, fur, coat or build and no traits, markings or mutations |
| Creatures.Nemeion.FromRecord | src/types/NemeionGenerator.js:16-24 | the creature `makeOffspring` builds holds exactly the record of the seven step results |
| Creatures.Nemeion.HasTraits | src/types/Nemeion.js:12 | `hasTraits`: the creature has at least one trait |
| Creatures.Nemeion.HasMarkings | src/types/Nemeion.js:13 | `hasMarkings`: the creature has at least one marking |
| Creatures.Nemeion.HasMutations | src/types/Nemeion.js:14 | `hasMutations`: the creature has at least one mutation |
| Creatures.Nemeion.HasRareFur | src/types/NemeionBreedingGround.js:59 | `hasRareFur`, which the breeding ground reads: the fur is one of the rare options |
| Creatures.Records | src/stores/den.js:122 | the records of a litter, one per creature and in order, as the stone's `every` reads them |
| Creatures.RecordsPush | src/stores/den.js:47 | pushing a creature onto a litter appends its record |
| Generator.MakeOffspring | src/types/NemeionGenerator.js:15-25 | the definition of `makeOffspring`: the seven steps in field order, each on the trace the previous one left; `Generator.StepOrder` proves the order and the stop at the first throw |
| Generator.Chain | src/types/NemeionGenerator.js:16-24 | the outcome of the record literal: the first throwing step's error and trace, else the record of the seven results; `Generator.StepOrder` proves it |
| Generator.Marks | src/types/NemeionGenerator.js:15-25 | the trace of the first `n` probe steps is their marks, in order |
| Generator.StepOrder | src/types/NemeionGenerator.js:15-25 | `makeOffspring` runs each step exactly once, in the order gender, fur, coat, build, traits, markings, mutations, and a throwing step ends the call with its error with no later step run |
| Generator.GenerateGender | src/types/NemeionGenerator.js:27-29 | exactly one roll, at the female base chance; Female exactly when it succeeds |
| Generator.BaseOffspring | src/types/NemeionGenerator.js:30-35 | the base generator's offspring has the gender of its single roll and nothing else, after exactly that roll |
| Inheritance.Fur | src/types/NemeionBreedingGround.js:58-93 | the four-way rare-fur rule: same rare fur, one double-rate roll; different rare furs, the mother's single-rate roll then the father's, the mother winning whenever hers succeeds; one rare parent, one single-rate roll for that parent's fur; otherwise, or after failed inherit rolls, the random-fur fallback on the trace the rolls left |
| Inheritance.Coat | src/types/NemeionBreedingGround.js:95-108 | equal coats are copied with no roll; otherwise a missing father's row throws, and exactly one roll at the father→mother chance gives the mother's coat exactly when it succeeds, else the father's |
| Inheritance.BuildRoll | src/stores/offspring.js:131-140 | a father's build missing from the table throws; a missing, null or zero chance throws "incompatible builds"; otherwise one roll at that chance gives the mother's build on success and the father's on failure |
| Inheritance.RollAll | src/types/NemeionBreedingGround.js:178-183 | the roll loop makes one roll per entry and keeps at most one aspect per entry |
| Inheritance.RollAllCalls | src/types/NemeionBreedingGround.js:178-183 | the `i`-th roll of the loop is at the `i`-th entry's rate |
| Inheritance.RollAllMembers | src/types/NemeionBreedingGround.js:178-183 | an aspect is kept exactly when the roll of some entry carrying it succeeded |
| Inheritance.RollAllKept | src/types/NemeionBreedingGround.js:178-183 | with distinct aspects, an entry's aspect is kept exactly when its own roll succeeded |
| Inheritance.RollAllNoDup | src/types/NemeionBreedingGround.js:178-185 | with distinct aspects nothing is kept twice |
| Inheritance.RollAllKeys | src/types/NemeionBreedingGround.js:178-183 | only the entries' aspects are kept |
| Inheritance.Union | src/types/NemeionBreedingGround.js:161-167 | the aspects considered are exactly those of either parent, each once, the father's first |
| Inheritance.Entries | src/types/NemeionBreedingGround.js:167-179 | the rolled entries are the union of the parents' aspects, in order, each with its rate |
| Inheritance.AspectRates | src/types/NemeionBreedingGround.js:161-175 | the `reduce` throws exactly when some aspect of either parent lacks quality rates; otherwise it yields each distinct aspect once, in union order, at its rate |
| Inheritance.SetRate | src/types/NemeionBreedingGround.js:168-174 | one step of the `reduce` sets the aspect's entry to the double rate over a truthy entry and the single rate otherwise, and keeps the invariant of the rates seen so far |
| Inheritance.ObjectEntries | src/types/NemeionBreedingGround.js:179 | enumerating the reduced rates gives the union with each aspect's rate |
| Inheritance.Uncovered | src/types/NemeionBreedingGround.js:169-170 | an aspect of either parent without quality rates makes the `reduce` throw |
| Inheritance.RatesCovered | src/types/NemeionBreedingGround.js:167-175 | a `reduce` that saw every aspect without a throw has an entry for exactly the parents' aspects |
| Inheritance.FinalRates | src/types/NemeionBreedingGround.js:167-179 | after the `reduce`, every aspect has an entry and the entries in key order are the union with its rates |
| Inheritance.InheritedAspects | src/types/NemeionBreedingGround.js:158-186 | `#_generateInheritedAspects` with its loops computes the aspect rule: the rates, one roll per distinct aspect, the successes once each |
| Inheritance.RollEntry | src/types/NemeionBreedingGround.js:180-182 | one pass of the roll loop keeps the next aspect exactly when its roll succeeds |
| Inheritance.AspectRolls | src/types/NemeionBreedingGround.js:158-186 | each distinct aspect of either parent is rolled exactly once, in union order, at its rate |
| Inheritance.AspectResult | src/types/NemeionBreedingGround.js:158-186 | the result holds no duplicate, only aspects of the union, and each aspect of the union exactly when its roll succeeded |
| Inheritance.RatesOf | src/types/NemeionBreedingGround.js:169-170 | the definition of an aspect's quality rates, `undefined` where the lookup would throw |
| Inheritance.RateOf | src/types/NemeionBreedingGround.js:168-172 | the definition of the rate an aspect is rolled at; `Inheritance.RateOfFacts` characterises it |
| Inheritance.InheritedSpec | src/types/NemeionBreedingGround.js:158-186 | the definition of the aspect rule; `Inheritance.InheritedAspects` is proved equal to it, and `AspectRolls` and `AspectResult` characterise it |
| Inheritance.RateOfFacts | src/types/NemeionBreedingGround.js:161-172 | the double rate applies to an aspect both parents carry (when the single rate is truthy) and the single rate to any other, however often a parent lists it |
| Inheritance.InheritedMutations | src/types/NemeionBreedingGround.js:140-148 | the definition of the inherit rolls; `Inheritance.InheritedMutationCalls` and `InheritedMutationsFacts` characterise it |
| Inheritance.MutationsSpec | src/types/NemeionBreedingGround.js:137-156 | the definition of the mutation rule; `Inheritance.Mutations` is proved equal to it, and `MutationRolls` and `MutationResult` characterise it |
| Inheritance.MutationRolls | src/types/NemeionBreedingGround.js:137-156 | one roll at `inherit_chance` per entry of the father's list followed by the mother's, duplicates included, then exactly one roll at `base_chance`, then one sample of all mutations only when it succeeds |
| Inheritance.InheritedMutationCalls | src/types/NemeionBreedingGround.js:142-147 | every inherit roll is at `inherit_chance`, one per parent entry |
| Inheritance.InheritedMutationsFacts | src/types/NemeionBreedingGround.js:142-147 | the inherit rolls keep exactly the entries whose roll succeeded, no more than there are entries |
| Inheritance.MutationResult | src/types/NemeionBreedingGround.js:137-156 | the result has no duplicates, is at most one longer than both parent lists together, and holds exactly the inherited entries and, when the base roll succeeds, the sample |
| Inheritance.Mutations | src/types/NemeionBreedingGround.js:137-156 | `_generateMutations` with its loop computes the mutation rule |
| BreedingGround.New | src/types/NemeionBreedingGround.js:15-31 | a missing parent throws first, then a parent that is not a creature, then parents other than a Male father and Female mother; it succeeds exactly for a Male and a Female creature and keeps both parents and the injected functions |
| BreedingGround.RandomFur | src/types/NemeionBreedingGround.js:51-57 | one roll at the rare chance; a sample of the rare options on success, the default fur otherwise |
| BreedingGround.Build | src/types/NemeionBreedingGround.js:109-122 | equal builds are copied with no roll; otherwise the build lookup and roll |
| BreedingGround.Traits | src/types/NemeionBreedingGround.js:123-129 | no trait in either parent gives `[]` with no roll |
| BreedingGround.Markings | src/types/NemeionBreedingGround.js:130-136 | no marking in either parent gives `[]` with no roll |
| BreedingGround.GroundSteps | src/types/NemeionBreedingGround.js:46-156 | the breeding ground's seven overrides: the gender roll, the rare-fur rule, the coat rule, the build rule, the trait and marking rules, the mutation rule |
| BreedingGround.Offspring | src/types/NemeionBreedingGround.js:34-44 | the definition of the breeding ground's offspring or its first throw; `BreedingGround.Protocol` ties it to the protocol, and `OffspringGender`, `OffspringErrors` and `OffspringInherits` state its properties |
| BreedingGround.Protocol | src/types/NemeionBreedingGround.js:34-44 | the breeding ground's offspring is the generator protocol run on its seven steps |
| BreedingGround.GenerateTraits | src/types/NemeionBreedingGround.js:123-129 | `_generateTraits` with the loops computes the trait step |
| BreedingGround.GenerateMarkings | src/types/NemeionBreedingGround.js:130-136 | `_generateMarkings` with the loops computes the marking step |
| BreedingGround.GenerateOffspring | src/types/NemeionBreedingGround.js:34-44 | `makeOffspring` returns a new creature holding the offspring record after the steps' draws, or the error a step throws |
| BreedingGround.OffspringGender | src/types/NemeionBreedingGround.js:46-48 | the offspring is Female exactly when the first roll succeeds |
| BreedingGround.OffspringErrors | src/types/NemeionBreedingGround.js:95-186 | `makeOffspring` throws only for a missing configuration entry, or "incompatible builds" when the parents' builds differ |
| BreedingGround.OffspringInherits | src/types/NemeionBreedingGround.js:95-186 | the offspring has one parent's coat and one parent's build, only traits and markings some parent carries, each once, and mutations each once and at most one more than both parents list |
| RandomGenerator.DefaultFur | src/types/NemeionRandomGenerator.js:30-33 | the fur is the configured default, with no draw |
| RandomGenerator.Pick | src/types/NemeionRandomGenerator.js:54-61 | the definition of the weighted pick over the sorted entries; `RandomGenerator.PickFacts` and `PickExact` characterise it |
| RandomGenerator.WeightedSpec | src/types/NemeionRandomGenerator.js:51-62 | the definition of `#_generateWeightedRandom` as a value: one `randomChance()`, then the pick for its answer; `RandomGenerator.WeightedRandom` is proved equal to it |
| RandomGenerator.PickFacts | src/types/NemeionRandomGenerator.js:51-62 | the weighted roll picks a value whose weight is at least the roll and least among those, and picks nothing exactly when every weight is below the roll |
| RandomGenerator.PickExact | src/types/NemeionRandomGenerator.js:57-60 | with distinct weights a roll equal to an entry's weight picks that entry |
| RandomGenerator.WeightedRandom | src/types/NemeionRandomGenerator.js:51-62 | exactly one `randomChance()`, and the weighted pick for its answer |
| RandomGenerator.Draws | src/types/NemeionRandomGenerator.js:68-72 | the definition of `n` passes of the sampling loop; `DrawsTrace`, `DrawGated`, `DrawsGated`, `DrawsGatedSamples` and `DrawsMembers` characterise it |
| RandomGenerator.DrawsTrace | src/types/NemeionRandomGenerator.js:68-72 | the sampling loop only extends the trace and keeps at most one value per pass; without a gate it draws exactly one sample per pass |
| RandomGenerator.DrawGated | src/types/NemeionRandomGenerator.js:69-71 | a gated pass makes one roll, and one sample exactly when it keeps a value |
| RandomGenerator.DrawsGated | src/types/NemeionRandomGenerator.js:68-72 | with a gate, `n` passes consult the gate exactly `n` times |
| RandomGenerator.DrawsGatedSamples | src/types/NemeionRandomGenerator.js:68-72 | with a gate, a sample is drawn once per passing gate |
| RandomGenerator.DrawsMembers | src/types/NemeionRandomGenerator.js:70 | with an honest sampler and a non-empty pool, every value kept is in the pool |
| RandomGenerator.RandomAspectsSpec | src/types/NemeionRandomGenerator.js:64-75 | the definition of `#_generateRandomAspects` as a value; `RandomGenerator.RandomAspects` is proved equal to it and `RandomAspectsFacts` characterises it |
| RandomGenerator.RandomAspects | src/types/NemeionRandomGenerator.js:64-75 | `#_generateRandomAspects` with its loop computes the random-aspect draw |
| RandomGenerator.RandomAspectsFacts | src/types/NemeionRandomGenerator.js:64-75 | the count call `randomInt(maxCount)` comes first; without a gate exactly `count` samples follow, with a gate exactly `count` rolls; the result has no duplicate, is no longer than the count, and holds only pool members under an honest sampler |
| RandomGenerator.QualityWeight | src/types/NemeionRandomGenerator.js:82-98 | a quality gets no copies exactly when it is Limited; an unknown quality gets 60 |
| RandomGenerator.QualityOf | src/types/NemeionRandomGenerator.js:97 | the definition of a marking's quality, with an absent or empty quality read as Common |
| RandomGenerator.Pool | src/types/NemeionRandomGenerator.js:93-104 | the definition of the weighted pool: each key in order, repeated by its quality's weight; `RandomGenerator.PoolCount` characterises it |
| RandomGenerator.MarkingPool | src/types/NemeionRandomGenerator.js:95-104 | the definition of the pool over `MARKINGS.allValues`; `RandomGenerator.MarkingPoolFacts` characterises it |
| RandomGenerator.PoolCount | src/types/NemeionRandomGenerator.js:93-104 | each marking occurs in the pool exactly as often as its quality's weight, and nothing else occurs |
| RandomGenerator.MarkingPoolFacts | src/types/NemeionRandomGenerator.js:93-104 | the pool holds exactly the configured markings that are not Limited, each by its weight; a missing quality counts as Common |
| RandomGenerator.BuildPool | src/types/NemeionRandomGenerator.js:93-104 | the nested loops build that weighted pool |
| RandomGenerator.WeightedMarkingsSpec | src/types/NemeionRandomGenerator.js:77-124 | the definition of `#_generateWeightedMarkings` as a value; `RandomGenerator.WeightedMarkings` is proved equal to it and `WeightedMarkingsFacts` characterises it |
| RandomGenerator.WeightedMarkings | src/types/NemeionRandomGenerator.js:77-124 | `#_generateWeightedMarkings` with its loops computes the weighted marking draw |
| RandomGenerator.WeightedMarkingsFacts | src/types/NemeionRandomGenerator.js:77-124 | one `randomInt(random_cap)`, then exactly that many samples of the pool (none when it is empty); the result has no duplicate, is no longer than the count, and under an honest sampler holds only configured markings that are not Limited |
| RandomGenerator.Found | src/types/NemeionRandomGenerator.js:136 | the found markings are those of the result in the group, with their repeats |
| RandomGenerator.RemoveFirst | src/types/NemeionRandomGenerator.js:143-147 | one turn of the removal loop drops one occurrence of a marking other than the kept one, and keeps the order of the rest |
| RandomGenerator.RemoveOthersSubseq | src/types/NemeionRandomGenerator.js:142-149 | the removal loop leaves a subsequence |
| RandomGenerator.RemoveOthersCount | src/types/NemeionRandomGenerator.js:142-149 | the kept marking keeps all its occurrences; every other marking loses one occurrence per time it was found |
| RandomGenerator.RemoveFirstCount | src/types/NemeionRandomGenerator.js:143-147 | one removal takes exactly one occurrence of the marking, unless it is the kept one or absent |
| RandomGenerator.RemoveAll | src/types/NemeionRandomGenerator.js:142-149 | the removal loop, with `indexOf` and `splice`, computes the removal |
| RandomGenerator.GroupPass | src/types/NemeionRandomGenerator.js:135-150 | one turn of the group loop computes that group's pass |
| RandomGenerator.FilterExclusive | src/types/NemeionRandomGenerator.js:126-154 | `#_filterExclusiveMarkings` with its loop computes the filter |
| RandomGenerator.AtMostOneSub | src/types/NemeionRandomGenerator.js:146 | removing markings never adds a group member back |
| RandomGenerator.GroupStep | src/types/NemeionRandomGenerator.js:135-150 | the definition of one group's pass; `GroupStepFacts`, `GroupStepSubseq` and `GroupStepExclusive` characterise it |
| RandomGenerator.ApplyGroups | src/types/NemeionRandomGenerator.js:134-151 | the definition of the passes over the groups in key order; the `ApplyGroups…` lemmas characterise it |
| RandomGenerator.ExclusiveSpec | src/types/NemeionRandomGenerator.js:126-154 | the definition of `#_filterExclusiveMarkings` as a value; `RandomGenerator.FilterExclusive` is proved equal to it and `ExclusiveFacts` characterises it |
| RandomGenerator.GroupStepFacts | src/types/NemeionRandomGenerator.js:135-150 | a group's pass leaves a subsequence with at most one distinct marking of the group; it keeps every marking outside the group, samples at most once, and changes nothing when at most one marking was found |
| RandomGenerator.GroupStepSubseq | src/types/NemeionRandomGenerator.js:135-150 | a group's pass leaves a subsequence |
| RandomGenerator.GroupStepExclusive | src/types/NemeionRandomGenerator.js:135-150 | a group's pass leaves at most one distinct marking of the group |
| RandomGenerator.ApplyGroupsSubseq | src/types/NemeionRandomGenerator.js:134-151 | the passes leave a subsequence of the input |
| RandomGenerator.ApplyGroupsLog | src/types/NemeionRandomGenerator.js:134-151 | the passes only extend the trace, by at most one sample per group |
| RandomGenerator.ApplyGroupsExclusive | src/types/NemeionRandomGenerator.js:134-151 | after the passes each group has at most one distinct marking left |
| RandomGenerator.ApplyGroupsKeep | src/types/NemeionRandomGenerator.js:134-151 | a marking in no group keeps all its occurrences |
| RandomGenerator.ApplyGroupsQuiet | src/types/NemeionRandomGenerator.js:138 | when no group has more than one marking present, nothing changes and nothing is sampled |
| RandomGenerator.ExclusiveFacts | src/types/NemeionRandomGenerator.js:126-154 | with no groups the input is returned unchanged; otherwise the result is an order-preserving subsequence of the input with at most one distinct member per group, after at most one sample per group, and unchanged when no group is over-full |
| RandomGenerator.RandomMarkings | src/types/NemeionRandomGenerator.js:43-46 | the definition of the marking step: the weighted draw, then the exclusive-group filter; `RandomGenerator.RandomMarkingsFacts` characterises it |
| RandomGenerator.RandomSteps | src/types/NemeionRandomGenerator.js:30-49 | the random generator's seven overrides: the gender roll, the default fur, the two weighted rolls, the random traits, markings and gated mutations |
| RandomGenerator.Offspring | src/types/NemeionRandomGenerator.js:30-49 | the definition of a random offspring; `RandomGenerator.Protocol` ties it to the protocol, and the `RandomOffspring…` lemmas state its properties |
| RandomGenerator.Protocol | src/types/NemeionRandomGenerator.js:34-49 | the random generator's offspring is the generator protocol on its seven steps |
| RandomGenerator.GenerateOffspring | src/types/NemeionRandomGenerator.js:30-49 | `makeOffspring` returns a new creature holding the random offspring, after its draws, and never throws |
| RandomGenerator.RandomAspectsExtend | src/types/NemeionRandomGenerator.js:64-65 | the random aspects begin with the count call and only extend the trace |
| RandomGenerator.RandomMarkingsExtend | src/types/NemeionRandomGenerator.js:43-46 | the marking step only extends the trace |
| RandomGenerator.RandomOffspringValues | src/types/NemeionRandomGenerator.js:30-39 | the offspring's gender follows the first roll, its fur is the default, and its coat and build are the weighted picks of the next two `randomChance()` answers |
| RandomGenerator.LaterStepsExtend | src/types/NemeionRandomGenerator.js:43-49 | the marking and mutation steps only extend the trace |
| RandomGenerator.RandomOffspringTrace | src/types/NemeionRandomGenerator.js:34-41 | the draws begin with the gender roll, two `randomChance()` calls and the trait count |
| RandomGenerator.RandomMarkingsFacts | src/types/NemeionRandomGenerator.js:43-46 | the markings have no duplicates and at most one distinct member of each exclusive group, and under an honest sampler only configured markings that are not Limited |
| RandomGenerator.RandomOffspringAspects | src/types/NemeionRandomGenerator.js:40-49 | a random offspring has each trait, marking and mutation once, and at most one distinct marking of each exclusive group |
| RandomGenerator.RandomOffspringMembers | src/types/NemeionRandomGenerator.js:40-49 | under an honest sampler a random offspring carries only configured traits, configured non-Limited markings, and configured mutations |
| OffspringStore.SleekExclusion | src/stores/offspring.js:29 | the list `[FURS.Sleek]` passed to `randomValue`, empty when no Sleek is configured |
| OffspringStore.StoreRandomFur | src/stores/offspring.js:27-33 | the definition of the store's `rollRandomFur`; `OffspringStore.StoreRandomFurFacts` characterises it |
| OffspringStore.StoreRandomFurFacts | src/stores/offspring.js:27-33 | exactly one roll at the rare chance; Sleek on failure; on success a configured fur other than Sleek, found exactly when one exists |
| OffspringStore.StoreFurOrigin | src/stores/offspring.js:26-73 | the store's fur is a parent's fur, a configured fur, or `undefined` |
| OffspringStore.StoreSameRareRolls | src/stores/offspring.js:36-42 | parents with the same rare fur and a failed double-rate roll: exactly two rolls, the double-rate one and then the rare-chance one, and Sleek when both fail |
| OffspringStore.Store.constructor | src/stores/offspring.js:16-24 | the representation starts with no gender, fur, coat or build and empty lists |
| OffspringStore.Store.GenerateFur | src/stores/offspring.js:26-73 | writes only the fur, by the rare-fur rule with the store's random-fur roll |
| OffspringStore.Store.GenerateCoat | src/stores/offspring.js:75-88 | writes only the coat, by the coat rule over the older coat table; a throw leaves the record unchanged |
| OffspringStore.Store.GenerateGender | src/stores/offspring.js:90-92 | one roll at the female base chance; writes only the gender, Female exactly when it succeeds |
| OffspringStore.Store.GenerateMutations | src/stores/offspring.js:94-113 | writes only the mutations, by the mutation rule |
| OffspringStore.Store.GenerateTraits | src/stores/offspring.js:115-121 | no trait in either parent leaves the record and trace untouched; otherwise writes only the traits, by the aspect rule |
| OffspringStore.Store.GenerateMarkings | src/stores/offspring.js:123-129 | no marking in either parent leaves the record and trace untouched; otherwise writes only the markings, by the aspect rule |
| OffspringStore.Store.GenerateBuild | src/stores/offspring.js:131-140 | always looks up the father→mother chance, even for equal builds; writes only the build, or throws without changing the record |
| Litters.LitterSize | src/stores/litter.js:24-35 | the definition of the litter-size lookup; `Litters.LitterSizeFacts` and `LitterSizeExact` characterise it |
| Litters.SizeOf | src/stores/den.js:85-88 | the lookup's result as a size, `undefined` becoming `NaN` once added to |
| Litters.Plus | src/stores/den.js:88 | the definition of `litterSize += k`, with `NaN` absorbing; `DenStore.PlusZero` and `PlusPlus` characterise it |
| Litters.Slots | src/stores/den.js:46 | the definition of how often `i < litterSize` admits a pass: the size when positive, none for `NaN` |
| Litters.LitterSizeFacts | src/stores/litter.js:24-35 | the size is the first position plus one of the least weight at least the roll; `undefined` exactly when every weight is below the roll |
| Litters.LitterSizeExact | src/stores/litter.js:24-35 | with distinct weights a roll equal to `weights[k]` gives size `k + 1` |
| Litters.RollLitterSize | src/stores/den.js:28-41 | one `chanceRoll()`, then the scan of the sorted weights finds the lookup's size |
| Litters.SlotsExact | src/stores/litter.js:24-43 | with distinct weights a roll equal to `weights[k]` fills exactly `k + 1` slots |
| Litters.LitterStore.constructor | src/stores/litter.js:13 | the litter store starts with an empty litter |
| Litters.LitterStore.GenerateOffspring | src/stores/litter.js:15-19 | one size roll; exactly one forwarded call per slot, each with the same parents; the litter is replaced wholesale by one `undefined` per slot |
| Litters.GenerateLitter | src/stores/litter.js:21-44 | one `chanceRoll()`; the slot callback runs exactly once per slot of the looked-up size |
| Litters.FillSlots | src/stores/litter.js:38-43 | the loop runs the callback exactly `n` times, each time with the same parents |
| DenStore.Has | src/stores/den.js:87 | the definition of `selectedAddons.includes(ADDONS[name])`, false for a name the add-on table lacks |
| DenStore.FinalSize | src/stores/den.js:85-95 | the definition of the final litter size; `FinalSizeValue`, `FinalSizeLog` and `FinalSizeRange` characterise it |
| DenStore.Grown | src/stores/den.js:87-95 | the definition of what the add-ons make of the looked-up size; `DenStore.GrownValue` and `GrownLog` characterise it |
| DenStore.PlusZero | src/stores/den.js:85-95 | adding nothing keeps a litter size, `NaN` included |
| DenStore.PlusPlus | src/stores/den.js:88-93 | two additions to a litter size are one addition of their sum |
| DenStore.GrownValue | src/stores/den.js:87-95 | the add-ons add the blossom's `additional` when selected, plus the fertility draw when the treatment is selected and its roll succeeds |
| DenStore.GrownLog | src/stores/den.js:90-95 | the treatment's roll happens only when it is selected, and its draw only when that roll succeeds |
| DenStore.FinalSizeValue | src/stores/den.js:85-95 | the final size is the looked-up size for the first roll plus the blossom's amount plus, on a successful treatment roll, the answer of `rollLitterSize` |
| DenStore.FinalSizeRange | src/stores/den.js:85-95 | under an honest `rollLitterSize`, the final size is the looked-up size plus the blossom's amount plus, on a successful treatment roll, from `min_additional` to `max_additional`; `NaN` when the roll exceeds every weight |
| DenStore.FinalSizeLog | src/stores/den.js:85-95 | the size draws are the size roll, the treatment's roll when selected, and its draw when that roll succeeds |
| DenStore.Potion | src/stores/den.js:101-104 | the definition of one potion check; `DenStore.PotionFacts` and `PotionCount` characterise it |
| DenStore.Dose | src/stores/den.js:101-116 | the definition of the four checks in order; the `Dose…` lemmas characterise it |
| DenStore.PotionFacts | src/stores/den.js:101-104 | a potion check keeps the add-ons' order, and sets the build only when that potion is selected |
| DenStore.PotionCount | src/stores/den.js:101-104 | a selected potion loses exactly one copy; every other add-on keeps its count |
| DenStore.DoseCount | src/stores/den.js:101-116 | the four checks remove one copy of each selected potion and nothing else |
| DenStore.DoseBuild | src/stores/den.js:101-116 | the child takes the build of the last selected potion in the order Tincture→Dwarf, Brute, Regal, Domestic, or keeps its own |
| DenStore.DoseSubseq | src/stores/den.js:101-116 | the checks keep the order of the add-ons they leave |
| DenStore.DoseFacts | src/stores/den.js:101-116 | a dose removes exactly one copy of each selected potion and no other add-on, keeping the order of the rest |
| DenStore.DoseIdle | src/stores/den.js:101-116 | with no potion selected a dose changes nothing |
| DenStore.DoseEmpties | src/stores/den.js:101-116 | when each potion is selected at most once a dose leaves none selected |
| DenStore.DoseAll | src/stores/den.js:97-119 | dosing the litter slot by slot keeps its length |
| DenStore.DoseAllPush | src/stores/den.js:97-119 | the next child is dosed from the add-ons the earlier slots left, through the shared list |
| DenStore.DoseAllBuilds | src/stores/den.js:101-116 | dosing changes only the children's builds |
| DenStore.DoseAllSubseq | src/stores/den.js:97-119 | dosing keeps the order of the add-ons |
| DenStore.DoseAllCount | src/stores/den.js:97-119 | dosing takes no add-on other than a potion |
| DenStore.DoseAllFacts | src/stores/den.js:97-119 | dosing changes only builds, keeps the litter's length, takes only potions from the add-ons, and keeps the order of the rest |
| DenStore.DoseAllOnce | src/stores/den.js:97-119 | with each potion selected at most once, the first child's dose decides the add-ons left |
| DenStore.DoseAllRest | src/stores/den.js:97-119 | with each potion selected at most once, the children after the first keep their generated builds |
| DenStore.DoseAllOneShot | src/stores/den.js:97-119 | the potions are one-shot: the first child takes the dose, later children keep their builds, and no selected potion is left |
| DenStore.Run | src/stores/den.js:43-51 | the definition of the slot loop over a child maker, ended by the first throw; `RunStops` and `RunLength` characterise it |
| DenStore.Bred | src/stores/den.js:98-119 | the definition of the breeding slots; `BredStops` and `BredLength` characterise it |
| DenStore.RunStops | src/stores/den.js:98-119 | once a slot throws, no later slot runs |
| DenStore.RunLength | src/stores/den.js:43-51 | a slot loop that completes has one child per slot; one that throws has fewer, with an error the callback throws |
| DenStore.BredStops | src/stores/den.js:98-119 | once a breeding slot throws, no later slot runs |
| DenStore.BredLength | src/stores/den.js:98-119 | a bred litter that completes has one child per slot; one that throws has fewer, with an error the breeding ground throws |
| DenStore.BreedLitter | src/stores/den.js:85-128 | the definition of `makeOffspring` on values; `BreedLitterLength`, `BreedLitterStone` and `Den.MakeOffspring` characterise it |
| DenStore.Stone | src/stores/den.js:121-126 | the definition of the stone rule; `DenStore.StoneFacts` characterises it |
| DenStore.BreedLitterLength | src/stores/den.js:85-128 | a written litter has one child per slot of the final size; `makeOffspring` throws only a breeding ground's error, or the stone's write to an empty litter |
| DenStore.BreedLitterStone | src/stores/den.js:121-128 | with the stone selected and no mutation in the dosed litter, one sample of all mutations becomes the first child's only mutation and the rest stay; otherwise the dosed litter is written unchanged |
| DenStore.DoseAllKeepsStone | src/stores/den.js:97-121 | the potions leave the mutation stone selected exactly when it was |
| DenStore.StoneFacts | src/stores/den.js:121-126 | with the stone selected and no child mutated, one sample becomes the first child's only mutation, the others are kept, and an empty litter throws; otherwise nothing happens and nothing is drawn |
| DenStore.BreedLitterStoneMember | src/stores/den.js:124 | under an honest sampler the stone's mutation is one configured mutation |
| DenStore.RandomLitter | src/stores/den.js:63-66 | the definition of `makeRandom` on values: the size roll, then one random offspring per slot; `RandomLitterSize` and `Den.MakeRandom` characterise it |
| DenStore.Collected | src/stores/den.js:63-66 | the slot loop's invariant: the creatures so far hold the first `n` random offspring |
| DenStore.RandomBrood | src/stores/den.js:64-66 | `makeRandom` collects exactly one random offspring per slot |
| DenStore.RandomLitterSize | src/stores/den.js:63-66 | with distinct weights a roll equal to `weights[k]` gives a random litter of `k + 1` children |
| DenStore.NextRandom | src/stores/den.js:46-48 | one slot pushes the next random offspring, a new creature, onto the litter |
| DenStore.RandomSlots | src/stores/den.js:43-51 | the slot loop collects the `n` random offspring in call order, each a new creature |
| DenStore.NextBred | src/stores/den.js:99 | one slot's child is the breeding ground's next offspring, on the trace the earlier slots left |
| DenStore.OffspringSize | src/stores/den.js:85-95 | the size steps of `makeOffspring` compute the final size and its draws |
| DenStore.UseStone | src/stores/den.js:121-126 | the stone step reassigns only the first child's mutations, as the stone rule says, or throws on an empty litter |
| DenStore.Den.constructor | src/stores/den.js:23-26 | the den starts with a Male father, a Female mother, no litter and no add-ons |
| DenStore.Den.MakeRandom | src/stores/den.js:53-67 | a missing or foreign generator throws before any roll with nothing changed; otherwise the litter is replaced by one random offspring per slot |
| DenStore.Den.MakeOffspring | src/stores/den.js:69-129 | a missing or foreign breeding ground throws before any roll with nothing changed; otherwise the potions are taken from the selected add-ons in place, and the bred, dosed and stoned litter replaces the old one in a single write — or the call throws, leaving the litter as it was |
| DenStore.Den.GenerateLitter | src/stores/den.js:97-119 | the slot loop holds, in order and each once, the breeding ground's children as the potions left them; the add-ons are what the potions left; the error is the first a slot threw |
| DenStore.Den.BreedSlot | src/stores/den.js:98-119 | one slot makes the next child, doses it and pushes it, or throws with nothing changed |
| DenStore.Den.TakeSlot | src/stores/den.js:100-118 | the new child takes the potions and is pushed onto the litter |
| DenStore.Den.Drink | src/stores/den.js:101-116 | the four potion checks change only the shared add-on list and the child's build |
| DenStore.Den.TakePotion | src/stores/den.js:101-104 | a selected potion is removed from the shared list and sets the child's build; otherwise nothing changes |
| Seqs.Dedup | src/types/NemeionBreedingGround.js:155 | `[...new Set(s)]` has no duplicate, the same members, and is no longer |
| Seqs.DedupSnoc | src/types/NemeionBreedingGround.js:155 | extending a list adds the new element to its de-duplication unless already there |
| Seqs.DedupOrder | src/types/NemeionBreedingGround.js:155 | de-duplication keeps first-occurrence order |
| Seqs.DedupOfNoDup | src/types/NemeionBreedingGround.js:185 | a duplicate-free list is its own de-duplication |
| Seqs.IndexOf | src/stores/den.js:38 | `indexOf` is -1 exactly for an absent element, else its first position |
| Seqs.Remove | src/extensions/Array.test.js:6-12 | `remove(x)` drops one occurrence of `x`, keeping the order of the rest |
| Seqs.Filter | src/types/NemeionRandomGenerator.js:136 | `filter` keeps exactly the elements that pass, with their counts |
| Seqs.SortBy | src/types/NemeionRandomGenerator.js:55 | `toSorted` by number yields a sorted permutation |
| Seqs.StrSort | src/types/Enum.js:34 | `sort()` on strings yields a sorted permutation |
| Seqs.RemoveAtFacts | src/types/NemeionRandomGenerator.js:146 | `splice(i, 1)` leaves a subsequence one shorter, with one occurrence fewer of the dropped element |
| Thresholds.FirstAtLeast | src/types/NemeionRandomGenerator.js:57-61 | the scan finds an entry at least the roll, and finds nothing exactly when every entry is below it |
| Thresholds.FirstAtLeastLeast | src/types/NemeionRandomGenerator.js:57-61 | scanning an ascending table finds the least entry at least the roll |
| Thresholds.ThresholdFacts | src/types/NemeionRandomGenerator.js:51-62 | sorting and then scanning picks a table entry at least the roll, least among those, and nothing exactly when all are below |
| Thresholds.ThresholdExact | src/types/NemeionRandomGenerator.js:51-62 | with distinct keys a roll equal to an entry's key picks that entry |

## Left out

- Default random sources. The model never uses them; every draw comes from
  the script instead. They are:
  - `rollForThreshold`, src/utils.js:1-3;
  - the tolerance-shifted default, src/types/NemeionBreedingGround.js:9;
  - the lodash defaults;
  - `Math.random()` in `randomValue`, which is the parameter `u` in [0, 1).
- Vue/Pinia plumbing (`ref`, `defineStore`), the store-reset plugin, app
  mounting and the build configuration. This is framework wiring. Each store
  is a class whose fields are the store's refs.
- The debug logging of the weighted marking pool
  (src/types/NemeionRandomGenerator.js:106-113). It is console output with no
  effect on results.
- Configuration loading. `data.yaml` and src/Constants.js are modelled
  through the abstract `Config`. Closed sets the engine does not read
  (`COATS`, qualities, titan traits, `LIMITED_MARKINGS`) are not part of this
  model.
- Add-on effects, Unique-trait exclusion, `den.generateOffspring`,
  `hasLimitedMarkings`, and mutation or titan-trait caps. Only tests assert
  them; the shown sources have no such code.
- The add-on list that the stores pass to each generator's `makeOffspring`.
  The generators take no parameter, so the argument has no effect.
- `sortData` (src/utils.js:5-13). No core path uses it.
- Key enumeration order of JavaScript objects. Integer-like keys enumerate
  first in ascending order; the model takes insertion order for the `reduce`
  map, `Object.entries` and `Object.keys`.
- The tie order of `toSorted` under the comparator `a < b ? -1 : 1`. That
  comparator is inconsistent on equal weights. `Seqs.SortBy` keeps ties in
  input order, and every contract about a pick is stated without relying on
  tie order.
- String order is by character, not by UTF-16 code unit. `sort()` on strings
  is modelled as lexicographic order of characters.
- Parents are snapshots. The breeding ground keeps its parents' records
  rather than references, since nothing in the core changes a parent while
  breeding.
- Seqs.Remove: `Array.remove` is not part of this model; only its test is.
  It is modelled as dropping the first occurrence. With a repeated element
  the real extension might drop every occurrence.
- `generateFromParents` of the offspring store is not part of this model.
  The litter store's slot callback records each forwarded call as
  `GenerateFromParents(father, mother)`, and the `chanceRoll` forwarded is
  the store's own.
- Default arguments. In litter.js, `rollRandom` is only a default argument
  and is not defined in that file. The default breeding ground
  `new NemeionBreedingGround(father.value, mother.value)` is also left out;
  every caller passes its generator and random functions.
- Inheritance.BuildRoll: an explicit `null` inherit chance is modelled as an
  absent entry. Both are falsy and throw "incompatible builds".
- Configuration entries read as plain properties:
  - `qualityWeights[quality]` for a quality named like an object prototype
    property (`constructor`, say) is not modelled; such a name counts as an
    unknown quality (60);
  - a marking quality that is falsy otherwise than by being absent or empty
    counts as Common here too.
- DenStore.Has: the add-on options (`options.additional`, `options.chance`
  and so on) are assumed present. A missing one is a TypeError in the source,
  not modelled.
- `Enum` keys that would shadow a class member (`allValues`, `randomValue`),
  and the frozen object's own-property details.
- The base generator's six empty steps return `undefined`; their record
  fields are modelled as absent or empty.
- Samples of an empty pool: `randomSample([])` returns `undefined` in lodash.
  The script answers every sample with a string; the honest-sampler lemmas
  assume a non-empty pool.
- The ECMAScript evaluation order of the stone's assignment
  `newLitter[0].mutations = [randomSample(...)]`. For an empty litter the
  sample is drawn and the write then throws, which is what the model does.
- Unchanged parents in the den are stated through field frames
  (`modifies this`offspring, this`selectedAddons`), not as separate
  postconditions.
- src/types/Nemeion.js's constructor ignores its argument. The model follows
  the tests, as noted above.
- The `|| []` after each spread in `#_generateInheritedAspects` never takes
  effect, since a spread array is always truthy. It is not modelled.
- OffspringStore.Store.GenerateMutations: the store passes the `mutations.available` object
  to the lodash sample, which picks one of its values. The model records a
  sample of the list of its keys.
