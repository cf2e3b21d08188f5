/**
  The inheritance rules that the breeding ground and the older offspring
  store share: rare fur with the mother as tie-breaker, the directional coat
  and build lookups, the single/double-rate aspect roll, and the per-entry
  mutation rolls. The father is always the first parent, and every roll
  goes to the injected `shouldDoAction` (the store's `chanceRoll`).
 */
module Inheritance {
  import opened Wrappers
  import opened Errors
  import opened Oracle
  import opened Seqs
  import opened Configuration
  import opened Creatures

  // ---------------------------------------------------------------- fur

  /** The four cases of the rare-fur rule. */
  datatype FurCase =
      /** both parents carry the same rare fur */
    | SameRare
      /** both parents carry a rare fur, and the two differ */
    | DifferentRare
      /** exactly one parent carries a rare fur: that parent */
    | OneRare(parent: Profile)
      /** neither parent carries a rare fur */
    | NoRare

  function FurCaseOf(cfg: Config, father: Profile, mother: Profile): FurCase
  {
    var fatherRare, motherRare := father.HasRareFur(cfg), mother.HasRareFur(cfg);
    if fatherRare && motherRare && father.fur == mother.fur then SameRare
    else if fatherRare && motherRare then DifferentRare
    else if fatherRare || motherRare then OneRare(if fatherRare then father else mother)
    else NoRare
  }

  /**
    The rare-fur rule. `fallback` is the random-fur roll, which each caller
    defines; it runs on the trace the inherit rolls left.
   */
  function Fur(cfg: Config, father: Profile, mother: Profile, s: Script, log: seq<Call>,
               fallback: seq<Call> -> Drawn<Option<string>>): (r: Drawn<Option<string>>)
    // same rare fur: one roll at the double rate
    ensures FurCaseOf(cfg, father, mother) == SameRare ==>
      var after := log + [ShouldDoAction(Some(cfg.furInherit.double))];
      r == if s.flag(|log|) then Drawn(mother.fur, after) else fallback(after)
    // different rare furs: the mother's roll, then the father's, both at the single rate;
    // the mother's fur wins whenever her roll succeeds
    ensures FurCaseOf(cfg, father, mother) == DifferentRare ==>
      var after := log + [ShouldDoAction(Some(cfg.furInherit.single)), ShouldDoAction(Some(cfg.furInherit.single))];
      r == if s.flag(|log|) then Drawn(mother.fur, after)
           else if s.flag(|log| + 1) then Drawn(father.fur, after)
           else fallback(after)
    // one rare parent: one roll at the single rate for that parent's fur
    ensures FurCaseOf(cfg, father, mother).OneRare? ==>
      var after := log + [ShouldDoAction(Some(cfg.furInherit.single))];
      r == if s.flag(|log|) then Drawn(FurCaseOf(cfg, father, mother).parent.fur, after) else fallback(after)
    // no rare parent: straight to the random-fur roll
    ensures FurCaseOf(cfg, father, mother) == NoRare ==> r == fallback(log)
  {
    match FurCaseOf(cfg, father, mother)
    case SameRare =>
      var d := Act(s, log, cfg.furInherit.double);
      if d.value then Drawn(mother.fur, d.log) else fallback(d.log)
    case DifferentRare =>
      var useMother := Act(s, log, cfg.furInherit.single);
      var useFather := Act(s, useMother.log, cfg.furInherit.single);
      assert useFather.log == log + [ShouldDoAction(Some(cfg.furInherit.single)), ShouldDoAction(Some(cfg.furInherit.single))];
      if useMother.value then Drawn(mother.fur, useFather.log)
      else if useFather.value then Drawn(father.fur, useFather.log)
      else fallback(useFather.log)
    case OneRare(parent) =>
      var d := Act(s, log, cfg.furInherit.single);
      if d.value then Drawn(parent.fur, d.log) else fallback(d.log)
    case NoRare =>
      fallback(log)
  }

  // --------------------------------------------------------- coat, build

  /** `table[fatherCoat].inherit_chance[motherCoat]`: `undefined` when the mother's coat has no entry. */
  function CoatChance(table: map<string, map<string, real>>, fatherCoat: string, motherCoat: Option<string>): Option<real>
    requires fatherCoat in table
  {
    if motherCoat.Some? && motherCoat.value in table[fatherCoat] then Some(table[fatherCoat][motherCoat.value]) else None
  }

  /**
    The coat rule over a chance table (`coats.available` for the breeding
    ground, `coats` for the store). Reading the row of a father's coat that
    the table lacks throws.
   */
  function Coat(table: map<string, map<string, real>>, father: Profile, mother: Profile, s: Script, log: seq<Call>)
    : (r: Step<Option<string>>)
    ensures father.coat == mother.coat ==> r == Ok(father.coat, log)
    ensures father.coat != mother.coat && !(father.coat.Some? && father.coat.value in table) ==>
      r == Err(MissingConfig, log)
    ensures father.coat != mother.coat && father.coat.Some? && father.coat.value in table ==>
      r.Ok? && r.log == log + [ShouldDoAction(CoatChance(table, father.coat.value, mother.coat))] &&
      (r.value == mother.coat <==> s.flag(|log|)) && (r.value == mother.coat || r.value == father.coat)
  {
    if father.coat == mother.coat then Ok(father.coat, log)
    else if father.coat.None? || father.coat.value !in table then Err(MissingConfig, log)
    else
      var d := ActOn(s, log, CoatChance(table, father.coat.value, mother.coat));
      Ok(if d.value then mother.coat else father.coat, d.log)
  }

  /**
    `builds.available[fatherBuild].inherit_chance[motherBuild]` when it is
    truthy: present (an explicit `null` is absent) and not zero.
   */
  function BuildChance(cfg: Config, fatherBuild: string, motherBuild: Option<string>): Option<real>
    requires fatherBuild in cfg.buildChances
  {
    var row := cfg.buildChances[fatherBuild];
    if motherBuild.Some? && motherBuild.value in row && row[motherBuild.value] != 0.0
    then Some(row[motherBuild.value]) else None
  }

  /**
    The build lookup and roll, without the equal-builds shortcut: a father's
    build the table lacks throws a TypeError, a falsy chance throws
    "incompatible builds", and otherwise one roll decides.
   */
  function BuildRoll(cfg: Config, father: Profile, mother: Profile, s: Script, log: seq<Call>): (r: Step<Option<string>>)
    ensures !(father.build.Some? && father.build.value in cfg.buildChances) ==> r == Err(MissingConfig, log)
    ensures father.build.Some? && father.build.value in cfg.buildChances ==>
      var chance := BuildChance(cfg, father.build.value, mother.build);
      (chance.None? ==> r == Err(IncompatibleBuilds, log)) &&
      (chance.Some? ==> r.Ok? && r.log == log + [ShouldDoAction(chance)] &&
                        r.value == if s.flag(|log|) then mother.build else father.build)
  {
    if father.build.None? || father.build.value !in cfg.buildChances then Err(MissingConfig, log)
    else
      var chance := BuildChance(cfg, father.build.value, mother.build);
      if chance.None? then Err(IncompatibleBuilds, log)
      else
        var d := ActOn(s, log, chance);
        Ok(if d.value then mother.build else father.build, d.log)
  }

  // ------------------------------------------------------------- rolls

  /** The aspects of a list of (aspect, rate) entries. */
  function Keys(entries: seq<(string, real)>): (k: seq<string>)
    ensures |k| == |entries| && forall i :: 0 <= i < |entries| ==> k[i] == entries[i].0
  {
    seq(|entries|, i requires 0 <= i < |entries| => entries[i].0)
  }

  /**
    One roll per entry, in order, at the entry's rate; the aspects whose
    roll succeeded, in entry order.
   */
  function RollAll(s: Script, log: seq<Call>, entries: seq<(string, real)>): (r: Drawn<seq<string>>)
    ensures |r.log| == |log| + |entries| && r.log[..|log|] == log
    ensures |r.value| <= |entries|
    decreases |entries|
  {
    if |entries| == 0 then Drawn([], log)
    else
      var d := RollAll(s, log, entries[..|entries| - 1]);
      var e := entries[|entries| - 1];
      var a := Act(s, d.log, e.1);
      Drawn(if a.value then d.value + [e.0] else d.value, a.log)
  }

  /** The `i`-th roll is at the `i`-th entry's rate. */
  lemma {:induction false} RollAllCalls(s: Script, log: seq<Call>, entries: seq<(string, real)>)
    ensures var r := RollAll(s, log, entries);
      forall i :: 0 <= i < |entries| ==> r.log[|log| + i] == ShouldDoAction(Some(entries[i].1))
    decreases |entries|
  {
    if |entries| > 0 {
      var init := entries[..|entries| - 1];
      RollAllCalls(s, log, init);
      var d := RollAll(s, log, init);
      var r := RollAll(s, log, entries);
      assert r.log == d.log + [ShouldDoAction(Some(entries[|entries| - 1].1))];
      forall i | 0 <= i < |init| ensures r.log[|log| + i] == ShouldDoAction(Some(entries[i].1)) {
        assert r.log[|log| + i] == d.log[|log| + i];
        assert init[i] == entries[i];
      }
    }
  }

  /** The values kept are the aspects of the entries whose roll (at position `base` plus the entry's) succeeded. */
  ghost predicate KeptOnRoll(entries: seq<(string, real)>, kept: seq<string>, flag: nat -> bool, base: nat)
  {
    forall x :: x in kept <==> exists j :: 0 <= j < |entries| && entries[j].0 == x && flag(base + j)
  }

  /** An aspect is kept exactly when the roll of some entry carrying it succeeded. */
  lemma {:induction false} RollAllMembers(s: Script, log: seq<Call>, entries: seq<(string, real)>)
    ensures KeptOnRoll(entries, RollAll(s, log, entries).value, s.flag, |log|)
    decreases |entries|
  {
    if |entries| > 0 {
      var n := |entries| - 1;
      var init := entries[..n];
      RollAllMembers(s, log, init);
      var d := RollAll(s, log, init);
      var r := RollAll(s, log, entries);
      forall x ensures x in r.value <==> exists i :: 0 <= i < |entries| && entries[i].0 == x && s.flag(|log| + i) {
        if x in d.value {
          var i :| 0 <= i < |init| && init[i].0 == x && s.flag(|log| + i);
          assert entries[i] == init[i];
        }
        if exists i :: 0 <= i < |entries| && entries[i].0 == x && s.flag(|log| + i) {
          var i :| 0 <= i < |entries| && entries[i].0 == x && s.flag(|log| + i);
          if i < n {
            assert init[i] == entries[i];
          }
        }
      }
    }
  }

  /** No aspect occurs in two entries. */
  predicate DistinctAspects(entries: seq<(string, real)>)
  {
    forall i, j :: 0 <= i < j < |entries| ==> entries[i].0 != entries[j].0
  }

  /** With distinct aspects, an entry's aspect is kept exactly when its own roll succeeded. */
  lemma RollAllKept(s: Script, log: seq<Call>, entries: seq<(string, real)>, i: nat)
    requires DistinctAspects(entries) && i < |entries|
    ensures entries[i].0 in RollAll(s, log, entries).value <==> s.flag(|log| + i)
  {
    RollAllMembers(s, log, entries);
    KeptExactly(entries, RollAll(s, log, entries).value, s.flag, |log|, i);
  }

  /**
    When the values kept are the aspects of the entries whose roll
    succeeded, and the aspects are distinct, an entry's aspect is kept
    exactly when its own roll succeeded.
   */
  lemma KeptExactly(entries: seq<(string, real)>, kept: seq<string>, flag: nat -> bool, base: nat, i: nat)
    requires DistinctAspects(entries) && i < |entries|
    requires KeptOnRoll(entries, kept, flag, base)
    ensures entries[i].0 in kept <==> flag(base + i)
  {
    var x := entries[i].0;
    if flag(base + i) {
      assert 0 <= i < |entries| && entries[i].0 == x && flag(base + i);
    }
    if x in kept {
      var j :| 0 <= j < |entries| && entries[j].0 == x && flag(base + j);
      SameAspect(entries, i, j);
    }
  }

  /** With distinct aspects, two entries with the same aspect are the same entry. */
  lemma SameAspect(entries: seq<(string, real)>, i: nat, j: nat)
    requires DistinctAspects(entries) && i < |entries| && j < |entries| && entries[i].0 == entries[j].0
    ensures i == j
  {
  }

  /** With distinct aspects, nothing is kept twice. */
  lemma {:induction false} RollAllNoDup(s: Script, log: seq<Call>, entries: seq<(string, real)>)
    requires DistinctAspects(entries)
    ensures NoDup(RollAll(s, log, entries).value)
    decreases |entries|
  {
    if |entries| > 0 {
      var n := |entries| - 1;
      var init := entries[..n];
      assert DistinctAspects(init) by {
        forall i, j | 0 <= i < j < n ensures init[i].0 != init[j].0 {
          assert init[i] == entries[i] && init[j] == entries[j];
        }
      }
      RollAllNoDup(s, log, init);
      RollAllMembers(s, log, init);
      var d := RollAll(s, log, init);
      forall x | x in d.value ensures x != entries[n].0 {
        var i :| 0 <= i < n && init[i].0 == x && s.flag(|log| + i);
        assert init[i] == entries[i];
      }
      var r := RollAll(s, log, entries);
      if r.value != d.value {
        assert r.value == d.value + [entries[n].0];
        forall i, j | 0 <= i < j < |r.value| ensures r.value[i] != r.value[j] {
          if j == |d.value| {
            assert r.value[i] == d.value[i] && d.value[i] in d.value;
          }
        }
      }
    }
  }

  /** Only the entries' aspects are kept. */
  lemma RollAllKeys(s: Script, log: seq<Call>, entries: seq<(string, real)>)
    ensures forall x :: x in RollAll(s, log, entries).value ==> x in Keys(entries)
  {
    RollAllMembers(s, log, entries);
    forall x | x in RollAll(s, log, entries).value ensures x in Keys(entries) {
      var j :| 0 <= j < |entries| && entries[j].0 == x && s.flag(|log| + j);
      assert Keys(entries)[j] == x;
    }
  }

  /** Every item of `xs`, each with the same rate. */
  function Uniform(xs: seq<string>, chance: real): (e: seq<(string, real)>)
    ensures |e| == |xs| && forall i :: 0 <= i < |xs| ==> e[i] == (xs[i], chance)
  {
    seq(|xs|, i requires 0 <= i < |xs| => (xs[i], chance))
  }

  // ------------------------------------------------------------ aspects

  /**
    The quality rates of an aspect: `qualities[available[aspect].quality]`.
    `None` when the aspect or its quality has no entry, where reading
    `inherit_chance` throws.
   */
  function RatesOf(t: AspectTable, aspect: string): Option<Rates>
  {
    if aspect in t.quality && t.quality[aspect] in t.qualities then Some(t.qualities[t.quality[aspect]]) else None
  }

  /** Every aspect of the list has quality rates. */
  predicate Covered(t: AspectTable, aspects: seq<string>)
  {
    forall a :: a in aspects ==> RatesOf(t, a).Some?
  }

  /**
    The rate an aspect is rolled at: its quality's double rate when both
    parents carry it (and the single rate, which the double replaces only
    when truthy, is not zero); the single rate otherwise.
   */
  function RateOf(t: AspectTable, fatherAspects: seq<string>, motherAspects: seq<string>, aspect: string): real
    requires RatesOf(t, aspect).Some?
  {
    var q := RatesOf(t, aspect).value;
    if aspect in fatherAspects && aspect in motherAspects && q.single != 0.0 then q.double else q.single
  }

  /** The distinct aspects of both parents, the father's first, in first-occurrence order. */
  function Union(fatherAspects: seq<string>, motherAspects: seq<string>): (u: seq<string>)
    ensures NoDup(u)
    ensures forall a :: a in u <==> a in fatherAspects || a in motherAspects
  {
    Dedup(Dedup(fatherAspects) + Dedup(motherAspects))
  }

  /** The aspects of the union, each with the rate it is rolled at. */
  function Entries(t: AspectTable, fatherAspects: seq<string>, motherAspects: seq<string>): (e: seq<(string, real)>)
    requires Covered(t, fatherAspects + motherAspects)
    ensures Keys(e) == Union(fatherAspects, motherAspects)
  {
    var u := Union(fatherAspects, motherAspects);
    assert forall i :: 0 <= i < |u| ==> u[i] in fatherAspects + motherAspects;
    seq(|u|, i requires 0 <= i < |u| => (u[i], RateOf(t, fatherAspects, motherAspects, u[i])))
  }

  /**
    After the first `i` aspects of `fd + md`, an aspect has been seen twice:
    once in the father's list and once in the mother's.
   */
  predicate SeenTwice(fd: seq<string>, md: seq<string>, i: nat, a: string)
    requires i <= |fd| + |md|
  {
    i > |fd| && a in fd && a in md[..i - |fd|]
  }

  /** The entry of an aspect after the first `i` aspects of `fd + md`. */
  function RateAfter(t: AspectTable, fd: seq<string>, md: seq<string>, i: nat, a: string): real
    requires i <= |fd| + |md| && RatesOf(t, a).Some?
  {
    var q := RatesOf(t, a).value;
    if SeenTwice(fd, md, i, a) && q.single != 0.0 then q.double else q.single
  }

  /** One step of the `reduce`: the entry of the aspect at position `i` is updated, and only that one. */
  lemma RateStep(t: AspectTable, fd: seq<string>, md: seq<string>, i: nat, rate: map<string, real>)
    requires NoDup(fd) && NoDup(md) && i < |fd| + |md|
    requires RatesOf(t, (fd + md)[i]).Some?
    requires forall b :: b in rate <==> b in (fd + md)[..i]
    requires forall b :: b in rate ==> RatesOf(t, b).Some? && rate[b] == RateAfter(t, fd, md, i, b)
    ensures var a := (fd + md)[i];
      var q := RatesOf(t, a).value;
      var next := rate[a := if a in rate && rate[a] != 0.0 then q.double else q.single];
      forall b :: b in next ==> RatesOf(t, b).Some? && next[b] == RateAfter(t, fd, md, i + 1, b)
  {
    var a := (fd + md)[i];
    var q := RatesOf(t, a).value;
    if i < |fd| {
      assert a == fd[i];
      assert a !in fd[..i];
      assert (fd + md)[..i] == fd[..i];
      assert a !in rate;
    } else {
      var k := i - |fd|;
      assert a == md[k];
      assert a !in md[..k];
      assert (fd + md)[..i] == fd + md[..k];
      assert md[..k + 1] == md[..k] + [a];
      assert a in rate <==> a in fd;
    }
  }

  /** Setting the entry of the next aspect extends the seen aspects by that one. */
  lemma SeenStep(combined: seq<string>, i: nat, rate: map<string, real>, next: map<string, real>, x: real)
    requires i < |combined| && next == rate[combined[i] := x]
    requires forall b :: b in rate <==> b in combined[..i]
    ensures forall b :: b in next <==> b in combined[..i + 1]
  {
    assert combined[..i + 1] == combined[..i] + [combined[i]];
  }

  /**
    The `reduce` of `#_generateInheritedAspects`: over the de-duplicated
    father's list followed by the de-duplicated mother's, each aspect's
    entry is set to the double rate when the entry is already there and
    truthy, and to the single rate otherwise. The first aspect without
    quality rates throws.
   */
  method AspectRates(t: AspectTable, fatherAspects: seq<string>, motherAspects: seq<string>)
    returns (r: Result<seq<(string, real)>, Error>)
    ensures r.Failure? <==> !Covered(t, fatherAspects + motherAspects)
    ensures r.Failure? ==> r.error == MissingConfig
    ensures r.Success? ==> Covered(t, fatherAspects + motherAspects) && r.value == Entries(t, fatherAspects, motherAspects)
  {
    var fd, md := Dedup(fatherAspects), Dedup(motherAspects);
    var combined := fd + md;
    var rate: map<string, real> := map[];
    var i := 0;
    while i < |combined|
      invariant 0 <= i <= |combined| && RatesSoFar(t, fd, md, i, rate)
    {
      if RatesOf(t, combined[i]).None? {
        Uncovered(t, fatherAspects, motherAspects, combined[i]);
        return Failure(MissingConfig);
      }
      rate := SetRate(t, fd, md, i, rate);
      i := i + 1;
    }
    var entries := ObjectEntries(t, fatherAspects, motherAspects, fd, md, rate);
    r := Success(entries);
  }

  /** `Object.entries` of the reduced rates: the keys enumerate in insertion order. */
  method ObjectEntries(t: AspectTable, fatherAspects: seq<string>, motherAspects: seq<string>,
                       fd: seq<string>, md: seq<string>, rate: map<string, real>)
    returns (entries: seq<(string, real)>)
    requires fd == Dedup(fatherAspects) && md == Dedup(motherAspects)
    requires RatesSoFar(t, fd, md, |fd| + |md|, rate)
    ensures Covered(t, fatherAspects + motherAspects) && entries == Entries(t, fatherAspects, motherAspects)
  {
    RatesCovered(t, fatherAspects, motherAspects, fd, md, rate);
    FinalRates(t, fatherAspects, motherAspects, fd, md, rate);
    var keys := Dedup(fd + md);
    entries := seq(|keys|, j requires 0 <= j < |keys| => (keys[j], rate[keys[j]]));
  }

  /** An aspect of either parent without quality rates makes the `reduce` throw. */
  lemma Uncovered(t: AspectTable, fatherAspects: seq<string>, motherAspects: seq<string>, a: string)
    requires a in Dedup(fatherAspects) + Dedup(motherAspects) && RatesOf(t, a).None?
    ensures !Covered(t, fatherAspects + motherAspects)
  {
    assert a in fatherAspects + motherAspects;
  }

  /** A `reduce` that saw every aspect without a throw found quality rates for each aspect of either parent. */
  lemma RatesCovered(t: AspectTable, fatherAspects: seq<string>, motherAspects: seq<string>,
                     fd: seq<string>, md: seq<string>, rate: map<string, real>)
    requires fd == Dedup(fatherAspects) && md == Dedup(motherAspects)
    requires RatesSoFar(t, fd, md, |fd| + |md|, rate)
    ensures Covered(t, fatherAspects + motherAspects)
    ensures forall b :: b in rate <==> b in fd + md
  {
    assert (fd + md)[..|fd| + |md|] == fd + md;
    forall b | b in fatherAspects + motherAspects ensures RatesOf(t, b).Some? {
      assert b in fd + md;
    }
  }

  /** After the first `i` aspects of `fd + md`, the entries are the aspects seen, each at its rate so far. */
  ghost predicate RatesSoFar(t: AspectTable, fd: seq<string>, md: seq<string>, i: nat, rate: map<string, real>)
    requires i <= |fd| + |md|
  {
    (forall b :: b in rate <==> b in (fd + md)[..i]) &&
    (forall b :: b in rate ==> RatesOf(t, b).Some? && rate[b] == RateAfter(t, fd, md, i, b))
  }

  /** One step of the `reduce`, on an aspect with quality rates: the double rate over a truthy entry, the single one otherwise. */
  method SetRate(t: AspectTable, fd: seq<string>, md: seq<string>, i: nat, rate: map<string, real>)
    returns (next: map<string, real>)
    requires NoDup(fd) && NoDup(md) && i < |fd| + |md| && RatesOf(t, (fd + md)[i]).Some?
    requires RatesSoFar(t, fd, md, i, rate)
    ensures RatesSoFar(t, fd, md, i + 1, next)
  {
    var a := (fd + md)[i];
    var q := RatesOf(t, a).value;
    RateStep(t, fd, md, i, rate);
    var x := if a in rate && rate[a] != 0.0 then q.double else q.single;
    SeenStep(fd + md, i, rate, rate[a := x], x);
    next := rate[a := x];
  }

  /** Once the `reduce` has seen every aspect, the entries are the union with each aspect's rate. */
  lemma FinalRates(t: AspectTable, fatherAspects: seq<string>, motherAspects: seq<string>,
                   fd: seq<string>, md: seq<string>, rate: map<string, real>)
    requires Covered(t, fatherAspects + motherAspects)
    requires fd == Dedup(fatherAspects) && md == Dedup(motherAspects)
    requires forall b :: b in rate <==> b in fd + md
    requires forall b :: b in rate ==>
      RatesOf(t, b).Some? && rate[b] == RateAfter(t, fd, md, |fd| + |md|, b)
    ensures var keys := Dedup(fd + md);
      forall b :: b in keys ==> b in rate
    ensures var keys := Dedup(fd + md);
      seq(|keys|, j requires 0 <= j < |keys| => (keys[j], rate[keys[j]])) == Entries(t, fatherAspects, motherAspects)
  {
    var keys := Dedup(fd + md);
    assert keys == Union(fatherAspects, motherAspects);
    assert md[..|md|] == md;
    var e := Entries(t, fatherAspects, motherAspects);
    var g := seq(|keys|, j requires 0 <= j < |keys| => (keys[j], rate[keys[j]]));
    forall j | 0 <= j < |keys|
      ensures g[j] == e[j]
    {
      assert SeenTwice(fd, md, |fd| + |md|, keys[j]) <==> keys[j] in fatherAspects && keys[j] in motherAspects;
    }
  }

  /** The aspect rule: the rates, then one roll per distinct aspect, keeping the successes once each. */
  function InheritedSpec(t: AspectTable, fatherAspects: seq<string>, motherAspects: seq<string>, s: Script, log: seq<Call>)
    : Step<seq<string>>
  {
    if !Covered(t, fatherAspects + motherAspects) then Err(MissingConfig, log)
    else
      var d := RollAll(s, log, Entries(t, fatherAspects, motherAspects));
      Ok(Dedup(d.value), d.log)
  }

  /** `#_generateInheritedAspects` / `_generateInheritedAspects`. */
  method InheritedAspects(t: AspectTable, fatherAspects: seq<string>, motherAspects: seq<string>, s: Script, log: seq<Call>)
    returns (r: Step<seq<string>>)
    ensures r == InheritedSpec(t, fatherAspects, motherAspects, s, log)
  {
    var rates := AspectRates(t, fatherAspects, motherAspects);
    if rates.Failure? {
      return Err(rates.error, log);
    }
    var entries := rates.value;
    var result: seq<string> := [];
    var trace := log;
    var i := 0;
    while i < |entries|
      invariant 0 <= i <= |entries|
      invariant Drawn(result, trace) == RollAll(s, log, entries[..i])
    {
      result, trace := RollEntry(s, log, entries, i, result, trace);
      i := i + 1;
    }
    assert entries[..i] == entries;
    r := Ok(Dedup(result), trace);
  }

  /** One pass of the roll loop: the `i`-th aspect is kept exactly when its roll succeeds. */
  method RollEntry(s: Script, log: seq<Call>, entries: seq<(string, real)>, i: nat,
                   result: seq<string>, trace: seq<Call>)
    returns (kept: seq<string>, next: seq<Call>)
    requires i < |entries| && Drawn(result, trace) == RollAll(s, log, entries[..i])
    ensures Drawn(kept, next) == RollAll(s, log, entries[..i + 1])
  {
    assert entries[..i + 1][..i] == entries[..i];
    var roll := Act(s, trace, entries[i].1);
    kept := if roll.value then result + [entries[i].0] else result;
    next := roll.log;
  }

  /**
    The rolls of the aspect rule, when every aspect has quality rates: each
    distinct aspect of either parent exactly once, in union order, at its rate.
   */
  lemma AspectRolls(t: AspectTable, fatherAspects: seq<string>, motherAspects: seq<string>, s: Script, log: seq<Call>)
    requires Covered(t, fatherAspects + motherAspects)
    ensures var u := Union(fatherAspects, motherAspects);
      var r := InheritedSpec(t, fatherAspects, motherAspects, s, log);
      r.Ok? && |r.log| == |log| + |u| && r.log[..|log|] == log &&
      forall i :: 0 <= i < |u| ==> r.log[|log| + i] == ShouldDoAction(Some(RateOf(t, fatherAspects, motherAspects, u[i])))
  {
    var e := Entries(t, fatherAspects, motherAspects);
    assert Keys(e) == Union(fatherAspects, motherAspects);
    RollAllCalls(s, log, e);
  }

  /**
    The result of the aspect rule, when every aspect has quality rates: the
    aspects of the union whose roll succeeded, each once.
   */
  lemma AspectResult(t: AspectTable, fatherAspects: seq<string>, motherAspects: seq<string>, s: Script, log: seq<Call>)
    requires Covered(t, fatherAspects + motherAspects)
    ensures var u := Union(fatherAspects, motherAspects);
      var r := InheritedSpec(t, fatherAspects, motherAspects, s, log);
      r.Ok? && NoDup(r.value) &&
      (forall x :: x in r.value ==> x in u) &&
      (forall i :: 0 <= i < |u| ==> (u[i] in r.value <==> s.flag(|log| + i)))
  {
    var e := Entries(t, fatherAspects, motherAspects);
    var u := Union(fatherAspects, motherAspects);
    var d := RollAll(s, log, e);
    assert Keys(e) == u;
    assert DistinctAspects(e) by {
      forall i, j | 0 <= i < j < |e| ensures e[i].0 != e[j].0 {
        assert Keys(e)[i] == e[i].0 && Keys(e)[j] == e[j].0;
      }
    }
    forall i | 0 <= i < |u| ensures u[i] in d.value <==> s.flag(|log| + i) {
      RollAllKept(s, log, e, i);
    }
    RollAllNoDup(s, log, e);
    RollAllKeys(s, log, e);
    DedupOfNoDup(d.value);
  }

  /** The double rate applies exactly to aspects both parents carry (when the single rate is truthy). */
  lemma RateOfFacts(t: AspectTable, fatherAspects: seq<string>, motherAspects: seq<string>, aspect: string)
    requires RatesOf(t, aspect).Some?
    ensures var q := RatesOf(t, aspect).value;
      (aspect in fatherAspects && aspect in motherAspects && q.single != 0.0 ==>
         RateOf(t, fatherAspects, motherAspects, aspect) == q.double) &&
      (!(aspect in fatherAspects && aspect in motherAspects) ==>
         RateOf(t, fatherAspects, motherAspects, aspect) == q.single) &&
      RateOf(t, fatherAspects, motherAspects, aspect) == RateOf(t, Dedup(fatherAspects), Dedup(motherAspects), aspect)
  {
  }

  // ---------------------------------------------------------- mutations

  /** The inherit rolls of the mutation rule: one per entry of the father's list followed by the mother's. */
  function InheritedMutations(cfg: Config, father: Profile, mother: Profile, s: Script, log: seq<Call>): Drawn<seq<string>>
  {
    if father.HasMutations() || mother.HasMutations()
    then RollAll(s, log, Uniform(father.mutations + mother.mutations, cfg.mutationInherit))
    else Drawn([], log)
  }

  /**
    The mutation rule: the inherit rolls (duplicates included), then one
    roll at `base_chance` whose success adds a sample of `pool`; the
    successes once each.
   */
  function MutationsSpec(cfg: Config, father: Profile, mother: Profile, pool: seq<string>, s: Script, log: seq<Call>)
    : Drawn<seq<string>>
  {
    var inherited := InheritedMutations(cfg, father, mother, s, log);
    var spontaneous := Act(s, inherited.log, cfg.mutationBase);
    if spontaneous.value then
      var x := Sample(s, spontaneous.log, pool);
      Drawn(Dedup(inherited.value + [x.value]), x.log)
    else
      Drawn(Dedup(inherited.value), spontaneous.log)
  }

  /**
    The rolls of the mutation rule: one at `inherit_chance` per parent
    entry, then exactly one at `base_chance`, then one sample of `pool` only
    when that roll succeeds.
   */
  lemma MutationRolls(cfg: Config, father: Profile, mother: Profile, pool: seq<string>, s: Script, log: seq<Call>)
    ensures var n := |father.mutations| + |mother.mutations|;
      var r := MutationsSpec(cfg, father, mother, pool, s, log);
      |r.log| == |log| + n + 1 + (if s.flag(|log| + n) then 1 else 0) && r.log[..|log|] == log &&
      (forall i :: |log| <= i < |log| + n ==> r.log[i] == ShouldDoAction(Some(cfg.mutationInherit))) &&
      r.log[|log| + n] == ShouldDoAction(Some(cfg.mutationBase)) &&
      (s.flag(|log| + n) ==> r.log[|log| + n + 1] == RandomSample(pool))
  {
    var inherited := InheritedMutations(cfg, father, mother, s, log);
    var n := |father.mutations| + |mother.mutations|;
    var r := MutationsSpec(cfg, father, mother, pool, s, log);
    assert |inherited.log| == |log| + n;
    var tail := [ShouldDoAction(Some(cfg.mutationBase))] + (if s.flag(|log| + n) then [RandomSample(pool)] else []);
    assert r.log == inherited.log + tail;
    InheritedMutationCalls(cfg, father, mother, s, log);
    forall i | 0 <= i < |inherited.log| ensures r.log[i] == inherited.log[i] {
    }
    assert r.log[..|log|] == inherited.log[..|log|];
  }

  /** Every inherit roll is at `inherit_chance`. */
  lemma InheritedMutationCalls(cfg: Config, father: Profile, mother: Profile, s: Script, log: seq<Call>)
    ensures |InheritedMutations(cfg, father, mother, s, log).log| == |log| + |father.mutations| + |mother.mutations|
    ensures InheritedMutations(cfg, father, mother, s, log).log[..|log|] == log
    ensures forall i :: |log| <= i < |log| + |father.mutations| + |mother.mutations| ==>
      InheritedMutations(cfg, father, mother, s, log).log[i] == ShouldDoAction(Some(cfg.mutationInherit))
  {
    if father.HasMutations() || mother.HasMutations() {
      var e := Uniform(father.mutations + mother.mutations, cfg.mutationInherit);
      RollAllCalls(s, log, e);
      forall i | |log| <= i < |log| + |e|
        ensures RollAll(s, log, e).log[i] == ShouldDoAction(Some(cfg.mutationInherit))
      {
        assert RollAll(s, log, e).log[|log| + (i - |log|)] == ShouldDoAction(Some(e[i - |log|].1));
      }
    }
  }

  /** The inherit rolls keep exactly the entries whose roll succeeded. */
  lemma InheritedMutationsFacts(cfg: Config, father: Profile, mother: Profile, s: Script, log: seq<Call>)
    ensures var all := father.mutations + mother.mutations;
      var d := InheritedMutations(cfg, father, mother, s, log);
      |d.log| == |log| + |all| && |d.value| <= |all| &&
      forall x :: x in d.value <==> exists i :: 0 <= i < |all| && all[i] == x && s.flag(|log| + i)
  {
    var all := father.mutations + mother.mutations;
    var d := InheritedMutations(cfg, father, mother, s, log);
    if father.HasMutations() || mother.HasMutations() {
      var e := Uniform(all, cfg.mutationInherit);
      RollAllMembers(s, log, e);
      forall x ensures x in d.value <==> exists i :: 0 <= i < |all| && all[i] == x && s.flag(|log| + i) {
        if x in d.value {
          var i :| 0 <= i < |e| && e[i].0 == x && s.flag(|log| + i);
          assert all[i] == x;
        }
        if exists i :: 0 <= i < |all| && all[i] == x && s.flag(|log| + i) {
          var i :| 0 <= i < |all| && all[i] == x && s.flag(|log| + i);
          assert e[i].0 == x;
        }
      }
    }
  }

  /**
    The result of the mutation rule: duplicate-free, at most one longer than
    both parent lists together, and holding exactly the entries whose inherit
    roll succeeded and the sample when the base roll succeeded.
   */
  lemma MutationResult(cfg: Config, father: Profile, mother: Profile, pool: seq<string>, s: Script, log: seq<Call>)
    ensures var all := father.mutations + mother.mutations;
      var r := MutationsSpec(cfg, father, mother, pool, s, log);
      NoDup(r.value) && |r.value| <= |all| + 1 &&
      forall x :: x in r.value <==>
        (exists i :: 0 <= i < |all| && all[i] == x && s.flag(|log| + i)) ||
        (s.flag(|log| + |all|) && x == s.item(|log| + |all| + 1))
  {
    InheritedMutationsFacts(cfg, father, mother, s, log);
  }

  /** `_generateMutations` / `generateMutations`, on the sample collection `pool`. */
  method Mutations(cfg: Config, father: Profile, mother: Profile, pool: seq<string>, s: Script, log: seq<Call>)
    returns (r: Drawn<seq<string>>)
    ensures r == MutationsSpec(cfg, father, mother, pool, s, log)
  {
    var result: seq<string> := [];
    var trace := log;
    var all := father.mutations + mother.mutations;
    if father.HasMutations() || mother.HasMutations() {
      var i := 0;
      while i < |all|
        invariant 0 <= i <= |all|
        invariant Drawn(result, trace) == RollAll(s, log, Uniform(all[..i], cfg.mutationInherit))
      {
        assert Uniform(all[..i + 1], cfg.mutationInherit)[..i] == Uniform(all[..i], cfg.mutationInherit);
        var roll := Act(s, trace, cfg.mutationInherit);
        if roll.value {
          result := result + [all[i]];
        }
        trace := roll.log;
        i := i + 1;
      }
      assert all[..i] == all;
    }
    assert Drawn(result, trace) == InheritedMutations(cfg, father, mother, s, log);
    var spontaneous := Act(s, trace, cfg.mutationBase);
    trace := spontaneous.log;
    if spontaneous.value {
      var x := Sample(s, trace, pool);
      result := result + [x.value];
      trace := x.log;
    }
    r := Drawn(Dedup(result), trace);
  }
}
