/**
  Litter sizes, and the litter store of the older user interface. A litter
  size is looked up in the weight table with one `chanceRoll()`: the first
  weight of the ascending table at least the roll decides the size, which is
  that weight's first position in the table plus one. The litter store then
  fills one slot per offspring by forwarding the parents to the offspring
  store's `generateFromParents`.
 */
module Litters {
  import opened Wrappers
  import opened Oracle
  import opened Seqs
  import opened Configuration
  import opened Thresholds

  /** A weight is its own sort key. */
  function Itself(w: real): real
  {
    w
  }

  /** The size the lookup finds for a roll: the first position (from one) of the weight the lookup picks. */
  function LitterSize(weights: seq<real>, roll: real): Option<nat>
  {
    match Threshold(weights, Itself, roll)
    case None => None
    case Some(w) => Some(IndexOf(weights, w) + 1)
  }

  /**
    The size is the first position (from one) of the least weight at least
    the roll; `undefined` exactly when every weight is below the roll.
   */
  lemma LitterSizeFacts(weights: seq<real>, roll: real)
    ensures var r := LitterSize(weights, roll);
      (r.Some? ==>
        1 <= r.value <= |weights| && roll <= weights[r.value - 1] &&
        weights[r.value - 1] !in weights[..r.value - 1] &&
        forall w :: w in weights && roll <= w ==> weights[r.value - 1] <= w) &&
      (r.None? <==> forall w :: w in weights ==> w < roll)
  {
    ThresholdFacts(weights, Itself, roll);
  }

  /** With distinct weights, a roll equal to the weight at position `k` gives a litter of `k + 1`. */
  lemma LitterSizeExact(weights: seq<real>, k: nat)
    requires NoDup(weights) && k < |weights|
    ensures LitterSize(weights, weights[k]) == Some(k + 1)
  {
    LitterSizeFacts(weights, weights[k]);
    var r := LitterSize(weights, weights[k]);
    assert weights[k] in weights;
    var j := r.value - 1;
    assert weights[j] <= weights[k] <= weights[j];
    SamePosition(weights, j, k);
  }

  /** A litter size as the stores hold it: a number, or not a number (`undefined`, or `NaN` once a number is added to it). */
  datatype Size = Count(n: int) | NotANumber

  /** The lookup's result as a size. */
  function SizeOf(r: Option<nat>): Size
  {
    match r
    case None => NotANumber
    case Some(n) => Count(n)
  }

  /** `litterSize += k`. */
  function Plus(size: Size, k: int): Size
  {
    match size
    case NotANumber => NotANumber
    case Count(n) => Count(n + k)
  }

  /** How often `for (let i = 0; i < litterSize; i++)` runs its body. */
  function Slots(size: Size): nat
  {
    match size
    case NotANumber => 0
    case Count(n) => if n > 0 then n else 0
  }

  /**
    `_rollLitterSize`: one `chanceRoll()`, then a scan of the weights sorted
    ascending for the first at least the roll, converted to a count by its
    position in the unsorted table.
   */
  method RollLitterSize(weights: seq<real>, s: Script, log: seq<Call>) returns (size: Size, trace: seq<Call>)
    ensures size == SizeOf(LitterSize(weights, s.fraction(|log|)))
    ensures trace == log + [ChanceRoll]
  {
    var chanceResult := Roll(s, log);
    trace := chanceResult.log;
    var sortedLitterSizes := SortBy(weights, Itself);
    var i := 0;
    while i < |sortedLitterSizes|
      invariant 0 <= i <= |sortedLitterSizes|
      invariant FirstAtLeast(sortedLitterSizes[i..], Itself, chanceResult.value) ==
                FirstAtLeast(sortedLitterSizes, Itself, chanceResult.value)
    {
      var sizeChance := sortedLitterSizes[i];
      if chanceResult.value <= sizeChance {
        return Count(IndexOf(weights, sizeChance) + 1), trace;
      }
      assert sortedLitterSizes[i..][1..] == sortedLitterSizes[i + 1..];
      i := i + 1;
    }
    return NotANumber, trace;
  }

  /** With distinct weights, a roll equal to the weight at position `k` fills exactly `k + 1` slots. */
  lemma SlotsExact(weights: seq<real>, k: nat)
    requires NoDup(weights) && k < |weights|
    ensures Slots(SizeOf(LitterSize(weights, weights[k]))) == k + 1
  {
    LitterSizeExact(weights, k);
  }

  // -------------------------------------------------------- litter store

  /** A slot of the litter store's litter: the slot callback returns nothing. */
  datatype Slot = Undefined

  /** A forwarded `generateFromParents(father, mother, chanceRoll)` call; the roll forwarded is the store's own. */
  datatype Forward<P> = GenerateFromParents(father: P, mother: P)

  /** The litter store of the older user interface. */
  class LitterStore {
    /** The last litter. */
    var offspring: seq<Slot>

    constructor ()
      ensures offspring == []
    {
      offspring := [];
    }

    /**
      `generateOffspring`: one size roll, then one forwarded call per slot,
      each with the same parents; the litter replaces the previous one
      wholesale and holds one `undefined` per slot.
     */
    method GenerateOffspring<P>(cfg: Config, father: P, mother: P, s: Script, log: seq<Call>)
      returns (calls: seq<Forward<P>>, trace: seq<Call>)
      modifies this
      ensures var n := Slots(SizeOf(LitterSize(cfg.litterWeights, s.fraction(|log|))));
        trace == log + [ChanceRoll] &&
        calls == Repeat(GenerateFromParents(father, mother), n) &&
        offspring == Repeat(Undefined, n)
    {
      var litter;
      litter, calls, trace := GenerateLitter(cfg, father, mother, s, log);
      offspring := litter;
    }
  }

  /** `_generateLitter` of the litter store: the size roll, then the slot loop. */
  method GenerateLitter<P>(cfg: Config, father: P, mother: P, s: Script, log: seq<Call>)
    returns (litter: seq<Slot>, calls: seq<Forward<P>>, trace: seq<Call>)
    ensures var n := Slots(SizeOf(LitterSize(cfg.litterWeights, s.fraction(|log|))));
      trace == log + [ChanceRoll] &&
      calls == Repeat(GenerateFromParents(father, mother), n) &&
      litter == Repeat(Undefined, n)
  {
    var litterSize;
    litterSize, trace := RollLitterSize(cfg.litterWeights, s, log);
    litter, calls := FillSlots(father, mother, Slots(litterSize));
  }

  /** The slot loop of `_generateLitter`: `n` slots, each forwarding the same parents. */
  method FillSlots<P>(father: P, mother: P, n: nat) returns (litter: seq<Slot>, calls: seq<Forward<P>>)
    ensures litter == Repeat(Undefined, n)
    ensures calls == Repeat(GenerateFromParents(father, mother), n)
  {
    litter, calls := [], [];
    var i := 0;
    while i < n
      invariant 0 <= i <= n
      invariant litter == Repeat(Undefined, i)
      invariant calls == Repeat(GenerateFromParents(father, mother), i)
    {
      calls := calls + [GenerateFromParents(father, mother)];
      litter := litter + [Undefined];
      i := i + 1;
    }
  }
}
