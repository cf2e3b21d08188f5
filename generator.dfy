/**
  The generator protocol (`NemeionGenerator`): an offspring is the record of
  seven steps run in a fixed order (gender, fur, coat, build, traits,
  markings, mutations), each consuming the draws the previous ones left.
  The base generator decides the gender with one roll and produces nothing
  for the other six steps.
 */
module Generator {
  import opened Wrappers
  import opened Errors
  import opened Oracle
  import opened Configuration
  import opened Creatures

  /** The seven steps of `makeOffspring`; each runs on the trace the previous step left. */
  datatype Steps = Steps(
    gender: seq<Call> -> Step<Option<Gender>>,
    fur: seq<Call> -> Step<Option<string>>,
    coat: seq<Call> -> Step<Option<string>>,
    build: seq<Call> -> Step<Option<string>>,
    traits: seq<Call> -> Step<seq<string>>,
    markings: seq<Call> -> Step<seq<string>>,
    mutations: seq<Call> -> Step<seq<string>>)

  /**
    `makeOffspring`: the arguments of the record literal are evaluated left
    to right, so the steps run in order, each on the trace the previous left;
    the first step that throws decides the outcome. (A step after a throwing
    one is evaluated here on the error's trace, but `Chain` discards it.)
   */
  function MakeOffspring(st: Steps, log: seq<Call>): Step<Profile>
  {
    var r1 := st.gender(log);
    var r2 := st.fur(r1.log);
    var r3 := st.coat(r2.log);
    var r4 := st.build(r3.log);
    var r5 := st.traits(r4.log);
    var r6 := st.markings(r5.log);
    var r7 := st.mutations(r6.log);
    Chain(r1, r2, r3, r4, r5, r6, r7)
  }

  /** The outcome of seven step results, the first that threw deciding it. */
  function Chain(r1: Step<Option<Gender>>, r2: Step<Option<string>>, r3: Step<Option<string>>, r4: Step<Option<string>>,
                 r5: Step<seq<string>>, r6: Step<seq<string>>, r7: Step<seq<string>>): Step<Profile>
  {
    if r1.Err? then Err(r1.error, r1.log)
    else if r2.Err? then Err(r2.error, r2.log)
    else if r3.Err? then Err(r3.error, r3.log)
    else if r4.Err? then Err(r4.error, r4.log)
    else if r5.Err? then Err(r5.error, r5.log)
    else if r6.Err? then Err(r6.error, r6.log)
    else if r7.Err? then Err(r7.error, r7.log)
    else Ok(Profile(r1.value, r2.value, r3.value, r4.value, r5.value, r6.value, r7.value), r7.log)
  }

  // ------------------------------------------------------- step order

  /** A probe step: it records `RandomInt(k)` and throws exactly when `k` is the step chosen to fail. */
  function Probe<T>(k: int, fail: nat, v: T): seq<Call> -> Step<T>
  {
    l => if k == fail then Err(MissingConfig, l + [RandomInt(k)]) else Ok(v, l + [RandomInt(k)])
  }

  /** Seven probes, numbered 1 to 7 in the order of the record's fields. */
  function Probes(fail: nat): Steps
  {
    Steps(Probe(1, fail, None), Probe(2, fail, None), Probe(3, fail, None), Probe(4, fail, None),
          Probe(5, fail, []), Probe(6, fail, []), Probe(7, fail, []))
  }

  /** The marks of the first `n` probes, in order. */
  function Marks(n: nat): (m: seq<Call>)
    ensures |m| == n && forall i :: 0 <= i < n ==> m[i] == RandomInt(i + 1)
  {
    if n == 0 then [] else Marks(n - 1) + [RandomInt(n)]
  }

  /**
    Every step runs exactly once, in the order gender, fur, coat, build,
    traits, markings, mutations; when step `fail` throws, the steps after it
    do not run and the call throws.
   */
  lemma {:induction false} StepOrder(log: seq<Call>, fail: nat)
    ensures var r := MakeOffspring(Probes(fail), log);
      var ran := if 1 <= fail <= 7 then fail else 7;
      r.log == log + Marks(ran) && (r.Err? <==> 1 <= fail <= 7)
  {
    var m1 := Marks(1);
    var m2 := Marks(2);
    var m3 := Marks(3);
    var m4 := Marks(4);
    var m5 := Marks(5);
    var m6 := Marks(6);
    var m7 := Marks(7);
    assert log + m2 == log + m1 + [RandomInt(2)];
    assert log + m3 == log + m2 + [RandomInt(3)];
    assert log + m4 == log + m3 + [RandomInt(4)];
    assert log + m5 == log + m4 + [RandomInt(5)];
    assert log + m6 == log + m5 + [RandomInt(6)];
    assert log + m7 == log + m6 + [RandomInt(7)];
  }

  // ------------------------------------------------------ base generator

  /** The base generator; `shouldDoAction` is the injected roll. */
  datatype BaseGenerator = BaseGenerator(shouldDoAction: Script)

  /** `_generateGender`: one roll at the female base chance; Female on success, Male otherwise. */
  function GenerateGender(cfg: Config, s: Script, log: seq<Call>): (r: Drawn<Gender>)
    ensures r.log == log + [ShouldDoAction(Some(cfg.femaleChance))]
    ensures r.value == Female <==> s.flag(|log|)
  {
    var d := Act(s, log, cfg.femaleChance);
    Drawn(if d.value then Female else Male, d.log)
  }

  /** The gender step of every generator. */
  function GenderStep(cfg: Config, s: Script): seq<Call> -> Step<Option<Gender>>
  {
    l => var d := GenerateGender(cfg, s, l); Ok(Some(d.value), d.log)
  }

  /** The base steps: the gender roll, then six steps that return nothing and draw nothing. */
  function BaseSteps(cfg: Config, g: BaseGenerator): Steps
  {
    Steps(GenderStep(cfg, g.shouldDoAction), l => Ok(None, l), l => Ok(None, l), l => Ok(None, l),
          l => Ok([], l), l => Ok([], l), l => Ok([], l))
  }

  /**
    The base generator's offspring: the gender its single roll decides and
    nothing else, after exactly that one roll.
   */
  lemma BaseOffspring(cfg: Config, g: BaseGenerator, log: seq<Call>)
    ensures MakeOffspring(BaseSteps(cfg, g), log) ==
      Ok(Profile(Some(if g.shouldDoAction.flag(|log|) then Female else Male), None, None, None, [], [], []),
         log + [ShouldDoAction(Some(cfg.femaleChance))])
  {
    var d := GenerateGender(cfg, g.shouldDoAction, log);
    assert d.value == if g.shouldDoAction.flag(|log|) then Female else Male;
  }
}
