/** The Omniverse Isaac Gym adapter: the preview 3 one-shot reset, with a five-part step
    result whose `truncated` is always zero and a reset that also returns an empty info dict. */
module Omniverse {
  import opened Common
  import opened Tensors
  import opened Values
  import opened IsaacGym

  /** What `step` returns: observation, reward, terminated, truncated and info. */
  datatype Outcome = Outcome(observation: Tensor, reward: Tensor, terminated: Tensor, truncated: Tensor, info: Info)

  class OmniverseIsaacGymWrapper {
    const env: VecTask<map<string, Tensor>, SimStep<map<string, Tensor>>>
    var resetOnce: bool
    var obsDict: Option<map<string, Tensor>>
    ghost const resetsBefore: nat

    ghost predicate Valid()
      reads this, env
    {
      && env.resetCalls == resetsBefore + (if resetOnce then 0 else 1)
      && (!resetOnce ==> obsDict.Some?)
    }

    constructor (env: VecTask<map<string, Tensor>, SimStep<map<string, Tensor>>>)
      ensures this.env == env && resetOnce && obsDict == None
      ensures resetsBefore == env.resetCalls && Valid()
    {
      this.env := env;
      resetOnce := true;
      obsDict := None;
      resetsBefore := env.resetCalls;
    }

    /** `reset()`: resets the simulator only the first time, then returns the cached "obs"
        entry and an empty info dict. */
    method Reset() returns (r: Result<(Tensor, Info)>)
      requires Valid()
      modifies this, env
      ensures Valid() && !resetOnce
      ensures old(resetOnce) ==> obsDict == Some(env.onReset(old(env.resetCalls)))
      ensures !old(resetOnce) ==> obsDict == old(obsDict) && env.resetCalls == old(env.resetCalls)
      ensures r.Ok? <==> "obs" in obsDict.value
      ensures r.Ok? ==> r.value == (obsDict.value["obs"], map[])
      ensures r.Err? ==> r.error == MissingKey("obs")
      ensures env.stepCalls == old(env.stepCalls)
    {
      if resetOnce {
        var d := env.Reset();
        obsDict := Some(d);
        resetOnce := false;
      }
      var obs :- Entry(obsDict.value, "obs");
      r := Ok((obs, map[]));
    }

    /** `step(actions)`: caches the new observation dict; rewards, terminations and an
        all-zero truncation of the terminations' shape come back as single columns. */
    method Step(actions: Tensor) returns (o: Result<Outcome>)
      requires Valid()
      modifies this, env
      ensures Valid() && resetOnce == old(resetOnce)
      ensures var s := env.onStep(old(env.stepCalls), actions);
        && obsDict == Some(s.obs)
        && (o.Ok? <==> "obs" in s.obs)
        && (o.Ok? ==> o.value == Outcome(s.obs["obs"], Column(s.reward), Column(s.reset),
                                         Column(ZerosLike(s.reset)), s.info))
        && (o.Err? ==> o.error == MissingKey("obs"))
      ensures env.resetCalls == old(env.resetCalls) && env.stepCalls == old(env.stepCalls) + 1
    {
      var s := env.Step(actions);
      obsDict := Some(s.obs);
      var truncated := ZerosLike(s.reset);
      var obs :- Entry(s.obs, "obs");
      o := Ok(Outcome(obs, Column(s.reward), Column(s.reset), Column(truncated), s.info));
    }

    /** After the first reset, a step followed by a reset returns that step's "obs". */
    method StepThenReset(actions: Tensor) returns (stepped: Result<Outcome>, reset: Result<(Tensor, Info)>)
      requires Valid() && !resetOnce
      modifies this, env
      ensures stepped.Ok? ==> reset == Ok((stepped.value.observation, map[]))
      ensures env.resetCalls == old(env.resetCalls)
    {
      stepped := Step(actions);
      reset := Reset();
    }

    /** Two resets in a row return the same result and reset the simulator at most once,
        only if it had never been reset by this adapter. */
    method ResetTwice() returns (first: Result<(Tensor, Info)>, second: Result<(Tensor, Info)>)
      requires Valid()
      modifies this, env
      ensures first == second
      ensures env.resetCalls == old(env.resetCalls) + (if old(resetOnce) then 1 else 0)
      ensures env.resetCalls == resetsBefore + 1
    {
      first := Reset();
      second := Reset();
    }
  }

  /** The truncation column has one zero per termination flag, in the terminations' dtype. */
  lemma TruncatedIsZeroColumn(terminated: Tensor)
    ensures var c := Column(ZerosLike(terminated));
      && HasRows(c, |terminated.data|) && c.shape == [|terminated.data|, 1] && c.dtype == terminated.dtype
      && forall i | 0 <= i < |c.data| :: c.data[i] == Fin(0.0)
  {
  }
}
