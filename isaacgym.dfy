/** The Isaac Gym preview 2 and preview 3 adapters. Each runs the simulator's own reset only
    on its first `reset`, caches the observation, and lets `step` overwrite the cache. */
module IsaacGym {
  import opened Common
  import opened Tensors
  import opened Values

  /** The vectorised simulator behind an adapter, as an oracle: the answer to the n-th reset
      and to the n-th step are fixed functions, and the calls are counted. */
  class VecTask<R, S> {
    var resetCalls: nat
    var stepCalls: nat
    const onReset: nat -> R
    const onStep: (nat, Tensor) -> S

    constructor (onReset: nat -> R, onStep: (nat, Tensor) -> S)
      ensures resetCalls == 0 && stepCalls == 0
      ensures this.onReset == onReset && this.onStep == onStep
    {
      resetCalls := 0;
      stepCalls := 0;
      this.onReset := onReset;
      this.onStep := onStep;
    }

    method Reset() returns (r: R)
      modifies this
      ensures r == onReset(old(resetCalls))
      ensures resetCalls == old(resetCalls) + 1 && stepCalls == old(stepCalls)
    {
      r := onReset(resetCalls);
      resetCalls := resetCalls + 1;
    }

    method Step(actions: Tensor) returns (s: S)
      modifies this
      ensures s == onStep(old(stepCalls), actions)
      ensures stepCalls == old(stepCalls) + 1 && resetCalls == old(resetCalls)
    {
      s := onStep(stepCalls, actions);
      stepCalls := stepCalls + 1;
    }
  }

  /** A simulator step: observations (a buffer, or the dict of buffers of preview 3),
      rewards, reset flags and extras. */
  datatype SimStep<O> = SimStep(obs: O, reward: Tensor, reset: Tensor, info: Info)

  /** One call made on an adapter. */
  datatype Call = ResetCall | StepCall(actions: Tensor)

  function StepCount(calls: seq<Call>): nat
  {
    if calls == [] then 0 else (if calls[0].StepCall? then 1 else 0) + StepCount(calls[1..])
  }

  class IsaacGymPreview2Wrapper {
    const env: VecTask<Tensor, SimStep<Tensor>>
    var resetOnce: bool
    var obsBuf: Option<Tensor>
    /** The simulator's reset count when it was wrapped. */
    ghost const resetsBefore: nat

    /** The simulator has been reset through this adapter exactly once after the first
        `reset`, and never before it; once reset, the cache holds an observation. */
    ghost predicate Valid()
      reads this, env
    {
      && env.resetCalls == resetsBefore + (if resetOnce then 0 else 1)
      && (!resetOnce ==> obsBuf.Some?)
    }

    constructor (env: VecTask<Tensor, SimStep<Tensor>>)
      ensures this.env == env && resetOnce && obsBuf == None
      ensures resetsBefore == env.resetCalls && Valid()
    {
      this.env := env;
      resetOnce := true;
      obsBuf := None;
      resetsBefore := env.resetCalls;
    }

    /** `reset()`: resets the simulator only the first time, then returns the cache. */
    method Reset() returns (obs: Tensor)
      requires Valid()
      modifies this, env
      ensures Valid() && !resetOnce && obsBuf == Some(obs)
      ensures old(resetOnce) ==> obs == env.onReset(old(env.resetCalls))
      ensures !old(resetOnce) ==> obs == old(obsBuf).value && env.resetCalls == old(env.resetCalls)
      ensures env.stepCalls == old(env.stepCalls)
    {
      if resetOnce {
        var o := env.Reset();
        obsBuf := Some(o);
        resetOnce := false;
      }
      obs := obsBuf.value;
    }

    /** `step(actions)`: caches the new observation buffer and returns rewards and reset
        flags as single columns. */
    method Step(actions: Tensor) returns (t: Transition)
      requires Valid()
      modifies this, env
      ensures Valid() && resetOnce == old(resetOnce)
      ensures var s := env.onStep(old(env.stepCalls), actions);
        && obsBuf == Some(s.obs)
        && t == Transition(s.obs, Column(s.reward), Column(s.reset), s.info)
      ensures env.resetCalls == old(env.resetCalls) && env.stepCalls == old(env.stepCalls) + 1
    {
      var s := env.Step(actions);
      obsBuf := Some(s.obs);
      t := Transition(s.obs, Column(s.reward), Column(s.reset), s.info);
    }

    /** After the first reset, a step followed by a reset returns that step's observation
        without touching the simulator's reset. */
    method StepThenReset(actions: Tensor) returns (stepped: Transition, obs: Tensor)
      requires Valid() && !resetOnce
      modifies this, env
      ensures obs == stepped.observation && obs == env.onStep(old(env.stepCalls), actions).obs
      ensures env.resetCalls == old(env.resetCalls)
    {
      stepped := Step(actions);
      obs := Reset();
    }

    /** Over any sequence of calls the simulator is reset at most once: exactly once if a
        reset is among the calls and none happened before. */
    method Drive(calls: seq<Call>)
      requires Valid()
      modifies this, env
      ensures Valid()
      ensures env.resetCalls == old(env.resetCalls) + (if old(resetOnce) && ResetCall in calls then 1 else 0)
      ensures env.resetCalls <= resetsBefore + 1
      ensures env.stepCalls == old(env.stepCalls) + StepCount(calls)
    {
      var i := 0;
      while i < |calls|
        invariant 0 <= i <= |calls| && Valid()
        invariant env.resetCalls == old(env.resetCalls) + (if old(resetOnce) && ResetCall in calls[..i] then 1 else 0)
        invariant env.stepCalls + StepCount(calls[i..]) == old(env.stepCalls) + StepCount(calls)
        invariant !old(resetOnce) ==> !resetOnce
        invariant ResetCall in calls[..i] ==> !resetOnce
      {
        assert calls[..i + 1] == calls[..i] + [calls[i]];
        assert calls[i..] == [calls[i]] + calls[i + 1..];
        if calls[i].ResetCall? {
          var _ := Reset();
        } else {
          var _ := Step(calls[i].actions);
        }
        i := i + 1;
      }
      assert calls[..i] == calls;
    }
  }

  class IsaacGymPreview3Wrapper {
    const env: VecTask<map<string, Tensor>, SimStep<map<string, Tensor>>>
    var resetOnce: bool
    var obsDict: Option<map<string, Tensor>>
    ghost const resetsBefore: nat

    ghost predicate Valid()
      reads this, env
    {
      && env.resetCalls == resetsBefore + (if resetOnce then 0 else 1)
      && (!resetOnce ==> obsDict.Some?)
    }

    constructor (env: VecTask<map<string, Tensor>, SimStep<map<string, Tensor>>>)
      ensures this.env == env && resetOnce && obsDict == None
      ensures resetsBefore == env.resetCalls && Valid()
    {
      this.env := env;
      resetOnce := true;
      obsDict := None;
      resetsBefore := env.resetCalls;
    }

    /** `reset()`: resets the simulator only the first time, then returns the cached dict's
        "obs" entry (a KeyError when the simulator gave none). */
    method Reset() returns (obs: Result<Tensor>)
      requires Valid()
      modifies this, env
      ensures Valid() && !resetOnce
      ensures old(resetOnce) ==> obsDict == Some(env.onReset(old(env.resetCalls)))
      ensures !old(resetOnce) ==> obsDict == old(obsDict) && env.resetCalls == old(env.resetCalls)
      ensures obs == Entry(obsDict.value, "obs")
      ensures env.stepCalls == old(env.stepCalls)
    {
      if resetOnce {
        var d := env.Reset();
        obsDict := Some(d);
        resetOnce := false;
      }
      obs := Entry(obsDict.value, "obs");
    }

    /** `step(actions)`: caches the new observation dict, even when it lacks "obs". */
    method Step(actions: Tensor) returns (t: Result<Transition>)
      requires Valid()
      modifies this, env
      ensures Valid() && resetOnce == old(resetOnce)
      ensures var s := env.onStep(old(env.stepCalls), actions);
        && obsDict == Some(s.obs)
        && (t.Ok? <==> "obs" in s.obs)
        && (t.Ok? ==> t.value == Transition(s.obs["obs"], Column(s.reward), Column(s.reset), s.info))
        && (t.Err? ==> t.error == MissingKey("obs"))
      ensures env.resetCalls == old(env.resetCalls) && env.stepCalls == old(env.stepCalls) + 1
    {
      var s := env.Step(actions);
      obsDict := Some(s.obs);
      var obs :- Entry(s.obs, "obs");
      t := Ok(Transition(obs, Column(s.reward), Column(s.reset), s.info));
    }

    /** After the first reset, a step followed by a reset returns that step's "obs". */
    method StepThenReset(actions: Tensor) returns (stepped: Result<Transition>, obs: Result<Tensor>)
      requires Valid() && !resetOnce
      modifies this, env
      ensures stepped.Ok? ==> obs == Ok(stepped.value.observation)
      ensures obs == Entry(env.onStep(old(env.stepCalls), actions).obs, "obs")
      ensures env.resetCalls == old(env.resetCalls)
    {
      stepped := Step(actions);
      obs := Reset();
    }

    /** Two resets in a row return the same result and reset the simulator at most once,
        only if it had never been reset by this adapter. */
    method ResetTwice() returns (first: Result<Tensor>, second: Result<Tensor>)
      requires Valid()
      modifies this, env
      ensures first == second
      ensures env.resetCalls == old(env.resetCalls) + (if old(resetOnce) then 1 else 0)
      ensures env.resetCalls == resetsBefore + 1
    {
      first := Reset();
      second := Reset();
    }
  }

  /** `d[k]` on a dict of tensors. */
  function Entry(d: map<string, Tensor>, k: string): (r: Result<Tensor>)
    ensures r.Ok? <==> k in d
    ensures r.Ok? ==> r.value == d[k]
    ensures r.Err? ==> r.error == MissingKey(k)
  {
    if k in d then Ok(d[k]) else Err(MissingKey(k))
  }
}
