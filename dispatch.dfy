/** The base `Wrapper` properties every adapter inherits, and `wrap_env`, which picks the
    adapter for an environment. */
module Dispatch {
  import opened Common
  import opened Spaces

  /** What the wrapper can see of a backend environment: the attributes it may lack are
      optional. */
  datatype Backend = Backend(numEnvs: Option<nat>, stateSpace: Option<Space>, observationSpace: Space, actionSpace: Space)

  /** `Wrapper.num_envs`: the backend's own count, or 1 when it has none. */
  function NumEnvs(env: Backend): (n: nat)
    ensures env.numEnvs.Some? ==> n == env.numEnvs.value
    ensures env.numEnvs.None? ==> n == 1
  {
    if env.numEnvs.Some? then env.numEnvs.value else 1
  }

  /** `Wrapper.state_space`: the backend's own state space, or its observation space. */
  function StateSpace(env: Backend): (s: Space)
    ensures env.stateSpace.Some? ==> s == env.stateSpace.value
    ensures env.stateSpace.None? ==> s == env.observationSpace
  {
    if env.stateSpace.Some? then env.stateSpace.value else env.observationSpace
  }

  datatype WrapperKind = GymKind | DeepMindKind | Preview2Kind | Preview3Kind

  /** The class facts `wrap_env` inspects: whether the object is a `gym.core.Env` or
      `gym.core.Wrapper`, and `str(base)` for each direct base class. */
  datatype EnvClass = EnvClass(isGymEnvOrWrapper: bool, bases: seq<string>)

  const DeepMindBase := "<class 'dm_env._environment.Environment'>"
  const VecTaskBase := "<class 'rlgpu.tasks.base.vec_task.VecTask'>"

  /** The `wrapper` argument that selects each adapter explicitly. */
  function KindName(k: WrapperKind): (name: string)
    ensures name != "auto"
  {
    match k
    case GymKind => "gym"
    case DeepMindKind => "dm"
    case Preview2Kind => "isaacgym-preview2"
    case Preview3Kind => "isaacgym-preview3"
  }

  /** The adapter automatic selection picks: Gym first, then a DeepMind base class, then an
      Isaac Gym preview 2 `VecTask` base class, and preview 3 for everything else. */
  function AutoKind(env: EnvClass): (k: WrapperKind)
    ensures k == GymKind <==> env.isGymEnvOrWrapper
    ensures k == DeepMindKind <==> !env.isGymEnvOrWrapper && DeepMindBase in env.bases
    ensures k == Preview2Kind <==> !env.isGymEnvOrWrapper && DeepMindBase !in env.bases && VecTaskBase in env.bases
    ensures k == Preview3Kind <==> !env.isGymEnvOrWrapper && DeepMindBase !in env.bases && VecTaskBase !in env.bases
  {
    if env.isGymEnvOrWrapper then GymKind
    else if DeepMindBase in env.bases then DeepMindKind
    else if VecTaskBase in env.bases then Preview2Kind
    else Preview3Kind
  }

  /** `wrap_env(env, wrapper)`, returning which adapter it constructs. */
  function WrapEnv(env: EnvClass, wrapper: string): (r: Result<WrapperKind>)
    ensures wrapper == "auto" ==> r == Ok(AutoKind(env))
    ensures r.Err? <==> wrapper !in {"auto", "gym", "dm", "isaacgym-preview2", "isaacgym-preview3"}
    ensures r.Err? ==> r.error == UnknownWrapper(wrapper)
  {
    if wrapper == "auto" then Ok(AutoKind(env))
    else if wrapper == "gym" then Ok(GymKind)
    else if wrapper == "dm" then Ok(DeepMindKind)
    else if wrapper == "isaacgym-preview2" then Ok(Preview2Kind)
    else if wrapper == "isaacgym-preview3" then Ok(Preview3Kind)
    else Err(UnknownWrapper(wrapper))
  }

  /** An explicit name selects its adapter whatever the environment, and every name other
      than an adapter's selects that adapter only through automatic selection. */
  lemma WrapEnvByName(env: EnvClass, k: WrapperKind, wrapper: string)
    ensures WrapEnv(env, KindName(k)) == Ok(k)
    ensures wrapper != "auto" && WrapEnv(env, wrapper) == Ok(k) ==> wrapper == KindName(k)
  {
  }
}
