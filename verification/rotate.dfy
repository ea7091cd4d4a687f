/** The Rotate lifecycle command: rotate the key pair, persist, read the terraform
    outputs, and (unless the environment has no director) redeploy the director and
    persist the state it returns. */
module Rotate {
  import opened Outcomes
  import opened Storage
  import opened Managers
  import opened StateStore
  import opened Calls

  /** The command and its collaborators, as wired by `NewRotate`. */
  datatype Command = NewRotate(
    stateStore: Store,
    keyPairManager: KeyPairRotator,
    terraformManager: OutputsReader,
    boshManager: DirectorCreator,
    stateValidator: Validator)

  /** What one invocation returns (`err`), the calls it made (`trace`), and the store
      as it left it (`store`). */
  datatype Run = Run(err: Outcome, trace: seq<Call>, store: Store)

  /** Read-only precondition check: asks the validator and nothing else. */
  function CheckFastFails(cmd: Command, state: State): (r: Run)
    ensures r.err.Fail? <==> cmd.stateValidator(state).Fail?
    ensures r.err.Fail? ==> r.err.error == cmd.stateValidator(state).error
    ensures forall i :: 0 <= i < |r.trace| ==> !r.trace[i].IsManagerCall() && !r.trace[i].SetCall?
    ensures r.store == cmd.stateStore
  {
    var verdict := cmd.stateValidator(state);
    Run(verdict, [ValidateCall(state, verdict)], cmd.stateStore)
  }

  /** The mutating sequence: (1) rotate the key pair of the incoming state; (2) write the
      incoming state with the new pair; (3) read the terraform outputs for it; (4) unless
      there is no director, redeploy it from that state; (5) write the state the
      deployment returned. Each step after the first runs on a state the store has
      accepted, and the first error met is returned unchanged. */
  function Execute(cmd: Command, state: State): (r: Run)
    ensures |r.trace| >= 1 && r.trace[0] == RotateCall(state, cmd.keyPairManager(state))
    ensures Checkpointed(r.trace)
    ensures r.store.sets == cmd.stateStore.sets + Count(r.trace, SetKind)
    ensures r.store.replies == cmd.stateStore.replies
  {
    match cmd.keyPairManager(state)
    case Err(e) =>
      FilterSingle(RotateCall(state, Err(e)), SetKind);
      Run(Fail(e), RotateOnly(state, Err(e)), cmd.stateStore)
    case Ok(kp) =>
      WriteRotated(cmd, state, kp)
  }

  /** Steps 2 and 3: write the incoming state with key pair `kp`, then read the outputs
      for it. */
  function WriteRotated(cmd: Command, state: State, kp: KeyPair): (r: Run)
    ensures |r.trace| >= 1 && r.trace[0] == RotateCall(state, Ok(kp))
    ensures Checkpointed(r.trace)
    ensures r.store.sets == cmd.stateStore.sets + Count(r.trace, SetKind)
    ensures r.store.replies == cmd.stateStore.replies
  {
    var written := Set(cmd.stateStore, WithKeyPair(state, kp));
    if written.0.Fail? then
      Run(written.0, UpToPersist(state, kp, written.0), written.1)
    else
      ReadOutputs(cmd, state, kp, written.1)
  }

  /** Steps 3 to 5, once the rotated state is on record in `store`. */
  function ReadOutputs(cmd: Command, state: State, kp: KeyPair, store: Store): (r: Run)
    requires store.sets == cmd.stateStore.sets + 1 && store.replies == cmd.stateStore.replies
    ensures |r.trace| >= 1 && r.trace[0] == RotateCall(state, Ok(kp))
    ensures Checkpointed(r.trace)
    ensures r.store.sets == cmd.stateStore.sets + Count(r.trace, SetKind)
    ensures r.store.replies == cmd.stateStore.replies
  {
    var rotated := WithKeyPair(state, kp);
    match cmd.terraformManager(rotated)
    case Err(e) =>
      Run(Fail(e), UpToOutputs(state, kp, Err(e)), store)
    case Ok(outputs) =>
      if rotated.noDirector then
        Run(Pass, UpToOutputs(state, kp, Ok(outputs)), store)
      else
        RedeployDirector(cmd, state, kp, outputs, store)
  }

  /** Steps 4 and 5: redeploy the director from the rotated state and write the state it
      returns. */
  function RedeployDirector(cmd: Command, state: State, kp: KeyPair, outputs: Outputs, store: Store): (r: Run)
    requires store.sets == cmd.stateStore.sets + 1 && store.replies == cmd.stateStore.replies
    ensures |r.trace| >= 1 && r.trace[0] == RotateCall(state, Ok(kp))
    ensures Checkpointed(r.trace)
    ensures r.store.sets == cmd.stateStore.sets + Count(r.trace, SetKind)
    ensures r.store.replies == cmd.stateStore.replies
  {
    match cmd.boshManager(WithKeyPair(state, kp), outputs)
    case Err(e) =>
      Run(Fail(e), UpToDirector(state, kp, outputs, Err(e)), store)
    case Ok(deployed) =>
      var written := Set(store, deployed);
      Run(written.0, UpToRedeploy(state, kp, outputs, deployed, written.0), written.1)
  }

  /** The calls of a run, by how far it got: `state` is the incoming state, `kp` the
      rotated key pair, `outputs` the terraform outputs and `deployed` the state the
      director deployment returned; the last argument is the answer of the last call. */
  function RotateOnly(state: State, rotation: Result<KeyPair>): seq<Call>
  {
    [RotateCall(state, rotation)]
  }

  function UpToPersist(state: State, kp: KeyPair, reply: Outcome): seq<Call>
  {
    Step(RotateOnly(state, Ok(kp)), SetCall(WithKeyPair(state, kp), reply))
  }

  function UpToOutputs(state: State, kp: KeyPair, read: Result<Outputs>): seq<Call>
  {
    Step(UpToPersist(state, kp, Pass), GetOutputsCall(WithKeyPair(state, kp), read))
  }

  function UpToDirector(state: State, kp: KeyPair, outputs: Outputs, deployment: Result<State>): seq<Call>
  {
    Step(UpToOutputs(state, kp, Ok(outputs)), CreateDirectorCall(WithKeyPair(state, kp), outputs, deployment))
  }

  function UpToRedeploy(state: State, kp: KeyPair, outputs: Outputs, deployed: State, reply: Outcome): seq<Call>
  {
    Step(UpToDirector(state, kp, outputs, Ok(deployed)), SetCall(deployed, reply))
  }

  /** Records call `c` after trace `t`; a manager call is only recorded once the store
      has accepted its state. */
  function Step(t: seq<Call>, c: Call): (r: seq<Call>)
    requires Checkpointed(t)
    requires t != [] && (c.IsManagerCall() ==> SetCall(c.state, Pass) in t)
    ensures Checkpointed(r)
    ensures r == t + [c]
    ensures Count(r, SetKind) == Count(t, SetKind) + (if c.SetCall? then 1 else 0)
  {
    FilterAppend(t, c, SetKind);
    CheckpointedAppend(t, c);
    t + [c]
  }

  /** The collaborator in `cmd` gives the answer recorded in `c` for `c`'s arguments
      (writes are answered by position, see `Answered`). */
  predicate AnsweredBy(cmd: Command, c: Call)
  {
    match c
    case ValidateCall(s, verdict) => verdict == cmd.stateValidator(s)
    case RotateCall(s, rotation) => rotation == cmd.keyPairManager(s)
    case SetCall(_, _) => true
    case GetOutputsCall(s, read) => read == cmd.terraformManager(s)
    case CreateDirectorCall(s, outputs, deployment) => deployment == cmd.boshManager(s, outputs)
  }

  /** Every call of `t` records its collaborator's true answer. */
  predicate AllAnsweredBy(cmd: Command, t: seq<Call>)
  {
    forall i :: 0 <= i < |t| ==> AnsweredBy(cmd, t[i])
  }

  /** The trace `t` of a run of `cmd` records true answers: each manager call what the
      manager answers, and the n-th write of the run what the store answers to its n-th
      write from where `cmd`'s store stood. */
  ghost predicate Answered(cmd: Command, t: seq<Call>)
  {
    && AllAnsweredBy(cmd, t)
    && forall n :: 0 <= n < Count(t, SetKind) ==>
         Filter(t, SetKind)[n].reply == NextReply(cmd.stateStore.(sets := cmd.stateStore.sets + n))
  }
}
