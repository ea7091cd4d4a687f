/** What the Rotate command promises its callers, stated over the calls it makes, the
    answers it received, the error it returns and the record it leaves in the store. */
module RotateProperties {
  import opened Outcomes
  import opened Storage
  import opened Managers
  import opened StateStore
  import opened Calls
  import opened Rotate
  import opened RotatePaths

  /** A run succeeds exactly when no answer recorded in its trace is an error. */
  lemma SucceedsIffNoAnswerFailed(cmd: Command, state: State)
    ensures Execute(cmd, state).err == Pass <==> NoneFailed(Execute(cmd, state).trace)
  {
    ReturnsFirstError(cmd, state);
  }

  /** The error returned is the first error any collaborator answered: a failing run
      stops at the call that failed, after calls that all succeeded. */
  lemma ReturnsFirstError(cmd: Command, state: State)
    ensures var r := Execute(cmd, state);
      && (r.err == Pass ==> NoneFailed(r.trace))
      && (r.err.Fail? ==> FailedLastWith(r.trace, r.err.error))
  {
    match cmd.keyPairManager(state)
    case Err(e) =>
      RotateFailsPath(cmd, state, e);
      RotateOnlyAnswers(state, Err(e));
    case Ok(kp) =>
      var rotated := WithKeyPair(state, kp);
      match NextReply(cmd.stateStore)
      case Fail(e) =>
        FirstWriteFailsPath(cmd, state, kp, e);
        UpToPersistAnswers(state, kp, Fail(e));
      case Pass =>
        match cmd.terraformManager(rotated)
        case Err(e) =>
          OutputsFailPath(cmd, state, kp, e);
          UpToOutputsAnswers(state, kp, Err(e));
        case Ok(outputs) =>
          if rotated.noDirector {
            NoDirectorPath(cmd, state, kp, outputs);
            UpToOutputsAnswers(state, kp, Ok(outputs));
          } else {
            match cmd.boshManager(rotated, outputs)
            case Err(e) =>
              DirectorFailsPath(cmd, state, kp, outputs, e);
              UpToDirectorAnswers(state, kp, outputs, Err(e));
            case Ok(deployed) =>
              RedeployPath(cmd, state, kp, outputs, deployed);
              var second := Set(Set(cmd.stateStore, rotated).1, deployed);
              UpToRedeployAnswers(state, kp, outputs, deployed, second.0);
          }
  }

  /** The trace records the collaborators' true answers: each manager call what that
      manager answers for the call's arguments, and the n-th write of the run what the
      store answers to its n-th write. */
  lemma RecordsAnswers(cmd: Command, state: State)
    ensures Answered(cmd, Execute(cmd, state).trace)
  {
    assert cmd.stateStore.(sets := cmd.stateStore.sets + 0) == cmd.stateStore;
    match cmd.keyPairManager(state)
    case Err(e) =>
      RotateFailsPath(cmd, state, e);
      RotateOnlyFilters(state, Err(e));
    case Ok(kp) =>
      var rotated := WithKeyPair(state, kp);
      match NextReply(cmd.stateStore)
      case Fail(e) =>
        FirstWriteFailsPath(cmd, state, kp, e);
        UpToPersistFilters(state, kp, Fail(e));
        UpToPersistAnsweredBy(cmd, state, kp, Fail(e));
      case Pass =>
        var read := cmd.terraformManager(rotated);
        UpToOutputsAnsweredBy(cmd, state, kp, read);
        match read
        case Err(e) =>
          OutputsFailPath(cmd, state, kp, e);
          UpToOutputsFilters(state, kp, Err(e));
        case Ok(outputs) =>
          if rotated.noDirector {
            NoDirectorPath(cmd, state, kp, outputs);
            UpToOutputsFilters(state, kp, Ok(outputs));
          } else {
            match cmd.boshManager(rotated, outputs)
            case Err(e) =>
              DirectorFailsPath(cmd, state, kp, outputs, e);
              UpToDirectorFilters(state, kp, outputs, Err(e));
              UpToDirectorAnsweredBy(cmd, state, kp, outputs, Err(e));
            case Ok(deployed) =>
              RedeployPath(cmd, state, kp, outputs, deployed);
              var first := Set(cmd.stateStore, rotated).1;
              var second := Set(first, deployed);
              UpToRedeployFilters(state, kp, outputs, deployed, second.0);
              UpToRedeployAnsweredBy(cmd, state, kp, outputs, deployed, second.0);
              assert NextReply(first) == NextReply(cmd.stateStore.(sets := cmd.stateStore.sets + 1));
          }
  }

  /** The record a run leaves is the last state the store accepted during the run, or
      the record from before the run when it accepted none; after an error it is either
      that earlier record or the incoming state with the rotated key pair, never the
      state a deployment returned. */
  lemma RecordIsLastCheckpoint(cmd: Command, state: State)
    ensures var r := Execute(cmd, state);
      && Load(r.store) == LastWritten(r.trace, Load(cmd.stateStore))
      && (cmd.keyPairManager(state).Err? ==> Load(r.store) == Load(cmd.stateStore))
      && (r.err.Fail? && cmd.keyPairManager(state).Ok? ==>
            Load(r.store) in {Load(cmd.stateStore), WithKeyPair(state, cmd.keyPairManager(state).value)})
  {
    match cmd.keyPairManager(state)
    case Err(e) =>
      RotateFailsPath(cmd, state, e);
      RotateOnlyAnswers(state, Err(e));
    case Ok(kp) =>
      var rotated := WithKeyPair(state, kp);
      match NextReply(cmd.stateStore)
      case Fail(e) =>
        FirstWriteFailsPath(cmd, state, kp, e);
        UpToPersistAnswers(state, kp, Fail(e));
      case Pass =>
        match cmd.terraformManager(rotated)
        case Err(e) =>
          OutputsFailPath(cmd, state, kp, e);
          UpToOutputsAnswers(state, kp, Err(e));
        case Ok(outputs) =>
          if rotated.noDirector {
            NoDirectorPath(cmd, state, kp, outputs);
            UpToOutputsAnswers(state, kp, Ok(outputs));
          } else {
            match cmd.boshManager(rotated, outputs)
            case Err(e) =>
              DirectorFailsPath(cmd, state, kp, outputs, e);
              UpToDirectorAnswers(state, kp, outputs, Err(e));
            case Ok(deployed) =>
              RedeployPath(cmd, state, kp, outputs, deployed);
              var second := Set(Set(cmd.stateStore, rotated).1, deployed);
              UpToRedeployAnswers(state, kp, outputs, deployed, second.0);
          }
  }

  /** The key pair manager is asked exactly once, with the incoming state as given. */
  lemma RotatesOnceWithIncomingState(cmd: Command, state: State)
    ensures Filter(Execute(cmd, state).trace, RotateKind) == [RotateCall(state, cmd.keyPairManager(state))]
  {
    match cmd.keyPairManager(state)
    case Err(e) =>
      RotateFailsPath(cmd, state, e);
      RotateOnlyFilters(state, Err(e));
    case Ok(kp) =>
      var rotated := WithKeyPair(state, kp);
      match NextReply(cmd.stateStore)
      case Fail(e) =>
        FirstWriteFailsPath(cmd, state, kp, e);
        UpToPersistFilters(state, kp, Fail(e));
      case Pass =>
        match cmd.terraformManager(rotated)
        case Err(e) =>
          OutputsFailPath(cmd, state, kp, e);
          UpToOutputsFilters(state, kp, Err(e));
        case Ok(outputs) =>
          if rotated.noDirector {
            NoDirectorPath(cmd, state, kp, outputs);
            UpToOutputsFilters(state, kp, Ok(outputs));
          } else {
            match cmd.boshManager(rotated, outputs)
            case Err(e) =>
              DirectorFailsPath(cmd, state, kp, outputs, e);
              UpToDirectorFilters(state, kp, outputs, Err(e));
            case Ok(deployed) =>
              RedeployPath(cmd, state, kp, outputs, deployed);
              var second := Set(Set(cmd.stateStore, rotated).1, deployed);
              UpToRedeployFilters(state, kp, outputs, deployed, second.0);
          }
  }

  /** A successful run rotates once from the incoming state, first writes the incoming
      state with only its key pair replaced, and reads the terraform outputs once, for
      that rotated state. */
  lemma RotatesKeys(cmd: Command, state: State, kp: KeyPair)
    requires cmd.keyPairManager(state) == Ok(kp)
    ensures var t := Execute(cmd, state).trace;
      Execute(cmd, state).err == Pass ==>
        && Filter(t, RotateKind) == [RotateCall(state, Ok(kp))]
        && Count(t, SetKind) >= 1
        && Filter(t, SetKind)[0] == SetCall(WithKeyPair(state, kp), Pass)
        && Filter(t, GetOutputsKind) == [GetOutputsCall(WithKeyPair(state, kp), cmd.terraformManager(WithKeyPair(state, kp)))]
  {
    var rotated := WithKeyPair(state, kp);
    match NextReply(cmd.stateStore)
    case Fail(e) =>
      FirstWriteFailsPath(cmd, state, kp, e);
    case Pass =>
      match cmd.terraformManager(rotated)
      case Err(e) =>
        OutputsFailPath(cmd, state, kp, e);
      case Ok(outputs) =>
        if rotated.noDirector {
          NoDirectorPath(cmd, state, kp, outputs);
          UpToOutputsFilters(state, kp, Ok(outputs));
        } else {
          match cmd.boshManager(rotated, outputs)
          case Err(e) =>
            DirectorFailsPath(cmd, state, kp, outputs, e);
          case Ok(deployed) =>
            RedeployPath(cmd, state, kp, outputs, deployed);
            var second := Set(Set(cmd.stateStore, rotated).1, deployed);
            UpToRedeployFilters(state, kp, outputs, deployed, second.0);
        }
  }

  /** A successful run with a director deploys it once, from the rotated state, and its
      second write stores exactly the state the deployment returned, which is the record
      left behind. */
  lemma RedeploysBosh(cmd: Command, state: State, kp: KeyPair, outputs: Outputs, deployed: State)
    requires !state.noDirector
    requires cmd.keyPairManager(state) == Ok(kp)
    requires cmd.terraformManager(WithKeyPair(state, kp)) == Ok(outputs)
    requires cmd.boshManager(WithKeyPair(state, kp), outputs) == Ok(deployed)
    ensures var r := Execute(cmd, state);
      r.err == Pass ==>
        && Filter(r.trace, CreateDirectorKind) == [CreateDirectorCall(WithKeyPair(state, kp), outputs, Ok(deployed))]
        && Filter(r.trace, SetKind) == [SetCall(WithKeyPair(state, kp), Pass), SetCall(deployed, Pass)]
        && Load(r.store) == deployed
  {
    match NextReply(cmd.stateStore)
    case Fail(e) =>
      FirstWriteFailsPath(cmd, state, kp, e);
    case Pass =>
      RedeployPath(cmd, state, kp, outputs, deployed);
      var second := Set(Set(cmd.stateStore, WithKeyPair(state, kp)).1, deployed);
      UpToRedeployFilters(state, kp, outputs, deployed, second.0);
  }

  /** With no director, the BOSH manager is never called, at most one write happens
      (exactly one on success), and nothing written differs from the incoming director
      descriptor. */
  lemma SkipsDirectorWhenNoDirector(cmd: Command, state: State)
    requires state.noDirector
    ensures var t := Execute(cmd, state).trace;
      && Count(t, CreateDirectorKind) == 0
      && Count(t, SetKind) <= 1
      && (Execute(cmd, state).err == Pass ==> Count(t, SetKind) == 1)
      && forall i :: 0 <= i < Count(t, SetKind) ==> Filter(t, SetKind)[i].state.bosh == state.bosh
  {
    match cmd.keyPairManager(state)
    case Err(e) =>
      RotateFailsPath(cmd, state, e);
      RotateOnlyFilters(state, Err(e));
    case Ok(kp) =>
      var rotated := WithKeyPair(state, kp);
      match NextReply(cmd.stateStore)
      case Fail(e) =>
        FirstWriteFailsPath(cmd, state, kp, e);
        UpToPersistFilters(state, kp, Fail(e));
      case Pass =>
        match cmd.terraformManager(rotated)
        case Err(e) =>
          OutputsFailPath(cmd, state, kp, e);
          UpToOutputsFilters(state, kp, Err(e));
        case Ok(outputs) =>
          NoDirectorPath(cmd, state, kp, outputs);
          UpToOutputsFilters(state, kp, Ok(outputs));
  }

  /** A failed rotation is returned unchanged, before any write or any other call. */
  lemma RotateFailureIsReturned(cmd: Command, state: State, e: Error)
    requires cmd.keyPairManager(state) == Err(e)
    ensures var r := Execute(cmd, state);
      && r.err == Fail(e)
      && r.trace == [RotateCall(state, Err(e))]
      && r.store == cmd.stateStore
  {
    RotateFailsPath(cmd, state, e);
  }

  /** A failed first write is returned unchanged; the record still holds what it held
      before the run, and no terraform or director call follows. */
  lemma FirstSetFailureIsReturned(cmd: Command, state: State, kp: KeyPair, e: Error)
    requires cmd.keyPairManager(state) == Ok(kp)
    requires NextReply(cmd.stateStore) == Fail(e)
    ensures var r := Execute(cmd, state);
      && r.err == Fail(e)
      && Load(r.store) == Load(cmd.stateStore)
      && Filter(r.trace, SetKind) == [SetCall(WithKeyPair(state, kp), Fail(e))]
      && Count(r.trace, GetOutputsKind) == 0
      && Count(r.trace, CreateDirectorKind) == 0
  {
    FirstWriteFailsPath(cmd, state, kp, e);
    UpToPersistFilters(state, kp, Fail(e));
  }

  /** A failed outputs read is returned unchanged; the record holds the rotated state and
      the director is not touched. */
  lemma GetOutputsFailureIsReturned(cmd: Command, state: State, kp: KeyPair, e: Error)
    requires cmd.keyPairManager(state) == Ok(kp)
    requires NextReply(cmd.stateStore) == Pass
    requires cmd.terraformManager(WithKeyPair(state, kp)) == Err(e)
    ensures var r := Execute(cmd, state);
      && r.err == Fail(e)
      && Load(r.store) == WithKeyPair(state, kp)
      && Count(r.trace, SetKind) == 1
      && Count(r.trace, CreateDirectorKind) == 0
  {
    OutputsFailPath(cmd, state, kp, e);
    UpToOutputsFilters(state, kp, Err(e));
  }

  /** A failed director deployment is returned unchanged; the record holds the rotated
      key pair with the old director descriptor, and no second write happens. */
  lemma CreateDirectorFailureIsReturned(cmd: Command, state: State, kp: KeyPair, outputs: Outputs, e: Error)
    requires !state.noDirector
    requires cmd.keyPairManager(state) == Ok(kp)
    requires NextReply(cmd.stateStore) == Pass
    requires cmd.terraformManager(WithKeyPair(state, kp)) == Ok(outputs)
    requires cmd.boshManager(WithKeyPair(state, kp), outputs) == Err(e)
    ensures var r := Execute(cmd, state);
      && r.err == Fail(e)
      && Load(r.store) == WithKeyPair(state, kp)
      && Load(r.store).bosh == state.bosh
      && Count(r.trace, SetKind) == 1
  {
    DirectorFailsPath(cmd, state, kp, outputs, e);
    UpToDirectorFilters(state, kp, outputs, Err(e));
  }

  /** A failed second write is returned unchanged, after the director was redeployed:
      the record still holds the rotated state, not the one the deployment returned. */
  lemma SecondSetFailureIsReturned(cmd: Command, state: State, kp: KeyPair, outputs: Outputs,
                                   deployed: State, e: Error)
    requires !state.noDirector
    requires cmd.keyPairManager(state) == Ok(kp)
    requires NextReply(cmd.stateStore) == Pass
    requires cmd.terraformManager(WithKeyPair(state, kp)) == Ok(outputs)
    requires cmd.boshManager(WithKeyPair(state, kp), outputs) == Ok(deployed)
    requires NextReply(cmd.stateStore.(sets := cmd.stateStore.sets + 1)) == Fail(e)
    ensures var r := Execute(cmd, state);
      && r.err == Fail(e)
      && Load(r.store) == WithKeyPair(state, kp)
      && Filter(r.trace, SetKind) == [SetCall(WithKeyPair(state, kp), Pass), SetCall(deployed, Fail(e))]
      && Count(r.trace, CreateDirectorKind) == 1
  {
    var rotated := WithKeyPair(state, kp);
    RedeployPath(cmd, state, kp, outputs, deployed);
    UpToRedeployFilters(state, kp, outputs, deployed, Fail(e));
    assert Set(cmd.stateStore, rotated).1 == cmd.stateStore.(sets := cmd.stateStore.sets + 1).(durable := rotated);
  }

  /** The run never reads the record it writes to: the calls it makes and the error it
      returns do not depend on what the store held beforehand. */
  lemma ExecuteIgnoresRecord(cmd: Command, state: State, record: State)
    ensures var r := Execute(cmd, state);
      var r' := Execute(cmd.(stateStore := cmd.stateStore.(durable := record)), state);
      r.err == r'.err && r.trace == r'.trace && r.store.sets == r'.store.sets
  {
    var cmd' := cmd.(stateStore := cmd.stateStore.(durable := record));
    assert NextReply(cmd'.stateStore) == NextReply(cmd.stateStore);
    match cmd.keyPairManager(state)
    case Err(e) =>
      RotateFailsPath(cmd, state, e);
      RotateFailsPath(cmd', state, e);
    case Ok(kp) =>
      var rotated := WithKeyPair(state, kp);
      match NextReply(cmd.stateStore)
      case Fail(e) =>
        FirstWriteFailsPath(cmd, state, kp, e);
        FirstWriteFailsPath(cmd', state, kp, e);
      case Pass =>
        match cmd.terraformManager(rotated)
        case Err(e) =>
          OutputsFailPath(cmd, state, kp, e);
          OutputsFailPath(cmd', state, kp, e);
        case Ok(outputs) =>
          if rotated.noDirector {
            NoDirectorPath(cmd, state, kp, outputs);
            NoDirectorPath(cmd', state, kp, outputs);
          } else {
            match cmd.boshManager(rotated, outputs)
            case Err(e) =>
              DirectorFailsPath(cmd, state, kp, outputs, e);
              DirectorFailsPath(cmd', state, kp, outputs, e);
            case Ok(deployed) =>
              RedeployPath(cmd, state, kp, outputs, deployed);
              RedeployPath(cmd', state, kp, outputs, deployed);
              assert Set(cmd.stateStore, rotated).1 == Set(cmd'.stateStore, rotated).1;
          }
  }
}
