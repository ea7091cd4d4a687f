/** The five ways a Rotate run can go, each pinned down as an exact result, and what the
    trace of each shape records. The properties are proved from these. */
module RotatePaths {
  import opened Outcomes
  import opened Storage
  import opened Managers
  import opened StateStore
  import opened Calls
  import opened Rotate

  /** The rotation fails. */
  lemma RotateFailsPath(cmd: Command, state: State, e: Error)
    requires cmd.keyPairManager(state) == Err(e)
    ensures Execute(cmd, state) == Run(Fail(e), RotateOnly(state, Err(e)), cmd.stateStore)
  {
  }

  /** The first write fails. */
  lemma FirstWriteFailsPath(cmd: Command, state: State, kp: KeyPair, e: Error)
    requires cmd.keyPairManager(state) == Ok(kp)
    requires NextReply(cmd.stateStore) == Fail(e)
    ensures Execute(cmd, state)
            == Run(Fail(e), UpToPersist(state, kp, Fail(e)), Set(cmd.stateStore, WithKeyPair(state, kp)).1)
  {
    assert Execute(cmd, state) == WriteRotated(cmd, state, kp);
  }

  /** The first write succeeds; the rest of the run is the outputs step. */
  lemma FirstWriteSucceedsPath(cmd: Command, state: State, kp: KeyPair)
    requires cmd.keyPairManager(state) == Ok(kp)
    requires NextReply(cmd.stateStore) == Pass
    ensures Execute(cmd, state) == ReadOutputs(cmd, state, kp, Set(cmd.stateStore, WithKeyPair(state, kp)).1)
  {
    assert Execute(cmd, state) == WriteRotated(cmd, state, kp);
  }

  /** The outputs read fails. */
  lemma OutputsFailPath(cmd: Command, state: State, kp: KeyPair, e: Error)
    requires cmd.keyPairManager(state) == Ok(kp)
    requires NextReply(cmd.stateStore) == Pass
    requires cmd.terraformManager(WithKeyPair(state, kp)) == Err(e)
    ensures Execute(cmd, state)
            == Run(Fail(e), UpToOutputs(state, kp, Err(e)), Set(cmd.stateStore, WithKeyPair(state, kp)).1)
  {
    FirstWriteSucceedsPath(cmd, state, kp);
  }

  /** No director: the run ends after the outputs read. */
  lemma NoDirectorPath(cmd: Command, state: State, kp: KeyPair, outputs: Outputs)
    requires state.noDirector
    requires cmd.keyPairManager(state) == Ok(kp)
    requires NextReply(cmd.stateStore) == Pass
    requires cmd.terraformManager(WithKeyPair(state, kp)) == Ok(outputs)
    ensures Execute(cmd, state)
            == Run(Pass, UpToOutputs(state, kp, Ok(outputs)), Set(cmd.stateStore, WithKeyPair(state, kp)).1)
  {
    FirstWriteSucceedsPath(cmd, state, kp);
  }

  /** The director deployment fails. */
  lemma DirectorFailsPath(cmd: Command, state: State, kp: KeyPair, outputs: Outputs, e: Error)
    requires !state.noDirector
    requires cmd.keyPairManager(state) == Ok(kp)
    requires NextReply(cmd.stateStore) == Pass
    requires cmd.terraformManager(WithKeyPair(state, kp)) == Ok(outputs)
    requires cmd.boshManager(WithKeyPair(state, kp), outputs) == Err(e)
    ensures Execute(cmd, state)
            == Run(Fail(e), UpToDirector(state, kp, outputs, Err(e)), Set(cmd.stateStore, WithKeyPair(state, kp)).1)
  {
    var store := Set(cmd.stateStore, WithKeyPair(state, kp)).1;
    FirstWriteSucceedsPath(cmd, state, kp);
    assert ReadOutputs(cmd, state, kp, store) == RedeployDirector(cmd, state, kp, outputs, store);
  }

  /** The director is redeployed and its state written (the write may fail). */
  lemma RedeployPath(cmd: Command, state: State, kp: KeyPair, outputs: Outputs, deployed: State)
    requires !state.noDirector
    requires cmd.keyPairManager(state) == Ok(kp)
    requires NextReply(cmd.stateStore) == Pass
    requires cmd.terraformManager(WithKeyPair(state, kp)) == Ok(outputs)
    requires cmd.boshManager(WithKeyPair(state, kp), outputs) == Ok(deployed)
    ensures var second := Set(Set(cmd.stateStore, WithKeyPair(state, kp)).1, deployed);
      Execute(cmd, state) == Run(second.0, UpToRedeploy(state, kp, outputs, deployed, second.0), second.1)
  {
    var store := Set(cmd.stateStore, WithKeyPair(state, kp)).1;
    FirstWriteSucceedsPath(cmd, state, kp);
    assert ReadOutputs(cmd, state, kp, store) == RedeployDirector(cmd, state, kp, outputs, store);
  }

  /** The calls of each kind in each shape of run. */
  lemma RotateOnlyFilters(state: State, rotation: Result<KeyPair>)
    ensures var t := RotateOnly(state, rotation);
      && Filter(t, RotateKind) == [RotateCall(state, rotation)] && Filter(t, SetKind) == []
      && Filter(t, GetOutputsKind) == [] && Filter(t, CreateDirectorKind) == []
  {
    FilterSingle(RotateCall(state, rotation), RotateKind);
    FilterSingle(RotateCall(state, rotation), SetKind);
    FilterSingle(RotateCall(state, rotation), GetOutputsKind);
    FilterSingle(RotateCall(state, rotation), CreateDirectorKind);
  }

  /** Appending one call to a trace, for each kind the properties look at. */
  lemma AppendFilters(t: seq<Call>, c: Call)
    ensures forall k :: Filter(t + [c], k) == if c.Kind() == k then Filter(t, k) + [c] else Filter(t, k)
  {
    forall k ensures Filter(t + [c], k) == if c.Kind() == k then Filter(t, k) + [c] else Filter(t, k) {
      FilterAppend(t, c, k);
    }
  }

  lemma UpToPersistFilters(state: State, kp: KeyPair, reply: Outcome)
    ensures var t := UpToPersist(state, kp, reply);
      && Filter(t, RotateKind) == [RotateCall(state, Ok(kp))]
      && Filter(t, SetKind) == [SetCall(WithKeyPair(state, kp), reply)]
      && Filter(t, GetOutputsKind) == [] && Filter(t, CreateDirectorKind) == []
  {
    RotateOnlyFilters(state, Ok(kp));
    AppendFilters(RotateOnly(state, Ok(kp)), SetCall(WithKeyPair(state, kp), reply));
  }

  lemma UpToOutputsFilters(state: State, kp: KeyPair, read: Result<Outputs>)
    ensures var t := UpToOutputs(state, kp, read);
      && Filter(t, RotateKind) == [RotateCall(state, Ok(kp))]
      && Filter(t, SetKind) == [SetCall(WithKeyPair(state, kp), Pass)]
      && Filter(t, GetOutputsKind) == [GetOutputsCall(WithKeyPair(state, kp), read)]
      && Filter(t, CreateDirectorKind) == []
  {
    UpToPersistFilters(state, kp, Pass);
    AppendFilters(UpToPersist(state, kp, Pass), GetOutputsCall(WithKeyPair(state, kp), read));
  }

  lemma UpToDirectorFilters(state: State, kp: KeyPair, outputs: Outputs, deployment: Result<State>)
    ensures var t := UpToDirector(state, kp, outputs, deployment);
      && Filter(t, RotateKind) == [RotateCall(state, Ok(kp))]
      && Filter(t, SetKind) == [SetCall(WithKeyPair(state, kp), Pass)]
      && Filter(t, GetOutputsKind) == [GetOutputsCall(WithKeyPair(state, kp), Ok(outputs))]
      && Filter(t, CreateDirectorKind) == [CreateDirectorCall(WithKeyPair(state, kp), outputs, deployment)]
  {
    UpToOutputsFilters(state, kp, Ok(outputs));
    AppendFilters(UpToOutputs(state, kp, Ok(outputs)), CreateDirectorCall(WithKeyPair(state, kp), outputs, deployment));
  }

  lemma UpToRedeployFilters(state: State, kp: KeyPair, outputs: Outputs, deployed: State, reply: Outcome)
    ensures var t := UpToRedeploy(state, kp, outputs, deployed, reply);
      && Filter(t, RotateKind) == [RotateCall(state, Ok(kp))]
      && Filter(t, SetKind) == [SetCall(WithKeyPair(state, kp), Pass), SetCall(deployed, reply)]
      && Filter(t, GetOutputsKind) == [GetOutputsCall(WithKeyPair(state, kp), Ok(outputs))]
      && Filter(t, CreateDirectorKind) == [CreateDirectorCall(WithKeyPair(state, kp), outputs, Ok(deployed))]
  {
    UpToDirectorFilters(state, kp, outputs, Ok(deployed));
    AppendFilters(UpToDirector(state, kp, outputs, Ok(deployed)), SetCall(deployed, reply));
  }

  /** Which calls of each shape failed, and which state each shape leaves as the last
      accepted write. */
  lemma RotateOnlyAnswers(state: State, rotation: Result<KeyPair>)
    ensures var t := RotateOnly(state, rotation);
      && (NoneFailed(t) <==> rotation.Ok?)
      && (rotation.Err? ==> FailedLastWith(t, rotation.error))
      && forall prior :: LastWritten(t, prior) == prior
  {
    assert [] + [RotateCall(state, rotation)] == RotateOnly(state, rotation);
    AnswersAppend([], RotateCall(state, rotation));
  }

  lemma UpToPersistAnswers(state: State, kp: KeyPair, reply: Outcome)
    ensures var t := UpToPersist(state, kp, reply);
      && (NoneFailed(t) <==> reply.Pass?)
      && (reply.Fail? ==> FailedLastWith(t, reply.error))
      && forall prior :: LastWritten(t, prior) == if reply.Pass? then WithKeyPair(state, kp) else prior
  {
    RotateOnlyAnswers(state, Ok(kp));
    AnswersAppend(RotateOnly(state, Ok(kp)), SetCall(WithKeyPair(state, kp), reply));
  }

  lemma UpToOutputsAnswers(state: State, kp: KeyPair, read: Result<Outputs>)
    ensures var t := UpToOutputs(state, kp, read);
      && (NoneFailed(t) <==> read.Ok?)
      && (read.Err? ==> FailedLastWith(t, read.error))
      && forall prior :: LastWritten(t, prior) == WithKeyPair(state, kp)
  {
    UpToPersistAnswers(state, kp, Pass);
    AnswersAppend(UpToPersist(state, kp, Pass), GetOutputsCall(WithKeyPair(state, kp), read));
  }

  lemma UpToDirectorAnswers(state: State, kp: KeyPair, outputs: Outputs, deployment: Result<State>)
    ensures var t := UpToDirector(state, kp, outputs, deployment);
      && (NoneFailed(t) <==> deployment.Ok?)
      && (deployment.Err? ==> FailedLastWith(t, deployment.error))
      && forall prior :: LastWritten(t, prior) == WithKeyPair(state, kp)
  {
    UpToOutputsAnswers(state, kp, Ok(outputs));
    AnswersAppend(UpToOutputs(state, kp, Ok(outputs)), CreateDirectorCall(WithKeyPair(state, kp), outputs, deployment));
  }

  lemma UpToRedeployAnswers(state: State, kp: KeyPair, outputs: Outputs, deployed: State, reply: Outcome)
    ensures var t := UpToRedeploy(state, kp, outputs, deployed, reply);
      && (NoneFailed(t) <==> reply.Pass?)
      && (reply.Fail? ==> FailedLastWith(t, reply.error))
      && forall prior :: LastWritten(t, prior) == if reply.Pass? then deployed else WithKeyPair(state, kp)
  {
    UpToDirectorAnswers(state, kp, outputs, Ok(deployed));
    AnswersAppend(UpToDirector(state, kp, outputs, Ok(deployed)), SetCall(deployed, reply));
  }

  /** Appending a truly answered call keeps a trace truly answered. */
  lemma AnsweredByAppend(cmd: Command, t: seq<Call>, c: Call)
    requires AllAnsweredBy(cmd, t) && AnsweredBy(cmd, c)
    ensures AllAnsweredBy(cmd, t + [c])
  {
    forall i | 0 <= i < |t + [c]| ensures AnsweredBy(cmd, (t + [c])[i]) {
      if i < |t| {
        assert (t + [c])[i] == t[i];
      }
    }
  }

  /** Each shape, built from the answers `cmd` gives, records them truly. */
  lemma UpToPersistAnsweredBy(cmd: Command, state: State, kp: KeyPair, reply: Outcome)
    requires cmd.keyPairManager(state) == Ok(kp)
    ensures AllAnsweredBy(cmd, RotateOnly(state, Ok(kp)))
    ensures AllAnsweredBy(cmd, UpToPersist(state, kp, reply))
  {
    AnsweredByAppend(cmd, RotateOnly(state, Ok(kp)), SetCall(WithKeyPair(state, kp), reply));
  }

  lemma UpToOutputsAnsweredBy(cmd: Command, state: State, kp: KeyPair, read: Result<Outputs>)
    requires cmd.keyPairManager(state) == Ok(kp)
    requires cmd.terraformManager(WithKeyPair(state, kp)) == read
    ensures AllAnsweredBy(cmd, UpToOutputs(state, kp, read))
  {
    UpToPersistAnsweredBy(cmd, state, kp, Pass);
    AnsweredByAppend(cmd, UpToPersist(state, kp, Pass), GetOutputsCall(WithKeyPair(state, kp), read));
  }

  lemma UpToDirectorAnsweredBy(cmd: Command, state: State, kp: KeyPair, outputs: Outputs, deployment: Result<State>)
    requires cmd.keyPairManager(state) == Ok(kp)
    requires cmd.terraformManager(WithKeyPair(state, kp)) == Ok(outputs)
    requires cmd.boshManager(WithKeyPair(state, kp), outputs) == deployment
    ensures AllAnsweredBy(cmd, UpToDirector(state, kp, outputs, deployment))
  {
    UpToOutputsAnsweredBy(cmd, state, kp, Ok(outputs));
    AnsweredByAppend(cmd, UpToOutputs(state, kp, Ok(outputs)),
                     CreateDirectorCall(WithKeyPair(state, kp), outputs, deployment));
  }

  lemma UpToRedeployAnsweredBy(cmd: Command, state: State, kp: KeyPair, outputs: Outputs, deployed: State,
                               reply: Outcome)
    requires cmd.keyPairManager(state) == Ok(kp)
    requires cmd.terraformManager(WithKeyPair(state, kp)) == Ok(outputs)
    requires cmd.boshManager(WithKeyPair(state, kp), outputs) == Ok(deployed)
    ensures AllAnsweredBy(cmd, UpToRedeploy(state, kp, outputs, deployed, reply))
  {
    UpToDirectorAnsweredBy(cmd, state, kp, outputs, Ok(deployed));
    AnsweredByAppend(cmd, UpToDirector(state, kp, outputs, Ok(deployed)), SetCall(deployed, reply));
  }
}
