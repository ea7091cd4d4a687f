/** The concrete situations the command's behavioural suite sets up, with the
    collaborators answering canned values the way its test doubles do. */
module RotateSuite {
  import opened Outcomes
  import opened Storage
  import opened Managers
  import opened StateStore
  import opened Calls
  import opened Rotate
  import opened RotatePaths
  import opened RotateProperties

  /** A command whose collaborators ignore their arguments and give fixed answers;
      `replies` are the store's answers to successive writes. */
  function Doubles(replies: seq<Outcome>, rotate: Result<KeyPair>, outputs: Result<Outputs>,
                   create: Result<State>, validate: Outcome): Command
  {
    NewRotate(Store(EmptyState, replies, 0), _ => rotate, _ => outputs, (_, _) => create, _ => validate)
  }

  const OldPair := KeyPair("some-name", "some-private-key", "some-public-key")
  const NewPair := KeyPair("some-new-name", "some-new-private-key", "some-new-public-key")
  const Incoming := EmptyState.(keyPair := OldPair)
  const NoOutputs := Outputs(map[])
  const Deployed := State(NewPair, Bosh("some-director-name", map[]), false, map[])

  /** The state the suite expects the first write and the outputs read to receive. */
  const RotatedIncoming := EmptyState.(keyPair := NewPair)

  /** A happy-path command: every collaborator answers without error. */
  function HappyDoubles(): Command
  {
    Doubles([], Ok(NewPair), Ok(NoOutputs), Ok(Deployed), Pass)
  }

  /** The validator's error comes back from the fast-fail check. */
  lemma ValidatorErrorScenario()
    ensures CheckFastFails(Doubles([], Ok(NewPair), Ok(NoOutputs), Ok(Deployed),
                                   Fail(Error("state validator failed"))), EmptyState).err
            == Fail(Error("state validator failed"))
  {
  }

  /** Rotates the keys and redeploys the director. */
  lemma HappyPathScenario()
    ensures var r := Execute(HappyDoubles(), Incoming);
      && r.err == Pass
      && Filter(r.trace, RotateKind) == [RotateCall(Incoming, Ok(NewPair))]
      && Filter(r.trace, SetKind) == [SetCall(RotatedIncoming, Pass), SetCall(Deployed, Pass)]
      && Filter(r.trace, GetOutputsKind) == [GetOutputsCall(RotatedIncoming, Ok(NoOutputs))]
      && Filter(r.trace, CreateDirectorKind) == [CreateDirectorCall(RotatedIncoming, NoOutputs, Ok(Deployed))]
  {
    RedeployPath(HappyDoubles(), Incoming, NewPair, NoOutputs, Deployed);
    RotatesKeys(HappyDoubles(), Incoming, NewPair);
    RedeploysBosh(HappyDoubles(), Incoming, NewPair, NoOutputs, Deployed);
  }

  /** With no director, the director is not deployed and one write happens. */
  lemma NoDirectorScenario()
    ensures var r := Execute(HappyDoubles(), Incoming.(noDirector := true));
      r.err == Pass && Count(r.trace, CreateDirectorKind) == 0 && Count(r.trace, SetKind) == 1
  {
    NoDirectorPath(HappyDoubles(), Incoming.(noDirector := true), NewPair, NoOutputs);
    SkipsDirectorWhenNoDirector(HappyDoubles(), Incoming.(noDirector := true));
  }

  /** Each failing collaborator's error is the one returned. */
  lemma FailureScenarios()
    ensures Execute(Doubles([], Err(Error("failed to rotate")), Ok(NoOutputs), Ok(Deployed), Pass),
                    EmptyState).err == Fail(Error("failed to rotate"))
    ensures Execute(Doubles([Fail(Error("failed to set"))], Ok(NewPair), Ok(NoOutputs), Ok(Deployed), Pass),
                    EmptyState).err == Fail(Error("failed to set"))
    ensures Execute(Doubles([], Ok(NewPair), Err(Error("failed to get outputs")), Ok(Deployed), Pass),
                    EmptyState).err == Fail(Error("failed to get outputs"))
    ensures Execute(Doubles([], Ok(NewPair), Ok(NoOutputs), Err(Error("failed to create")), Pass),
                    EmptyState).err == Fail(Error("failed to create"))
    ensures Execute(Doubles([Pass, Fail(Error("failed to set"))], Ok(NewPair), Ok(NoOutputs), Ok(Deployed), Pass),
                    EmptyState).err == Fail(Error("failed to set"))
  {
  }
}
