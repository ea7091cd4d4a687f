# Rotate command of bosh-bootloader, in Dafny

This project models the `Rotate` lifecycle command of bosh-bootloader (`bbl rotate`):
`commands.NewRotate(stateStore, keyPairManager, terraformManager, boshManager, stateValidator)`
and its two operations, `CheckFastFails` and `Execute`.

`Execute` is a short checkpointed sequence over the persisted environment state:

1. ask the key pair manager to rotate the key pair of the incoming state;
2. write the incoming state, with its `KeyPair` replaced wholesale, to the state store;
3. read the terraform outputs for that rotated state;
4. unless the state says `NoDirector`, redeploy the director from the rotated state and
   write the state the BOSH manager returns, verbatim;
5. return the first error met, unchanged.

The implementation file `commands/rotate.go` is not part of this model; the behaviour
follows the command's Ginkgo suite, `commands/rotate_test.go`.

Layout:

- `outcomes.dfy` (`Outcomes`): `Error`, `Result`, `Outcome` — Go's `error` returns as values.
- `storage.dfy` (`Storage`): `KeyPair`, `Bosh`, `State`, and `WithKeyPair`, the wholesale
  key pair replacement.
- `managers.dfy` (`Managers`): the collaborator interfaces as total functions from request
  to answer; `Outputs` for the terraform outputs.
- `state_store.dfy` (`StateStore`): the durable record and `Set`, whose answers are given
  per write.
- `calls.dfy` (`Calls`): call records with the answer each collaborator gave, `Filter`/`Count`
  over a trace, the checkpoint discipline `Checkpointed`, and `LastWritten`, the last state
  the store accepted.
- `rotate.dfy` (`Rotate`): the command datatype (its constructor is `NewRotate`),
  `CheckFastFails`, and `Execute` with its steps `WriteRotated`, `ReadOutputs` and
  `RedeployDirector`.
- `rotate_paths.dfy` (`RotatePaths`): the five ways a run can end, each as an exact
  result, and the calls of each kind on each.
- `rotate_properties.dfy` (`RotateProperties`): the properties, over all collaborator
  answers.
- `rotate_suite.dfy` (`RotateSuite`): the suite's concrete situations, with collaborators
  that give canned answers.

Every collaborator is a parameter: the command value carries one function per manager,
so a property proved for all commands holds whatever the managers answer. `Execute`
returns a `Run`: the error, the trace of calls made (with the state each call received and
the answer it got back) and the store as left behind.

## Model

| member | source | states |
|---|---|---|
| Storage.WithKeyPair | commands/rotate_test.go:79-86 | the state written first carries the rotated key pair and agrees with the incoming state on the director, the `NoDirector` flag and the IaaS configuration |
| Storage.KeyPairReplacementUnique | commands/rotate_test.go:79-86 | a state equals the key-pair replacement of `s` exactly when it carries the new pair and agrees with `s` everywhere else |
| StateStore.Set | commands/rotate_test.go:144-148 | the n-th write gets the n-th configured answer (success past the end of the list); a failed write's error comes back as given and leaves the previous record; a successful one replaces it |
| Rotate.CheckFastFails | commands/rotate_test.go:37-43 | fails exactly when the validator fails, with the validator's error unchanged; calls no manager and makes no write |
| Rotate.Execute | commands/rotate_test.go:73-120 | the first call is the rotation of the incoming state; every later manager call uses a state that an earlier write in the same run handed to the store and the store accepted; the store's write counter advances once per write in the trace |
| RotateProperties.SucceedsIffNoAnswerFailed | commands/rotate_test.go:73-166 | a run returns no error if and only if no answer recorded in its trace is an error |
| RotateProperties.ReturnsFirstError | commands/rotate_test.go:137-166 | when a run fails, the failing call is the last one made, every call before it succeeded, and its error is the one returned unchanged |
| RotateProperties.RecordsAnswers | commands/rotate_test.go:73-166 | every recorded answer is the collaborator's own: each manager call's answer is what that manager returns for the call's arguments, and the run's n-th write got the store's answer to its n-th write |
| RotateProperties.RecordIsLastCheckpoint | commands/rotate_test.go:144-166 | the record left behind is the last state the store accepted during the run (the earlier record if it accepted none); after a failed rotation it is the earlier record, and after any other error it is the earlier record or the incoming state with the rotated key pair, never a deployed state |
| RotateProperties.RotatesOnceWithIncomingState | commands/rotate_test.go:77-78 | whatever the answers, the key pair manager is called exactly once, with the incoming state unmodified |
| RotateProperties.RotatesKeys | commands/rotate_test.go:73-95 | on success: one rotation of the incoming state, at least one write, the first write is the incoming state with the new key pair, and one outputs read, of that rotated state |
| RotateProperties.RedeploysBosh | commands/rotate_test.go:97-121 | on success with a director: one `CreateDirector` with the rotated state, exactly two writes, the second being the state `CreateDirector` returned, which is the record left behind |
| RotateProperties.SkipsDirectorWhenNoDirector | commands/rotate_test.go:123-135 | with `NoDirector`, `CreateDirector` is never called, at most one write happens (exactly one on success) and no write changes the director descriptor |
| RotateProperties.RotateFailureIsReturned | commands/rotate_test.go:138-142 | a rotation error is returned unchanged, the rotation is the only call and the store is untouched |
| RotateProperties.FirstSetFailureIsReturned | commands/rotate_test.go:144-148 | a first-write error is returned unchanged, the record is as before the run, and no outputs read or deployment follows |
| RotateProperties.GetOutputsFailureIsReturned | commands/rotate_test.go:150-154 | an outputs error is returned unchanged after exactly one write, the record holds the rotated state, and no deployment follows |
| RotateProperties.CreateDirectorFailureIsReturned | commands/rotate_test.go:156-160 | a deployment error is returned unchanged after exactly one write; the record holds the rotated key pair with the old director descriptor |
| RotateProperties.SecondSetFailureIsReturned | commands/rotate_test.go:162-166 | a second-write error is returned unchanged after both writes were attempted; the record still holds the rotated state, not the deployed one |
| RotateProperties.ExecuteIgnoresRecord | commands/rotate_test.go:73-78 | the run works from the state it is handed: its calls and error do not depend on what the store held before |
| RotateSuite.ValidatorErrorScenario | commands/rotate_test.go:37-43 | with a validator failing "state validator failed", the fast-fail check returns that error |
| RotateSuite.HappyPathScenario | commands/rotate_test.go:45-121 | with the suite's key pairs and director state: no error, the rotation, both writes, the outputs read and the deployment receive exactly the states the suite expects |
| RotateSuite.NoDirectorScenario | commands/rotate_test.go:123-135 | the suite's no-director state: no error, no deployment, one write |
| RotateSuite.FailureScenarios | commands/rotate_test.go:137-167 | each of the suite's five failure set-ups returns the configured error message |

## Left out

- `commands/rotate.go` is not part of this model: the order of the first write and the
  outputs read, and the stop after the first error, follow the natural sequential reading;
  the suite asserts neither. `Rotate.Execute`'s `Checkpointed` clause rests on that order.
- With `NoDirector` set, the model still reads the terraform outputs after the first write,
  and an error from that read ends the run with that error. This too follows the sequential
  reading; the suite's no-director case (`commands/rotate_test.go:123-135`) only checks that
  no deployment happens.
- The `[]string` arguments of `CheckFastFails` and `Execute`: the suite always passes an
  empty list and nothing inspects it.
- The validator receives the state in the model; what bbl's validator actually reads is
  not visible and the suite does not inspect it.
- Key generation, terraform invocation, director deployment, file persistence: each is an
  uninterpreted collaborator answer.
- StateStore.Set: answers to writes beyond the configured list are success, as in the
  suite's store double; real disk failures are just another configured answer.
- `acceptance-tests/azure/up_test.go`: end-to-end process runs against a cloud account.
- `acceptance-tests/actors/bosh.go`: a wrapper around a network client whose code is not
  visible.
- `fakes/terraform_manager_apply_error.go`: a test double with no logic of its own.
