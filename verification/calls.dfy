/** Records of the calls a command makes on its collaborators, in the order made, each
    with the answer the collaborator gave. */
module Calls {
  import opened Outcomes
  import opened Storage
  import opened Managers

  /** The collaborator a call goes to, as a first-order value `Filter` can select on. */
  datatype CallKind = ValidateKind | RotateKind | SetKind | GetOutputsKind | CreateDirectorKind

  /** Each record keeps the state argument the collaborator received and its answer. */
  datatype Call =
    | ValidateCall(state: State, verdict: Outcome)
    | RotateCall(state: State, rotation: Result<KeyPair>)
    | SetCall(state: State, reply: Outcome)
    | GetOutputsCall(state: State, read: Result<Outputs>)
    | CreateDirectorCall(state: State, outputs: Outputs, deployment: Result<State>)
  {
    function Kind(): CallKind
    {
      match this
      case ValidateCall(_, _) => ValidateKind
      case RotateCall(_, _) => RotateKind
      case SetCall(_, _) => SetKind
      case GetOutputsCall(_, _) => GetOutputsKind
      case CreateDirectorCall(_, _, _) => CreateDirectorKind
    }

    /** A call on one of the three managers (not the validator, not the store). */
    predicate IsManagerCall()
    {
      RotateCall? || GetOutputsCall? || CreateDirectorCall?
    }

    /** The collaborator answered with an error. */
    predicate Failed()
    {
      match this
      case ValidateCall(_, verdict) => verdict.Fail?
      case RotateCall(_, rotation) => rotation.Err?
      case SetCall(_, reply) => reply.Fail?
      case GetOutputsCall(_, read) => read.Err?
      case CreateDirectorCall(_, _, deployment) => deployment.Err?
    }

    /** The error a failed call answered with. */
    function Failure(): Error
      requires Failed()
    {
      match this
      case ValidateCall(_, verdict) => verdict.error
      case RotateCall(_, rotation) => rotation.error
      case SetCall(_, reply) => reply.error
      case GetOutputsCall(_, read) => read.error
      case CreateDirectorCall(_, _, deployment) => deployment.error
    }
  }

  /** The calls of kind `k`, in trace order. */
  function Filter(t: seq<Call>, k: CallKind): (r: seq<Call>)
    ensures |r| <= |t|
    ensures forall i :: 0 <= i < |r| ==> r[i].Kind() == k
  {
    if t == [] then []
    else if t[0].Kind() == k then [t[0]] + Filter(t[1..], k)
    else Filter(t[1..], k)
  }

  /** How many times collaborator `k` was called. */
  function Count(t: seq<Call>, k: CallKind): nat
  {
    |Filter(t, k)|
  }

  /** Filtering distributes over concatenation of traces. */
  lemma {:induction false} FilterConcat(a: seq<Call>, b: seq<Call>, k: CallKind)
    ensures Filter(a + b, k) == Filter(a, k) + Filter(b, k)
  {
    if a == [] {
      assert a + b == b;
    } else {
      assert (a + b)[0] == a[0];
      assert (a + b)[1..] == a[1..] + b;
      FilterConcat(a[1..], b, k);
    }
  }

  /** Filtering a one-call trace. */
  lemma FilterSingle(c: Call, k: CallKind)
    ensures Filter([c], k) == if c.Kind() == k then [c] else []
  {
    assert [c][1..] == [];
  }

  /** Appending one call extends the filtered trace by that call when it has kind `k`. */
  lemma FilterAppend(t: seq<Call>, c: Call, k: CallKind)
    ensures Filter(t + [c], k) == if c.Kind() == k then Filter(t, k) + [c] else Filter(t, k)
  {
    FilterConcat(t, [c], k);
    FilterSingle(c, k);
    assert Filter(t, k) + [] == Filter(t, k);
  }

  /** Checkpoint discipline: every manager call after the first is made with a state
      that an earlier write to the store received and accepted. */
  ghost predicate Checkpointed(t: seq<Call>)
  {
    forall i :: 0 < i < |t| && t[i].IsManagerCall() ==> SetCall(t[i].state, Pass) in t[..i]
  }

  /** A call extends a checkpointed trace when, if it goes to a manager, its state was
      already written successfully. */
  lemma CheckpointedAppend(t: seq<Call>, c: Call)
    requires Checkpointed(t)
    requires t != [] && c.IsManagerCall() ==> SetCall(c.state, Pass) in t
    ensures Checkpointed(t + [c])
  {
    var u := t + [c];
    forall i | 0 < i < |u| && u[i].IsManagerCall()
      ensures SetCall(u[i].state, Pass) in u[..i]
    {
      if i < |t| {
        assert u[..i] == t[..i];
      } else {
        assert u[..i] == t;
      }
    }
  }

  /** A manager call that follows a rejected write of its state breaks the discipline. */
  lemma FailedWriteIsNoCheckpoint(s: State, kp: KeyPair, rotated: State, e: Error, read: Result<Outputs>)
    requires s != rotated
    ensures !Checkpointed([RotateCall(s, Ok(kp)), SetCall(rotated, Fail(e)), GetOutputsCall(rotated, read)])
  {
    var t := [RotateCall(s, Ok(kp)), SetCall(rotated, Fail(e)), GetOutputsCall(rotated, read)];
    assert t[2].IsManagerCall();
    assert t[..2] == [RotateCall(s, Ok(kp)), SetCall(rotated, Fail(e))];
  }

  /** No collaborator in `t` answered with an error. */
  predicate NoneFailed(t: seq<Call>)
  {
    forall i :: 0 <= i < |t| ==> !t[i].Failed()
  }

  /** The last call of `t` is the only one that answered with an error, and its error
      is `e`. */
  predicate FailedLastWith(t: seq<Call>, e: Error)
  {
    t != [] && NoneFailed(t[..|t| - 1]) && t[|t| - 1].Failed() && t[|t| - 1].Failure() == e
  }

  /** The state of the last write in `t` that the store accepted, or `prior` when it
      accepted none. */
  function LastWritten(t: seq<Call>, prior: State): State
  {
    if t == [] then prior
    else if t[|t| - 1].SetCall? && t[|t| - 1].reply == Pass then t[|t| - 1].state
    else LastWritten(t[..|t| - 1], prior)
  }

  /** How the answers of a trace change when one call is appended. */
  lemma AnswersAppend(t: seq<Call>, c: Call)
    ensures NoneFailed(t + [c]) <==> NoneFailed(t) && !c.Failed()
    ensures forall e :: FailedLastWith(t + [c], e) <==> NoneFailed(t) && c.Failed() && c.Failure() == e
    ensures forall prior :: LastWritten(t + [c], prior)
                            == if c.SetCall? && c.reply == Pass then c.state else LastWritten(t, prior)
  {
    assert (t + [c])[..|t|] == t;
    assert (t + [c])[|t|] == c;
    if NoneFailed(t) && !c.Failed() {
      forall i | 0 <= i < |t + [c]| ensures !(t + [c])[i].Failed() {
        if i < |t| {
          assert (t + [c])[i] == t[i];
        }
      }
    }
  }
}
