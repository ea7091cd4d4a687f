/** The durable record and the writes made to it. */
module StateStore {
  import opened Outcomes
  import opened Storage

  /** `durable` is the record on disk; `replies` are the answers the backing storage
      gives to successive writes (a write past the end of the list succeeds); `sets`
      counts the writes made so far. */
  datatype Store = Store(durable: State, replies: seq<Outcome>, sets: nat)

  /** The answer the next write will receive. */
  function NextReply(store: Store): Outcome
  {
    if store.sets < |store.replies| then store.replies[store.sets] else Pass
  }

  function Load(store: Store): State
  {
    store.durable
  }

  /** StateStore.Set: a successful write fully overwrites the record; a failed one leaves
      the previous record intact and hands its error back unchanged. */
  function Set(store: Store, s: State): (r: (Outcome, Store))
    ensures r.0.Pass? ==> Load(r.1) == s
    ensures r.0.Fail? ==> Load(r.1) == Load(store)
    ensures r.0 == Pass <==> (store.sets >= |store.replies| || store.replies[store.sets] == Pass)
    ensures r.0.Fail? ==> store.sets < |store.replies| && r.0 == store.replies[store.sets]
    ensures r.1.sets == store.sets + 1 && r.1.replies == store.replies
  {
    var reply := NextReply(store);
    var durable := if reply.Pass? then s else store.durable;
    (reply, Store(durable, store.replies, store.sets + 1))
  }
}
