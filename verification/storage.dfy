/** The persisted environment descriptor and its parts. */
module Storage {

  /** Credential identity; replaced wholesale on rotation, never edited field by field. */
  datatype KeyPair = KeyPair(name: string, privateKey: string, publicKey: string)

  /** Director descriptor. `details` holds the remaining director fields, opaque to the command. */
  datatype Bosh = Bosh(directorName: string, details: map<string, string>)

  /** The single durable aggregate. `iaas` stands for the IaaS-specific configuration,
      which the command passes through to the managers untouched. */
  datatype State = State(keyPair: KeyPair, bosh: Bosh, noDirector: bool, iaas: map<string, string>)

  /** Go zero values. */
  const EmptyKeyPair := KeyPair("", "", "")
  const EmptyBosh := Bosh("", map[])
  const EmptyState := State(EmptyKeyPair, EmptyBosh, false, map[])

  /** Every field other than the key pair agrees. */
  predicate SameExceptKeyPair(a: State, b: State)
  {
    a.bosh == b.bosh && a.noDirector == b.noDirector && a.iaas == b.iaas
  }

  /** The state with its key pair replaced by `kp` and nothing else changed. */
  function WithKeyPair(s: State, kp: KeyPair): (r: State)
    ensures r.keyPair == kp
    ensures SameExceptKeyPair(s, r)
  {
    s.(keyPair := kp)
  }

  /** A state that carries `kp` and agrees with `s` elsewhere is exactly `WithKeyPair(s, kp)`:
      the replacement is wholesale and leaves nothing else free. */
  lemma KeyPairReplacementUnique(s: State, kp: KeyPair, t: State)
    ensures (t.keyPair == kp && SameExceptKeyPair(s, t)) <==> t == WithKeyPair(s, kp)
  {
  }
}
