/** The capability interfaces the command consumes, as total functions from their
    request to their answer. Each answer is uninterpreted: key generation, terraform
    and director deployment are outside the model. */
module Managers {
  import opened Outcomes
  import opened Storage

  /** Terraform outputs: transient key/value results, never persisted by the command. */
  datatype Outputs = Outputs(values: map<string, string>)

  /** KeyPairManager.Rotate */
  type KeyPairRotator = State -> Result<KeyPair>

  /** TerraformManager.GetOutputs */
  type OutputsReader = State -> Result<Outputs>

  /** BOSHManager.CreateDirector: answers with the full new state. */
  type DirectorCreator = (State, Outputs) -> Result<State>

  /** StateValidator.Validate */
  type Validator = State -> Outcome
}
