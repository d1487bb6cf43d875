/** The ways `Solver::Initialize` can stop before any training or inference
    work begins. */
module Errors {

  /** The five pluggable capability families of the component registry. */
  datatype Kind = ParserKind | ReaderKind | UpdaterKind | ScoreKind | LossKind

  /** The controller's CHECK assertions; each aborts the run. */
  datatype Check =
    | TrainFileEmpty      // the training path is empty
    | FoldsNotPositive    // the fold count is zero or negative
    | InferenceFileEmpty  // the inference path is empty

  datatype InitError =
    | CheckFailed(check: Check)
      /** The registry has no component of `kind` under `key`
          ("Cannot create <kind>: <key>"). */
    | CannotCreate(kind: Kind, key: string)
}
