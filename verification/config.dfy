/** The run configuration (`hyper_param_`) and the persisted model's accessor
    contract. */
module Config {

  /** Fields the controller reads or writes. `numFeature`, `numField` and
      `numParam` are derived during initialisation. */
  datatype HyperParam = HyperParam(
    isTrain: bool,
    trainSetFile: string,
    testSetFile: string,
    inferenceFile: string,
    modelCheckpointFile: string,
    crossValidation: bool,
    numFolds: int,
    batchSize: int,
    scoreFunc: string,
    lossFunc: string,
    updaterType: string,
    fileFormat: string,
    onDisk: bool,
    numK: nat,
    numFeature: nat,
    numField: nat,
    numParam: nat)

  /** What a model loaded from a checkpoint reports through its accessors
      (`GetScoreFunction`, `GetNumFeature`, `GetNumK`, `GetNumField`). */
  datatype ModelMeta = ModelMeta(scoreFunc: string, numFeature: nat, numK: nat, numField: nat)

  /** Families with a latent factor dimension K: "fm" and "ffm". */
  predicate UsesLatent(scoreFunc: string) {
    scoreFunc == "fm" || scoreFunc == "ffm"
  }

  /** The only field-aware family: "ffm". */
  predicate FieldAware(scoreFunc: string) {
    scoreFunc == "ffm"
  }
}
