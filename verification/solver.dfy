/** The lifecycle controller: `Solver::Initialize` assembles the pipeline for
    training or for inference; `StartWork` and `Finalize` dispatch on the
    mode. */
module Solver {
  import opened Wrappers
  import opened Errors
  import opened Config
  import opened Data
  import opened MaxScan
  import opened DimensionScan
  import opened Sizing
  import opened FileList
  import opened Registry

  /** What a component's `Initialize` received. */
  datatype InitArg = WithConfig(config: HyperParam) | WithScore(score: Component)

  datatype Initialized = Initialized(component: Component, arg: InitArg)

  /** A reader component bound to its file, the batch size and the shared
      parser, with the batches it will yield and its cursor. */
  datatype ReaderSlot = ReaderSlot(component: Component, file: string, batchSize: int, parser: Component, stream: Reader)

  /** The model: freshly sized for training (zero or Gaussian start) or
      loaded from a checkpoint for inference. */
  datatype ModelState = Fresh(numParam: nat, gaussian: bool) | Loaded(meta: ModelMeta)

  /** The assembled pipeline. `built` lists the registry constructions in
      the order they happen. */
  datatype Pipeline = Pipeline(
    config: HyperParam,
    parser: Component,
    readers: seq<ReaderSlot>,
    model: ModelState,
    updater: Option<Initialized>,
    score: Initialized,
    loss: Initialized,
    built: seq<Kind>)

  /** The dataset files as the readers see them: the batches each one yields. */
  type Disk = string -> seq<Pull>

  /** Checkpoint loading: the accessor values of the model stored in a file. */
  type Checkpoints = string -> ModelMeta

  // ---------------------------------------------------------------------
  // Inference-mode reconciliation
  // ---------------------------------------------------------------------

  /** The configuration agrees with a model on every field the model's
      family defines. */
  predicate AgreesWith(c: HyperParam, meta: ModelMeta) {
    && c.scoreFunc == meta.scoreFunc
    && c.numFeature == meta.numFeature
    && (UsesLatent(meta.scoreFunc) ==> c.numK == meta.numK)
    && (FieldAware(meta.scoreFunc) ==> c.numField == meta.numField)
  }

  /** Overwrite the configuration from the loaded model. K and the field
      count are copied only when the (already overwritten) family uses them. */
  function Reconcile(cfg: HyperParam, meta: ModelMeta): (c: HyperParam)
    ensures c.scoreFunc == meta.scoreFunc && c.numFeature == meta.numFeature
    ensures c.numK == (if UsesLatent(meta.scoreFunc) then meta.numK else cfg.numK)
    ensures c.numField == (if FieldAware(meta.scoreFunc) then meta.numField else cfg.numField)
    ensures c.(scoreFunc := cfg.scoreFunc, numFeature := cfg.numFeature, numK := cfg.numK, numField := cfg.numField) == cfg
  {
    var c1 := cfg.(scoreFunc := meta.scoreFunc, numFeature := meta.numFeature);
    var c2 := if UsesLatent(c1.scoreFunc) then c1.(numK := meta.numK) else c1;
    if FieldAware(c2.scoreFunc) then c2.(numField := meta.numField) else c2
  }

  /** Reconciliation makes the configuration agree with the model, leaves an
      agreeing configuration alone, and is therefore idempotent. */
  lemma ReconcileAgrees(cfg: HyperParam, meta: ModelMeta)
    ensures AgreesWith(Reconcile(cfg, meta), meta)
    ensures AgreesWith(cfg, meta) ==> Reconcile(cfg, meta) == cfg
    ensures Reconcile(Reconcile(cfg, meta), meta) == Reconcile(cfg, meta)
  {
  }

  // ---------------------------------------------------------------------
  // Training path
  // ---------------------------------------------------------------------

  /** A reader opened on each file, at its first batch. */
  function OpenAll(files: seq<string>, disk: Disk): (rs: seq<Reader>)
    ensures |rs| == |files|
    ensures forall i :: 0 <= i < |files| ==> rs[i] == Open(disk(files[i]))
  {
    seq(|files|, i requires 0 <= i < |files| => Open(disk(files[i])))
  }

  /** Bind each reader to its file, the batch size and the shared parser. */
  function Bind(files: seq<string>, rs: seq<Reader>, comp: Component, batchSize: int, parser: Component): (slots: seq<ReaderSlot>)
    requires |rs| == |files|
    ensures |slots| == |files|
    ensures forall i :: 0 <= i < |files| ==> slots[i] == ReaderSlot(comp, files[i], batchSize, parser, rs[i])
  {
    seq(|files|, i requires 0 <= i < |files| => ReaderSlot(comp, files[i], batchSize, parser, rs[i]))
  }

  /** Write the pre-scan's maxima and the parameter count into the
      configuration. */
  function Sized(cfg: HyperParam, m: Maxima): (c: HyperParam)
    ensures c.numParam >= c.numFeature + 1
    ensures c.(numFeature := cfg.numFeature, numField := cfg.numField, numParam := cfg.numParam) == cfg
  {
    cfg.(numFeature := m.feat, numField := m.field,
         numParam := NumParam(cfg.scoreFunc, m.feat, m.field, cfg.numK))
  }

  function Repeat(k: Kind, n: nat): (ks: seq<Kind>)
    ensures |ks| == n && forall i :: 0 <= i < n ==> ks[i] == k
  {
    seq(n, _ => k)
  }

  /** Whether the registry holds the key the configuration selects for a
      family. */
  predicate KeyRegistered(cfg: HyperParam, reg: Registry, k: Kind) {
    KeyFor(cfg, k) in Registered(reg, k)
  }

  /** The first family in `order` whose key is not registered, if any: the
      NULL that stops initialisation when several lookups fail. */
  function FirstMissing(cfg: HyperParam, reg: Registry, order: seq<Kind>): (m: Option<Kind>)
    ensures m.None? <==> forall i :: 0 <= i < |order| ==> KeyRegistered(cfg, reg, order[i])
    ensures m.Some? ==>
              exists i :: 0 <= i < |order| && order[i] == m.value && !KeyRegistered(cfg, reg, order[i])
                          && forall j :: 0 <= j < i ==> KeyRegistered(cfg, reg, order[j])
  {
    if |order| == 0 then None
    else if !KeyRegistered(cfg, reg, order[0]) then Some(order[0])
    else
      FirstMissing(cfg, reg, order[1..])
  }

  /** A registered prefix of the order does not change which family is
      missing first. */
  lemma FirstMissingAfter(cfg: HyperParam, reg: Registry, order: seq<Kind>, n: nat)
    requires n <= |order|
    requires forall j :: 0 <= j < n ==> KeyRegistered(cfg, reg, order[j])
    ensures FirstMissing(cfg, reg, order) == FirstMissing(cfg, reg, order[n..])
  {
  }

  /** The order in which the training path first uses what the registry
      returned: each reader is called as soon as it is created, while the
      parser is only handed to it, and the updater, score and loss follow. */
  const TrainUseOrder: seq<Kind> := [ReaderKind, ParserKind, UpdaterKind, ScoreKind, LossKind]

  /** The same for inference, which has no updater. */
  const InferenceUseOrder: seq<Kind> := [ReaderKind, ParserKind, ScoreKind, LossKind]

  /** All five families are registered under the keys the configuration
      selects. */
  predicate TrainKeysRegistered(cfg: HyperParam, reg: Registry) {
    && KeyRegistered(cfg, reg, ParserKind)
    && KeyRegistered(cfg, reg, ReaderKind)
    && KeyRegistered(cfg, reg, UpdaterKind)
    && KeyRegistered(cfg, reg, ScoreKind)
    && KeyRegistered(cfg, reg, LossKind)
  }

  /** The training half of `Initialize`: file list, parser, readers,
      pre-scan, sizing, fresh model, then updater, score and loss. */
  function InitializeTrain(cfg: HyperParam, reg: Registry, disk: Disk): (r: Result<Pipeline, InitError>)
    requires cfg.isTrain
    ensures r.Success? <==> ReaderFiles(cfg).Success? && TrainKeysRegistered(cfg, reg)
    ensures ReaderFiles(cfg).Failure? ==> r == Failure(ReaderFiles(cfg).error)
    ensures r.Failure? && r.error.CannotCreate? ==>
              r.error.key == KeyFor(cfg, r.error.kind) && r.error.key !in Registered(reg, r.error.kind)
    ensures ReaderFiles(cfg).Success? && FirstMissing(cfg, reg, TrainUseOrder).Some? ==>
              var k := FirstMissing(cfg, reg, TrainUseOrder).value;
              r == Failure(CannotCreate(k, KeyFor(cfg, k)))
  {
    var files :- ReaderFiles(cfg);
    var parserOpt := CreateParser(cfg, reg);
    var readerComp :- Require(CreateReader(cfg, reg), cfg, ReaderKind);
    var parser :- Require(parserOpt, cfg, ParserKind);
    FirstMissingAfter(cfg, reg, TrainUseOrder, 2);
    var scan := PreScan(OpenAll(files, disk), FieldAware(cfg.scoreFunc));
    // `files` is never empty, so assigning the maxima after every reader
    // leaves the values reached after the last one.
    var sized := Sized(cfg, scan.maxima);
    var updater :- Require(CreateUpdater(sized, reg), sized, UpdaterKind);
    var score :- Require(CreateScore(sized, reg), sized, ScoreKind);
    var loss :- Require(CreateLoss(sized, reg), sized, LossKind);
    Success(Pipeline(
      sized,
      parser,
      Bind(files, scan.readers, readerComp, cfg.batchSize, parser),
      Fresh(sized.numParam, cfg.scoreFunc != "linear"),
      Some(Initialized(updater, WithConfig(sized))),
      Initialized(score, WithConfig(sized)),
      Initialized(loss, WithScore(score)),
      [ParserKind] + Repeat(ReaderKind, |files|) + [UpdaterKind, ScoreKind, LossKind]))
  }

  /** The readers of a successful training run: one per listed file, in
      order, each bound to the shared parser and rewound to its first batch
      after the pre-scan. */
  lemma TrainReaders(cfg: HyperParam, reg: Registry, disk: Disk)
    requires cfg.isTrain && InitializeTrain(cfg, reg, disk).Success?
    ensures var files := ReaderFiles(cfg).value;
            var p := InitializeTrain(cfg, reg, disk).value;
            && |p.readers| == |files| == NumReader(cfg)
            && forall i :: 0 <= i < |files| ==>
                 && p.readers[i].component == Component(ReaderKind, ReaderKey(cfg.onDisk))
                 && p.readers[i].file == files[i]
                 && p.readers[i].stream == Open(disk(files[i]))
                 && p.readers[i].parser == p.parser
                 && p.readers[i].batchSize == cfg.batchSize
  {
    var files := ReaderFiles(cfg).value;
    NumReaderMatchesFiles(cfg);
    RescanSameMaxima(OpenAll(files, disk), FieldAware(cfg.scoreFunc));
  }

  /** The dimensions of a successful training run: `num_feature` and
      `num_field` are the maxima over all rows of all listed files (the
      field maximum only for "ffm", else 0), `num_param` follows the sizing
      table, and no other configuration field changes. */
  lemma TrainDimensions(cfg: HyperParam, reg: Registry, disk: Disk)
    requires cfg.isTrain && InitializeTrain(cfg, reg, disk).Success?
    ensures var rows := AllDelivered(OpenAll(ReaderFiles(cfg).value, disk));
            var c := InitializeTrain(cfg, reg, disk).value.config;
            && c.numFeature == MaxOfRows(rows, Idx)
            && c.numField == (if FieldAware(cfg.scoreFunc) then MaxOfRows(rows, Field) else 0)
            && c.numParam == NumParam(cfg.scoreFunc, c.numFeature, c.numField, cfg.numK)
            && c.numParam >= c.numFeature + 1
            && c.(numFeature := cfg.numFeature, numField := cfg.numField, numParam := cfg.numParam) == cfg
  {
    PreScanMaxima(OpenAll(ReaderFiles(cfg).value, disk), FieldAware(cfg.scoreFunc));
  }

  /** The components of a successful training run: a fresh model (zero start
      only for "linear"), then updater, score and loss in that order, the
      first two initialised with the sized configuration and the loss with
      the score. */
  lemma TrainComponents(cfg: HyperParam, reg: Registry, disk: Disk)
    requires cfg.isTrain && InitializeTrain(cfg, reg, disk).Success?
    ensures var p := InitializeTrain(cfg, reg, disk).value;
            && p.model == Fresh(p.config.numParam, cfg.scoreFunc != "linear")
            && p.parser == Component(ParserKind, cfg.fileFormat)
            && p.updater == Some(Initialized(Component(UpdaterKind, cfg.updaterType), WithConfig(p.config)))
            && p.score == Initialized(Component(ScoreKind, cfg.scoreFunc), WithConfig(p.config))
            && p.loss == Initialized(Component(LossKind, cfg.lossFunc), WithScore(p.score.component))
            && p.built == [ParserKind] + Repeat(ReaderKind, |ReaderFiles(cfg).value|) + [UpdaterKind, ScoreKind, LossKind]
  {
  }

  // ---------------------------------------------------------------------
  // Inference path
  // ---------------------------------------------------------------------

  /** The inference half of `Initialize`. The parser and the reader are
      created first, but neither NULL is used before the inference-file
      CHECK, so that CHECK wins over both. */
  function InitializeInference(cfg: HyperParam, reg: Registry, disk: Disk, load: Checkpoints): (r: Result<Pipeline, InitError>)
    requires !cfg.isTrain
    ensures r.Success? <==>
              && cfg.fileFormat in reg.parsers
              && ReaderKey(cfg.onDisk) in reg.readers
              && cfg.inferenceFile != ""
              && load(cfg.modelCheckpointFile).scoreFunc in reg.scores
              && cfg.lossFunc in reg.losses
    ensures cfg.inferenceFile == "" ==> r == Failure(CheckFailed(InferenceFileEmpty))
    ensures r.Failure? && r.error.CannotCreate? ==>
              r.error.key == KeyFor(Reconcile(cfg, load(cfg.modelCheckpointFile)), r.error.kind)
              && r.error.key !in Registered(reg, r.error.kind)
    ensures cfg.inferenceFile != "" ==>
              var rc := Reconcile(cfg, load(cfg.modelCheckpointFile));
              FirstMissing(rc, reg, InferenceUseOrder).Some? ==>
                var k := FirstMissing(rc, reg, InferenceUseOrder).value;
                r == Failure(CannotCreate(k, KeyFor(rc, k)))
    ensures r.Success? ==>
              var meta := load(cfg.modelCheckpointFile);
              var p := r.value;
              && p.config == Reconcile(cfg, meta)
              && p.model == Loaded(meta)
              && p.updater.None?
              && UpdaterKind !in p.built
              && p.parser == Component(ParserKind, cfg.fileFormat)
              && |p.readers| == 1
              && p.readers[0].component == Component(ReaderKind, ReaderKey(cfg.onDisk))
              && p.readers[0].file == cfg.inferenceFile
              && p.readers[0].batchSize == cfg.batchSize
              && p.readers[0].stream == Open(disk(cfg.inferenceFile))
              && p.readers[0].parser == p.parser
              && p.score == Initialized(Component(ScoreKind, meta.scoreFunc), WithConfig(p.config))
              && p.loss == Initialized(Component(LossKind, cfg.lossFunc), WithScore(p.score.component))
              && p.built == [ParserKind, ReaderKind, ScoreKind, LossKind]
  {
    var parserOpt := CreateParser(cfg, reg);
    var readerOpt := CreateReader(cfg, reg);
    if cfg.inferenceFile == "" then Failure(CheckFailed(InferenceFileEmpty))
    else
      var readerComp :- Require(readerOpt, cfg, ReaderKind);
      var parser :- Require(parserOpt, cfg, ParserKind);
      var meta := load(cfg.modelCheckpointFile);
      var rc := Reconcile(cfg, meta);
      FirstMissingAfter(rc, reg, InferenceUseOrder, 2);
      var score :- Require(CreateScore(rc, reg), rc, ScoreKind);
      var loss :- Require(CreateLoss(rc, reg), rc, LossKind);
      Success(Pipeline(
        rc,
        parser,
        [ReaderSlot(readerComp, cfg.inferenceFile, cfg.batchSize, parser, Open(disk(cfg.inferenceFile)))],
        Loaded(meta),
        None,
        Initialized(score, WithConfig(rc)),
        Initialized(loss, WithScore(score)),
        [ParserKind, ReaderKind, ScoreKind, LossKind]))
  }

  // ---------------------------------------------------------------------
  // Lifecycle
  // ---------------------------------------------------------------------

  /** `Solver::Initialize` after argument checking: branch on the mode. */
  function Initialize(cfg: HyperParam, reg: Registry, disk: Disk, load: Checkpoints): (r: Result<Pipeline, InitError>)
    ensures r.Success? ==> r.value.config.isTrain == cfg.isTrain
    ensures r.Success? ==> (r.value.updater.Some? <==> cfg.isTrain)
    ensures r.Success? ==> r.value.loss.arg == WithScore(r.value.score.component)
  {
    if cfg.isTrain then InitializeTrain(cfg, reg, disk) else InitializeInference(cfg, reg, disk, load)
  }

  /** The configuration whose keys the registry lookups use: the caller's in
      training, the reconciled one in inference. */
  function EffectiveConfig(cfg: HyperParam, load: Checkpoints): HyperParam {
    if cfg.isTrain then cfg else Reconcile(cfg, load(cfg.modelCheckpointFile))
  }

  /** Every failure of `Initialize` is truthful: a failed CHECK names an empty
      path or a non-positive fold count that is really there, and a failed
      lookup names a family and the key it used, which is unregistered. */
  lemma InitializeErrorsAreTrue(cfg: HyperParam, reg: Registry, disk: Disk, load: Checkpoints)
    ensures var r := Initialize(cfg, reg, disk, load);
            r.Failure? ==>
              match r.error
              case CheckFailed(TrainFileEmpty) => cfg.isTrain && cfg.trainSetFile == ""
              case CheckFailed(FoldsNotPositive) => cfg.isTrain && cfg.crossValidation && cfg.numFolds <= 0
              case CheckFailed(InferenceFileEmpty) => !cfg.isTrain && cfg.inferenceFile == ""
              case CannotCreate(kind, key) =>
                key == KeyFor(EffectiveConfig(cfg, load), kind) && key !in Registered(reg, kind)
  {
  }

  /** The extension point `StartWork` dispatches to. */
  datatype Work = TrainLoop | InferenceLoop

  /** The teardown `Finalize` dispatches to. */
  datatype Teardown = TrainTeardown | InferenceTeardown

  function StartWork(cfg: HyperParam): (w: Work)
    ensures w == TrainLoop <==> cfg.isTrain
  {
    if cfg.isTrain then TrainLoop else InferenceLoop
  }

  function Finalize(cfg: HyperParam): (t: Teardown)
    ensures t == TrainTeardown <==> cfg.isTrain
  {
    if cfg.isTrain then TrainTeardown else InferenceTeardown
  }

  /** The mode chosen at `Initialize` survives reconciliation, so the loop
      started and the teardown run after it belong to the same mode. */
  lemma ModeIsStable(cfg: HyperParam, reg: Registry, disk: Disk, load: Checkpoints)
    requires Initialize(cfg, reg, disk, load).Success?
    ensures var c := Initialize(cfg, reg, disk, load).value.config;
            && StartWork(c) == (if cfg.isTrain then TrainLoop else InferenceLoop)
            && (StartWork(c) == TrainLoop <==> Finalize(c) == TrainTeardown)
  {
  }
}
