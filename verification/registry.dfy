/** The string-keyed component registry and the controller's `create_*`
    helpers: a lookup yields a component or nothing. */
module Registry {
  import opened Wrappers
  import opened Errors
  import opened Config

  /** The keys registered for each capability family. */
  datatype Registry = Registry(
    parsers: set<string>,
    readers: set<string>,
    updaters: set<string>,
    scores: set<string>,
    losses: set<string>)

  function Registered(reg: Registry, kind: Kind): set<string> {
    match kind
    case ParserKind => reg.parsers
    case ReaderKind => reg.readers
    case UpdaterKind => reg.updaters
    case ScoreKind => reg.scores
    case LossKind => reg.losses
  }

  /** A freshly constructed component of a family, built under a key. */
  datatype Component = Component(kind: Kind, key: string)

  /** The registry's factory: the component for a registered key, else
      nothing (NULL). */
  function Create(reg: Registry, kind: Kind, key: string): (r: Option<Component>)
    ensures r.None? <==> key !in Registered(reg, kind)
    ensures r.Some? ==> r.value.kind == kind && r.value.key == key
  {
    if key in Registered(reg, kind) then Some(Component(kind, key)) else None
  }

  /** The reader key is chosen by the storage mode, not named by the user. */
  function ReaderKey(onDisk: bool): (key: string)
    ensures onDisk <==> key == "disk"
    ensures !onDisk <==> key == "memory"
  {
    if onDisk then "disk" else "memory"
  }

  /** The configuration field (or derived key) each family is looked up by. */
  function KeyFor(cfg: HyperParam, kind: Kind): string {
    match kind
    case ParserKind => cfg.fileFormat
    case ReaderKind => ReaderKey(cfg.onDisk)
    case UpdaterKind => cfg.updaterType
    case ScoreKind => cfg.scoreFunc
    case LossKind => cfg.lossFunc
  }

  /** `create_parser`: keyed by `file_format`. */
  function CreateParser(cfg: HyperParam, reg: Registry): (r: Option<Component>)
    ensures r.None? <==> cfg.fileFormat !in reg.parsers
    ensures r.Some? ==> r.value == Component(ParserKind, cfg.fileFormat)
  {
    Create(reg, ParserKind, KeyFor(cfg, ParserKind))
  }

  /** `create_reader`: keyed by "disk" or "memory" according to `on_disk`. */
  function CreateReader(cfg: HyperParam, reg: Registry): (r: Option<Component>)
    ensures r.None? <==> ReaderKey(cfg.onDisk) !in reg.readers
    ensures r.Some? ==> r.value == Component(ReaderKind, ReaderKey(cfg.onDisk))
  {
    Create(reg, ReaderKind, KeyFor(cfg, ReaderKind))
  }

  /** `create_updater`: keyed by `updater_type`. */
  function CreateUpdater(cfg: HyperParam, reg: Registry): (r: Option<Component>)
    ensures r.None? <==> cfg.updaterType !in reg.updaters
    ensures r.Some? ==> r.value == Component(UpdaterKind, cfg.updaterType)
  {
    Create(reg, UpdaterKind, KeyFor(cfg, UpdaterKind))
  }

  /** `create_score`: keyed by `score_func`. */
  function CreateScore(cfg: HyperParam, reg: Registry): (r: Option<Component>)
    ensures r.None? <==> cfg.scoreFunc !in reg.scores
    ensures r.Some? ==> r.value == Component(ScoreKind, cfg.scoreFunc)
  {
    Create(reg, ScoreKind, KeyFor(cfg, ScoreKind))
  }

  /** `create_loss`: keyed by `loss_func`. */
  function CreateLoss(cfg: HyperParam, reg: Registry): (r: Option<Component>)
    ensures r.None? <==> cfg.lossFunc !in reg.losses
    ensures r.Some? ==> r.value == Component(LossKind, cfg.lossFunc)
  {
    Create(reg, LossKind, KeyFor(cfg, LossKind))
  }

  /** A NULL from the registry stops initialisation with an error naming the
      family and the key that was not found. */
  function Require(o: Option<Component>, cfg: HyperParam, kind: Kind): (r: Result<Component, InitError>)
    ensures r.Failure? <==> o.None?
    ensures r.Failure? ==> r.error == CannotCreate(kind, KeyFor(cfg, kind))
    ensures r.Success? ==> r.value == o.value
  {
    match o
    case Some(c) => Success(c)
    case None => Failure(CannotCreate(kind, KeyFor(cfg, kind)))
  }
}
