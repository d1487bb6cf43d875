/** Assembly of the reader file list: one fold file per fold with
    cross-validation, otherwise the training file and an optional test file. */
module FileList {
  import opened Wrappers
  import opened Errors
  import opened Config

  predicate IsDigit(ch: char) {
    '0' <= ch <= '9'
  }

  predicate AllDigits(s: string) {
    forall k :: 0 <= k < |s| ==> IsDigit(s[k])
  }

  function DigitChar(d: nat): (ch: char)
    requires d < 10
    ensures IsDigit(ch)
  {
    ('0' as int + d) as char
  }

  function DigitValue(ch: char): nat
    requires IsDigit(ch)
  {
    ch as int - '0' as int
  }

  /** `%d` of a non-negative integer: shortest decimal digits. */
  function Decimal(n: nat): (s: string)
    ensures |s| >= 1 && AllDigits(s)
    ensures s[0] == '0' ==> n == 0 && |s| == 1
  {
    if n < 10 then [DigitChar(n)] else Decimal(n / 10) + [DigitChar(n % 10)]
  }

  /** Reading decimal digits back. */
  function ParseDecimal(s: string): nat
    requires AllDigits(s)
  {
    if |s| == 0 then 0 else 10 * ParseDecimal(s[..|s| - 1]) + DigitValue(s[|s| - 1])
  }

  lemma {:induction false} DecimalRoundTrip(n: nat)
    ensures ParseDecimal(Decimal(n)) == n
  {
    if n >= 10 {
      var s := Decimal(n);
      assert s[..|s| - 1] == Decimal(n / 10);
      DecimalRoundTrip(n / 10);
    }
  }

  /** Name of fold `i` of the training file: "<train>_<i>". */
  function FoldName(train: string, i: nat): string {
    train + "_" + Decimal(i)
  }

  /** Distinct folds of one training file get distinct names. */
  lemma FoldNameInjective(train: string, i: nat, j: nat)
    requires FoldName(train, i) == FoldName(train, j)
    ensures i == j
  {
    var n := |train| + 1;
    assert FoldName(train, i)[n..] == Decimal(i);
    assert FoldName(train, j)[n..] == Decimal(j);
    DecimalRoundTrip(i);
    DecimalRoundTrip(j);
  }

  /** The fold names in order, `FoldName(train, 0)` first. */
  function FoldNames(train: string, count: nat): (names: seq<string>)
    ensures |names| == count
    ensures forall i :: 0 <= i < count ==> names[i] == FoldName(train, i)
  {
    if count == 0 then [] else FoldNames(train, count - 1) + [FoldName(train, count - 1)]
  }

  /** The file list of the training path, with the CHECKs that guard it. */
  function ReaderFiles(cfg: HyperParam): (r: Result<seq<string>, InitError>)
    ensures cfg.crossValidation ==> (r.Success? <==> cfg.trainSetFile != "" && cfg.numFolds > 0)
    ensures cfg.crossValidation && cfg.trainSetFile == "" ==> r == Failure(CheckFailed(TrainFileEmpty))
    ensures cfg.crossValidation && cfg.trainSetFile != "" && cfg.numFolds <= 0 ==> r == Failure(CheckFailed(FoldsNotPositive))
    ensures cfg.crossValidation && r.Success? ==>
              |r.value| == cfg.numFolds
              && (forall i :: 0 <= i < |r.value| ==> r.value[i] == FoldName(cfg.trainSetFile, i))
              && (forall i, j :: 0 <= i < j < |r.value| ==> r.value[i] != r.value[j])
    ensures !cfg.crossValidation ==> (r.Success? <==> cfg.trainSetFile != "")
    ensures !cfg.crossValidation && r.Failure? ==> r.error == CheckFailed(TrainFileEmpty)
    ensures !cfg.crossValidation && r.Success? ==>
              r.value == (if cfg.testSetFile == "" then [cfg.trainSetFile] else [cfg.trainSetFile, cfg.testSetFile])
    ensures r.Success? ==> |r.value| >= 1
  {
    if cfg.crossValidation then
      if cfg.trainSetFile == "" then Failure(CheckFailed(TrainFileEmpty))
      else if cfg.numFolds <= 0 then Failure(CheckFailed(FoldsNotPositive))
      else
        var names := FoldNames(cfg.trainSetFile, cfg.numFolds);
        assert forall i, j :: 0 <= i < j < |names| ==> names[i] != names[j] by {
          forall i, j | 0 <= i < j < |names| ensures names[i] != names[j] {
            if names[i] == names[j] {
              FoldNameInjective(cfg.trainSetFile, i, j);
            }
          }
        }
        Success(names)
    else
      if cfg.trainSetFile == "" then Failure(CheckFailed(TrainFileEmpty))
      else
        var files := [cfg.trainSetFile];
        if cfg.testSetFile != "" then Success(files + [cfg.testSetFile]) else Success(files)
  }

  /** `num_reader` as the source counts it, separately from the list. */
  function NumReader(cfg: HyperParam): int {
    if cfg.crossValidation then cfg.numFolds
    else 1 + (if cfg.testSetFile != "" then 1 else 0)
  }

  /** The reader count always matches the file list it sizes. */
  lemma NumReaderMatchesFiles(cfg: HyperParam)
    requires ReaderFiles(cfg).Success?
    ensures NumReader(cfg) == |ReaderFiles(cfg).value|
    ensures !cfg.crossValidation ==> (NumReader(cfg) == 2 <==> cfg.testSetFile != "")
  {
  }
}
