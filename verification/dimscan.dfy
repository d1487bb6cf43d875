/** The dimensionality pre-scan of `Solver::Initialize`: pull every batch of
    every reader, fold the largest feature index (and, for "ffm", the largest
    field id) into running maxima shared by all readers, then rewind. */
module DimensionScan {
  import opened Data
  import opened MaxScan

  /** The running maxima `max_feat` and `max_field`. */
  datatype Maxima = Maxima(feat: nat, field: nat)

  const Zero := Maxima(0, 0)

  function Join(a: Maxima, b: Maxima): Maxima {
    Maxima(Max(a.feat, b.feat), Max(a.field, b.field))
  }

  /** Reference: the maxima a set of rows determines on its own. The field
      column is read only for the field-aware family. */
  function RowsMax(rows: seq<Row>, ffm: bool): Maxima {
    Maxima(MaxOfRows(rows, Idx), if ffm then MaxOfRows(rows, Field) else 0)
  }

  /** One iteration of the do-while body: scan the filled rows of the batch
      and raise each running maximum when the batch's maximum exceeds it. */
  function Absorb(acc: Maxima, b: Pull, ffm: bool): (r: Maxima)
    ensures r == Join(acc, RowsMax(b.matrix[..b.numSamples], ffm))
    ensures !ffm ==> r.field == acc.field
  {
    var tmp := MaxOfRows(b.matrix[..b.numSamples], Idx);
    var feat := if tmp > acc.feat then tmp else acc.feat;
    if ffm then
      var tmpField := MaxOfRows(b.matrix[..b.numSamples], Field);
      Maxima(feat, if tmpField > acc.field then tmpField else acc.field)
    else
      Maxima(feat, acc.field)
  }

  /** The end-of-stream sentinel contributes nothing: the last iteration of
      the do-while cannot change the maxima, whatever stale rows the buffer
      still holds. */
  lemma SentinelAbsorbsNothing(acc: Maxima, b: Pull, ffm: bool)
    requires b.numSamples == 0
    ensures Absorb(acc, b, ffm) == acc
  {
  }

  datatype Scanned = Scanned(maxima: Maxima, reader: Reader)

  /** The do-while over one reader: pull, absorb, stop after the first batch
      with no rows. Returns the maxima and the exhausted reader. */
  function ScanReader(r: Reader, ffm: bool, acc: Maxima): (s: Scanned)
    ensures s.reader.batches == r.batches
    ensures s.maxima.feat >= acc.feat && s.maxima.field >= acc.field
    ensures !ffm ==> s.maxima.field == acc.field
    decreases |r.batches| - r.cursor
  {
    var (b, r') := Samples(r);
    var acc' := Absorb(acc, b, ffm);
    if b.numSamples != 0 then ScanReader(r', ffm, acc') else Scanned(acc', r')
  }

  /** One pass over a reader folds exactly the rows it delivers into the
      running maxima. */
  lemma {:induction false} ScanReaderFolds(r: Reader, ffm: bool, acc: Maxima)
    ensures ScanReader(r, ffm, acc).maxima == Join(acc, RowsMax(Delivered(r), ffm))
    decreases |r.batches| - r.cursor
  {
    var (b, r') := Samples(r);
    var rows := b.matrix[..b.numSamples];
    if b.numSamples != 0 {
      ScanReaderFolds(r', ffm, Absorb(acc, b, ffm));
      assert Delivered(r) == rows + Delivered(r');
      MaxOfRowsAppend(rows, Delivered(r'), Idx);
      MaxOfRowsAppend(rows, Delivered(r'), Field);
    } else {
      assert Delivered(r) == [];
    }
  }

  datatype PreScanned = PreScanned(maxima: Maxima, readers: seq<Reader>)

  /** The outer loop over readers: the maxima are threaded from one reader to
      the next and never reset; each reader is rewound after its pass. */
  function PreScanFrom(rs: seq<Reader>, ffm: bool, acc: Maxima): (p: PreScanned)
    ensures |p.readers| == |rs|
    ensures p.maxima.feat >= acc.feat && p.maxima.field >= acc.field
    ensures !ffm ==> p.maxima.field == acc.field
  {
    if |rs| == 0 then PreScanned(acc, [])
    else
      var s := ScanReader(rs[0], ffm, acc);
      var rest := PreScanFrom(rs[1..], ffm, s.maxima);
      PreScanned(rest.maxima, [Reset(s.reader)] + rest.readers)
  }

  /** The pre-scan as `Initialize` runs it: maxima start at 0. */
  function PreScan(rs: seq<Reader>, ffm: bool): (p: PreScanned)
    ensures |p.readers| == |rs|
    ensures !ffm ==> p.maxima.field == 0
  {
    PreScanFrom(rs, ffm, Zero)
  }

  /** The maxima after the loop are those of the concatenation of everything
      every reader delivers. */
  lemma {:induction false} PreScanFromFolds(rs: seq<Reader>, ffm: bool, acc: Maxima)
    ensures PreScanFrom(rs, ffm, acc).maxima == Join(acc, RowsMax(AllDelivered(rs), ffm))
  {
    if |rs| > 0 {
      var s := ScanReader(rs[0], ffm, acc);
      ScanReaderFolds(rs[0], ffm, acc);
      PreScanFromFolds(rs[1..], ffm, s.maxima);
      MaxOfRowsAppend(Delivered(rs[0]), AllDelivered(rs[1..]), Idx);
      MaxOfRowsAppend(Delivered(rs[0]), AllDelivered(rs[1..]), Field);
    }
  }

  /** `num_feature` and `num_field` as the pre-scan leaves them: the largest
      index and (for "ffm" only) the largest field id over all readers'
      rows together; the field maximum stays 0 otherwise. */
  lemma PreScanMaxima(rs: seq<Reader>, ffm: bool)
    ensures PreScan(rs, ffm).maxima.feat == MaxOfRows(AllDelivered(rs), Idx)
    ensures PreScan(rs, ffm).maxima.field == (if ffm then MaxOfRows(AllDelivered(rs), Field) else 0)
  {
    PreScanFromFolds(rs, ffm, Zero);
  }

  /** The result does not depend on how the rows are cut into batches or
      files: only on the rows delivered, in any grouping. */
  lemma PreScanIgnoresBatching(rs1: seq<Reader>, rs2: seq<Reader>, ffm: bool)
    requires AllDelivered(rs1) == AllDelivered(rs2)
    ensures PreScan(rs1, ffm).maxima == PreScan(rs2, ffm).maxima
  {
    PreScanMaxima(rs1, ffm);
    PreScanMaxima(rs2, ffm);
  }

  /** Every reader is rewound: same content, cursor back at the first batch. */
  lemma {:induction false} PreScanRewinds(rs: seq<Reader>, ffm: bool, acc: Maxima)
    ensures forall i :: 0 <= i < |rs| ==> PreScanFrom(rs, ffm, acc).readers[i] == Open(rs[i].batches)
  {
    if |rs| > 0 {
      var s := ScanReader(rs[0], ffm, acc);
      PreScanRewinds(rs[1..], ffm, s.maxima);
      var p := PreScanFrom(rs, ffm, acc);
      forall i | 0 <= i < |rs| ensures p.readers[i] == Open(rs[i].batches) {
        if i > 0 {
          assert rs[1..][i - 1] == rs[i];
        }
      }
    }
  }

  /** Readers that start at their first batch are handed back exactly as they
      were, so a second pre-scan computes the same maxima as the first. */
  lemma RescanSameMaxima(rs: seq<Reader>, ffm: bool)
    requires forall i :: 0 <= i < |rs| ==> rs[i].cursor == 0
    ensures PreScan(rs, ffm).readers == rs
    ensures PreScan(PreScan(rs, ffm).readers, ffm).maxima == PreScan(rs, ffm).maxima
  {
    PreScanRewinds(rs, ffm, Zero);
  }
}
