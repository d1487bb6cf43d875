/** Sparse rows, the batches a reader hands out, and the reader's cursor. */
module Data {

  /** One nonzero of a sparse row: feature index, field id and feature value. */
  datatype Entry = Entry(idx: nat, field: nat, x: real)

  type Row = seq<Entry>

  /** What one `Samples` call yields: the batch buffer and how many of its
      leading rows were filled. Rows past `numSamples` are stale buffer
      contents that nobody reads. */
  datatype Batch = Batch(matrix: seq<Row>, numSamples: nat)

  type Pull = b: Batch | b.numSamples <= |b.matrix| witness Batch([], 0)

  /** The end-of-stream sentinel: no rows filled. */
  const EndOfStream: Pull := Batch([], 0)

  /** A reader iterating a fixed sequence of batches. Past the end it keeps
      answering with the sentinel. */
  datatype Reader = Reader(batches: seq<Pull>, cursor: nat)

  /** `Reader::Initialize`: a reader positioned at the first batch of a file. */
  function Open(content: seq<Pull>): Reader {
    Reader(content, 0)
  }

  /** `Reader::Samples`: the next batch and the advanced reader. */
  function Samples(r: Reader): (out: (Pull, Reader))
    ensures out.1.batches == r.batches
    ensures out.0.numSamples != 0 ==> r.cursor < |r.batches| && out.1.cursor == r.cursor + 1
    ensures r.cursor >= |r.batches| ==> out.0 == EndOfStream && out.1 == r
  {
    if r.cursor < |r.batches| then (r.batches[r.cursor], r.(cursor := r.cursor + 1))
    else (EndOfStream, r)
  }

  /** `Reader::Reset`: back to the first batch, content untouched. */
  function Reset(r: Reader): (r': Reader)
    ensures r' == Open(r.batches)
  {
    r.(cursor := 0)
  }

  /** The rows a pass reads from the cursor on: the filled prefix of every
      batch up to the first one with no rows. */
  function Delivered(r: Reader): seq<Row>
    decreases |r.batches| - r.cursor
  {
    if r.cursor >= |r.batches| then []
    else
      var b := r.batches[r.cursor];
      if b.numSamples == 0 then []
      else b.matrix[..b.numSamples] + Delivered(r.(cursor := r.cursor + 1))
  }

  /** Rows delivered by a list of readers, in order. */
  function AllDelivered(rs: seq<Reader>): seq<Row> {
    if |rs| == 0 then [] else Delivered(rs[0]) + AllDelivered(rs[1..])
  }
}
