/**
 * The buffered writer: records are formatted into an in-memory buffer, `Flush` hands the
 * buffer to the sink, and a sink failure is kept as a sticky error that `Error` reports.
 * The sink itself is abstract: each flush is told whether the sink accepted the bytes.
 */
module BufferedWriter {
  import opened Results
  import opened Bytes
  import opened WriterConfig
  import opened RecordEncoding

  /** What the sink does with the bytes of one flush. */
  datatype SinkOutcome = Accept | Fail(reason: string)

  /**
   * `buffer` holds formatted bytes not yet flushed, `sink` the bytes the sink has accepted,
   * `err` the sticky error of the buffered layer.
   */
  datatype Writer = Writer(cfg: Config, buffer: seq<byte>, sink: seq<byte>, err: Option<WriteError>)

  /** The writer state after an operation together with the error the operation returned. */
  datatype Step = Step(w: Writer, err: Option<WriteError>)

  function NewWriter(cfg: Config): (r: Writer) {
    Writer(cfg, [], [], None)
  }

  /** The error the last failed flush left behind, or `None`. */
  function Error(w: Writer): (e: Option<WriteError>) {
    w.err
  }

  /**
   * Appends one record to the buffer. The delimiter check comes first; after a sink
   * failure the buffered layer refuses every write with that failure.
   */
  function Write(w: Writer, rec: seq<seq<byte>>): (s: Step)
    ensures s.w.cfg == w.cfg && s.w.sink == w.sink && s.w.err == w.err
    ensures !ValidDelims(w.cfg) ==> s.err == Some(InvalidDelim)
    ensures ValidDelims(w.cfg) && w.err.Some? ==> s.err == w.err
    ensures ValidDelims(w.cfg) && w.err.None? ==> s.err.None?
    ensures s.err.Some? ==> s.w == w
    ensures s.err.None? ==> s.w.buffer == w.buffer + EncodeRecord(w.cfg, rec)
  {
    if !ValidDelims(w.cfg) then Step(w, Some(InvalidDelim))
    else if w.err.Some? then Step(w, w.err)
    else Step(w.(buffer := w.buffer + EncodeRecord(w.cfg, rec)), None)
  }

  /**
   * Hands the buffer to the sink. An earlier failure is returned again without touching
   * the sink; an empty buffer needs no sink call; a failing sink keeps the bytes buffered
   * and records the failure.
   */
  function Flush(w: Writer, outcome: SinkOutcome): (s: Step)
    ensures s.w.cfg == w.cfg
    ensures s.w.sink + s.w.buffer == w.sink + w.buffer
    ensures s.err == Error(s.w)
    ensures w.err.Some? ==> s == Step(w, w.err)
    ensures w.err.None? && w.buffer == [] ==> s == Step(w, None)
    ensures w.err.None? && outcome.Accept? ==> s.err.None?
    ensures s.err.None? ==> s.w.buffer == [] && s.w.sink == w.sink + w.buffer
    ensures w.err.None? && w.buffer != [] && outcome.Fail? ==> s.err == Some(SinkFailure(outcome.reason))
  {
    if w.err.Some? then Step(w, w.err)
    else if w.buffer == [] then Step(w, None)
    else match outcome
      case Accept => Step(w.(buffer := [], sink := w.sink + w.buffer), None)
      case Fail(reason) => Step(w.(err := Some(SinkFailure(reason))), Some(SinkFailure(reason)))
  }

  /** Writes records in order, stopping at the first error. */
  function WriteRecords(w: Writer, recs: seq<seq<seq<byte>>>): (s: Step)
    decreases |recs|
  {
    if recs == [] then Step(w, None)
    else
      var s := Write(w, recs[0]);
      if s.err.Some? then s else WriteRecords(s.w, recs[1..])
  }

  /** `WriteAll`: every record, then one flush, returning the first error met. */
  function WriteAll(w: Writer, recs: seq<seq<seq<byte>>>, outcome: SinkOutcome): (s: Step) {
    var s := WriteRecords(w, recs);
    if s.err.Some? then s else Flush(s.w, outcome)
  }

  /** A healthy writer with a valid configuration buffers exactly the encoded records. */
  lemma {:induction false} WriteRecordsBuffers(w: Writer, recs: seq<seq<seq<byte>>>)
    requires ValidDelims(w.cfg) && w.err.None?
    ensures WriteRecords(w, recs) == Step(w.(buffer := w.buffer + EncodeRecords(w.cfg, recs)), None)
    decreases |recs|
  {
    if recs == [] {
      assert w.buffer + [] == w.buffer;
    } else {
      var w1 := w.(buffer := w.buffer + EncodeRecord(w.cfg, recs[0]));
      WriteRecordsBuffers(w1, recs[1..]);
      assert w1.buffer + EncodeRecords(w.cfg, recs[1..]) == w.buffer + EncodeRecords(w.cfg, recs);
    }
  }

  /**
   * `WriteAll` on a fresh writer and an accepting sink delivers what `Encode` computes,
   * or returns `Encode`'s error with nothing delivered and nothing buffered.
   */
  lemma WriteAllDeliversEncoding(cfg: Config, recs: seq<seq<seq<byte>>>)
    ensures var s := WriteAll(NewWriter(cfg), recs, Accept);
      match Encode(cfg, recs)
      case Ok(out) => s.err == None && s.w.sink == out && s.w.buffer == []
      case Err(e) => s.err == Some(e) && s.w.sink == [] && s.w.buffer == []
  {
    if ValidDelims(cfg) {
      WriteRecordsBuffers(NewWriter(cfg), recs);
      assert [] + EncodeRecords(cfg, recs) == EncodeRecords(cfg, recs);
    }
  }
}
