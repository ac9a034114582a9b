/** Record assembly and the whole-output encoder behind `WriteAll`. */
module RecordEncoding {
  import opened Results
  import opened Bytes
  import opened WriterConfig
  import opened FieldEncoding

  /** The parts separated by single `sep` bytes, with nothing before the first or after the last. */
  function Join(parts: seq<seq<byte>>, sep: byte): (r: seq<byte>)
  {
    if |parts| == 0 then []
    else if |parts| == 1 then parts[0]
    else parts[0] + [sep] + Join(parts[1..], sep)
  }

  /** Every field of a record, encoded on its own. */
  function EncodeFields(cfg: Config, fs: seq<seq<byte>>): (r: seq<seq<byte>>)
    ensures |r| == |fs|
    ensures forall i :: 0 <= i < |fs| ==> r[i] == EncodeField(cfg, fs[i])
  {
    if fs == [] then [] else [EncodeField(cfg, fs[0])] + EncodeFields(cfg, fs[1..])
  }

  /** One record as `Write` appends it: encoded fields joined by the delimiter, then the terminator. */
  function EncodeRecord(cfg: Config, fs: seq<seq<byte>>): (r: seq<byte>) {
    Join(EncodeFields(cfg, fs), cfg.comma) + Terminator(cfg)
  }

  /** Records written one after another, with no validation. */
  function EncodeRecords(cfg: Config, recs: seq<seq<seq<byte>>>): (r: seq<byte>) {
    if recs == [] then [] else EncodeRecord(cfg, recs[0]) + EncodeRecords(cfg, recs[1..])
  }

  /**
   * The text `WriteAll` hands to an accepting sink, or the error it returns. The delimiter
   * is checked by each `Write`, so an empty batch never reaches the check.
   */
  function Encode(cfg: Config, recs: seq<seq<seq<byte>>>): (r: Result<seq<byte>, WriteError>) {
    if recs != [] && !ValidDelims(cfg) then Err(InvalidDelim) else Ok(EncodeRecords(cfg, recs))
  }

  /** `n` copies of `x`. */
  function Repeat<T>(x: T, n: nat): (r: seq<T>)
    ensures |r| == n && forall i :: 0 <= i < n ==> r[i] == x
  {
    if n == 0 then [] else [x] + Repeat(x, n - 1)
  }

  /** Total occurrences of `b` across all parts. */
  function SumCount(parts: seq<seq<byte>>, b: byte): (n: nat) {
    if parts == [] then 0 else Count(parts[0], b) + SumCount(parts[1..], b)
  }

  /** Reference splitter: the maximal runs of `s` between `sep` bytes. */
  function Split(s: seq<byte>, sep: byte): (r: seq<seq<byte>>)
    ensures |r| >= 1
  {
    if s == [] then [[]]
    else
      var rest := Split(s[1..], sep);
      if s[0] == sep then [[]] + rest else [[s[0]] + rest[0]] + rest[1..]
  }

  /** Joining adds exactly one separator between neighbouring parts and no other. */
  lemma {:induction false} JoinSeparatorCount(parts: seq<seq<byte>>, sep: byte)
    requires |parts| >= 1
    ensures Count(Join(parts, sep), sep) == SumCount(parts, sep) + |parts| - 1
  {
    if |parts| > 1 {
      JoinSeparatorCount(parts[1..], sep);
      CountAppend(parts[0], [sep], sep);
      CountAppend(parts[0] + [sep], Join(parts[1..], sep), sep);
    }
  }

  lemma {:induction false} SplitAfterPlainPrefix(p: seq<byte>, t: seq<byte>, sep: byte)
    requires sep !in p
    ensures Split(p + t, sep) == [p + Split(t, sep)[0]] + Split(t, sep)[1..]
  {
    if p != [] {
      assert (p + t)[1..] == p[1..] + t;
      SplitAfterPlainPrefix(p[1..], t, sep);
      assert [p[0]] + (p[1..] + Split(t, sep)[0]) == p + Split(t, sep)[0];
    } else {
      var r := Split(t, sep);
      assert p + t == t;
      assert p + r[0] == r[0];
      assert r == [r[0]] + r[1..];
    }
  }

  /** Splitting undoes joining when no part holds the separator. */
  lemma {:induction false} SplitJoin(parts: seq<seq<byte>>, sep: byte)
    requires |parts| >= 1
    requires forall i :: 0 <= i < |parts| ==> sep !in parts[i]
    ensures Split(Join(parts, sep), sep) == parts
  {
    if |parts| == 1 {
      SplitAfterPlainPrefix(parts[0], [], sep);
      assert parts[0] + [] == parts[0];
    } else {
      var tail := Join(parts[1..], sep);
      SplitJoin(parts[1..], sep);
      assert parts[0] + [sep] + tail == parts[0] + ([sep] + tail);
      SplitAfterPlainPrefix(parts[0], [sep] + tail, sep);
      assert ([sep] + tail)[1..] == tail;
      assert parts[0] + [] == parts[0];
      assert parts == [parts[0]] + parts[1..];
    }
  }

  /** A record of `n >= 1` unquoted empty fields is `n - 1` delimiters and the terminator. */
  lemma {:induction false} EmptyFieldsRecord(cfg: Config, n: nat)
    requires n >= 1 && !cfg.quoteAll && !cfg.quoteEmpty
    ensures EncodeRecord(cfg, Repeat([], n)) == Repeat(cfg.comma, n - 1) + Terminator(cfg)
  {
    JoinOfEmptyParts(EncodeFields(cfg, Repeat([], n)), cfg.comma);
  }

  lemma {:induction false} JoinOfEmptyParts(parts: seq<seq<byte>>, sep: byte)
    requires |parts| >= 1 && forall i :: 0 <= i < |parts| ==> parts[i] == []
    ensures Join(parts, sep) == Repeat(sep, |parts| - 1)
  {
    if |parts| > 1 {
      JoinOfEmptyParts(parts[1..], sep);
      assert parts[0] + [sep] == [sep];
    }
  }

  /** Encoding keeps every delimiter of the fields and adds exactly one between neighbours. */
  lemma {:induction false} RecordDelimiterCount(cfg: Config, fs: seq<seq<byte>>)
    requires |fs| >= 1 && ValidDelims(cfg)
    ensures Count(EncodeRecord(cfg, fs), cfg.comma) == SumCount(fs, cfg.comma) + |fs| - 1
  {
    var parts := EncodeFields(cfg, fs);
    JoinSeparatorCount(parts, cfg.comma);
    CountAppend(Join(parts, cfg.comma), Terminator(cfg), cfg.comma);
    EncodedSumCount(cfg, fs);
  }

  lemma {:induction false} EncodedSumCount(cfg: Config, fs: seq<seq<byte>>)
    requires ValidDelims(cfg)
    ensures SumCount(EncodeFields(cfg, fs), cfg.comma) == SumCount(fs, cfg.comma)
  {
    if fs != [] {
      EncodedSumCount(cfg, fs[1..]);
      FieldDelimiterCount(cfg, fs[0]);
      assert EncodeFields(cfg, fs)[1..] == EncodeFields(cfg, fs[1..]);
    }
  }

  /** A field keeps its delimiter bytes, whether written bare or quoted. */
  lemma FieldDelimiterCount(cfg: Config, f: seq<byte>)
    requires ValidDelims(cfg)
    ensures Count(EncodeField(cfg, f), cfg.comma) == Count(f, cfg.comma)
  {
    if NeedsQuotes(cfg, f) {
      EscapeKeepsCount(cfg, f, cfg.comma);
      CountAppend([cfg.quote], Escape(cfg, f), cfg.comma);
      CountAppend([cfg.quote] + Escape(cfg, f), [cfg.quote], cfg.comma);
    }
  }

  lemma {:induction false} EscapeKeepsCount(cfg: Config, f: seq<byte>, b: byte)
    requires b != cfg.quote && b != CR && b != LF
    ensures Count(Escape(cfg, f), b) == Count(f, b)
  {
    if f != [] {
      CountAppend(EscapeByte(cfg, f[0]), Escape(cfg, f[1..]), b);
      EscapeByteKeepsCount(cfg, f[0], b);
      EscapeKeepsCount(cfg, f[1..], b);
      assert Count(f, b) == Count([f[0]], b) + Count(f[1..], b) by {
        assert f == [f[0]] + f[1..];
        CountAppend([f[0]], f[1..], b);
      }
    }
  }

  lemma EscapeByteKeepsCount(cfg: Config, x: byte, b: byte)
    requires b != cfg.quote && b != CR && b != LF
    ensures Count(EscapeByte(cfg, x), b) == Count([x], b)
  {
    var e := EscapeByte(cfg, x);
    if x == cfg.quote || x == CR || x == LF {
      assert b !in e;
    } else {
      assert e == [x];
    }
  }

  /** The output of several records is the records' outputs in input order. */
  lemma {:induction false} EncodeRecordsAppend(cfg: Config, a: seq<seq<seq<byte>>>, b: seq<seq<seq<byte>>>)
    ensures EncodeRecords(cfg, a + b) == EncodeRecords(cfg, a) + EncodeRecords(cfg, b)
  {
    if a == [] {
      assert a + b == b;
    } else {
      assert (a + b)[1..] == a[1..] + b;
      EncodeRecordsAppend(cfg, a[1..], b);
    }
  }

  /** A record of one bare field is the field followed by the terminator. */
  lemma PlainFieldRecord(cfg: Config, f: seq<byte>)
    requires !NeedsQuotes(cfg, f)
    ensures EncodeRecord(cfg, [f]) == f + Terminator(cfg)
    ensures !cfg.useCRLF ==> EncodeRecord(cfg, [f]) == f + [LF]
  {
  }

  /** Under QuoteAll every field of every record is wrapped in quotes, its content escaped. */
  lemma QuoteAllWrapsEveryField(cfg: Config, fs: seq<seq<byte>>)
    requires cfg.quoteAll
    ensures forall i :: 0 <= i < |fs| ==>
      EncodeFields(cfg, fs)[i] == [cfg.quote] + Escape(cfg, fs[i]) + [cfg.quote]
  {
  }

  /** An empty field is `""` (two quote bytes) under QuoteEmpty or QuoteAll, and nothing otherwise. */
  lemma EmptyField(cfg: Config)
    ensures EncodeField(cfg, []) == if cfg.quoteAll || cfg.quoteEmpty then [cfg.quote, cfg.quote] else []
  {
  }

  /** Equal delimiter and quote make any non-empty batch fail with nothing written. */
  lemma RejectsCommaEqualToQuote(cfg: Config, recs: seq<seq<seq<byte>>>)
    requires cfg.comma == cfg.quote && recs != []
    ensures Encode(cfg, recs) == Err(InvalidDelim)
  {
  }
}
