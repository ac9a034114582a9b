/**
 * A reference reader for the writer's output, used as the encoder's partner: reading
 * back what was written recovers the records, up to the two losses the writer's format
 * implies (a carriage return dropped under CRLF, and an empty record read as one empty field).
 */
module ReferenceReader {
  import opened Results
  import opened Bytes
  import opened WriterConfig
  import opened FieldEncoding
  import opened RecordEncoding

  /** A parsed value together with the input left after it. */
  datatype Parsed<T> = Parsed(value: T, rest: seq<byte>)

  function Prepend(b: byte, p: Option<Parsed<seq<byte>>>): (r: Option<Parsed<seq<byte>>>) {
    match p
    case None => None
    case Some(q) => Some(Parsed([b] + q.value, q.rest))
  }

  /**
   * The content of a quoted field, read from just after its opening quote up to and
   * including its closing quote; a doubled quote stands for one, and under CRLF a
   * `\r\n` stands for a line feed.
   */
  function ParseQuoted(cfg: Config, s: seq<byte>): (r: Option<Parsed<seq<byte>>>)
    ensures r.Some? ==> |r.value.rest| < |s|
    decreases |s|
  {
    if |s| == 0 then None
    else if s[0] == cfg.quote then
      if |s| >= 2 && s[1] == cfg.quote then Prepend(cfg.quote, ParseQuoted(cfg, s[2..]))
      else Some(Parsed([], s[1..]))
    else if cfg.useCRLF && s[0] == CR && |s| >= 2 && s[1] == LF then Prepend(LF, ParseQuoted(cfg, s[2..]))
    else Prepend(s[0], ParseQuoted(cfg, s[1..]))
  }

  /** A bare field: the bytes up to the next delimiter or line-break byte. */
  function ParseBare(cfg: Config, s: seq<byte>): (r: Parsed<seq<byte>>)
    ensures r.value + r.rest == s
  {
    if |s| == 0 || s[0] == cfg.comma || s[0] == CR || s[0] == LF then Parsed([], s)
    else
      var p := ParseBare(cfg, s[1..]);
      Parsed([s[0]] + p.value, p.rest)
  }

  /** One field, quoted when it opens with the quote byte and bare otherwise. */
  function ParseField(cfg: Config, s: seq<byte>): (r: Option<Parsed<seq<byte>>>)
    ensures r.Some? ==> |r.value.rest| <= |s|
  {
    if |s| > 0 && s[0] == cfg.quote then ParseQuoted(cfg, s[1..]) else Some(ParseBare(cfg, s))
  }

  /** One record: fields separated by the delimiter, ended by the terminator. */
  function ParseRecord(cfg: Config, s: seq<byte>): (r: Option<Parsed<seq<seq<byte>>>>)
    ensures r.Some? ==> |r.value.rest| < |s|
    decreases |s|
  {
    match ParseField(cfg, s)
    case None => None
    case Some(p) =>
      var t := p.rest;
      if |t| > 0 && t[0] == cfg.comma then
        match ParseRecord(cfg, t[1..])
        case None => None
        case Some(q) => Some(Parsed([p.value] + q.value, q.rest))
      else if |t| >= |Terminator(cfg)| && t[..|Terminator(cfg)|] == Terminator(cfg) then
        Some(Parsed([p.value], t[|Terminator(cfg)|..]))
      else None
  }

  /** All records of a text, or `None` when it is not well formed. */
  function ParseAll(cfg: Config, s: seq<byte>): (r: Option<seq<seq<seq<byte>>>>)
    decreases |s|
  {
    if s == [] then Some([])
    else
      match ParseRecord(cfg, s)
      case None => None
      case Some(p) =>
        match ParseAll(cfg, p.rest)
        case None => None
        case Some(rs) => Some([p.value] + rs)
  }

  /** The field with every carriage return removed. */
  function RemoveCR(f: seq<byte>): (r: seq<byte>)
    ensures CR !in r
  {
    if f == [] then [] else (if f[0] == CR then [] else [f[0]]) + RemoveCR(f[1..])
  }

  /** What a field reads back as: under CRLF its carriage returns are gone. */
  function ReadBack(cfg: Config, f: seq<byte>): (r: seq<byte>) {
    if cfg.useCRLF then RemoveCR(f) else f
  }

  function ReadBackFields(cfg: Config, fs: seq<seq<byte>>): (r: seq<seq<byte>>)
    ensures |r| == |fs|
  {
    if fs == [] then [] else [ReadBack(cfg, fs[0])] + ReadBackFields(cfg, fs[1..])
  }

  /** What a record reads back as: an empty record comes back as one empty field. */
  function ReadBackRecord(cfg: Config, fs: seq<seq<byte>>): (r: seq<seq<byte>>) {
    if fs == [] then [[]] else ReadBackFields(cfg, fs)
  }

  function ReadBackRecords(cfg: Config, recs: seq<seq<seq<byte>>>): (r: seq<seq<seq<byte>>>) {
    if recs == [] then [] else [ReadBackRecord(cfg, recs[0])] + ReadBackRecords(cfg, recs[1..])
  }

  lemma {:induction false} RemoveCRNoop(f: seq<byte>)
    requires CR !in f
    ensures RemoveCR(f) == f
  {
    if f != [] {
      RemoveCRNoop(f[1..]);
      assert f == [f[0]] + f[1..];
    }
  }

  /** Reading quoted content consumes one escaped byte at a time. */
  lemma ParseQuotedStep(cfg: Config, b: byte, tail: seq<byte>)
    requires NoLineBreakDelims(cfg)
    ensures ParseQuoted(cfg, EscapeByte(cfg, b) + tail)
      == if cfg.useCRLF && b == CR then ParseQuoted(cfg, tail) else Prepend(b, ParseQuoted(cfg, tail))
  {
    var s := EscapeByte(cfg, b) + tail;
    if b == cfg.quote {
      assert s[0] == b && s[1] == b && s[2..] == tail;
    } else if b == CR && cfg.useCRLF {
      assert s == tail;
    } else if b == LF && cfg.useCRLF {
      assert s[0] == CR && s[1] == LF && s[2..] == tail;
    } else {
      assert s[0] == b && s[1..] == tail;
    }
  }

  /** Quoted content reads back as the field, up to the carriage returns CRLF mode drops. */
  lemma {:induction false} ReadQuotedContent(cfg: Config, f: seq<byte>, rest: seq<byte>)
    requires NoLineBreakDelims(cfg)
    requires |rest| == 0 || rest[0] != cfg.quote
    ensures ParseQuoted(cfg, Escape(cfg, f) + [cfg.quote] + rest)
      == Some(Parsed(ReadBack(cfg, f), rest))
  {
    var q := cfg.quote;
    if f == [] {
      var s := Escape(cfg, f) + [q] + rest;
      assert s == [q] + rest;
      assert s[1..] == rest;
    } else {
      var b := f[0];
      var tail := Escape(cfg, f[1..]) + [q] + rest;
      assert Escape(cfg, f) + [q] + rest == EscapeByte(cfg, b) + tail;
      ParseQuotedStep(cfg, b, tail);
      ReadQuotedContent(cfg, f[1..], rest);
      assert f == [b] + f[1..];
      ReadBackCons(cfg, b, f[1..]);
      if cfg.useCRLF && b == CR {
        assert ReadBack(cfg, f) == [] + ReadBack(cfg, f[1..]) == ReadBack(cfg, f[1..]);
      } else {
        assert ReadBack(cfg, f) == [b] + ReadBack(cfg, f[1..]);
      }
    }
  }

  lemma ReadBackCons(cfg: Config, b: byte, f: seq<byte>)
    ensures ReadBack(cfg, [b] + f)
      == (if cfg.useCRLF && b == CR then [] else [b]) + ReadBack(cfg, f)
  {
    assert ([b] + f)[1..] == f;
  }

  /** A bare run of bytes with no delimiter or line break reads back whole. */
  lemma {:induction false} ReadBareContent(cfg: Config, f: seq<byte>, rest: seq<byte>)
    requires cfg.comma !in f && CR !in f && LF !in f
    requires |rest| > 0 && (rest[0] == cfg.comma || rest[0] == CR || rest[0] == LF)
    ensures ParseBare(cfg, f + rest) == Parsed(f, rest)
  {
    if f == [] {
      assert f + rest == rest;
    } else {
      assert (f + rest)[1..] == f[1..] + rest;
      ReadBareContent(cfg, f[1..], rest);
      assert [f[0]] + f[1..] == f;
    }
  }

  /** An encoded field, followed by a delimiter or a line break, reads back as the field. */
  lemma ReadEncodedField(cfg: Config, f: seq<byte>, rest: seq<byte>)
    requires ValidDelims(cfg)
    requires |rest| > 0 && (rest[0] == cfg.comma || rest[0] == CR || rest[0] == LF)
    ensures ParseField(cfg, EncodeField(cfg, f) + rest) == Some(Parsed(ReadBack(cfg, f), rest))
  {
    var q := cfg.quote;
    if NeedsQuotes(cfg, f) {
      var s := EncodeField(cfg, f) + rest;
      assert s == [q] + (Escape(cfg, f) + [q] + rest);
      assert s[1..] == Escape(cfg, f) + [q] + rest;
      ReadQuotedContent(cfg, f, rest);
    } else {
      ReadBareContent(cfg, f, rest);
      RemoveCRNoop(f);
      if f == [] {
        assert f + rest == rest;
      }
    }
  }

  /** An encoded record, whatever follows it, reads back as the record. */
  lemma {:induction false} ReadEncodedRecord(cfg: Config, fs: seq<seq<byte>>, rest: seq<byte>)
    requires ValidDelims(cfg)
    ensures ParseRecord(cfg, EncodeRecord(cfg, fs) + rest)
      == Some(Parsed(ReadBackRecord(cfg, fs), rest))
  {
    var term := Terminator(cfg);
    assert (term + rest)[..|term|] == term;
    assert (term + rest)[|term|..] == rest;
    if fs == [] {
      // An empty record writes no field at all, even when empty fields are quoted.
      assert EncodeRecord(cfg, fs) + rest == [] + (term + rest);
      ReadBareContent(cfg, [], term + rest);
    } else if |fs| == 1 {
      var f := fs[0];
      assert EncodeFields(cfg, fs) == [EncodeField(cfg, f)];
      assert EncodeRecord(cfg, fs) + rest == EncodeField(cfg, f) + (term + rest);
      ReadEncodedField(cfg, f, term + rest);
      assert ReadBackFields(cfg, fs) == [ReadBack(cfg, f)];
    } else {
      var f := fs[0];
      var tailRec := Join(EncodeFields(cfg, fs[1..]), cfg.comma) + term + rest;
      assert EncodeFields(cfg, fs) == [EncodeField(cfg, f)] + EncodeFields(cfg, fs[1..]);
      assert EncodeRecord(cfg, fs) + rest == EncodeField(cfg, f) + ([cfg.comma] + tailRec);
      ReadEncodedField(cfg, f, [cfg.comma] + tailRec);
      assert ([cfg.comma] + tailRec)[1..] == tailRec;
      ReadEncodedRecord(cfg, fs[1..], rest);
      assert EncodeRecord(cfg, fs[1..]) + rest == tailRec;
    }
  }

  /** Reading back the whole output of a valid writer recovers every record, in order. */
  lemma {:induction false} ReadEncodedRecords(cfg: Config, recs: seq<seq<seq<byte>>>)
    requires ValidDelims(cfg)
    ensures ParseAll(cfg, EncodeRecords(cfg, recs)) == Some(ReadBackRecords(cfg, recs))
  {
    if recs != [] {
      var s := EncodeRecords(cfg, recs);
      ReadEncodedRecord(cfg, recs[0], EncodeRecords(cfg, recs[1..]));
      ReadEncodedRecords(cfg, recs[1..]);
      assert s != [];
    }
  }
}
