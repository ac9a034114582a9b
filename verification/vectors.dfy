/**
 * The writer test table, one lemma per row. Each lemma states the text (or error) that
 * `Encode` gives for the row's configuration and records, which `WriteAllDeliversEncoding`
 * turns into what `WriteAll` delivers. Byte sequences are written out as numbers; the doc
 * comment gives the same row with Go string literals. The configuration and the distinct
 * fields of a row are parameters fixed by the precondition, so the proof goes through the
 * field facts of `FieldVectors` instead of unfolding the encoder on literals.
 */
module WriteTestVectors {
  import opened Results
  import opened Bytes
  import opened WriterConfig
  import opened FieldEncoding
  import opened RecordEncoding
  import opened BufferedWriter
  import opened FieldVectors

  lemma OneField(cfg: Config, a: seq<byte>)
    ensures EncodeRecord(cfg, [a]) == EncodeField(cfg, a) + Terminator(cfg)
  {
  }

  lemma TwoFields(cfg: Config, a: seq<byte>, b: seq<byte>)
    ensures EncodeRecord(cfg, [a, b])
      == EncodeField(cfg, a) + [cfg.comma] + EncodeField(cfg, b) + Terminator(cfg)
  {
    var fs: seq<seq<byte>> := [a, b];
    assert fs[1..] == [b];
    var parts := EncodeFields(cfg, fs);
    assert parts[1..] == [EncodeField(cfg, b)];
    assert Join(parts[1..], cfg.comma) == EncodeField(cfg, b);
  }

  lemma ThreeFields(cfg: Config, a: seq<byte>, b: seq<byte>, c: seq<byte>)
    ensures EncodeRecord(cfg, [a, b, c])
      == EncodeField(cfg, a) + [cfg.comma] + EncodeField(cfg, b) + [cfg.comma]
         + EncodeField(cfg, c) + Terminator(cfg)
  {
    var fs: seq<seq<byte>> := [a, b, c];
    assert fs[1..] == [b, c];
    var parts := EncodeFields(cfg, fs);
    var tail := EncodeFields(cfg, [b, c]);
    assert parts == [EncodeField(cfg, a)] + tail;
    assert parts[1..] == tail;
    TwoFields(cfg, b, c);
    assert Join(tail, cfg.comma) + Terminator(cfg) == EncodeRecord(cfg, [b, c]);
    assert Join(parts, cfg.comma) == EncodeField(cfg, a) + [cfg.comma] + Join(tail, cfg.comma);
  }

  lemma OneRecord(cfg: Config, r: seq<seq<byte>>)
    requires ValidDelims(cfg)
    ensures Encode(cfg, [r]).Ok? && Encode(cfg, [r]).value == EncodeRecord(cfg, r)
  {
    var rs: seq<seq<seq<byte>>> := [r];
    assert rs[1..] == [];
    assert EncodeRecords(cfg, rs) == EncodeRecord(cfg, r) + [];
  }

  lemma TwoRecords(cfg: Config, r: seq<seq<byte>>, t: seq<seq<byte>>)
    requires ValidDelims(cfg)
    ensures Encode(cfg, [r, t]).Ok?
    ensures Encode(cfg, [r, t]).value == EncodeRecord(cfg, r) + EncodeRecord(cfg, t)
  {
    var rs: seq<seq<seq<byte>>> := [r, t];
    assert rs[1..] == [t];
    OneRecord(cfg, t);
  }

  /** writer_test.go line 29: {{"abc"}} is written as "abc\n". */
  lemma Row29PlainField(cfg: Config, f1: seq<byte>)
    requires cfg == Default
    requires f1 == [97, 98, 99]
    ensures Encode(cfg, [[f1]]) == Ok([97, 98, 99, 10])
  {
    Row29Field1(cfg, f1);
    OneField(cfg, f1);
    OneRecord(cfg, [f1]);
    assert Terminator(cfg) == [10];
    assert Encode(cfg, [[f1]]).value == [97, 98, 99, 10];
  }

  /** writer_test.go line 30: {{"abc"}} with UseCRLF is written as "abc\r\n". */
  lemma Row30PlainFieldCRLF(cfg: Config, f1: seq<byte>)
    requires cfg == Default.(useCRLF := true)
    requires f1 == [97, 98, 99]
    ensures Encode(cfg, [[f1]]) == Ok([97, 98, 99, 13, 10])
  {
    Row30Field1(cfg, f1);
    OneField(cfg, f1);
    OneRecord(cfg, [f1]);
    assert Terminator(cfg) == [13, 10];
    assert Encode(cfg, [[f1]]).value == [97, 98, 99, 13, 10];
  }

  /** writer_test.go line 31: {{"\"abc\""}} is written as "\"\"\"abc\"\"\"\n". */
  lemma Row31QuotedQuotes(cfg: Config, f1: seq<byte>)
    requires cfg == Default
    requires f1 == [34, 97, 98, 99, 34]
    ensures Encode(cfg, [[f1]]) == Ok([34, 34, 34, 97, 98, 99, 34, 34, 34, 10])
  {
    Row31Field1(cfg, f1);
    OneField(cfg, f1);
    OneRecord(cfg, [f1]);
    assert Terminator(cfg) == [10];
    assert Encode(cfg, [[f1]]).value == [34, 34, 34, 97, 98, 99, 34, 34, 34, 10];
  }

  /** writer_test.go line 32: {{"a\"b"}} is written as "\"a\"\"b\"\n". */
  lemma Row32InnerQuote(cfg: Config, f1: seq<byte>)
    requires cfg == Default
    requires f1 == [97, 34, 98]
    ensures Encode(cfg, [[f1]]) == Ok([34, 97, 34, 34, 98, 34, 10])
  {
    Row32Field1(cfg, f1);
    OneField(cfg, f1);
    OneRecord(cfg, [f1]);
    assert Terminator(cfg) == [10];
    assert Encode(cfg, [[f1]]).value == [34, 97, 34, 34, 98, 34, 10];
  }

  /** writer_test.go line 33: {{"\"a\"b\""}} is written as "\"\"\"a\"\"b\"\"\"\n". */
  lemma Row33SeveralQuotes(cfg: Config, f1: seq<byte>)
    requires cfg == Default
    requires f1 == [34, 97, 34, 98, 34]
    ensures Encode(cfg, [[f1]]) == Ok([34, 34, 34, 97, 34, 34, 98, 34, 34, 34, 10])
  {
    Row33Field1(cfg, f1);
    OneField(cfg, f1);
    OneRecord(cfg, [f1]);
    assert Terminator(cfg) == [10];
    assert Encode(cfg, [[f1]]).value == [34, 34, 34, 97, 34, 34, 98, 34, 34, 34, 10];
  }

  /** writer_test.go line 34: {{" abc"}} is written as "\" abc\"\n". */
  lemma Row34LeadingSpace(cfg: Config, f1: seq<byte>)
    requires cfg == Default
    requires f1 == [32, 97, 98, 99]
    ensures Encode(cfg, [[f1]]) == Ok([34, 32, 97, 98, 99, 34, 10])
  {
    Row34Field1(cfg, f1);
    OneField(cfg, f1);
    OneRecord(cfg, [f1]);
    assert Terminator(cfg) == [10];
    assert Encode(cfg, [[f1]]).value == [34, 32, 97, 98, 99, 34, 10];
  }

  /** writer_test.go line 35: {{"abc,def"}} is written as "\"abc,def\"\n". */
  lemma Row35EmbeddedComma(cfg: Config, f1: seq<byte>)
    requires cfg == Default
    requires f1 == [97, 98, 99, 44, 100, 101, 102]
    ensures Encode(cfg, [[f1]]) == Ok([34, 97, 98, 99, 44, 100, 101, 102, 34, 10])
  {
    Row35Field1(cfg, f1);
    OneField(cfg, f1);
    OneRecord(cfg, [f1]);
    assert Terminator(cfg) == [10];
    assert Encode(cfg, [[f1]]).value == [34, 97, 98, 99, 44, 100, 101, 102, 34, 10];
  }

  /** writer_test.go line 36: {{"abc", "def"}} is written as "abc,def\n". */
  lemma Row36TwoFields(cfg: Config, f1: seq<byte>, f2: seq<byte>)
    requires cfg == Default
    requires f1 == [97, 98, 99] && f2 == [100, 101, 102]
    ensures Encode(cfg, [[f1, f2]]) == Ok([97, 98, 99, 44, 100, 101, 102, 10])
  {
    Row29Field1(cfg, f1);
    Row36Field1(cfg, f2);
    TwoFields(cfg, f1, f2);
    OneRecord(cfg, [f1, f2]);
    assert Terminator(cfg) == [10];
    assert Encode(cfg, [[f1, f2]]).value == [97, 98, 99, 44, 100, 101, 102, 10];
  }

  /** writer_test.go line 37: {{"abc"}, {"def"}} is written as "abc\ndef\n". */
  lemma Row37TwoRecords(cfg: Config, f1: seq<byte>, f2: seq<byte>)
    requires cfg == Default
    requires f1 == [97, 98, 99] && f2 == [100, 101, 102]
    ensures Encode(cfg, [[f1], [f2]]) == Ok([97, 98, 99, 10, 100, 101, 102, 10])
  {
    Row29Field1(cfg, f1);
    Row36Field1(cfg, f2);
    OneField(cfg, f1);
    OneField(cfg, f2);
    TwoRecords(cfg, [f1], [f2]);
    assert Terminator(cfg) == [10];
    assert EncodeRecord(cfg, [f1]) == [97, 98, 99, 10];
    assert EncodeRecord(cfg, [f2]) == [100, 101, 102, 10];
    assert Encode(cfg, [[f1], [f2]]).value == [97, 98, 99, 10, 100, 101, 102, 10];
  }

  /** writer_test.go line 38: {{"abc\ndef"}} is written as "\"abc\ndef\"\n". */
  lemma Row38EmbeddedLF(cfg: Config, f1: seq<byte>)
    requires cfg == Default
    requires f1 == [97, 98, 99, 10, 100, 101, 102]
    ensures Encode(cfg, [[f1]]) == Ok([34, 97, 98, 99, 10, 100, 101, 102, 34, 10])
  {
    Row38Field1(cfg, f1);
    OneField(cfg, f1);
    OneRecord(cfg, [f1]);
    assert Terminator(cfg) == [10];
    assert Encode(cfg, [[f1]]).value == [34, 97, 98, 99, 10, 100, 101, 102, 34, 10];
  }

  /** writer_test.go line 39: {{"abc\ndef"}} with UseCRLF is written as "\"abc\r\ndef\"\r\n". */
  lemma Row39EmbeddedLFUnderCRLF(cfg: Config, f1: seq<byte>)
    requires cfg == Default.(useCRLF := true)
    requires f1 == [97, 98, 99, 10, 100, 101, 102]
    ensures Encode(cfg, [[f1]]) == Ok([34, 97, 98, 99, 13, 10, 100, 101, 102, 34, 13, 10])
  {
    Row39Field1(cfg, f1);
    OneField(cfg, f1);
    OneRecord(cfg, [f1]);
    assert Terminator(cfg) == [13, 10];
    assert Encode(cfg, [[f1]]).value == [34, 97, 98, 99, 13, 10, 100, 101, 102, 34, 13, 10];
  }

  /** writer_test.go line 40: {{"abc\rdef"}} with UseCRLF is written as "\"abcdef\"\r\n". */
  lemma Row40EmbeddedCRUnderCRLF(cfg: Config, f1: seq<byte>)
    requires cfg == Default.(useCRLF := true)
    requires f1 == [97, 98, 99, 13, 100, 101, 102]
    ensures Encode(cfg, [[f1]]) == Ok([34, 97, 98, 99, 100, 101, 102, 34, 13, 10])
  {
    Row40Field1(cfg, f1);
    OneField(cfg, f1);
    OneRecord(cfg, [f1]);
    assert Terminator(cfg) == [13, 10];
    assert Encode(cfg, [[f1]]).value == [34, 97, 98, 99, 100, 101, 102, 34, 13, 10];
  }

  /** writer_test.go line 41: {{"abc\rdef"}} with UseCRLF: false is written as "\"abc\rdef\"\n". */
  lemma Row41EmbeddedCR(cfg: Config, f1: seq<byte>)
    requires cfg == Default.(useCRLF := false)
    requires f1 == [97, 98, 99, 13, 100, 101, 102]
    ensures Encode(cfg, [[f1]]) == Ok([34, 97, 98, 99, 13, 100, 101, 102, 34, 10])
  {
    Row41Field1(cfg, f1);
    OneField(cfg, f1);
    OneRecord(cfg, [f1]);
    assert Terminator(cfg) == [10];
    assert Encode(cfg, [[f1]]).value == [34, 97, 98, 99, 13, 100, 101, 102, 34, 10];
  }

  /** writer_test.go line 42: {{""}} is written as "\n". */
  lemma Row42OneEmptyField(cfg: Config, f1: seq<byte>)
    requires cfg == Default
    requires f1 == []
    ensures Encode(cfg, [[f1]]) == Ok([10])
  {
    Row42Field1(cfg, f1);
    OneField(cfg, f1);
    OneRecord(cfg, [f1]);
    assert Terminator(cfg) == [10];
    assert Encode(cfg, [[f1]]).value == [10];
  }

  /** writer_test.go line 43: {{"", ""}} is written as ",\n". */
  lemma Row43TwoEmptyFields(cfg: Config, f1: seq<byte>)
    requires cfg == Default
    requires f1 == []
    ensures Encode(cfg, [[f1, f1]]) == Ok([44, 10])
  {
    Row42Field1(cfg, f1);
    TwoFields(cfg, f1, f1);
    OneRecord(cfg, [f1, f1]);
    assert Terminator(cfg) == [10];
    assert Encode(cfg, [[f1, f1]]).value == [44, 10];
  }

  /** writer_test.go line 44: {{"", "", ""}} is written as ",,\n". */
  lemma Row44ThreeEmptyFields(cfg: Config, f1: seq<byte>)
    requires cfg == Default
    requires f1 == []
    ensures Encode(cfg, [[f1, f1, f1]]) == Ok([44, 44, 10])
  {
    Row42Field1(cfg, f1);
    ThreeFields(cfg, f1, f1, f1);
    OneRecord(cfg, [f1, f1, f1]);
    assert Terminator(cfg) == [10];
    assert Encode(cfg, [[f1, f1, f1]]).value == [44, 44, 10];
  }

  /** writer_test.go line 45: {{"", "", "a"}} is written as ",,a\n". */
  lemma Row45EmptyEmptyA(cfg: Config, f1: seq<byte>, f2: seq<byte>)
    requires cfg == Default
    requires f1 == [] && f2 == [97]
    ensures Encode(cfg, [[f1, f1, f2]]) == Ok([44, 44, 97, 10])
  {
    Row42Field1(cfg, f1);
    Row45Field1(cfg, f2);
    ThreeFields(cfg, f1, f1, f2);
    OneRecord(cfg, [f1, f1, f2]);
    assert Terminator(cfg) == [10];
    assert Encode(cfg, [[f1, f1, f2]]).value == [44, 44, 97, 10];
  }

  /** writer_test.go line 46: {{"", "a", ""}} is written as ",a,\n". */
  lemma Row46EmptyAEmpty(cfg: Config, f1: seq<byte>, f2: seq<byte>)
    requires cfg == Default
    requires f1 == [] && f2 == [97]
    ensures Encode(cfg, [[f1, f2, f1]]) == Ok([44, 97, 44, 10])
  {
    Row42Field1(cfg, f1);
    Row45Field1(cfg, f2);
    ThreeFields(cfg, f1, f2, f1);
    OneRecord(cfg, [f1, f2, f1]);
    assert Terminator(cfg) == [10];
    assert Encode(cfg, [[f1, f2, f1]]).value == [44, 97, 44, 10];
  }

  /** writer_test.go line 47: {{"", "a", "a"}} is written as ",a,a\n". */
  lemma Row47EmptyAA(cfg: Config, f1: seq<byte>, f2: seq<byte>)
    requires cfg == Default
    requires f1 == [] && f2 == [97]
    ensures Encode(cfg, [[f1, f2, f2]]) == Ok([44, 97, 44, 97, 10])
  {
    Row42Field1(cfg, f1);
    Row45Field1(cfg, f2);
    ThreeFields(cfg, f1, f2, f2);
    OneRecord(cfg, [f1, f2, f2]);
    assert Terminator(cfg) == [10];
    assert Encode(cfg, [[f1, f2, f2]]).value == [44, 97, 44, 97, 10];
  }

  /** writer_test.go line 48: {{"a", "", ""}} is written as "a,,\n". */
  lemma Row48AEmptyEmpty(cfg: Config, f1: seq<byte>, f2: seq<byte>)
    requires cfg == Default
    requires f1 == [97] && f2 == []
    ensures Encode(cfg, [[f1, f2, f2]]) == Ok([97, 44, 44, 10])
  {
    Row45Field1(cfg, f1);
    Row42Field1(cfg, f2);
    ThreeFields(cfg, f1, f2, f2);
    OneRecord(cfg, [f1, f2, f2]);
    assert Terminator(cfg) == [10];
    assert Encode(cfg, [[f1, f2, f2]]).value == [97, 44, 44, 10];
  }

  /** writer_test.go line 49: {{"a", "", "a"}} is written as "a,,a\n". */
  lemma Row49AEmptyA(cfg: Config, f1: seq<byte>, f2: seq<byte>)
    requires cfg == Default
    requires f1 == [97] && f2 == []
    ensures Encode(cfg, [[f1, f2, f1]]) == Ok([97, 44, 44, 97, 10])
  {
    Row45Field1(cfg, f1);
    Row42Field1(cfg, f2);
    ThreeFields(cfg, f1, f2, f1);
    OneRecord(cfg, [f1, f2, f1]);
    assert Terminator(cfg) == [10];
    assert Encode(cfg, [[f1, f2, f1]]).value == [97, 44, 44, 97, 10];
  }

  /** writer_test.go line 50: {{"a", "a", ""}} is written as "a,a,\n". */
  lemma Row50AAEmpty(cfg: Config, f1: seq<byte>, f2: seq<byte>)
    requires cfg == Default
    requires f1 == [97] && f2 == []
    ensures Encode(cfg, [[f1, f1, f2]]) == Ok([97, 44, 97, 44, 10])
  {
    Row45Field1(cfg, f1);
    Row42Field1(cfg, f2);
    ThreeFields(cfg, f1, f1, f2);
    OneRecord(cfg, [f1, f1, f2]);
    assert Terminator(cfg) == [10];
    assert Encode(cfg, [[f1, f1, f2]]).value == [97, 44, 97, 44, 10];
  }

  /** writer_test.go line 51: {{"a", "a", "a"}} is written as "a,a,a\n". */
  lemma Row51AAA(cfg: Config, f1: seq<byte>)
    requires cfg == Default
    requires f1 == [97]
    ensures Encode(cfg, [[f1, f1, f1]]) == Ok([97, 44, 97, 44, 97, 10])
  {
    Row45Field1(cfg, f1);
    ThreeFields(cfg, f1, f1, f1);
    OneRecord(cfg, [f1, f1, f1]);
    assert Terminator(cfg) == [10];
    assert Encode(cfg, [[f1, f1, f1]]).value == [97, 44, 97, 44, 97, 10];
  }

  /** writer_test.go line 52: {{"\\."}} is written as "\"\\.\"\n". */
  lemma Row52EndOfDataMarker(cfg: Config, f1: seq<byte>)
    requires cfg == Default
    requires f1 == [92, 46]
    ensures Encode(cfg, [[f1]]) == Ok([34, 92, 46, 34, 10])
  {
    Row52Field1(cfg, f1);
    OneField(cfg, f1);
    OneRecord(cfg, [f1]);
    assert Terminator(cfg) == [10];
    assert Encode(cfg, [[f1]]).value == [34, 92, 46, 34, 10];
  }

  /** writer_test.go line 53: {{"x09A\xb4\x1c", "aktau"}} is written as "x09A\xb4\x1c,aktau\n". */
  lemma Row53RawBytes(cfg: Config, f1: seq<byte>, f2: seq<byte>)
    requires cfg == Default
    requires f1 == [120, 48, 57, 65, 180, 28] && f2 == [97, 107, 116, 97, 117]
    ensures Encode(cfg, [[f1, f2]]) == Ok([120, 48, 57, 65, 180, 28, 44, 97, 107, 116, 97, 117, 10])
  {
    Row53Field1(cfg, f1);
    Row53Field2(cfg, f2);
    TwoFields(cfg, f1, f2);
    OneRecord(cfg, [f1, f2]);
    assert Terminator(cfg) == [10];
    assert Encode(cfg, [[f1, f2]]).value == [120, 48, 57, 65, 180, 28, 44, 97, 107, 116, 97, 117, 10];
  }

  /** writer_test.go line 54: {{",x09A\xb4\x1c", "aktau"}} is written as "\",x09A\xb4\x1c\",aktau\n". */
  lemma Row54LeadingCommaRawBytes(cfg: Config, f1: seq<byte>, f2: seq<byte>)
    requires cfg == Default
    requires f1 == [44, 120, 48, 57, 65, 180, 28] && f2 == [97, 107, 116, 97, 117]
    ensures Encode(cfg, [[f1, f2]]) == Ok([34, 44, 120, 48, 57, 65, 180, 28, 34, 44, 97, 107, 116, 97, 117, 10])
  {
    Row54Field1(cfg, f1);
    Row53Field2(cfg, f2);
    TwoFields(cfg, f1, f2);
    OneRecord(cfg, [f1, f2]);
    assert Terminator(cfg) == [10];
    assert Encode(cfg, [[f1, f2]]).value == [34, 44, 120, 48, 57, 65, 180, 28, 34, 44, 97, 107, 116, 97, 117, 10];
  }

  /** writer_test.go line 55: {{"a", "a", ""}} with Comma `|` is written as "a|a|\n". */
  lemma Row55PipeDelimiter(cfg: Config, f1: seq<byte>, f2: seq<byte>)
    requires cfg == Default.(comma := PIPE)
    requires f1 == [97] && f2 == []
    ensures Encode(cfg, [[f1, f1, f2]]) == Ok([97, 124, 97, 124, 10])
  {
    Row55Field1(cfg, f1);
    Row55Field2(cfg, f2);
    ThreeFields(cfg, f1, f1, f2);
    OneRecord(cfg, [f1, f1, f2]);
    assert Terminator(cfg) == [10];
    assert Encode(cfg, [[f1, f1, f2]]).value == [97, 124, 97, 124, 10];
  }

  /** writer_test.go line 56: {{",", ",", ""}} with Comma `|` is written as ",|,|\n". */
  lemma Row56CommaUnderPipeDelimiter(cfg: Config, f1: seq<byte>, f2: seq<byte>)
    requires cfg == Default.(comma := PIPE)
    requires f1 == [44] && f2 == []
    ensures Encode(cfg, [[f1, f1, f2]]) == Ok([44, 124, 44, 124, 10])
  {
    Row56Field1(cfg, f1);
    Row55Field2(cfg, f2);
    ThreeFields(cfg, f1, f1, f2);
    OneRecord(cfg, [f1, f1, f2]);
    assert Terminator(cfg) == [10];
    assert Encode(cfg, [[f1, f1, f2]]).value == [44, 124, 44, 124, 10];
  }

  /** writer_test.go line 57: {{"foo"}} with Comma `"` fails with errInvalidDelim and writes nothing. */
  lemma Row57DelimiterEqualsQuote()
    ensures Encode(Default.(comma := DQUOTE), [[[102, 111, 111]]]) == Err(InvalidDelim)
    ensures WriteAll(NewWriter(Default.(comma := DQUOTE)), [[[102, 111, 111]]], Accept).w.sink == []
  {
  }

  /** writer_test.go line 59: {{"abc,def"}} with Quote `|` is written as "|abc,def|\n". */
  lemma Row59PipeQuote(cfg: Config, f1: seq<byte>)
    requires cfg == Default.(quote := PIPE)
    requires f1 == [97, 98, 99, 44, 100, 101, 102]
    ensures Encode(cfg, [[f1]]) == Ok([124, 97, 98, 99, 44, 100, 101, 102, 124, 10])
  {
    Row59Field1(cfg, f1);
    OneField(cfg, f1);
    OneRecord(cfg, [f1]);
    assert Terminator(cfg) == [10];
    assert Encode(cfg, [[f1]]).value == [124, 97, 98, 99, 44, 100, 101, 102, 124, 10];
  }

  /** writer_test.go line 60: {{"a|b"}} with Quote `|` is written as "|a||b|\n". */
  lemma Row60PipeQuoteDoubled(cfg: Config, f1: seq<byte>)
    requires cfg == Default.(quote := PIPE)
    requires f1 == [97, 124, 98]
    ensures Encode(cfg, [[f1]]) == Ok([124, 97, 124, 124, 98, 124, 10])
  {
    Row60Field1(cfg, f1);
    OneField(cfg, f1);
    OneRecord(cfg, [f1]);
    assert Terminator(cfg) == [10];
    assert Encode(cfg, [[f1]]).value == [124, 97, 124, 124, 98, 124, 10];
  }

  /** writer_test.go line 61: {{"|a|b|"}} with Quote `|` is written as "|||a||b|||\n". */
  lemma Row61PipeQuotesAround(cfg: Config, f1: seq<byte>)
    requires cfg == Default.(quote := PIPE)
    requires f1 == [124, 97, 124, 98, 124]
    ensures Encode(cfg, [[f1]]) == Ok([124, 124, 124, 97, 124, 124, 98, 124, 124, 124, 10])
  {
    Row61Field1(cfg, f1);
    OneField(cfg, f1);
    OneRecord(cfg, [f1]);
    assert Terminator(cfg) == [10];
    assert Encode(cfg, [[f1]]).value == [124, 124, 124, 97, 124, 124, 98, 124, 124, 124, 10];
  }

  /** writer_test.go line 63: {{"abc", "def"}} with QuoteAll is written as "\"abc\",\"def\"\n". */
  lemma Row63QuoteAll(cfg: Config, f1: seq<byte>, f2: seq<byte>)
    requires cfg == Default.(quoteAll := true)
    requires f1 == [97, 98, 99] && f2 == [100, 101, 102]
    ensures Encode(cfg, [[f1, f2]]) == Ok([34, 97, 98, 99, 34, 44, 34, 100, 101, 102, 34, 10])
  {
    Row63Field1(cfg, f1);
    Row63Field2(cfg, f2);
    TwoFields(cfg, f1, f2);
    OneRecord(cfg, [f1, f2]);
    assert Terminator(cfg) == [10];
    assert Encode(cfg, [[f1, f2]]).value == [34, 97, 98, 99, 34, 44, 34, 100, 101, 102, 34, 10];
  }

  /** writer_test.go line 64: {{"abc", "def"}} with QuoteAll: false is written as "abc,def\n". */
  lemma Row64QuoteAllOff(cfg: Config, f1: seq<byte>, f2: seq<byte>)
    requires cfg == Default.(quoteAll := false)
    requires f1 == [97, 98, 99] && f2 == [100, 101, 102]
    ensures Encode(cfg, [[f1, f2]]) == Ok([97, 98, 99, 44, 100, 101, 102, 10])
  {
    Row64Field1(cfg, f1);
    Row64Field2(cfg, f2);
    TwoFields(cfg, f1, f2);
    OneRecord(cfg, [f1, f2]);
    assert Terminator(cfg) == [10];
    assert Encode(cfg, [[f1, f2]]).value == [97, 98, 99, 44, 100, 101, 102, 10];
  }

  /** writer_test.go line 65: {{"a,bc", "de\nf"}} with QuoteAll is written as "\"a,bc\",\"de\nf\"\n". */
  lemma Row65QuoteAllSpecials(cfg: Config, f1: seq<byte>, f2: seq<byte>)
    requires cfg == Default.(quoteAll := true)
    requires f1 == [97, 44, 98, 99] && f2 == [100, 101, 10, 102]
    ensures Encode(cfg, [[f1, f2]]) == Ok([34, 97, 44, 98, 99, 34, 44, 34, 100, 101, 10, 102, 34, 10])
  {
    Row65Field1(cfg, f1);
    Row65Field2(cfg, f2);
    TwoFields(cfg, f1, f2);
    OneRecord(cfg, [f1, f2]);
    assert Terminator(cfg) == [10];
    assert Encode(cfg, [[f1, f2]]).value == [34, 97, 44, 98, 99, 34, 44, 34, 100, 101, 10, 102, 34, 10];
  }

  /** writer_test.go line 66: {{"abc", "def"}, {"uvw", "xyz"}} with QuoteAll is written as "\"abc\",\"def\"\n\"uvw\",\"xyz\"\n". */
  lemma Row66QuoteAllTwoRecords(cfg: Config, f1: seq<byte>, f2: seq<byte>, f3: seq<byte>, f4: seq<byte>)
    requires cfg == Default.(quoteAll := true)
    requires f1 == [97, 98, 99] && f2 == [100, 101, 102] && f3 == [117, 118, 119] && f4 == [120, 121, 122]
    ensures Encode(cfg, [[f1, f2], [f3, f4]]) == Ok([34, 97, 98, 99, 34, 44, 34, 100, 101, 102, 34, 10, 34, 117, 118, 119, 34, 44, 34, 120, 121, 122, 34, 10])
  {
    Row63Field1(cfg, f1);
    Row63Field2(cfg, f2);
    Row66Field1(cfg, f3);
    Row66Field2(cfg, f4);
    TwoFields(cfg, f1, f2);
    TwoFields(cfg, f3, f4);
    TwoRecords(cfg, [f1, f2], [f3, f4]);
    assert Terminator(cfg) == [10];
    assert EncodeRecord(cfg, [f1, f2]) == [34, 97, 98, 99, 34, 44, 34, 100, 101, 102, 34, 10];
    assert EncodeRecord(cfg, [f3, f4]) == [34, 117, 118, 119, 34, 44, 34, 120, 121, 122, 34, 10];
    assert Encode(cfg, [[f1, f2], [f3, f4]]).value == [34, 97, 98, 99, 34, 44, 34, 100, 101, 102, 34, 10, 34, 117, 118, 119, 34, 44, 34, 120, 121, 122, 34, 10];
  }

  /** writer_test.go line 68: {{"", "abc"}} with QuoteEmpty is written as "\"\",abc\n". */
  lemma Row68QuoteEmpty(cfg: Config, f1: seq<byte>, f2: seq<byte>)
    requires cfg == Default.(quoteEmpty := true)
    requires f1 == [] && f2 == [97, 98, 99]
    ensures Encode(cfg, [[f1, f2]]) == Ok([34, 34, 44, 97, 98, 99, 10])
  {
    Row68Field1(cfg, f1);
    Row68Field2(cfg, f2);
    TwoFields(cfg, f1, f2);
    OneRecord(cfg, [f1, f2]);
    assert Terminator(cfg) == [10];
    assert Encode(cfg, [[f1, f2]]).value == [34, 34, 44, 97, 98, 99, 10];
  }

  /** writer_test.go line 69: {{"", "abc"}} with QuoteEmpty: false is written as ",abc\n". */
  lemma Row69QuoteEmptyOff(cfg: Config, f1: seq<byte>, f2: seq<byte>)
    requires cfg == Default.(quoteEmpty := false)
    requires f1 == [] && f2 == [97, 98, 99]
    ensures Encode(cfg, [[f1, f2]]) == Ok([44, 97, 98, 99, 10])
  {
    Row69Field1(cfg, f1);
    Row69Field2(cfg, f2);
    TwoFields(cfg, f1, f2);
    OneRecord(cfg, [f1, f2]);
    assert Terminator(cfg) == [10];
    assert Encode(cfg, [[f1, f2]]).value == [44, 97, 98, 99, 10];
  }

  /** writer_test.go lines 103-111: after writing {"abc"} and flushing to a working sink, Error() is nil. */
  lemma FlushToAcceptingSink()
    ensures var w := Write(NewWriter(Default), [[97, 98, 99]]).w;
      Error(Flush(w, Accept).w) == None && Flush(w, Accept).w.sink == [97, 98, 99, 10]
  {
    OneField(Default, [97, 98, 99]);
  }

  /** writer_test.go lines 113-120: after writing {"abc"} and flushing to a failing sink, Error() is not nil. */
  lemma FlushToFailingSink()
    ensures var w := Write(NewWriter(Default), [[97, 98, 99]]).w;
      Error(Flush(w, Fail("Test")).w) == Some(SinkFailure("Test"))
  {
    OneField(Default, [97, 98, 99]);
  }
}
