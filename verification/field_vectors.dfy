/**
 * Field-level facts behind the writer test table: for each distinct field of a row (under
 * that row's configuration) what `EncodeField` writes for it.
 */
module FieldVectors {
  import opened Bytes
  import opened WriterConfig
  import opened FieldEncoding

  /** Proof helper: the two branches of `EncodeField`, for the row lemmas below. */
  lemma FieldCases(cfg: Config, f: seq<byte>)
    ensures !NeedsQuotes(cfg, f) ==> EncodeField(cfg, f) == f
    ensures NeedsQuotes(cfg, f) ==> EncodeField(cfg, f) == [cfg.quote] + Escape(cfg, f) + [cfg.quote]
  {
  }

  /** Proof helper: a one-byte field escapes as its byte does. */
  lemma EscapeOne(cfg: Config, b: byte, e: seq<byte>)
    requires EscapeByte(cfg, b) == e
    ensures Escape(cfg, [b]) == e
  {
    assert [b][1..] == [];
  }

  /** Proof helper: `EscapeAppend` with both halves' escapes already known. */
  lemma EscapeThen(cfg: Config, a: seq<byte>, b: seq<byte>, ea: seq<byte>, eb: seq<byte>)
    requires Escape(cfg, a) == ea && Escape(cfg, b) == eb
    ensures Escape(cfg, a + b) == ea + eb
  {
    EscapeAppend(cfg, a, b);
  }


  lemma Row29Field1(cfg: Config, f: seq<byte>)
    requires cfg == Default && f == [97, 98, 99]
    ensures EncodeField(cfg, f) == f
  {
    assert !NeedsQuotes(cfg, f);
  }

  lemma Row30Field1(cfg: Config, f: seq<byte>)
    requires cfg == Default.(useCRLF := true) && f == [97, 98, 99]
    ensures EncodeField(cfg, f) == f
  {
    assert !NeedsQuotes(cfg, f);
  }

  lemma Row31Field1(cfg: Config, f: seq<byte>)
    requires cfg == Default && f == [34, 97, 98, 99, 34]
    ensures EncodeField(cfg, f) == [cfg.quote] + [34, 34] + [97, 98, 99] + [34, 34] + [cfg.quote]
  {
    assert NeedsQuotes(cfg, f);
    assert f == [34] + [97, 98, 99] + [34];
    Row31Field1Escape(cfg);
    FieldCases(cfg, f);
  }

  lemma Row31Field1Escape(cfg: Config)
    requires cfg == Default
    ensures Escape(cfg, [34] + [97, 98, 99] + [34]) == [34, 34] + [97, 98, 99] + [34, 34]
  {
    EscapeOne(cfg, 34, [34, 34]);
    EscapeKeepsPlainBytes(cfg, [97, 98, 99]);
    EscapeThen(cfg, [34], [97, 98, 99], [34, 34], [97, 98, 99]);
    EscapeOne(cfg, 34, [34, 34]);
    EscapeThen(cfg, [34] + [97, 98, 99], [34], [34, 34] + [97, 98, 99], [34, 34]);
  }

  lemma Row32Field1(cfg: Config, f: seq<byte>)
    requires cfg == Default && f == [97, 34, 98]
    ensures EncodeField(cfg, f) == [cfg.quote] + [97] + [34, 34] + [98] + [cfg.quote]
  {
    assert NeedsQuotes(cfg, f);
    assert f == [97] + [34] + [98];
    Row32Field1Escape(cfg);
    FieldCases(cfg, f);
  }

  lemma Row32Field1Escape(cfg: Config)
    requires cfg == Default
    ensures Escape(cfg, [97] + [34] + [98]) == [97] + [34, 34] + [98]
  {
    EscapeKeepsPlainBytes(cfg, [97]);
    EscapeOne(cfg, 34, [34, 34]);
    EscapeThen(cfg, [97], [34], [97], [34, 34]);
    EscapeKeepsPlainBytes(cfg, [98]);
    EscapeThen(cfg, [97] + [34], [98], [97] + [34, 34], [98]);
  }

  lemma Row33Field1(cfg: Config, f: seq<byte>)
    requires cfg == Default && f == [34, 97, 34, 98, 34]
    ensures EncodeField(cfg, f) == [cfg.quote] + [34, 34] + [97] + [34, 34] + [98] + [34, 34] + [cfg.quote]
  {
    assert NeedsQuotes(cfg, f);
    assert f == [34] + [97] + [34] + [98] + [34];
    Row33Field1Escape(cfg);
    FieldCases(cfg, f);
  }

  lemma Row33Field1Escape(cfg: Config)
    requires cfg == Default
    ensures Escape(cfg, [34] + [97] + [34] + [98] + [34]) == [34, 34] + [97] + [34, 34] + [98] + [34, 34]
  {
    EscapeOne(cfg, 34, [34, 34]);
    EscapeKeepsPlainBytes(cfg, [97]);
    EscapeThen(cfg, [34], [97], [34, 34], [97]);
    EscapeOne(cfg, 34, [34, 34]);
    EscapeThen(cfg, [34] + [97], [34], [34, 34] + [97], [34, 34]);
    EscapeKeepsPlainBytes(cfg, [98]);
    EscapeThen(cfg, [34] + [97] + [34], [98], [34, 34] + [97] + [34, 34], [98]);
    EscapeOne(cfg, 34, [34, 34]);
    EscapeThen(cfg, [34] + [97] + [34] + [98], [34], [34, 34] + [97] + [34, 34] + [98], [34, 34]);
  }

  lemma Row34Field1(cfg: Config, f: seq<byte>)
    requires cfg == Default && f == [32, 97, 98, 99]
    ensures EncodeField(cfg, f) == [cfg.quote] + f + [cfg.quote]
  {
    assert NeedsQuotes(cfg, f);
    EscapeKeepsPlainBytes(cfg, f);
    FieldCases(cfg, f);
  }

  lemma Row35Field1(cfg: Config, f: seq<byte>)
    requires cfg == Default && f == [97, 98, 99, 44, 100, 101, 102]
    ensures EncodeField(cfg, f) == [cfg.quote] + f + [cfg.quote]
  {
    assert NeedsQuotes(cfg, f);
    EscapeKeepsPlainBytes(cfg, f);
    FieldCases(cfg, f);
  }

  lemma Row36Field1(cfg: Config, f: seq<byte>)
    requires cfg == Default && f == [100, 101, 102]
    ensures EncodeField(cfg, f) == f
  {
    assert !NeedsQuotes(cfg, f);
  }

  lemma Row38Field1(cfg: Config, f: seq<byte>)
    requires cfg == Default && f == [97, 98, 99, 10, 100, 101, 102]
    ensures EncodeField(cfg, f) == [cfg.quote] + f + [cfg.quote]
  {
    assert NeedsQuotes(cfg, f);
    assert f == [97, 98, 99] + [10] + [100, 101, 102];
    Row38Field1Escape(cfg);
    FieldCases(cfg, f);
  }

  lemma Row38Field1Escape(cfg: Config)
    requires cfg == Default
    ensures Escape(cfg, [97, 98, 99] + [10] + [100, 101, 102]) == [97, 98, 99] + [10] + [100, 101, 102]
  {
    EscapeKeepsPlainBytes(cfg, [97, 98, 99]);
    EscapeOne(cfg, 10, [10]);
    EscapeThen(cfg, [97, 98, 99], [10], [97, 98, 99], [10]);
    EscapeKeepsPlainBytes(cfg, [100, 101, 102]);
    EscapeThen(cfg, [97, 98, 99] + [10], [100, 101, 102], [97, 98, 99] + [10], [100, 101, 102]);
  }

  lemma Row39Field1(cfg: Config, f: seq<byte>)
    requires cfg == Default.(useCRLF := true) && f == [97, 98, 99, 10, 100, 101, 102]
    ensures EncodeField(cfg, f) == [cfg.quote] + [97, 98, 99] + [13, 10] + [100, 101, 102] + [cfg.quote]
  {
    assert NeedsQuotes(cfg, f);
    assert f == [97, 98, 99] + [10] + [100, 101, 102];
    Row39Field1Escape(cfg);
    FieldCases(cfg, f);
  }

  lemma Row39Field1Escape(cfg: Config)
    requires cfg == Default.(useCRLF := true)
    ensures Escape(cfg, [97, 98, 99] + [10] + [100, 101, 102]) == [97, 98, 99] + [13, 10] + [100, 101, 102]
  {
    EscapeKeepsPlainBytes(cfg, [97, 98, 99]);
    EscapeOne(cfg, 10, [13, 10]);
    EscapeThen(cfg, [97, 98, 99], [10], [97, 98, 99], [13, 10]);
    EscapeKeepsPlainBytes(cfg, [100, 101, 102]);
    EscapeThen(cfg, [97, 98, 99] + [10], [100, 101, 102], [97, 98, 99] + [13, 10], [100, 101, 102]);
  }

  lemma Row40Field1(cfg: Config, f: seq<byte>)
    requires cfg == Default.(useCRLF := true) && f == [97, 98, 99, 13, 100, 101, 102]
    ensures EncodeField(cfg, f) == [cfg.quote] + [97, 98, 99] + [] + [100, 101, 102] + [cfg.quote]
  {
    assert NeedsQuotes(cfg, f);
    assert f == [97, 98, 99] + [13] + [100, 101, 102];
    Row40Field1Escape(cfg);
    FieldCases(cfg, f);
  }

  lemma Row40Field1Escape(cfg: Config)
    requires cfg == Default.(useCRLF := true)
    ensures Escape(cfg, [97, 98, 99] + [13] + [100, 101, 102]) == [97, 98, 99] + [] + [100, 101, 102]
  {
    EscapeKeepsPlainBytes(cfg, [97, 98, 99]);
    EscapeOne(cfg, 13, []);
    EscapeThen(cfg, [97, 98, 99], [13], [97, 98, 99], []);
    EscapeKeepsPlainBytes(cfg, [100, 101, 102]);
    EscapeThen(cfg, [97, 98, 99] + [13], [100, 101, 102], [97, 98, 99] + [], [100, 101, 102]);
  }

  lemma Row41Field1(cfg: Config, f: seq<byte>)
    requires cfg == Default.(useCRLF := false) && f == [97, 98, 99, 13, 100, 101, 102]
    ensures EncodeField(cfg, f) == [cfg.quote] + f + [cfg.quote]
  {
    assert NeedsQuotes(cfg, f);
    assert f == [97, 98, 99] + [13] + [100, 101, 102];
    Row41Field1Escape(cfg);
    FieldCases(cfg, f);
  }

  lemma Row41Field1Escape(cfg: Config)
    requires cfg == Default.(useCRLF := false)
    ensures Escape(cfg, [97, 98, 99] + [13] + [100, 101, 102]) == [97, 98, 99] + [13] + [100, 101, 102]
  {
    EscapeKeepsPlainBytes(cfg, [97, 98, 99]);
    EscapeOne(cfg, 13, [13]);
    EscapeThen(cfg, [97, 98, 99], [13], [97, 98, 99], [13]);
    EscapeKeepsPlainBytes(cfg, [100, 101, 102]);
    EscapeThen(cfg, [97, 98, 99] + [13], [100, 101, 102], [97, 98, 99] + [13], [100, 101, 102]);
  }

  lemma Row42Field1(cfg: Config, f: seq<byte>)
    requires cfg == Default && f == []
    ensures EncodeField(cfg, f) == f
  {
    assert !NeedsQuotes(cfg, f);
  }

  lemma Row45Field1(cfg: Config, f: seq<byte>)
    requires cfg == Default && f == [97]
    ensures EncodeField(cfg, f) == f
  {
    assert !NeedsQuotes(cfg, f);
  }

  lemma Row52Field1(cfg: Config, f: seq<byte>)
    requires cfg == Default && f == [92, 46]
    ensures EncodeField(cfg, f) == [cfg.quote] + f + [cfg.quote]
  {
    assert NeedsQuotes(cfg, f);
    EscapeKeepsPlainBytes(cfg, f);
    FieldCases(cfg, f);
  }

  lemma Row53Field1(cfg: Config, f: seq<byte>)
    requires cfg == Default && f == [120, 48, 57, 65, 180, 28]
    ensures EncodeField(cfg, f) == f
  {
    assert !NeedsQuotes(cfg, f);
  }

  lemma Row53Field2(cfg: Config, f: seq<byte>)
    requires cfg == Default && f == [97, 107, 116, 97, 117]
    ensures EncodeField(cfg, f) == f
  {
    assert !NeedsQuotes(cfg, f);
  }

  lemma Row54Field1(cfg: Config, f: seq<byte>)
    requires cfg == Default && f == [44, 120, 48, 57, 65, 180, 28]
    ensures EncodeField(cfg, f) == [cfg.quote] + f + [cfg.quote]
  {
    assert NeedsQuotes(cfg, f);
    EscapeKeepsPlainBytes(cfg, f);
    FieldCases(cfg, f);
  }

  lemma Row55Field1(cfg: Config, f: seq<byte>)
    requires cfg == Default.(comma := PIPE) && f == [97]
    ensures EncodeField(cfg, f) == f
  {
    assert !NeedsQuotes(cfg, f);
  }

  lemma Row55Field2(cfg: Config, f: seq<byte>)
    requires cfg == Default.(comma := PIPE) && f == []
    ensures EncodeField(cfg, f) == f
  {
    assert !NeedsQuotes(cfg, f);
  }

  lemma Row56Field1(cfg: Config, f: seq<byte>)
    requires cfg == Default.(comma := PIPE) && f == [44]
    ensures EncodeField(cfg, f) == f
  {
    assert !NeedsQuotes(cfg, f);
  }

  lemma Row59Field1(cfg: Config, f: seq<byte>)
    requires cfg == Default.(quote := PIPE) && f == [97, 98, 99, 44, 100, 101, 102]
    ensures EncodeField(cfg, f) == [cfg.quote] + f + [cfg.quote]
  {
    assert NeedsQuotes(cfg, f);
    EscapeKeepsPlainBytes(cfg, f);
    FieldCases(cfg, f);
  }

  lemma Row60Field1(cfg: Config, f: seq<byte>)
    requires cfg == Default.(quote := PIPE) && f == [97, 124, 98]
    ensures EncodeField(cfg, f) == [cfg.quote] + [97] + [124, 124] + [98] + [cfg.quote]
  {
    assert NeedsQuotes(cfg, f);
    assert f == [97] + [124] + [98];
    Row60Field1Escape(cfg);
    FieldCases(cfg, f);
  }

  lemma Row60Field1Escape(cfg: Config)
    requires cfg == Default.(quote := PIPE)
    ensures Escape(cfg, [97] + [124] + [98]) == [97] + [124, 124] + [98]
  {
    EscapeKeepsPlainBytes(cfg, [97]);
    EscapeOne(cfg, 124, [124, 124]);
    EscapeThen(cfg, [97], [124], [97], [124, 124]);
    EscapeKeepsPlainBytes(cfg, [98]);
    EscapeThen(cfg, [97] + [124], [98], [97] + [124, 124], [98]);
  }

  lemma Row61Field1(cfg: Config, f: seq<byte>)
    requires cfg == Default.(quote := PIPE) && f == [124, 97, 124, 98, 124]
    ensures EncodeField(cfg, f) == [cfg.quote] + [124, 124] + [97] + [124, 124] + [98] + [124, 124] + [cfg.quote]
  {
    assert NeedsQuotes(cfg, f);
    assert f == [124] + [97] + [124] + [98] + [124];
    Row61Field1Escape(cfg);
    FieldCases(cfg, f);
  }

  lemma Row61Field1Escape(cfg: Config)
    requires cfg == Default.(quote := PIPE)
    ensures Escape(cfg, [124] + [97] + [124] + [98] + [124]) == [124, 124] + [97] + [124, 124] + [98] + [124, 124]
  {
    EscapeOne(cfg, 124, [124, 124]);
    EscapeKeepsPlainBytes(cfg, [97]);
    EscapeThen(cfg, [124], [97], [124, 124], [97]);
    EscapeOne(cfg, 124, [124, 124]);
    EscapeThen(cfg, [124] + [97], [124], [124, 124] + [97], [124, 124]);
    EscapeKeepsPlainBytes(cfg, [98]);
    EscapeThen(cfg, [124] + [97] + [124], [98], [124, 124] + [97] + [124, 124], [98]);
    EscapeOne(cfg, 124, [124, 124]);
    EscapeThen(cfg, [124] + [97] + [124] + [98], [124], [124, 124] + [97] + [124, 124] + [98], [124, 124]);
  }

  lemma Row63Field1(cfg: Config, f: seq<byte>)
    requires cfg == Default.(quoteAll := true) && f == [97, 98, 99]
    ensures EncodeField(cfg, f) == [cfg.quote] + f + [cfg.quote]
  {
    assert NeedsQuotes(cfg, f);
    EscapeKeepsPlainBytes(cfg, f);
    FieldCases(cfg, f);
  }

  lemma Row63Field2(cfg: Config, f: seq<byte>)
    requires cfg == Default.(quoteAll := true) && f == [100, 101, 102]
    ensures EncodeField(cfg, f) == [cfg.quote] + f + [cfg.quote]
  {
    assert NeedsQuotes(cfg, f);
    EscapeKeepsPlainBytes(cfg, f);
    FieldCases(cfg, f);
  }

  lemma Row64Field1(cfg: Config, f: seq<byte>)
    requires cfg == Default.(quoteAll := false) && f == [97, 98, 99]
    ensures EncodeField(cfg, f) == f
  {
    assert !NeedsQuotes(cfg, f);
  }

  lemma Row64Field2(cfg: Config, f: seq<byte>)
    requires cfg == Default.(quoteAll := false) && f == [100, 101, 102]
    ensures EncodeField(cfg, f) == f
  {
    assert !NeedsQuotes(cfg, f);
  }

  lemma Row65Field1(cfg: Config, f: seq<byte>)
    requires cfg == Default.(quoteAll := true) && f == [97, 44, 98, 99]
    ensures EncodeField(cfg, f) == [cfg.quote] + f + [cfg.quote]
  {
    assert NeedsQuotes(cfg, f);
    EscapeKeepsPlainBytes(cfg, f);
    FieldCases(cfg, f);
  }

  lemma Row65Field2(cfg: Config, f: seq<byte>)
    requires cfg == Default.(quoteAll := true) && f == [100, 101, 10, 102]
    ensures EncodeField(cfg, f) == [cfg.quote] + f + [cfg.quote]
  {
    assert NeedsQuotes(cfg, f);
    assert f == [100, 101] + [10] + [102];
    Row65Field2Escape(cfg);
    FieldCases(cfg, f);
  }

  lemma Row65Field2Escape(cfg: Config)
    requires cfg == Default.(quoteAll := true)
    ensures Escape(cfg, [100, 101] + [10] + [102]) == [100, 101] + [10] + [102]
  {
    EscapeKeepsPlainBytes(cfg, [100, 101]);
    EscapeOne(cfg, 10, [10]);
    EscapeThen(cfg, [100, 101], [10], [100, 101], [10]);
    EscapeKeepsPlainBytes(cfg, [102]);
    EscapeThen(cfg, [100, 101] + [10], [102], [100, 101] + [10], [102]);
  }

  lemma Row66Field1(cfg: Config, f: seq<byte>)
    requires cfg == Default.(quoteAll := true) && f == [117, 118, 119]
    ensures EncodeField(cfg, f) == [cfg.quote] + f + [cfg.quote]
  {
    assert NeedsQuotes(cfg, f);
    EscapeKeepsPlainBytes(cfg, f);
    FieldCases(cfg, f);
  }

  lemma Row66Field2(cfg: Config, f: seq<byte>)
    requires cfg == Default.(quoteAll := true) && f == [120, 121, 122]
    ensures EncodeField(cfg, f) == [cfg.quote] + f + [cfg.quote]
  {
    assert NeedsQuotes(cfg, f);
    EscapeKeepsPlainBytes(cfg, f);
    FieldCases(cfg, f);
  }

  lemma Row68Field1(cfg: Config, f: seq<byte>)
    requires cfg == Default.(quoteEmpty := true) && f == []
    ensures EncodeField(cfg, f) == [cfg.quote] + f + [cfg.quote]
  {
    assert NeedsQuotes(cfg, f);
    FieldCases(cfg, f);
  }

  lemma Row68Field2(cfg: Config, f: seq<byte>)
    requires cfg == Default.(quoteEmpty := true) && f == [97, 98, 99]
    ensures EncodeField(cfg, f) == f
  {
    assert !NeedsQuotes(cfg, f);
  }

  lemma Row69Field1(cfg: Config, f: seq<byte>)
    requires cfg == Default.(quoteEmpty := false) && f == []
    ensures EncodeField(cfg, f) == f
  {
    assert !NeedsQuotes(cfg, f);
  }

  lemma Row69Field2(cfg: Config, f: seq<byte>)
    requires cfg == Default.(quoteEmpty := false) && f == [97, 98, 99]
    ensures EncodeField(cfg, f) == f
  {
    assert !NeedsQuotes(cfg, f);
  }
}
