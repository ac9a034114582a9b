/** The writer's configuration (the exported fields of flexcsv's Writer) and its errors. */
module WriterConfig {
  import opened Bytes

  /**
   * `comma` separates fields, `quote` wraps quoted fields, `useCRLF` selects the `\r\n`
   * line ending, `quoteAll` quotes every field, `quoteEmpty` quotes empty fields.
   */
  datatype Config = Config(comma: Ascii, quote: Ascii, useCRLF: bool, quoteAll: bool, quoteEmpty: bool)

  /** What a fresh writer starts with: `,` and `"`, `\n` endings, minimal quoting. */
  const Default: Config := Config(COMMA, DQUOTE, false, false, false)

  /** The errors the writer reports: a bad delimiter, or the failure a sink returned on flush. */
  datatype WriteError = InvalidDelim | SinkFailure(reason: string)

  /** The validity rule the tests exercise: delimiter and quote must differ. */
  predicate DistinctDelims(cfg: Config) {
    cfg.comma != cfg.quote
  }

  /**
   * A further rule, not exercised by any test row: neither the delimiter nor the quote
   * may be a line-break byte.
   */
  predicate NoLineBreakDelims(cfg: Config) {
    cfg.comma != CR && cfg.comma != LF && cfg.quote != CR && cfg.quote != LF
  }

  /** The configuration every write checks before producing output. */
  predicate ValidDelims(cfg: Config) {
    DistinctDelims(cfg) && NoLineBreakDelims(cfg)
  }

  /** The record terminator: `\r\n` under CRLF, otherwise `\n`. */
  function Terminator(cfg: Config): (t: seq<byte>)
    ensures 1 <= |t| && t[|t| - 1] == LF
    ensures |t| == if cfg.useCRLF then 2 else 1
    ensures cfg.useCRLF ==> t[0] == CR
  {
    if cfg.useCRLF then [CR, LF] else [LF]
  }
}
