# flexcsv record encoder, modelled in Dafny

flexcsv is a Go CSV writer derived from Go's `encoding/csv`. Its writer turns a batch of
records, each a list of string fields, into CSV text. A writer is configured by:

- a delimiter (`Comma`)
- a quote character (`Quote`)
- the `\r\n` line ending (`UseCRLF`)
- two quoting policies (`QuoteAll`, `QuoteEmpty`)

It buffers its output and reports a failure of the underlying sink as a sticky error
(`Flush`, `Error`).

This project models that encoder as pure functions over byte sequences and proves the
writer's behaviour about it:

| file | module | what it holds |
|---|---|---|
| `results.dfy` | `Results` | `Option` and `Result` |
| `bytes.dfy` | `Bytes` | bytes (`bv8`), the special ASCII bytes, byte counting |
| `config.dfy` | `WriterConfig` | the configuration, the errors, the delimiter validity rule, the record terminator |
| `field.dfy` | `FieldEncoding` | the per-field quoting decision (`NeedsQuotes`), escaping inside quotes (`Escape`), `EncodeField` |
| `record.dfy` | `RecordEncoding` | record assembly (`Join`, `EncodeRecord`), the batch encoder `Encode`, and the join and count properties |
| `reader.dfy` | `ReferenceReader` | a reference reader for the output, the partner of the encoder: reading back the encoding recovers the records |
| `writer.dfy` | `BufferedWriter` | the buffered writer: `Write`, `Flush`, `Error`, `WriteAll`, with the sink outcome as a parameter |
| `field_vectors.dfy` | `FieldVectors` | the field-level facts behind the test table |
| `vectors.dfy` | `WriteTestVectors` | every row of the `writeTests` table and both halves of `TestError` as lemmas |

Fields are byte sequences, not Unicode strings. One test row passes the non-UTF-8 byte
`\xb4` and the control byte `\x1c` through unchanged, and the model does the same.

The writer's implementation file (`writer.go`) is not part of this model. The behaviour
is fixed by the test table in `writer_test.go`. For quoting and escaping where the table
is silent, the model follows Go's `encoding/csv` writer, whose copyright notice the test
file's header carries. The delimiter validity rule is narrower than Go's (see "Left out"):

- **Quoting.** A field is quoted when any of these holds:
  - `QuoteAll` is set;
  - the field is empty and `QuoteEmpty` is set;
  - the field is exactly `\.`;
  - it holds the delimiter, the quote, `\r` or `\n`;
  - its first byte is white space.
- **Escaping.** Inside quotes:
  - the quote is doubled;
  - under CRLF, `\n` becomes `\r\n` and `\r` is dropped;
  - every other byte is copied.
- **Validation.** The delimiter must differ from the quote. A second rule keeps line-break
  bytes out of both; it sits in its own predicate, `NoLineBreakDelims`, because no test
  row exercises it.
- **Empty batch.** `WriteAll` of an empty batch returns no error even under an invalid
  configuration, because only `Write` checks the delimiter.
- **Sticky error.** The error of a failed flush stays set, as in Go's `bufio.Writer`, on
  which the Go writer is built: later flushes and writes return it, and `Error` keeps
  reporting it.

## Model

| member | source | states |
|---|---|---|
| WriterConfig.Terminator | writer_test.go:29-30 | the terminator is the single byte `\n` without UseCRLF and the two bytes `\r\n` with it |
| FieldEncoding.QuotedExactlyOnTrigger | writer_test.go:29-54 | a field is written wrapped in quotes if and only if a trigger holds (QuoteAll, empty under QuoteEmpty, `\.`, delimiter, quote, `\r`, `\n`, leading space), and written unchanged if and only if no trigger holds |
| FieldEncoding.EscapeDoublesQuotes | writer_test.go:31-33 | escaping doubles the number of quote bytes, for every quote other than `\r` and `\n` |
| FieldEncoding.EscapeLineBreaks | writer_test.go:38-41 | escaping keeps every `\n`; the `\r` count afterwards is the `\n` count under CRLF and the original `\r` count otherwise |
| FieldEncoding.CrlfEscapeHasNoBareCR | writer_test.go:39-40 | under CRLF every `\r` in the escaped content is followed by `\n` |
| FieldEncoding.EscapeKeepsPlainBytes | writer_test.go:53-54 | content with no quote and no line break is escaped to itself, arbitrary bytes included |
| FieldEncoding.EscapeAppend | writer_test.go:31-33 | escaping works byte by byte: it distributes over concatenation |
| RecordEncoding.JoinSeparatorCount | writer_test.go:43-51 | a join of `n` parts adds exactly `n - 1` separators to those the parts hold |
| RecordEncoding.SplitJoin | writer_test.go:36 | splitting a join at the separator gives back the parts when no part holds the separator |
| RecordEncoding.EmptyFieldsRecord | writer_test.go:42-44 | n empty fields, unquoted, are written as n-1 delimiters and the terminator |
| RecordEncoding.RecordDelimiterCount | writer_test.go:55-56 | a record of `n` fields adds exactly `n - 1` delimiters to the fields' own delimiters |
| RecordEncoding.FieldDelimiterCount | writer_test.go:54 | encoding a field, bare or quoted, keeps its delimiter bytes |
| RecordEncoding.EscapeKeepsCount | writer_test.go:35 | escaping keeps the count of every byte other than the quote and the line breaks |
| RecordEncoding.EncodeRecordsAppend | writer_test.go:37 | the output of a batch is the output of its parts in input order |
| RecordEncoding.PlainFieldRecord | writer_test.go:29 | a record of one bare field is the field and the terminator, a single `\n` without CRLF |
| RecordEncoding.QuoteAllWrapsEveryField | writer_test.go:63-66 | under QuoteAll every field is its escaped content between two quotes |
| RecordEncoding.EmptyField | writer_test.go:68-69 | an empty field is `""` under QuoteEmpty or QuoteAll and nothing otherwise |
| RecordEncoding.RejectsCommaEqualToQuote | writer_test.go:57 | a non-empty batch with delimiter equal to quote fails with InvalidDelim |
| ReferenceReader.ReadQuotedContent | writer_test.go:31-41 | quoted, escaped content reads back as the field, minus the `\r` dropped under CRLF |
| ReferenceReader.ReadEncodedField | writer_test.go:29-54 | an encoded field reads back as the field, without its `\r` bytes under CRLF |
| ReferenceReader.ReadEncodedRecord | writer_test.go:36 | an encoded record reads back as its fields, without their `\r` bytes under CRLF; an empty record reads back as one empty field |
| ReferenceReader.ReadEncodedRecords | writer_test.go:37 | the whole output of a valid writer reads back as the records, in order, without the fields' `\r` bytes under CRLF; an empty record reads back as one empty field |
| BufferedWriter.WriteRecordsBuffers | writer_test.go:85 | a healthy writer buffers exactly the encoded records and returns no error |
| BufferedWriter.WriteAllDeliversEncoding | writer_test.go:85-92 | `WriteAll` on a fresh writer and a working sink delivers `Encode`'s text, or returns `Encode`'s error with nothing delivered |
| BufferedWriter.Write | writer_test.go:57 | a write never touches the sink or the recorded error. An invalid configuration fails with InvalidDelim. After a recorded failure, a valid writer returns that failure. A valid writer with no recorded failure succeeds. A failed write changes nothing, and a successful one appends exactly the encoded record |
| BufferedWriter.Flush | writer_test.go:103-120 | a flush neither loses nor duplicates bytes: sink followed by buffer is unchanged. It returns what `Error` reports afterwards. A recorded failure is returned again and nothing changes. A healthy writer succeeds on an accepting sink. An empty buffer needs no sink call and changes nothing. A successful flush empties the buffer into the sink. A failing sink with pending bytes yields its failure |
| WriteTestVectors.Row29PlainField | writer_test.go:29 | a plain field is written bare and the record ends in `\n`: the exact output bytes (or error) of `Encode` for this row |
| WriteTestVectors.Row30PlainFieldCRLF | writer_test.go:30 | under UseCRLF the same record ends in `\r\n`: the exact output bytes (or error) of `Encode` for this row |
| WriteTestVectors.Row31QuotedQuotes | writer_test.go:31 | a field wrapped in quotes is quoted, each quote doubled: the exact output bytes (or error) of `Encode` for this row |
| WriteTestVectors.Row32InnerQuote | writer_test.go:32 | an inner quote forces quoting and is doubled: the exact output bytes (or error) of `Encode` for this row |
| WriteTestVectors.Row33SeveralQuotes | writer_test.go:33 | every one of several quotes is doubled: the exact output bytes (or error) of `Encode` for this row |
| WriteTestVectors.Row34LeadingSpace | writer_test.go:34 | a leading space forces quoting: the exact output bytes (or error) of `Encode` for this row |
| WriteTestVectors.Row35EmbeddedComma | writer_test.go:35 | an embedded delimiter forces quoting: the exact output bytes (or error) of `Encode` for this row |
| WriteTestVectors.Row36TwoFields | writer_test.go:36 | two fields are joined by one delimiter: the exact output bytes (or error) of `Encode` for this row |
| WriteTestVectors.Row37TwoRecords | writer_test.go:37 | records follow one another in input order: the exact output bytes (or error) of `Encode` for this row |
| WriteTestVectors.Row38EmbeddedLF | writer_test.go:38 | an embedded `\n` forces quoting and is kept: the exact output bytes (or error) of `Encode` for this row |
| WriteTestVectors.Row39EmbeddedLFUnderCRLF | writer_test.go:39 | under UseCRLF an embedded `\n` is written `\r\n`: the exact output bytes (or error) of `Encode` for this row |
| WriteTestVectors.Row40EmbeddedCRUnderCRLF | writer_test.go:40 | under UseCRLF an embedded `\r` is dropped: the exact output bytes (or error) of `Encode` for this row |
| WriteTestVectors.Row41EmbeddedCR | writer_test.go:41 | without UseCRLF an embedded `\r` is kept verbatim inside quotes: the exact output bytes (or error) of `Encode` for this row |
| WriteTestVectors.Row42OneEmptyField | writer_test.go:42 | one empty field is an empty line: the exact output bytes (or error) of `Encode` for this row |
| WriteTestVectors.Row43TwoEmptyFields | writer_test.go:43 | two empty fields give one delimiter: the exact output bytes (or error) of `Encode` for this row |
| WriteTestVectors.Row44ThreeEmptyFields | writer_test.go:44 | three empty fields give two delimiters: the exact output bytes (or error) of `Encode` for this row |
| WriteTestVectors.Row45EmptyEmptyA | writer_test.go:45 | empty fields are empty spans between delimiters: the exact output bytes (or error) of `Encode` for this row |
| WriteTestVectors.Row46EmptyAEmpty | writer_test.go:46 | empty fields are empty spans between delimiters: the exact output bytes (or error) of `Encode` for this row |
| WriteTestVectors.Row47EmptyAA | writer_test.go:47 | empty fields are empty spans between delimiters: the exact output bytes (or error) of `Encode` for this row |
| WriteTestVectors.Row48AEmptyEmpty | writer_test.go:48 | no delimiter is added after the last field: the exact output bytes (or error) of `Encode` for this row |
| WriteTestVectors.Row49AEmptyA | writer_test.go:49 | empty fields are empty spans between delimiters: the exact output bytes (or error) of `Encode` for this row |
| WriteTestVectors.Row50AAEmpty | writer_test.go:50 | no delimiter is added after the last field: the exact output bytes (or error) of `Encode` for this row |
| WriteTestVectors.Row51AAA | writer_test.go:51 | three plain fields, two delimiters: the exact output bytes (or error) of `Encode` for this row |
| WriteTestVectors.Row52EndOfDataMarker | writer_test.go:52 | the field `\.` is quoted: the exact output bytes (or error) of `Encode` for this row |
| WriteTestVectors.Row53RawBytes | writer_test.go:53 | non-UTF-8 and control bytes pass through a bare field unchanged: the exact output bytes (or error) of `Encode` for this row |
| WriteTestVectors.Row54LeadingCommaRawBytes | writer_test.go:54 | a leading delimiter forces quoting; raw bytes are kept inside quotes: the exact output bytes (or error) of `Encode` for this row |
| WriteTestVectors.Row55PipeDelimiter | writer_test.go:55 | a custom delimiter `|` separates fields: the exact output bytes (or error) of `Encode` for this row |
| WriteTestVectors.Row56CommaUnderPipeDelimiter | writer_test.go:56 | under delimiter `|` a `,` no longer forces quoting: the exact output bytes (or error) of `Encode` for this row |
| WriteTestVectors.Row57DelimiterEqualsQuote | writer_test.go:57 | delimiter equal to quote fails with InvalidDelim and `WriteAll` delivers nothing: the exact output bytes (or error) of `Encode` for this row |
| WriteTestVectors.Row59PipeQuote | writer_test.go:59 | a custom quote `|` wraps a field holding the delimiter: the exact output bytes (or error) of `Encode` for this row |
| WriteTestVectors.Row60PipeQuoteDoubled | writer_test.go:60 | the custom quote is doubled inside the field: the exact output bytes (or error) of `Encode` for this row |
| WriteTestVectors.Row61PipeQuotesAround | writer_test.go:61 | custom quotes at both ends are doubled and wrapped: the exact output bytes (or error) of `Encode` for this row |
| WriteTestVectors.Row63QuoteAll | writer_test.go:63 | QuoteAll quotes plain fields: the exact output bytes (or error) of `Encode` for this row |
| WriteTestVectors.Row64QuoteAllOff | writer_test.go:64 | without QuoteAll the same fields stay bare: the exact output bytes (or error) of `Encode` for this row |
| WriteTestVectors.Row65QuoteAllSpecials | writer_test.go:65 | QuoteAll still escapes the content: the exact output bytes (or error) of `Encode` for this row |
| WriteTestVectors.Row66QuoteAllTwoRecords | writer_test.go:66 | QuoteAll applies to every record: the exact output bytes (or error) of `Encode` for this row |
| WriteTestVectors.Row68QuoteEmpty | writer_test.go:68 | QuoteEmpty writes an empty field as `""`: the exact output bytes (or error) of `Encode` for this row |
| WriteTestVectors.Row69QuoteEmptyOff | writer_test.go:69 | without QuoteEmpty an empty field is an empty span: the exact output bytes (or error) of `Encode` for this row |
| WriteTestVectors.FlushToAcceptingSink | writer_test.go:103-111 | after writing `{"abc"}` and flushing to a working sink, `Error` is nil and the sink holds `abc\n` |
| WriteTestVectors.FlushToFailingSink | writer_test.go:113-120 | after writing `{"abc"}` and flushing to a failing sink, `Error` is that failure |

## Left out

- The sink is not modelled as an `io.Writer`. Each flush is told whether the sink accepted its bytes (`SinkOutcome`). Partial writes are not modelled. Neither is the automatic flush of a full buffer: the buffer is unbounded.
- `BenchmarkWrite` is left out: it measures performance, not behaviour.
- Delimiter and quote are single ASCII bytes. Multi-byte runes, and the validity rules about them, are not modelled.
- Leading white space is the ASCII white space of Go's `unicode.IsSpace`. Non-ASCII space runes at the start of a field are not modelled.
- FieldEncoding.QuotedExactlyOnTrigger: in this model, trailing white space does not force quoting, and neither does a `"` byte under a custom quote, as in Go's `encoding/csv`. The lemma's "written unchanged" direction covers both cases. No test row shows either behaviour, so whether flexcsv quotes in these cases is not established.
- Concurrency is left out: the writer is single-threaded.
- WriterConfig.ValidDelims: does not reject a NUL delimiter, nor `"` as the delimiter under a custom quote, both of which Go's `encoding/csv` rejects. flexcsv's own rule for a custom quote is in `writer.go`, which is not part of this model, and no test row exercises either case.
- WriterConfig.NoLineBreakDelims: the line-break rule on the delimiter and the quote is kept as a separate predicate, because no test row exercises it.
