/** Per-field encoding: the quoting decision and the escaping applied inside quotes. */
module FieldEncoding {
  import opened Bytes
  import opened WriterConfig

  /** The two-byte field `\.`, which is always quoted. */
  const EndOfData: seq<byte> := [BACKSLASH, DOT]

  /** The ASCII bytes Go's `unicode.IsSpace` accepts as a leading space. */
  predicate IsSpaceByte(b: byte) {
    b == SPACE || b == TAB || b == LF || b == VT || b == FF || b == CR
  }

  /** A field whose first byte is white space. */
  predicate StartsWithSpace(f: seq<byte>) {
    |f| > 0 && IsSpaceByte(f[0])
  }

  /** A field holding a byte that a reader would take as structure: delimiter, quote or line break. */
  predicate HasSpecial(cfg: Config, f: seq<byte>) {
    cfg.comma in f || cfg.quote in f || CR in f || LF in f
  }

  /** The quoting decision for one field. */
  predicate NeedsQuotes(cfg: Config, f: seq<byte>) {
    cfg.quoteAll
    || (f == [] && cfg.quoteEmpty)
    || f == EndOfData
    || HasSpecial(cfg, f)
    || StartsWithSpace(f)
  }

  /** What one byte of a quoted field becomes. */
  function EscapeByte(cfg: Config, b: byte): (e: seq<byte>) {
    if b == cfg.quote then [cfg.quote, cfg.quote]
    else if b == CR then (if cfg.useCRLF then [] else [CR])
    else if b == LF then (if cfg.useCRLF then [CR, LF] else [LF])
    else [b]
  }

  /** The content written between the quotes of a quoted field. */
  function Escape(cfg: Config, f: seq<byte>): (e: seq<byte>) {
    if f == [] then [] else EscapeByte(cfg, f[0]) + Escape(cfg, f[1..])
  }

  /** One field as written: bare when no quoting is needed, otherwise quoted and escaped. */
  function EncodeField(cfg: Config, f: seq<byte>): (r: seq<byte>) {
    if NeedsQuotes(cfg, f) then [cfg.quote] + Escape(cfg, f) + [cfg.quote] else f
  }

  /** `s` begins and ends with the quote byte `q` (and is long enough for both). */
  predicate Wrapped(s: seq<byte>, q: byte) {
    |s| >= 2 && s[0] == q && s[|s| - 1] == q
  }

  /** Every carriage return in `s` is immediately followed by a line feed. */
  predicate NoBareCR(s: seq<byte>) {
    forall i :: 0 <= i < |s| && s[i] == CR ==> i + 1 < |s| && s[i + 1] == LF
  }

  /** Quoting doubles each quote byte and adds no other quote byte. */
  lemma {:induction false} EscapeDoublesQuotes(cfg: Config, f: seq<byte>)
    requires cfg.quote != CR && cfg.quote != LF
    ensures Count(Escape(cfg, f), cfg.quote) == 2 * Count(f, cfg.quote)
  {
    if f != [] {
      CountAppend(EscapeByte(cfg, f[0]), Escape(cfg, f[1..]), cfg.quote);
      EscapeDoublesQuotes(cfg, f[1..]);
    }
  }

  /**
   * Line breaks survive escaping: every line feed stays, and a carriage return is emitted
   * only before each line feed under CRLF, or exactly where the field had one otherwise.
   */
  lemma {:induction false} EscapeLineBreaks(cfg: Config, f: seq<byte>)
    requires cfg.quote != CR && cfg.quote != LF
    ensures Count(Escape(cfg, f), LF) == Count(f, LF)
    ensures Count(Escape(cfg, f), CR) == if cfg.useCRLF then Count(f, LF) else Count(f, CR)
  {
    if f != [] {
      CountAppend(EscapeByte(cfg, f[0]), Escape(cfg, f[1..]), LF);
      CountAppend(EscapeByte(cfg, f[0]), Escape(cfg, f[1..]), CR);
      EscapeLineBreaks(cfg, f[1..]);
    }
  }

  /** Bytes other than the quote and the line breaks are copied unchanged, in order. */
  lemma {:induction false} EscapeKeepsPlainBytes(cfg: Config, f: seq<byte>)
    requires cfg.quote !in f && CR !in f && LF !in f
    ensures Escape(cfg, f) == f
  {
    if f != [] {
      assert f == [f[0]] + f[1..];
      EscapeKeepsPlainBytes(cfg, f[1..]);
    }
  }

  /** Escaping works byte by byte, so it distributes over concatenation. */
  lemma {:induction false} EscapeAppend(cfg: Config, a: seq<byte>, b: seq<byte>)
    ensures Escape(cfg, a + b) == Escape(cfg, a) + Escape(cfg, b)
  {
    if a != [] {
      assert (a + b)[1..] == a[1..] + b;
      EscapeAppend(cfg, a[1..], b);
    } else {
      assert a + b == b;
    }
  }

  lemma NoBareCRAppend(s: seq<byte>, t: seq<byte>)
    requires NoBareCR(s) && NoBareCR(t)
    requires s == [] || s[|s| - 1] != CR
    ensures NoBareCR(s + t)
  {
    forall i | 0 <= i < |s + t| && (s + t)[i] == CR
      ensures i + 1 < |s + t| && (s + t)[i + 1] == LF
    {
      if i < |s| {
        assert s[i] == CR;
      } else {
        assert t[i - |s|] == CR;
      }
    }
  }

  /** Under CRLF the quoted content holds no lone carriage return: each one starts a `\r\n`. */
  lemma {:induction false} CrlfEscapeHasNoBareCR(cfg: Config, f: seq<byte>)
    requires cfg.useCRLF && cfg.quote != CR && cfg.quote != LF
    ensures NoBareCR(Escape(cfg, f))
  {
    if f != [] {
      CrlfEscapeHasNoBareCR(cfg, f[1..]);
      NoBareCRAppend(EscapeByte(cfg, f[0]), Escape(cfg, f[1..]));
    }
  }

  /**
   * The field is written quoted exactly when one of the triggers holds, and written
   * unchanged exactly when none does.
   */
  lemma QuotedExactlyOnTrigger(cfg: Config, f: seq<byte>)
    requires cfg.quote != CR && cfg.quote != LF
    ensures Wrapped(EncodeField(cfg, f), cfg.quote) <==>
      (cfg.quoteAll || (f == [] && cfg.quoteEmpty) || f == EndOfData
       || cfg.comma in f || cfg.quote in f || CR in f || LF in f || StartsWithSpace(f))
    ensures EncodeField(cfg, f) == f <==> !NeedsQuotes(cfg, f)
  {
    var r := EncodeField(cfg, f);
    if NeedsQuotes(cfg, f) {
      EscapeDoublesQuotes(cfg, f);
      CountAppend([cfg.quote], Escape(cfg, f), cfg.quote);
      CountAppend([cfg.quote] + Escape(cfg, f), [cfg.quote], cfg.quote);
      assert Count(r, cfg.quote) == 2 + 2 * Count(f, cfg.quote);
    } else {
      assert r == f;
    }
  }
}
