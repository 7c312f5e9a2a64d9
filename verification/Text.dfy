/** Model text: validity, byte length and the control-character normalizer of src/value.rs. */
module Text {
  import opened Common

  const MAX_TEXT_BYTES: nat := 262144

  /** UTF-8 bytes of one Unicode scalar value. */
  function CharBytes(c: char): (n: nat)
    ensures 1 <= n <= 4
  {
    if c as int < 0x80 then 1
    else if c as int < 0x800 then 2
    else if c as int < 0x1_0000 then 3
    else 4
  }

  function Utf8Len(s: string): nat {
    if s == [] then 0 else CharBytes(s[0]) + Utf8Len(s[1..])
  }

  /** Unicode general category Cc. */
  predicate IsControl(c: char) {
    c as int < 0x20 || 0x7F <= c as int <= 0x9F
  }

  predicate Displayable(c: char) {
    !IsControl(c) || c == '\n' || c == '\t'
  }

  predicate AllDisplayable(s: string) {
    forall c | c in s :: Displayable(c)
  }

  predicate ValidText(s: string, maximum: nat, allowEmpty: bool) {
    (allowEmpty || s != []) && Utf8Len(s) <= maximum && AllDisplayable(s)
  }

  // ---- The specification of normalization, as two passes -------------------

  /** Deletes every LF that directly follows a CR; `afterCr` says what came before `s`. */
  function DropPairedLf(s: string, afterCr: bool): string {
    if s == [] then []
    else if afterCr && s[0] == '\n' then DropPairedLf(s[1..], false)
    else [s[0]] + DropPairedLf(s[1..], s[0] == '\r')
  }

  /** CR becomes LF, every other control except LF and TAB becomes one space. */
  function Translate(c: char): char {
    if c == '\r' then '\n' else if Displayable(c) then c else ' '
  }

  function TranslateAll(s: string): (t: string)
    ensures |t| == |s|
  {
    seq(|s|, i requires 0 <= i < |s| => Translate(s[i]))
  }

  function NormalizeFrom(s: string, afterCr: bool): string {
    TranslateAll(DropPairedLf(s, afterCr))
  }

  function Normalize(s: string): string {
    NormalizeFrom(s, false)
  }

  /** Whether a stream that ended in CR state `afterCr` and then saw `s` now ends in CR. */
  predicate EndsCr(s: string, afterCr: bool) {
    if s == [] then afterCr else s[|s| - 1] == '\r'
  }

  // ---- Byte length ----------------------------------------------------------

  lemma {:induction false} Utf8LenConcat(a: string, b: string)
    ensures Utf8Len(a + b) == Utf8Len(a) + Utf8Len(b)
  {
    if a == [] {
      assert a + b == b;
    } else {
      assert (a + b)[1..] == a[1..] + b;
      Utf8LenConcat(a[1..], b);
    }
  }

  lemma {:induction false} AsciiBytes(s: string)
    requires forall c | c in s :: c as int < 0x80
    ensures Utf8Len(s) == |s|
  {
    if s != [] {
      assert s[0] in s && forall c | c in s[1..] :: c in s;
      AsciiBytes(s[1..]);
    }
  }

  lemma PrintableText(s: string)
    requires forall i | 0 <= i < |s| :: 0x20 <= s[i] as int < 0x7F
    ensures AllDisplayable(s) && Utf8Len(s) == |s|
  {
    AsciiBytes(s);
    hide Utf8Len;
  }

  lemma {:induction false} Utf8LenTranslate(s: string)
    ensures Utf8Len(TranslateAll(s)) <= Utf8Len(s)
  {
    if s != [] {
      assert TranslateAll(s)[1..] == TranslateAll(s[1..]);
      Utf8LenTranslate(s[1..]);
    }
  }

  lemma {:induction false} Utf8LenDrop(s: string, afterCr: bool)
    ensures Utf8Len(DropPairedLf(s, afterCr)) <= Utf8Len(s)
  {
    if s != [] {
      var rest := DropPairedLf(s[1..], s[0] == '\r');
      assert ([s[0]] + rest)[1..] == rest;
      Utf8LenDrop(s[1..], false);
      Utf8LenDrop(s[1..], s[0] == '\r');
    }
  }

  /** Normalization never grows the UTF-8 byte length, whatever the carried CR state. */
  lemma NormalizeNeverGrows(s: string, afterCr: bool)
    ensures Utf8Len(NormalizeFrom(s, afterCr)) <= Utf8Len(s)
  {
    Utf8LenTranslate(DropPairedLf(s, afterCr));
    Utf8LenDrop(s, afterCr);
  }

  // ---- Validity and idempotence ---------------------------------------------

  lemma NormalizeDisplayable(s: string, afterCr: bool)
    ensures AllDisplayable(NormalizeFrom(s, afterCr))
  {
  }

  lemma {:induction false} DropFixesCrFree(s: string)
    requires AllDisplayable(s)
    ensures DropPairedLf(s, false) == s
  {
    if s != [] {
      assert s[0] in s && forall c | c in s[1..] :: c in s;
      DropFixesCrFree(s[1..]);
      assert [s[0]] + s[1..] == s;
    }
  }

  /** Displayable texts, and no others, are fixed points, so normalization is idempotent. */
  lemma NormalizeFixesValid(s: string)
    ensures Normalize(s) == s <==> AllDisplayable(s)
  {
    NormalizeDisplayable(s, false);
    if AllDisplayable(s) {
      DropFixesCrFree(s);
      forall i | 0 <= i < |s| ensures Translate(s[i]) == s[i] {
        assert s[i] in s;
      }
    }
  }

  lemma NormalizeIdempotent(s: string)
    ensures Normalize(Normalize(s)) == Normalize(s)
  {
    NormalizeDisplayable(s, false);
    NormalizeFixesValid(Normalize(s));
  }

  // ---- Streaming -------------------------------------------------------------

  lemma {:induction false} DropConcat(a: string, b: string, afterCr: bool)
    ensures DropPairedLf(a + b, afterCr) == DropPairedLf(a, afterCr) + DropPairedLf(b, EndsCr(a, afterCr))
  {
    if a == [] {
      assert a + b == b;
    } else {
      hide DropPairedLf, EndsCr;
      var first, tail := a[0], a[1..];
      var cr := !(afterCr && first == '\n') && first == '\r';
      ConcatCons(a, b);
      DropCons(a, afterCr);
      DropCons(a + b, afterCr);
      DropConcat(tail, b, cr);
      EndsCrTail(a, afterCr);
      SeqAssoc([first], DropPairedLf(tail, cr), DropPairedLf(b, EndsCr(tail, cr)));
    }
  }

  lemma ConcatCons(a: string, b: string)
    requires a != []
    ensures a + b != [] && (a + b)[0] == a[0] && (a + b)[1..] == a[1..] + b
  {
  }

  lemma EndsCrTail(s: string, afterCr: bool)
    requires s != []
    ensures EndsCr(s[1..], s[0] == '\r') == EndsCr(s, afterCr)
  {
  }

  lemma DropCons(s: string, afterCr: bool)
    requires s != []
    ensures DropPairedLf(s, afterCr) == if afterCr && s[0] == '\n' then DropPairedLf(s[1..], false)
                                        else [s[0]] + DropPairedLf(s[1..], s[0] == '\r')
  {
  }

  /** Carrying one CR flag makes normalization a homomorphism on chunks. */
  lemma NormalizeConcat(a: string, b: string, afterCr: bool)
    ensures NormalizeFrom(a + b, afterCr) == NormalizeFrom(a, afterCr) + NormalizeFrom(b, EndsCr(a, afterCr))
    ensures EndsCr(a + b, afterCr) == EndsCr(b, EndsCr(a, afterCr))
  {
    DropConcat(a, b, afterCr);
  }

  /**
   * One character at a time: a CR and a LF give a LF, a LF right after a CR
   * gives nothing, any other control but TAB a space, and the rest itself. As
   * normalization carries one flag over any cut, this determines it.
   */
  lemma NormalizeChar(c: char)
    ensures Normalize([c]) ==
      [if c == '\r' || c == '\n' then '\n' else if c == '\t' then '\t'
       else if c as int <= 0x1F || 0x7F <= c as int <= 0x9F then ' ' else c]
    ensures NormalizeFrom([c], true) == if c == '\n' then [] else Normalize([c])
  {
    assert DropPairedLf([c], false) == [c] + DropPairedLf([], c == '\r');
    assert DropPairedLf([c], true) == if c == '\n' then [] else [c];
  }

  function Flatten(chunks: seq<string>): string {
    if chunks == [] then [] else chunks[0] + Flatten(chunks[1..])
  }

  /** Normalizes chunk by chunk, carrying the flag; the streaming form of the assembler. */
  function NormalizeChunks(chunks: seq<string>, afterCr: bool): seq<string> {
    if chunks == [] then []
    else [NormalizeFrom(chunks[0], afterCr)] + NormalizeChunks(chunks[1..], EndsCr(chunks[0], afterCr))
  }

  /** For every chunking of a raw stream the streamed form equals the whole-string form. */
  lemma {:induction false} ChunkingIsIrrelevant(chunks: seq<string>, afterCr: bool)
    ensures Flatten(NormalizeChunks(chunks, afterCr)) == NormalizeFrom(Flatten(chunks), afterCr)
  {
    if chunks == [] {
      assert Flatten(NormalizeChunks(chunks, afterCr)) == [];
    } else {
      var next := EndsCr(chunks[0], afterCr);
      ChunkingIsIrrelevant(chunks[1..], next);
      NormalizeConcat(chunks[0], Flatten(chunks[1..]), afterCr);
      assert NormalizeChunks(chunks, afterCr)[1..] == NormalizeChunks(chunks[1..], next);
    }
  }

  // ---- Streaming without a carry ------------------------------------------------

  /** Tool arguments: each piece is normalized on its own, with no carried flag. */
  function NormalizePieces(chunks: seq<string>): string {
    if chunks == [] then []
    else NormalizePieces(chunks[..|chunks| - 1]) + Normalize(chunks[|chunks| - 1])
  }

  /** A CRLF is cut just before piece `i`: what came before ends in CR, however many empty pieces lie between. */
  predicate Straddles(chunks: seq<string>, i: nat)
    requires i < |chunks|
  {
    chunks[i] != [] && chunks[i][0] == '\n' && EndsCr(Flatten(chunks[..i]), false)
  }

  function StraddleCount(chunks: seq<string>): nat {
    if chunks == [] then 0
    else
      var n := |chunks| - 1;
      StraddleCount(chunks[..n]) + (if Straddles(chunks, n) then 1 else 0)
  }

  lemma {:induction false} FlattenSnoc(chunks: seq<string>, last: string)
    ensures Flatten(chunks + [last]) == Flatten(chunks) + last
  {
    if chunks == [] {
      assert [last][1..] == [];
    } else {
      assert (chunks + [last])[1..] == chunks[1..] + [last];
      FlattenSnoc(chunks[1..], last);
      assert (chunks[0] + Flatten(chunks[1..])) + last == chunks[0] + (Flatten(chunks[1..]) + last);
    }
  }

  /** Dropping the carry costs exactly one line feed at a straddled cut. */
  lemma CarryLost(b: string)
    ensures |Normalize(b)| == |NormalizeFrom(b, true)| + (if b != [] && b[0] == '\n' then 1 else 0)
    ensures (b == [] || b[0] != '\n') ==> NormalizeFrom(b, true) == Normalize(b)
  {
    if b != [] && b[0] == '\n' {
      assert DropPairedLf(b, false) == [b[0]] + DropPairedLf(b[1..], false);
    }
  }

  lemma {:induction false} PiecesGrow(chunks: seq<string>)
    ensures |NormalizePieces(chunks)| == |Normalize(Flatten(chunks))| + StraddleCount(chunks)
    ensures StraddleCount(chunks) == 0 ==> NormalizePieces(chunks) == Normalize(Flatten(chunks))
  {
    hide Normalize, NormalizeFrom;
    if chunks == [] {
      EmptyIsFixed();
    } else {
      var n := |chunks| - 1;
      var init, last := chunks[..n], chunks[n];
      PiecesGrow(init);
      FlattenSnoc(init, last);
      assert chunks == init + [last];
      NormalizeContinues(Flatten(init), last);
      CarryLost(last);
    }
  }

  lemma NormalizeContinues(a: string, b: string)
    ensures Normalize(a + b) == Normalize(a) + NormalizeFrom(b, EndsCr(a, false))
    ensures NormalizeFrom(b, false) == Normalize(b)
  {
    NormalizeConcat(a, b, false);
  }

  lemma {:induction false} StraddleCountExact(chunks: seq<string>)
    ensures StraddleCount(chunks) == 0 <==> forall i | 0 <= i < |chunks| :: !Straddles(chunks, i)
  {
    hide EndsCr, Flatten;
    if chunks != [] {
      var n := |chunks| - 1;
      StraddleCountExact(chunks[..n]);
      forall i | 0 <= i < n ensures Straddles(chunks, i) <==> Straddles(chunks[..n], i) {
        assert chunks[..n][..i] == chunks[..i];
      }
    }
  }

  /**
   * For every chunking, piecewise normalization agrees with the whole string
   * exactly when no CRLF straddles a cut.
   */
  lemma PiecewiseExact(chunks: seq<string>)
    ensures NormalizePieces(chunks) == Normalize(Flatten(chunks))
       <==> forall i | 0 <= i < |chunks| :: !Straddles(chunks, i)
  {
    hide Straddles, Normalize;
    PiecesGrow(chunks);
    StraddleCountExact(chunks);
  }

  // ---- The source's algorithms ------------------------------------------------

  /** The peeking loop of `normalize_model_text`, with its borrow shortcut. */
  method NormalizeModelText(value: string) returns (text: string)
    ensures text == Normalize(value)
  {
    if AllDisplayable(value) {
      NormalizeFixesValid(value);
      return value;
    }
    hide Normalize;
    text := [];
    var i := 0;
    assert value[0..] == value;
    while i < |value|
      invariant 0 <= i <= |value|
      invariant Normalize(value) == text + Normalize(value[i..])
    {
      var c := value[i];
      var next := i + 1;
      var out := c;
      if c == '\r' {
        if next < |value| && value[next] == '\n' {
          next := next + 1;
        }
        out := '\n';
      } else if c != '\n' && c != '\t' && IsControl(c) {
        out := ' ';
      }
      NormalizeStep(value, i, next);
      SeqAssoc(text, [out], Normalize(value[next..]));
      text := text + [out];
      i := next;
    }
    assert value[|value|..] == [];
    EmptyIsFixed();
  }

  lemma SeqAssoc(a: string, b: string, c: string)
    ensures a + (b + c) == (a + b) + c
  {
  }

  lemma EmptyIsFixed()
    ensures Normalize([]) == []
  {
  }

  /** One scanner step at `i` consumes one char, or a CRLF pair, and emits one char. */
  lemma NormalizeStep(value: string, i: nat, next: nat)
    requires i < |value|
    requires next == if value[i] == '\r' && i + 1 < |value| && value[i + 1] == '\n' then i + 2 else i + 1
    ensures Normalize(value[i..]) == [Translate(value[i])] + Normalize(value[next..])
  {
    var s := value[i..];
    assert s[1..] == value[i + 1..];
    if next == i + 2 {
      assert s[1..][1..] == value[next..];
      assert DropPairedLf(s, false) == [s[0]] + DropPairedLf(value[next..], false);
    } else if |s| > 1 && s[0] == '\r' {
      assert DropPairedLf(s[1..], true) == DropPairedLf(s[1..], false);
    }
  }

  /** `normalized_delta`: one streamed delta and the flag it leaves behind. */
  method NormalizedDelta(delta: string, endedWithCr: bool) returns (out: string, ended: bool)
    ensures out == NormalizeFrom(delta, endedWithCr)
    ensures ended == EndsCr(delta, endedWithCr)
  {
    if delta == [] {
      return delta, endedWithCr;
    }
    var text := if endedWithCr && delta[0] == '\n' then delta[1..] else delta;
    ended := delta[|delta| - 1] == '\r';
    out := NormalizeModelText(text);
    if endedWithCr && delta[0] != '\n' {
      assert DropPairedLf(delta, true) == DropPairedLf(delta, false);
    }
  }
}
