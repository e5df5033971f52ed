/**
 * The text the two Rust tools produce: `0x`-prefixed upper-case hexadecimal
 * tokens (`{:02X}` for bytes, `{:08X}` for words) joined by the separator
 * rule "`,\n` after every `perLine`-th token, `, ` otherwise, nothing after
 * the token whose index is `count - 1`".
 */
module HexText {
  import opened Bytes

  const DIGITS: string := "0123456789ABCDEF"

  function Pow16(n: nat): (p: nat)
    ensures p > 0
  {
    if n == 0 then 1 else 16 * Pow16(n - 1)
  }

  /** One upper-case hexadecimal digit. */
  function HexDigit(d: nat): char
    requires d < 16
  {
    DIGITS[d]
  }

  /** The value of a digit character; the inverse of `HexDigit`. */
  function DigitValue(c: char): nat
  {
    if '0' <= c <= '9' then c as nat - '0' as nat
    else if 'A' <= c <= 'F' then c as nat - 'A' as nat + 10
    else 0
  }

  /** `{:0nX}`: exactly `n` upper-case digits, most significant first. */
  function HexDigits(v: nat, n: nat): (r: string)
    requires v < Pow16(n)
    ensures |r| == n
    ensures forall k :: 0 <= k < |r| ==> r[k] in DIGITS
  {
    if n == 0 then "" else HexDigits(v / 16, n - 1) + [HexDigit(v % 16)]
  }

  /** Reads a string of hexadecimal digits back as a number. */
  function ParseHex(s: string): nat
  {
    if s == [] then 0 else 16 * ParseHex(s[..|s| - 1]) + DigitValue(s[|s| - 1])
  }

  /** Reading the digits of a value gives the value back. */
  lemma {:induction false} ParseHexDigits(v: nat, n: nat)
    requires v < Pow16(n)
    ensures ParseHex(HexDigits(v, n)) == v
  {
    if n > 0 {
      var s := HexDigits(v, n);
      assert s[..|s| - 1] == HexDigits(v / 16, n - 1);
      ParseHexDigits(v / 16, n - 1);
      assert DigitValue(HexDigit(v % 16)) == v % 16;
    }
  }

  /** Digits in a byte token and in a word token. */
  const BYTE_WIDTH: nat := 2
  const WORD_WIDTH: nat := 8

  lemma WidthBounds()
    ensures Pow16(BYTE_WIDTH) == 0x100 && Pow16(WORD_WIDTH) == 0x1_0000_0000
  {
  }

  /** `0x{:02X}`. */
  function ByteToken(b: byte): (r: string)
    ensures |r| == 2 + BYTE_WIDTH && r[..2] == "0x"
  {
    WidthBounds();
    "0x" + HexDigits(b, BYTE_WIDTH)
  }

  /** `0x{:08X}`. */
  function WordToken(w: u32): (r: string)
    ensures |r| == 2 + WORD_WIDTH && r[..2] == "0x"
  {
    WidthBounds();
    "0x" + HexDigits(w, WORD_WIDTH)
  }

  function ByteTokens(data: seq<byte>): (r: seq<string>)
    ensures |r| == |data| && forall i :: 0 <= i < |r| ==> r[i] == ByteToken(data[i])
  {
    seq(|data|, i requires 0 <= i < |data| => ByteToken(data[i]))
  }

  function WordTokens(words: seq<u32>): (r: seq<string>)
    ensures |r| == |words| && forall i :: 0 <= i < |r| ==> r[i] == WordToken(words[i])
  {
    seq(|words|, i requires 0 <= i < |words| => WordToken(words[i]))
  }

  /**
   * The separator written after token `i` when the loop believes there are
   * `count` tokens: nothing after the last, a line break after every
   * `perLine`-th, a comma and space otherwise.
   */
  function Separator(i: nat, count: nat, perLine: nat): (sep: string)
    requires perLine > 0
    ensures sep == "" <==> i + 1 == count
    ensures sep == ",\n" <==> i + 1 != count && i % perLine == perLine - 1
    ensures sep in {"", ", ", ",\n"}
  {
    if i == count - 1 then "" else if i % perLine == perLine - 1 then ",\n" else ", "
  }

  /**
   * Tokens `start`, `start + 1`, ... each followed by its separator, in order;
   * `count` is the number of tokens the writing loop believes it has.
   */
  function Layout(tokens: seq<string>, start: nat, count: nat, perLine: nat): string
    requires perLine > 0
    decreases |tokens|
  {
    if tokens == [] then ""
    else tokens[0] + Separator(start, count, perLine) + Layout(tokens[1..], start + 1, count, perLine)
  }

  /** Tokens with no separator at all. */
  function Concat(tokens: seq<string>): string
  {
    if tokens == [] then "" else tokens[0] + Concat(tokens[1..])
  }

  /** The byte layout: eight bytes per line, no separator after the last byte. */
  function ByteDump(data: seq<byte>): string
  {
    Layout(ByteTokens(data), 0, |data|, 8)
  }

  /** The word layout: four words per line, no separator after the last word. */
  function WordDump(words: seq<u32>): string
  {
    Layout(WordTokens(words), 0, |words|, 4)
  }

  lemma LayoutStep(tokens: seq<string>, i: nat, count: nat, perLine: nat)
    requires perLine > 0 && i < |tokens|
    ensures Layout(tokens[i..], i, count, perLine) ==
      tokens[i] + Separator(i, count, perLine) + Layout(tokens[i + 1..], i + 1, count, perLine)
  {
    assert tokens[i..][1..] == tokens[i + 1..];
  }

  /** The first `k` tokens with their separators: what a writing loop has emitted after `k` steps. */
  function LayoutPrefix(tokens: seq<string>, k: nat, count: nat, perLine: nat): string
    requires perLine > 0 && k <= |tokens|
  {
    if k == 0 then ""
    else LayoutPrefix(tokens, k - 1, count, perLine) + tokens[k - 1] + Separator(k - 1, count, perLine)
  }

  /** What a loop has emitted, followed by what it has still to emit, is the whole layout. */
  lemma {:induction false} LayoutSplit(tokens: seq<string>, k: nat, count: nat, perLine: nat)
    requires perLine > 0 && k <= |tokens|
    ensures LayoutPrefix(tokens, k, count, perLine) + Layout(tokens[k..], k, count, perLine)
      == Layout(tokens, 0, count, perLine)
  {
    if k == 0 {
      assert tokens[0..] == tokens;
    } else {
      var before := LayoutPrefix(tokens, k - 1, count, perLine);
      var step := tokens[k - 1] + Separator(k - 1, count, perLine);
      var after := Layout(tokens[k..], k, count, perLine);
      assert LayoutPrefix(tokens, k, count, perLine) == before + step;
      assert Layout(tokens[k - 1..], k - 1, count, perLine) == step + after by {
        LayoutStep(tokens, k - 1, count, perLine);
      }
      assert before + Layout(tokens[k - 1..], k - 1, count, perLine) == Layout(tokens, 0, count, perLine) by {
        LayoutSplit(tokens, k - 1, count, perLine);
      }
      assert (before + step) + after == before + (step + after);
    }
  }

  /** A loop that has emitted every token has emitted the whole layout. */
  lemma LayoutComplete(tokens: seq<string>, count: nat, perLine: nat)
    requires perLine > 0
    ensures LayoutPrefix(tokens, |tokens|, count, perLine) == Layout(tokens, 0, count, perLine)
  {
    LayoutSplit(tokens, |tokens|, count, perLine);
    assert tokens[|tokens|..] == [];
  }

  /** The first `k` tokens, concatenated. */
  function ConcatPrefix(tokens: seq<string>, k: nat): string
    requires k <= |tokens|
  {
    if k == 0 then "" else ConcatPrefix(tokens, k - 1) + tokens[k - 1]
  }

  /** A loop that has emitted every token has emitted the whole concatenation. */
  lemma {:induction false} ConcatSplit(tokens: seq<string>, k: nat)
    requires k <= |tokens|
    ensures ConcatPrefix(tokens, k) + Concat(tokens[k..]) == Concat(tokens)
  {
    if k == 0 {
      assert tokens[0..] == tokens;
    } else {
      ConcatSplit(tokens, k - 1);
      assert tokens[k - 1..][1..] == tokens[k..];
    }
  }

  /**
   * Reads back a text of `0x`-prefixed tokens of `width` digits, each followed
   * by `sepLen` separator characters (the last one possibly without).
   */
  function ParseTokens(s: string, width: nat, sepLen: nat): seq<nat>
    decreases |s|
  {
    if |s| < 2 + width then []
    else
      var next := if |s| < 2 + width + sepLen then |s| else 2 + width + sepLen;
      [ParseHex(s[2..2 + width])] + ParseTokens(s[next..], width, sepLen)
  }

  /** `tokens` are the `width`-digit tokens of `values`. */
  predicate TokensOf(tokens: seq<string>, values: seq<nat>, width: nat)
  {
    |tokens| == |values| &&
    forall k :: 0 <= k < |tokens| ==> values[k] < Pow16(width) && tokens[k] == "0x" + HexDigits(values[k], width)
  }

  /** Reading a digit token back: the value after the `0x` prefix. */
  lemma TokenDigits(token: string, v: nat, n: nat)
    requires v < Pow16(n) && token == "0x" + HexDigits(v, n)
    ensures ParseHex(token[2..2 + n]) == v
  {
    assert token[2..2 + n] == HexDigits(v, n);
    ParseHexDigits(v, n);
  }

  /** Reading a layout back starts with its first token's digits, then reads the rest of the layout. */
  lemma LayoutHead(tokens: seq<string>, width: nat, start: nat, count: nat, perLine: nat)
    requires perLine > 0 && tokens != [] && |tokens[0]| == 2 + width && start + |tokens| <= count
    ensures ParseTokens(Layout(tokens, start, count, perLine), width, 2) ==
            [ParseHex(tokens[0][2..2 + width])] + ParseTokens(Layout(tokens[1..], start + 1, count, perLine), width, 2)
  {
    var sep := Separator(start, count, perLine);
    var rest := Layout(tokens[1..], start + 1, count, perLine);
    var s := Layout(tokens, start, count, perLine);
    assert s == tokens[0] + sep + rest;
    assert s[2..2 + width] == tokens[0][2..2 + width];
    var next := if |s| < 2 + width + 2 then |s| else 2 + width + 2;
    if |tokens| == 1 {
      assert rest == "" && |sep| <= 2;
      assert s[next..] == "";
    } else {
      assert |sep| == 2;
      assert s[next..] == rest;
    }
  }

  /**
   * A layout of digit tokens reads back as the values it was made from,
   * whether or not the last token is followed by a separator.
   */
  lemma {:induction false} LayoutRoundTrip(tokens: seq<string>, values: seq<nat>, width: nat,
                                           start: nat, count: nat, perLine: nat)
    requires perLine > 0 && TokensOf(tokens, values, width) && start + |tokens| <= count
    ensures ParseTokens(Layout(tokens, start, count, perLine), width, 2) == values
    decreases |tokens|
  {
    if tokens != [] {
      assert |tokens[0]| == 2 + width;
      LayoutHead(tokens, width, start, count, perLine);
      TokenDigits(tokens[0], values[0], width);
      LayoutRoundTrip(tokens[1..], values[1..], width, start + 1, count, perLine);
      assert values == [values[0]] + values[1..];
    }
  }

  /** A concatenation of digit tokens reads back as the values it was made from. */
  lemma {:induction false} ConcatRoundTrip(tokens: seq<string>, values: seq<nat>, width: nat)
    requires TokensOf(tokens, values, width)
    ensures ParseTokens(Concat(tokens), width, 0) == values
    decreases |tokens|
  {
    if tokens != [] {
      var s := Concat(tokens);
      assert s == tokens[0] + Concat(tokens[1..]);
      assert s[2..2 + width] == tokens[0][2..2 + width];
      TokenDigits(tokens[0], values[0], width);
      assert s[2 + width..] == Concat(tokens[1..]);
      ConcatRoundTrip(tokens[1..], values[1..], width);
    }
  }

  /** When `count` is the real count, the text ends in a digit: no separator after the last token. */
  lemma {:induction false} LayoutEndsInToken(tokens: seq<string>, start: nat, count: nat, perLine: nat)
    requires perLine > 0 && tokens != [] && start + |tokens| == count
    requires forall k :: 0 <= k < |tokens| ==> |tokens[k]| > 0 && tokens[k][|tokens[k]| - 1] in DIGITS
    ensures var s := Layout(tokens, start, count, perLine); |s| > 0 && s[|s| - 1] in DIGITS
    decreases |tokens|
  {
    var sep := Separator(start, count, perLine);
    var rest := Layout(tokens[1..], start + 1, count, perLine);
    if |tokens| == 1 {
      assert rest == "" && sep == "";
    } else {
      LayoutEndsInToken(tokens[1..], start + 1, count, perLine);
    }
  }

  /**
   * When the loop believes there are more tokens than there are, every token,
   * the last one included, is followed by a two-character separator.
   */
  lemma {:induction false} LayoutEndsInSeparator(tokens: seq<string>, start: nat, count: nat, perLine: nat)
    requires perLine > 0 && tokens != [] && start + |tokens| < count
    ensures var s := Layout(tokens, start, count, perLine); |s| >= 2 && s[|s| - 2..] in {", ", ",\n"}
    decreases |tokens|
  {
    var sep := Separator(start, count, perLine);
    var rest := Layout(tokens[1..], start + 1, count, perLine);
    var s := Layout(tokens, start, count, perLine);
    if |tokens| == 1 {
      assert s == tokens[0] + sep;
      assert s[|s| - 2..] == sep;
    } else {
      LayoutEndsInSeparator(tokens[1..], start + 1, count, perLine);
      assert s == (tokens[0] + sep) + rest;
      assert s[|s| - 2..] == rest[|rest| - 2..];
    }
  }

  /** Every token of either dump ends in a digit. */
  lemma TokensEndInDigits(data: seq<byte>, words: seq<u32>)
    ensures forall k :: 0 <= k < |data| ==> ByteToken(data[k])[3] in DIGITS
    ensures forall k :: 0 <= k < |words| ==> WordToken(words[k])[9] in DIGITS
  {
    forall k | 0 <= k < |data| ensures ByteToken(data[k])[3] in DIGITS {
      assert ByteToken(data[k])[3] == HexDigits(data[k], BYTE_WIDTH)[1];
    }
    forall k | 0 <= k < |words| ensures WordToken(words[k])[9] in DIGITS {
      WidthBounds();
      assert WordToken(words[k])[9] == HexDigits(words[k], WORD_WIDTH)[7];
    }
  }

  /** The byte dump reads back as the bytes it was made from. */
  lemma ByteDumpRoundTrip(data: seq<byte>)
    ensures ParseTokens(ByteDump(data), BYTE_WIDTH, 2) == data
  {
    WidthBounds();
    LayoutRoundTrip(ByteTokens(data), data, BYTE_WIDTH, 0, |data|, 8);
  }

  /** The word dump reads back as the words it was made from. */
  lemma WordDumpRoundTrip(words: seq<u32>)
    ensures ParseTokens(WordDump(words), WORD_WIDTH, 2) == words
  {
    WidthBounds();
    LayoutRoundTrip(WordTokens(words), words, WORD_WIDTH, 0, |words|, 4);
  }

  /** Neither dump ends in a separator, and an empty input gives empty text. */
  lemma DumpsEndInADigit(data: seq<byte>, words: seq<u32>)
    ensures |data| == 0 ==> ByteDump(data) == ""
    ensures |data| > 0 ==> |ByteDump(data)| > 0 && ByteDump(data)[|ByteDump(data)| - 1] in DIGITS
    ensures |words| > 0 ==> |WordDump(words)| > 0 && WordDump(words)[|WordDump(words)| - 1] in DIGITS
  {
    TokensEndInDigits(data, words);
    if |data| > 0 {
      LayoutEndsInToken(ByteTokens(data), 0, |data|, 8);
    }
    if |words| > 0 {
      LayoutEndsInToken(WordTokens(words), 0, |words|, 4);
    }
  }
}
