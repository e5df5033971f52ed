/**
 * The writers of `compshdr`, which compiles a shader and writes the result
 * as raw SPIR-V, as a byte list, as a word list or as SPIR-V assembly text.
 * The compiler itself is foreign: its artifact is an input here.
 */
module Compshdr {
  import opened Bytes
  import opened HexText

  datatype OutputMode = Binary | U8List | U32List | Assembly

  /** What the compiler is asked to produce. */
  datatype Target = SpirvBinary | SpirvAssembly

  /** `OutputMode::is_binary`: every mode but `Assembly`. */
  function IsBinary(mode: OutputMode): bool
  {
    !mode.Assembly?
  }

  /** The compiler call `main` makes: `compile_into_spirv` or `compile_into_spirv_assembly`. */
  function CompileTarget(mode: OutputMode): (t: Target)
    ensures t == SpirvAssembly <==> mode == Assembly
  {
    if IsBinary(mode) then SpirvBinary else SpirvAssembly
  }

  /** What ends up in the sink: raw bytes or text. */
  datatype Output = RawBytes(bytes: seq<byte>) | Text(text: string)

  /** `write_as_binary`: the artifact's bytes, unchanged. */
  method WriteAsBinary(data: seq<byte>) returns (out: seq<byte>)
    ensures out == data
  {
    out := [];
    var i := 0;
    while i < |data|
      invariant 0 <= i <= |data| && out == data[..i]
    {
      out := out + [data[i]];
      i := i + 1;
    }
    assert data[..i] == data;
  }

  /** `write_as_u8`: one `0x{:02X}` token per byte and no separator at all. */
  method WriteAsU8(data: seq<byte>) returns (out: string)
    ensures out == Concat(ByteTokens(data))
  {
    ghost var tokens := ByteTokens(data);
    out := "";
    var i := 0;
    while i < |data|
      invariant 0 <= i <= |data|
      invariant out == ConcatPrefix(tokens, i)
    {
      out := out + ByteToken(data[i]);
      i := i + 1;
    }
    ConcatSplit(tokens, i);
    assert tokens[i..] == [];
  }

  /**
   * `write_as_u32` as written: the "last word" test compares the index with
   * `data.len() * 4 - 1`, a byte count, although the loop runs over words.
   */
  method WriteAsU32AsWritten(words: seq<u32>) returns (out: string)
    ensures out == Layout(WordTokens(words), 0, |words| * 4, 4)
  {
    ghost var tokens := WordTokens(words);
    var count := |words| * 4;
    out := "";
    var i := 0;
    while i < |words|
      invariant 0 <= i <= |words|
      invariant out == LayoutPrefix(tokens, i, count, 4)
    {
      var tok := WordToken(words[i]);
      var sep := if i == count - 1 then "" else if i % 4 == 3 then ",\n" else ", ";
      assert tok == tokens[i] && sep == Separator(i, count, 4);
      out := out + (tok + sep);
      i := i + 1;
    }
    LayoutComplete(tokens, count, 4);
  }

  /** `write_as_u32` with the word count as the bound: the same layout as `bintool --as-u32`. */
  method WriteAsU32(words: seq<u32>) returns (out: string)
    ensures out == WordDump(words)
  {
    ghost var tokens := WordTokens(words);
    var count := |words|;
    out := "";
    var i := 0;
    while i < |words|
      invariant 0 <= i <= |words|
      invariant out == LayoutPrefix(tokens, i, count, 4)
    {
      var tok := WordToken(words[i]);
      var sep := if i == count - 1 then "" else if i % 4 == 3 then ",\n" else ", ";
      assert tok == tokens[i] && sep == Separator(i, count, 4);
      out := out + (tok + sep);
      i := i + 1;
    }
    LayoutComplete(tokens, count, 4);
  }

  /** `write_as_asm`: exactly `bintool`'s byte layout. */
  method WriteAsAsm(data: seq<byte>) returns (out: string)
    ensures out == ByteDump(data)
  {
    ghost var tokens := ByteTokens(data);
    var count := |data|;
    out := "";
    var i := 0;
    while i < |data|
      invariant 0 <= i <= |data|
      invariant out == LayoutPrefix(tokens, i, count, 8)
    {
      var tok := ByteToken(data[i]);
      var sep := if i == count - 1 then "" else if i % 8 == 7 then ",\n" else ", ";
      assert tok == tokens[i] && sep == Separator(i, count, 8);
      out := out + (tok + sep);
      i := i + 1;
    }
    LayoutComplete(tokens, count, 8);
  }

  /**
   * The dispatch at the end of `main`. `artifact` is `as_binary_u8()`; a
   * binary artifact is whole SPIR-V words, which `as_binary()` reads. The word
   * list goes through `write_as_u32` as written; `WriteAsU32` is its corrected
   * form.
   */
  method Write(mode: OutputMode, artifact: seq<byte>) returns (out: Output)
    requires IsBinary(mode) ==> |artifact| % 4 == 0
    ensures mode == Binary ==> out == RawBytes(artifact)
    ensures mode == U8List ==> out == Text(Concat(ByteTokens(artifact)))
    ensures mode == U32List ==> out == Text(Layout(WordTokens(Words(artifact)), 0, |Words(artifact)| * 4, 4))
    ensures mode == Assembly ==> out == Text(ByteDump(artifact))
  {
    match mode
    case Binary =>
      var b := WriteAsBinary(artifact);
      out := RawBytes(b);
    case U8List =>
      var t := WriteAsU8(artifact);
      out := Text(t);
    case U32List =>
      var t := WriteAsU32AsWritten(Words(artifact));
      out := Text(t);
    case Assembly =>
      var t := WriteAsAsm(artifact);
      out := Text(t);
  }

  /** The byte list reads back as the artifact: four characters per byte. */
  lemma U8ListRoundTrip(data: seq<byte>)
    ensures ParseTokens(Concat(ByteTokens(data)), BYTE_WIDTH, 0) == data
  {
    WidthBounds();
    ConcatRoundTrip(ByteTokens(data), data, BYTE_WIDTH);
  }

  /** As written, every non-empty word list ends in a separator, unlike `bintool`'s. */
  lemma U32AsWrittenEndsInSeparator(words: seq<u32>)
    requires |words| > 0
    ensures var s := Layout(WordTokens(words), 0, |words| * 4, 4);
      |s| >= 2 && s[|s| - 2..] in {", ", ",\n"}
  {
    var tokens := WordTokens(words);
    assert |tokens| == |words| < |words| * 4;
    LayoutEndsInSeparator(tokens, 0, |words| * 4, 4);
  }

  /**
   * A single-input witness of the `write_as_u32` finding, the smallest input
   * that shows it: the single word 0 is written with a trailing `, `.
   */
  lemma U32AsWrittenSingleWord()
    ensures Layout(WordTokens([0]), 0, 4, 4) == "0x00000000, "
    ensures WordDump([0]) == "0x00000000"
  {
    WidthBounds();
    assert HexDigits(0, WORD_WIDTH) == "00000000";
    assert WordToken(0) == "0x00000000";
    var tokens := WordTokens([0]);
    assert tokens[0] == "0x00000000" && tokens[1..] == [];
    assert Separator(0, 4, 4) == ", " && Separator(0, 1, 4) == "";
  }

  /** Both word writers still write the same words, in order; only the ending differs. */
  lemma U32WritersAgreeOnWords(words: seq<u32>)
    ensures ParseTokens(Layout(WordTokens(words), 0, |words| * 4, 4), WORD_WIDTH, 2) == words
    ensures ParseTokens(WordDump(words), WORD_WIDTH, 2) == words
  {
    WidthBounds();
    LayoutRoundTrip(WordTokens(words), words, WORD_WIDTH, 0, |words| * 4, 4);
    WordDumpRoundTrip(words);
  }
}
