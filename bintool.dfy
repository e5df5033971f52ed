/**
 * `bintool`: prints a file as a comma-separated hexadecimal list, either
 * byte by byte (eight per line) or, with `--as-u32`, as little-endian
 * 32-bit words (four per line).
 */
module Bintool {
  import opened Wrappers
  import opened Bytes
  import opened HexText

  datatype BintoolError = FileNotFound(path: string) | IoError | NotMultipleOfFour

  /** What the program writes to standard output, and the error `main` returns, if any. */
  datatype Outcome = Outcome(stdout: string, error: Option<BintoolError>)

  /**
   * `main`. `fileExists` is the answer of `Path::exists` and `contents` that of
   * `fs::read` (`None` when the read fails).
   */
  method Run(path: string, asU32: bool, fileExists: bool, contents: Option<seq<byte>>) returns (r: Outcome)
    ensures !fileExists ==> r == Outcome("", Some(FileNotFound(path)))
    ensures fileExists && contents.None? ==> r == Outcome("", Some(IoError))
    ensures fileExists && contents.Some? && asU32 && |contents.value| % 4 != 0 ==>
      r == Outcome("", Some(NotMultipleOfFour))
    ensures fileExists && contents.Some? && asU32 && |contents.value| % 4 == 0 ==>
      r == Outcome(WordDump(Words(contents.value)), None)
    ensures fileExists && contents.Some? && !asU32 ==> r == Outcome(ByteDump(contents.value), None)
  {
    if !fileExists {
      return Outcome("", Some(FileNotFound(path)));
    }
    if contents.None? {
      return Outcome("", Some(IoError));
    }
    var data := contents.value;
    var out;
    if asU32 {
      if |data| % 4 != 0 {
        return Outcome("", Some(NotMultipleOfFour));
      }
      out := PrintWords(data);
    } else {
      out := PrintBytes(data);
    }
    return Outcome(out, None);
  }

  /** The `--as-u32` loop: each group of four bytes as a little-endian word. */
  method PrintWords(data: seq<byte>) returns (out: string)
    requires |data| % 4 == 0
    ensures out == WordDump(Words(data))
  {
    var bytes := |data|;
    var n := bytes / 4;
    ghost var words := Words(data);
    ghost var tokens := WordTokens(words);
    out := "";
    var i, pos := 0, 0;
    while i < n
      invariant 0 <= i <= n && pos == 4 * i && bytes - pos == 4 * (n - i)
      invariant out == LayoutPrefix(tokens, i, n, 4)
    {
      var chunk := data[pos..pos + 4];
      var word := LeWord(chunk[0], chunk[1], chunk[2], chunk[3]);
      var tok := WordToken(word);
      assert tok == tokens[i] by {
        WordAt(data, i);
      }
      var sep := if i == n - 1 then "" else if i % 4 == 3 then ",\n" else ", ";
      assert sep == Separator(i, n, 4);
      out := out + tok + sep;
      i, pos := i + 1, pos + 4;
    }
    LayoutComplete(tokens, n, 4);
  }

  /** The default loop: one token per byte. */
  method PrintBytes(data: seq<byte>) returns (out: string)
    ensures out == ByteDump(data)
  {
    var bytes := |data|;
    ghost var tokens := ByteTokens(data);
    out := "";
    var i := 0;
    while i < bytes
      invariant 0 <= i <= bytes
      invariant out == LayoutPrefix(tokens, i, bytes, 8)
    {
      var tok := ByteToken(data[i]);
      var sep := if i == bytes - 1 then "" else if i % 8 == 7 then ",\n" else ", ";
      assert tok == tokens[i] && sep == Separator(i, bytes, 8);
      out := out + tok + sep;
      i := i + 1;
    }
    LayoutComplete(tokens, bytes, 8);
  }
}
