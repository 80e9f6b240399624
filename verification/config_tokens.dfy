/** The token stream of the simulator's configuration file (`Configuration::load`
    in `config.rs`, with the file reading removed): the file is cut into lines, and
    each line contributes its first whitespace-delimited chunk; blank lines
    contribute nothing. Strings are sequences of Unicode scalar values. */
module ConfigTokens {
  import opened Fallible

  /** Rust's `char::is_whitespace`: the characters with the Unicode White_Space property. */
  predicate IsWhitespace(c: char)
  {
    || '\t' <= c <= '\r'
    || c == ' '
    || c == '\U{85}'
    || c == '\U{A0}'
    || c == '\U{1680}'
    || '\U{2000}' <= c <= '\U{200A}'
    || c == '\U{2028}'
    || c == '\U{2029}'
    || c == '\U{202F}'
    || c == '\U{205F}'
    || c == '\U{3000}'
  }

  /** A string made only of whitespace (the empty string included). */
  predicate Blank(s: string)
  {
    forall i :: 0 <= i < |s| ==> IsWhitespace(s[i])
  }

  /** A nonempty string without any whitespace: what `split_whitespace` yields. */
  predicate IsWord(s: string)
  {
    |s| > 0 && forall i :: 0 <= i < |s| ==> !IsWhitespace(s[i])
  }

  /** Position of the first occurrence of `c` in `s`. */
  function IndexOf(s: string, c: char): (i: nat)
    requires c in s
    ensures i < |s| && s[i] == c && c !in s[..i]
  {
    if s[0] == c then 0 else IndexOf(s[1..], c) + 1
  }

  /** Drops the carriage return of a CRLF line ending. */
  function StripCr(line: string): (r: string)
    ensures |line| > 0 && line[|line| - 1] == '\r' ==> line == r + ['\r']
    ensures (|line| == 0 || line[|line| - 1] != '\r') ==> r == line
  {
    if |line| > 0 && line[|line| - 1] == '\r' then line[..|line| - 1] else line
  }

  /** `str::lines`: the text cut at each `\n` (a preceding `\r` is removed);
      the final line needs no terminator, and a final terminator does not start
      an extra empty line. */
  function Lines(text: string): (lines: seq<string>)
    ensures forall i :: 0 <= i < |lines| ==> '\n' !in lines[i]
    ensures |lines| <= |text|
    decreases |text|
  {
    if text == [] then []
    else if '\n' !in text then [text]
    else
      var i := IndexOf(text, '\n');
      assert forall j :: 0 <= j < i ==> text[..i][j] == text[j];
      [StripCr(text[..i])] + Lines(text[i + 1..])
  }

  /** The leading whitespace of `s` removed. */
  function TrimStart(s: string): (r: string)
    ensures |r| <= |s| && r == s[|s| - |r|..]
    ensures Blank(s[..|s| - |r|])
    ensures r == [] || !IsWhitespace(r[0])
  {
    if s != [] && IsWhitespace(s[0]) then
      TrimStart(s[1..])
    else s
  }

  /** The longest prefix of `s` without whitespace. */
  function TakeWord(s: string): (w: string)
    ensures |w| <= |s| && w == s[..|w|]
    ensures forall i :: 0 <= i < |w| ==> !IsWhitespace(w[i])
    ensures |w| == |s| || IsWhitespace(s[|w|])
  {
    if s == [] || IsWhitespace(s[0]) then [] else [s[0]] + TakeWord(s[1..])
  }

  /** `line.split_whitespace().next()`: the first whitespace-delimited chunk of a
      line, absent exactly when the line is blank. */
  function FirstWord(line: string): (r: Option<string>)
    ensures r.None? <==> Blank(line)
    ensures r.Some? ==> IsWord(r.value)
  {
    var t := TrimStart(line);
    if t == [] then None
    else
      var w := TakeWord(t);
      Some(w)
  }

  /** `filter_map` of `FirstWord` over the lines. */
  function FirstWords(lines: seq<string>): (tokens: seq<string>)
    ensures |tokens| <= |lines|
    ensures forall i :: 0 <= i < |tokens| ==> IsWord(tokens[i])
  {
    if lines == [] then []
    else
      match FirstWord(lines[0])
      case None => FirstWords(lines[1..])
      case Some(w) => [w] + FirstWords(lines[1..])
  }

  /** The configuration items of a file, in order. */
  function Tokens(text: string): (tokens: seq<string>)
    ensures forall i :: 0 <= i < |tokens| ==> IsWord(tokens[i])
  {
    FirstWords(Lines(text))
  }
}
