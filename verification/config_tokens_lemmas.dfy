/** The token stream gives back what a configuration file was written with: for
    a file made of item lines (optional indentation, the item's text, an optional
    comment after whitespace) and blank lines, with or without a line feed after
    the last line, the tokens are the items' texts in order. */
module ConfigTokensLemmas {
  import opened Fallible
  import opened ConfigTokens

  /** One line of a configuration file, without its terminator. */
  datatype FileLine =
    | ItemLine(indent: string, item: string, comment: string)
    | BlankLine(spaces: string)
  {
    /** The text of the line. */
    function Text(): string
    {
      match this
      case ItemLine(indent, item, comment) => indent + item + comment
      case BlankLine(spaces) => spaces
    }

    /** A line that can be written as such: no line feed inside, whitespace where
        whitespace belongs, and a comment separated from the item. */
    predicate Valid()
    {
      '\n' !in Text() &&
      match this
      case ItemLine(indent, item, comment) =>
        Blank(indent) && IsWord(item) && (comment == [] || IsWhitespace(comment[0]))
      case BlankLine(spaces) => Blank(spaces)
    }
  }

  /** The file text: every line followed by a line feed. */
  function Render(lines: seq<FileLine>): string
  {
    if lines == [] then [] else lines[0].Text() + "\n" + Render(lines[1..])
  }

  /** The file text, where the last line is followed by a line feed only when
      `terminated` holds. */
  function RenderFile(lines: seq<FileLine>, terminated: bool): string
  {
    if terminated || lines == [] then Render(lines)
    else Render(lines[..|lines| - 1]) + lines[|lines| - 1].Text()
  }

  /** The item texts of the item lines, in order. */
  function Items(lines: seq<FileLine>): seq<string>
  {
    if lines == [] then []
    else if lines[0].ItemLine? then [lines[0].item] + Items(lines[1..])
    else Items(lines[1..])
  }

  /** Each line's text, with a trailing carriage return dropped. */
  function Texts(lines: seq<FileLine>): seq<string>
  {
    if lines == [] then [] else [StripCr(lines[0].Text())] + Texts(lines[1..])
  }

  /** Leading whitespace in front of a non-whitespace character is all that
      `TrimStart` removes. */
  lemma {:induction false} TrimStartBlankPrefix(blank: string, rest: string)
    requires Blank(blank)
    requires rest != [] && !IsWhitespace(rest[0])
    ensures TrimStart(blank + rest) == rest
    decreases |blank|
  {
    if blank == [] {
      assert blank + rest == rest;
    } else {
      assert (blank + rest)[0] == blank[0];
      assert (blank + rest)[1..] == blank[1..] + rest;
      TrimStartBlankPrefix(blank[1..], rest);
    }
  }

  /** A word followed by nothing or by whitespace is what `TakeWord` takes. */
  lemma {:induction false} TakeWordOfWord(word: string, rest: string)
    requires forall i :: 0 <= i < |word| ==> !IsWhitespace(word[i])
    requires rest == [] || IsWhitespace(rest[0])
    ensures TakeWord(word + rest) == word
    decreases |word|
  {
    if word == [] {
      assert word + rest == rest;
    } else {
      assert (word + rest)[0] == word[0];
      assert (word + rest)[1..] == word[1..] + rest;
      TakeWordOfWord(word[1..], rest);
      assert [word[0]] + word[1..] == word;
    }
  }

  /** The first word of indentation, an item and a comment is the item. */
  lemma FirstWordOfParts(indent: string, item: string, comment: string)
    requires Blank(indent) && IsWord(item)
    requires comment == [] || IsWhitespace(comment[0])
    ensures FirstWord(indent + item + comment) == Some(item)
  {
    var t := item + comment;
    assert t[0] == item[0];
    TrimStartBlankPrefix(indent, t);
    assert indent + item + comment == indent + t;
    assert TrimStart(indent + item + comment) == t;
    TakeWordOfWord(item, comment);
  }

  /** The first word of an item line is its item, whether or not the line lost
      a trailing carriage return. */
  lemma FirstWordOfItemLine(l: FileLine)
    requires l.ItemLine? && l.Valid()
    ensures FirstWord(StripCr(l.Text())) == Some(l.item)
  {
    var text := l.Text();
    if StripCr(text) == text {
      FirstWordOfParts(l.indent, l.item, l.comment);
    } else {
      var comment := l.comment;
      assert text[|text| - 1] == '\r';
      assert comment != [];
      var short := comment[..|comment| - 1];
      assert StripCr(text) == l.indent + l.item + short;
      FirstWordOfParts(l.indent, l.item, short);
    }
  }

  /** A blank line has no first word, with or without its carriage return. */
  lemma FirstWordOfBlankLine(l: FileLine)
    requires l.BlankLine? && l.Valid()
    ensures FirstWord(StripCr(l.Text())) == None
  {
    assert Blank(StripCr(l.Text()));
  }

  /** A line without a line feed, a line feed, then the rest: the line (less a
      trailing carriage return) comes first. */
  lemma LinesCons(first: string, tail: string)
    requires '\n' !in first
    ensures Lines(first + "\n" + tail) == [StripCr(first)] + Lines(tail)
  {
    var text := first + "\n" + tail;
    assert text[|first|] == '\n';
    assert text[..|first|] == first;
    assert IndexOf(text, '\n') == |first|;
    assert text[|first| + 1..] == tail;
  }

  /** Cutting the rendered lines, followed by an unterminated rest, gives back
      the lines' texts and then the lines of the rest. */
  lemma {:induction false} LinesOfRenderThen(lines: seq<FileLine>, rest: string)
    requires forall k :: 0 <= k < |lines| ==> lines[k].Valid()
    requires '\n' !in rest
    ensures Lines(Render(lines) + rest) == Texts(lines) + Lines(rest)
  {
    if lines == [] {
      assert Render(lines) + rest == rest;
    } else {
      var first, tail := lines[0].Text(), Render(lines[1..]) + rest;
      assert lines[0].Valid();
      RenderConsThen(lines, rest);
      LinesCons(first, tail);
      LinesOfRenderThen(lines[1..], rest);
      TextsConsThen(lines, Lines(rest));
    }
  }

  /** Rendering a nonempty list, followed by a rest, unfolds once. */
  lemma RenderConsThen(lines: seq<FileLine>, rest: string)
    requires lines != []
    ensures Render(lines) + rest == lines[0].Text() + "\n" + (Render(lines[1..]) + rest)
  {
    AppendAssoc(lines[0].Text() + "\n", Render(lines[1..]), rest);
  }

  /** The texts of a nonempty list, followed by more lines, unfold once. */
  lemma TextsConsThen(lines: seq<FileLine>, more: seq<string>)
    requires lines != []
    ensures Texts(lines) + more == [StripCr(lines[0].Text())] + (Texts(lines[1..]) + more)
  {
    AppendAssoc([StripCr(lines[0].Text())], Texts(lines[1..]), more);
  }

  /** Concatenation is associative. */
  lemma AppendAssoc<T>(a: seq<T>, b: seq<T>, c: seq<T>)
    ensures (a + b) + c == a + (b + c)
  {
  }

  /** Cutting the rendered file into lines gives back the lines' texts. */
  lemma LinesOfRender(lines: seq<FileLine>)
    requires forall k :: 0 <= k < |lines| ==> lines[k].Valid()
    ensures Lines(Render(lines)) == Texts(lines)
  {
    LinesOfRenderThen(lines, []);
    assert Render(lines) + [] == Render(lines);
  }

  /** The first words of the lines' texts are the items. */
  lemma {:induction false} FirstWordsOfTexts(lines: seq<FileLine>)
    requires forall k :: 0 <= k < |lines| ==> lines[k].Valid()
    ensures FirstWords(Texts(lines)) == Items(lines)
  {
    if lines != [] {
      var texts := Texts(lines);
      assert texts[0] == StripCr(lines[0].Text()) && texts[1..] == Texts(lines[1..]);
      assert lines[0].Valid();
      if lines[0].ItemLine? {
        FirstWordOfItemLine(lines[0]);
      } else {
        FirstWordOfBlankLine(lines[0]);
      }
      FirstWordsOfTexts(lines[1..]);
    }
  }

  /** Taking first words distributes over concatenation of line lists. */
  lemma {:induction false} FirstWordsAppend(a: seq<string>, b: seq<string>)
    ensures FirstWords(a + b) == FirstWords(a) + FirstWords(b)
  {
    if a != [] {
      assert (a + b)[0] == a[0] && (a + b)[1..] == a[1..] + b;
      FirstWordsAppend(a[1..], b);
    } else {
      assert a + b == b;
    }
  }

  /** The items of two concatenated line lists. */
  lemma {:induction false} ItemsAppend(a: seq<FileLine>, b: seq<FileLine>)
    ensures Items(a + b) == Items(a) + Items(b)
  {
    if a != [] {
      assert (a + b)[0] == a[0] && (a + b)[1..] == a[1..] + b;
      ItemsAppend(a[1..], b);
    } else {
      assert a + b == b;
    }
  }

  /** An unterminated last line, whose carriage return (if any) is kept, yields
      its item, or nothing if it is blank. */
  lemma LastLineTokens(l: FileLine)
    requires l.Valid()
    ensures FirstWords(Lines(l.Text())) == Items([l])
  {
    var t := l.Text();
    assert [l][1..] == [];
    if l.ItemLine? {
      FirstWordOfParts(l.indent, l.item, l.comment);
      assert t != [];
      assert Lines(t) == [t];
      assert FirstWords([t]) == [l.item] + FirstWords([]);
    } else if t != [] {
      assert Blank(t);
      assert Lines(t) == [t];
      assert FirstWords([t]) == FirstWords([]);
    }
  }

  /** A nonempty sequence is its prefix followed by its last element. */
  lemma InitAndLast<T>(s: seq<T>)
    requires s != []
    ensures s == s[..|s| - 1] + [s[|s| - 1]]
  {
  }

  /** The tokens of rendered lines followed by an unterminated last line. */
  lemma TokensOfRenderThen(init: seq<FileLine>, last: FileLine)
    requires forall k :: 0 <= k < |init| ==> init[k].Valid()
    requires last.Valid()
    ensures Tokens(Render(init) + last.Text()) == Items(init + [last])
  {
    LinesOfRenderThen(init, last.Text());
    FirstWordsOfTexts(init);
    FirstWordsAppend(Texts(init), Lines(last.Text()));
    LastLineTokens(last);
    ItemsAppend(init, [last]);
  }

  /** The round trip: the tokens of a written configuration file are the items it
      was written with, whether or not its last line ends in a line feed. */
  lemma TokensOfRender(lines: seq<FileLine>, terminated: bool)
    requires forall k :: 0 <= k < |lines| ==> lines[k].Valid()
    ensures Tokens(RenderFile(lines, terminated)) == Items(lines)
  {
    if terminated || lines == [] {
      LinesOfRender(lines);
      FirstWordsOfTexts(lines);
    } else {
      var init, last := lines[..|lines| - 1], lines[|lines| - 1];
      InitAndLast(lines);
      TokensOfRenderThen(init, last);
    }
  }
}
