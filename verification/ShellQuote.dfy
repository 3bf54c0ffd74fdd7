/** Quoting of a command line for `/bin/sh -c`, against the shell's own reading of it. */
module ShellQuote {
  import opened Common

  // ---------- quoting ----------

  const SPECIAL := "\"'\\$`!*?[](){}|&;<> \t\n"

  predicate NeedsQuotes(s: string) {
    exists i :: 0 <= i < |s| && s[i] in SPECIAL
  }

  /** Every single quote closes the quotes, stands escaped, and opens them again. */
  function ReplaceQuotes(s: string): string {
    if s == "" then ""
    else (if s[0] == '\'' then "'\\''" else [s[0]]) + ReplaceQuotes(s[1..])
  }

  function ShellEscape(s: string): string {
    if !NeedsQuotes(s) then s else "'" + ReplaceQuotes(s) + "'"
  }

  function JoinBlank(words: seq<string>): string {
    if words == [] then ""
    else if |words| == 1 then words[0]
    else words[0] + " " + JoinBlank(words[1..])
  }

  function EscapeAll(args: seq<string>): seq<string> {
    if args == [] then [] else [ShellEscape(args[0])] + EscapeAll(args[1..])
  }

  method QuoteArgs(args: seq<string>) returns (quoted: seq<string>)
    ensures quoted == EscapeAll(args)
  {
    quoted := [];
    for i := 0 to |args|
      invariant quoted + EscapeAll(args[i..]) == EscapeAll(args)
    {
      assert args[i..] == [args[i]] + args[i + 1..];
      quoted := quoted + [ShellEscape(args[i])];
    }
  }

  // ---------- the shell's reading ----------

  /** The characters that the shell does not read as themselves when they stand unquoted (POSIX XCU section 2.2). */
  const METACHARACTERS := "|&;<>()$`\\\"' \t\n*?["

  /** Outside quotes, or between two single quotes. */
  datatype Mode = Plain | Quoted

  /**
   Splits a line into words: blanks separate, a backslash keeps the next
   character, single quotes keep everything up to the closing one (POSIX XCU
   sections 2.2.1 and 2.2.2). `word` is the word being read, if one has begun.
   Unquoted characters with another meaning are outside this fragment.
   */
  function Split(line: string, mode: Mode, word: Option<string>): Option<seq<string>> {
    if line == "" then
      if mode == Quoted then None
      else Some(if word.Some? then [word.value] else [])
    else
      var c, rest := line[0], line[1..];
      if mode == Quoted then
        if c == '\'' then Split(rest, Plain, word) else Split(rest, Quoted, Some(Grown(word, c)))
      else if c == ' ' || c == '\t' then
        var words := Split(rest, Plain, None);
        if words.None? || word.None? then words else Some([word.value] + words.value)
      else if c == '\'' then Split(rest, Quoted, Some(Begun(word)))
      else if c == '\\' then
        if rest == "" then None
        else if rest[0] == '\n' then Split(rest[1..], Plain, word)
        else Split(rest[1..], Plain, Some(Grown(word, rest[0])))
      else if c in METACHARACTERS then None
      else Split(rest, Plain, Some(Grown(word, c)))
  }

  function Begun(word: Option<string>): string {
    if word.Some? then word.value else ""
  }

  function Grown(word: Option<string>, c: char): string {
    Begun(word) + [c]
  }

  function ShellWords(line: string): Option<seq<string>> {
    Split(line, Plain, None)
  }

  // ---------- the round trip ----------

  lemma SplitPlainChar(c: char, rest: string, word: Option<string>)
    requires c !in SPECIAL
    ensures Split([c] + rest, Plain, word) == Split(rest, Plain, Some(Grown(word, c)))
  {
    assert ([c] + rest)[1..] == rest;
    NotSpecial(c);
  }

  lemma SplitOpenQuote(rest: string, word: Option<string>)
    ensures Split("'" + rest, Plain, word) == Split(rest, Quoted, Some(Begun(word)))
  {
    assert ("'" + rest)[1..] == rest;
  }

  lemma SplitQuotedChar(c: char, rest: string, word: string)
    ensures Split([c] + rest, Quoted, Some(word)) ==
            if c == '\'' then Split(rest, Plain, Some(word)) else Split(rest, Quoted, Some(word + [c]))
  {
    assert ([c] + rest)[1..] == rest;
  }

  lemma SplitEscapedQuote(rest: string, word: string)
    ensures Split("\\'" + rest, Plain, Some(word)) == Split(rest, Plain, Some(word + ['\'']))
  {
    var line := "\\'" + rest;
    assert line[0] == '\\' && line[1..] == "'" + rest && line[1..][1..] == rest;
  }

  lemma SplitBlank(rest: string, word: Option<string>)
    ensures var words := Split(rest, Plain, None);
            Split(" " + rest, Plain, word) ==
            if words.None? || word.None? then words else Some([word.value] + words.value)
  {
    assert (" " + rest)[1..] == rest;
  }

  lemma {:induction false} ReadPlain(s: string, rest: string, word: Option<string>)
    requires !NeedsQuotes(s)
    ensures Split(s + rest, Plain, word) == Split(rest, Plain, if s == "" then word else Some(Begun(word) + s))
    decreases |s|
  {
    if s == "" {
      assert s + rest == rest;
    } else {
      var t := s[1..];
      assert !NeedsQuotes(t) by {
        assert forall i :: 0 <= i < |t| ==> t[i] == s[i + 1];
      }
      SplitPlainChar(s[0], t + rest, word);
      ReadPlain(t, rest, Some(Grown(word, s[0])));
      assert s + rest == [s[0]] + (t + rest);
      assert Begun(word) + s == Grown(word, s[0]) + t;
      assert t == "" ==> Grown(word, s[0]) + t == Grown(word, s[0]);
    }
  }

  lemma NotSpecial(c: char)
    requires c !in SPECIAL
    ensures c != ' ' && c != '\t' && c != '\'' && c != '\\' && c !in METACHARACTERS
  {
    assert SPECIAL[19] == ' ' && SPECIAL[20] == '\t' && SPECIAL[1] == '\'' && SPECIAL[2] == '\\';
    forall i | 0 <= i < |METACHARACTERS| ensures METACHARACTERS[i] in SPECIAL {
      QuotesEveryMetacharacter(i);
    }
  }

  lemma QuotesEveryMetacharacter(i: nat)
    requires i < |METACHARACTERS|
    ensures METACHARACTERS[i] in SPECIAL
  {
  }

  lemma {:induction false} ReadQuoted(s: string, rest: string, word: string)
    ensures Split(ReplaceQuotes(s) + ("'" + rest), Quoted, Some(word)) == Split(rest, Plain, Some(word + s))
    decreases |s|
  {
    if s == "" {
      assert ReplaceQuotes(s) + ("'" + rest) == ['\''] + rest && word + s == word;
      SplitQuotedChar('\'', rest, word);
    } else {
      var tail := ReplaceQuotes(s[1..]) + ("'" + rest);
      ReadQuoted(s[1..], rest, word + [s[0]]);
      assert word + [s[0]] + s[1..] == word + s;
      if s[0] == '\'' {
        QuoteWithin(tail, word);
        assert ReplaceQuotes(s) + ("'" + rest) == "'\\''" + tail;
      } else {
        SplitQuotedChar(s[0], tail, word);
        assert ReplaceQuotes(s) + ("'" + rest) == [s[0]] + tail;
      }
    }
  }

  /** Closing, an escaped quote, and opening again add one quote to the word. */
  lemma QuoteWithin(tail: string, word: string)
    ensures Split("'\\''" + tail, Quoted, Some(word)) == Split(tail, Quoted, Some(word + ['\'']))
  {
    var reopened := "'" + tail;
    var escaped := "\\'" + reopened;
    assert "'\\''" + tail == ['\''] + escaped;
    SplitQuotedChar('\'', escaped, word);
    SplitEscapedQuote(reopened, word);
    SplitOpenQuote(tail, Some(word + ['\'']));
  }

  /** A quoted argument is read back as the argument itself. */
  lemma ReadEscaped(s: string, rest: string)
    requires s != ""
    ensures Split(ShellEscape(s) + rest, Plain, None) == Split(rest, Plain, Some(s))
  {
    assert "" + s == s;
    if NeedsQuotes(s) {
      var inner := ReplaceQuotes(s) + ("'" + rest);
      assert ShellEscape(s) + rest == "'" + inner;
      SplitOpenQuote(inner, None);
      ReadQuoted(s, rest, "");
    } else {
      ReadPlain(s, rest, None);
    }
  }

  /** The empty argument is written as nothing at all. */
  lemma EscapeEmpty()
    ensures ShellEscape("") == ""
  {
  }

  function NonEmpty(args: seq<string>): seq<string> {
    if args == [] then [] else (if args[0] == "" then [] else [args[0]]) + NonEmpty(args[1..])
  }

  /** The shell reads back exactly the non-empty arguments. */
  lemma {:induction false} QuotedWords(args: seq<string>)
    ensures ShellWords(JoinBlank(EscapeAll(args))) == Some(NonEmpty(args))
    decreases |args|
  {
    if args != [] {
      var a, rest := args[0], args[1..];
      QuotedWords(rest);
      EscapeEmpty();
      var word, words := ShellEscape(a), EscapeAll(rest);
      assert EscapeAll(args) == [word] + words;
      if rest == [] {
        JoinOne(word);
        assert NonEmpty(rest) == [] && [a] + [] == [a];
        if a != "" {
          ReadEscaped(a, "");
        }
      } else {
        JoinMore(word, words);
        var tail := JoinBlank(words);
        assert [] + NonEmpty(rest) == NonEmpty(rest);
        if a != "" {
          ReadEscaped(a, " " + tail);
          SplitBlank(tail, Some(a));
        } else {
          SplitBlank(tail, None);
        }
      }
    }
  }

  lemma JoinOne(word: string)
    ensures JoinBlank([word]) == word + "" && [word] + [] == [word]
  {
    assert word + "" == word;
  }

  lemma JoinMore(word: string, words: seq<string>)
    requires words != []
    ensures JoinBlank([word] + words) == word + (" " + JoinBlank(words))
    ensures word == "" ==> JoinBlank([word] + words) == " " + JoinBlank(words)
  {
    assert ([word] + words)[1..] == words;
    assert word + " " + JoinBlank(words) == word + (" " + JoinBlank(words));
  }

  lemma {:induction false} NonEmptyIsAll(args: seq<string>)
    ensures |NonEmpty(args)| <= |args|
    ensures NonEmpty(args) == args <==> "" !in args
    decreases |args|
  {
    if args != [] {
      NonEmptyIsAll(args[1..]);
      assert args == [args[0]] + args[1..];
      if args[0] != "" {
        assert NonEmpty(args)[1..] == NonEmpty(args[1..]);
      }
    }
  }

  /** The round trip gives back the argument list exactly when no argument is empty. */
  lemma RoundTrip(args: seq<string>)
    ensures ShellWords(JoinBlank(EscapeAll(args))) == Some(args) <==> "" !in args
  {
    QuotedWords(args);
    NonEmptyIsAll(args);
  }
}
