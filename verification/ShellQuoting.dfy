/**
 * `ShellQuoting` and `osascriptCommand` of PrivilegedProcessRunner.swift, with
 * the two readers the quoted text meets: AppleScript's string literals, and the
 * shell's word splitting (POSIX.1-2017 Shell Command Language, sections 2.2.1,
 * 2.2.2 and 2.3).
 */
module ShellQuoting {
  import opened Options

  /** `replacingOccurrences` for a one-character pattern. */
  function ReplaceChar(s: string, c: char, image: string): string {
    if s == "" then "" else (if s[0] == c then image else [s[0]]) + ReplaceChar(s[1..], c, image)
  }

  /** Single-quote `s` for POSIX sh. */
  function Posix(s: string): string {
    "'" + ReplaceChar(s, '\'', "'\\''") + "'"
  }

  function PosixCommand(words: seq<string>): string {
    if words == [] then ""
    else if |words| == 1 then Posix(words[0])
    else Posix(words[0]) + " " + PosixCommand(words[1..])
  }

  /** Escape `s` for an AppleScript string literal: two passes. */
  function AppleScript(s: string): string {
    ReplaceChar(ReplaceChar(s, '\\', "\\\\"), '"', "\\\"")
  }

  datatype Mode = Between | Bare | Quoted

  /** Unquoted characters the two quoting rules and blanks do not account for. */
  predicate Special(c: char) {
    c in "|&;<>()$`\"*?[#~=%\n"
  }

  /**
   * Word splitting: blanks separate words, a backslash keeps the next character,
   * single quotes keep everything up to the next one. Any construct that needs
   * another rule of the shell, or an unclosed quote, gives None.
   */
  function ShellWords(s: string, mode: Mode, word: string): Option<seq<string>>
    decreases |s|
  {
    if s == "" then
      match mode
      case Between => Some([])
      case Bare => Some([word])
      case Quoted => None
    else
      var c, rest := s[0], s[1..];
      if mode.Quoted? then
        if c == '\'' then ShellWords(rest, Bare, word) else ShellWords(rest, Quoted, word + [c])
      else if c == ' ' || c == '\t' then
        var more := ShellWords(rest, Between, "");
        if mode.Bare? && more.Some? then Some([word] + more.value) else more
      else if c == '\'' then ShellWords(rest, Quoted, word)
      else if c == '\\' then
        if rest == "" || rest[0] == '\n' then None else ShellWords(rest[1..], Bare, word + [rest[0]])
      else if Special(c) then None
      else ShellWords(rest, Bare, word + [c])
  }

  /** Read an AppleScript string literal after its opening quote: its value and what follows it. */
  function ReadLiteral(s: string): Option<(string, string)> {
    if s == "" then None
    else if s[0] == '"' then Some(("", s[1..]))
    else if s[0] == '\\' then
      if |s| >= 2 && (s[1] == '\\' || s[1] == '"') then
        var tail := ReadLiteral(s[2..]);
        if tail.None? then None else Some(([s[1]] + tail.value.0, tail.value.1))
      else None
    else
      var tail := ReadLiteral(s[1..]);
      if tail.None? then None else Some(([s[0]] + tail.value.0, tail.value.1))
  }

  /** One-pass escaping, a character at a time. */
  function Escape(s: string): string {
    if s == "" then ""
    else (if s[0] == '\\' || s[0] == '"' then ['\\', s[0]] else [s[0]]) + Escape(s[1..])
  }

  lemma {:induction false} ReplaceAppend(a: string, b: string, c: char, image: string)
    ensures ReplaceChar(a + b, c, image) == ReplaceChar(a, c, image) + ReplaceChar(b, c, image)
  {
    if a == "" {
      assert a + b == b;
    } else {
      assert (a + b)[1..] == a[1..] + b;
      ReplaceAppend(a[1..], b, c, image);
    }
  }

  /** The backslash pass followed by the quote pass is per-character escaping. */
  lemma {:induction false} TwoPassesAreOne(s: string)
    ensures AppleScript(s) == Escape(s)
  {
    if s != "" {
      TwoPassesAreOne(s[1..]);
      var head := if s[0] == '\\' then "\\\\" else [s[0]];
      ReplaceAppend(head, ReplaceChar(s[1..], '\\', "\\\\"), '"', "\\\"");
      if s[0] == '\\' {
        assert head[1..] == "\\" && head[1..][1..] == "";
        assert ReplaceChar(head, '"', "\\\"") == "\\\\";
      } else {
        assert head[1..] == "";
      }
    }
  }

  /** A literal reads back as what was escaped, and ends exactly at its closing quote. */
  lemma {:induction false} LiteralRoundTrip(s: string, tail: string)
    ensures ReadLiteral(Escape(s) + "\"" + tail) == Some((s, tail))
  {
    var text := Escape(s) + "\"" + tail;
    if s == "" {
      assert text == "\"" + tail;
    } else {
      LiteralRoundTrip(s[1..], tail);
      var more := Escape(s[1..]) + "\"" + tail;
      if s[0] == '\\' || s[0] == '"' {
        assert text == ['\\', s[0]] + more;
        assert text[2..] == more;
      } else {
        assert text == [s[0]] + more;
        assert text[1..] == more;
      }
      assert [s[0]] + s[1..] == s;
    }
  }

  /** Inside an open quote, the body of a quoted word adds exactly that word. */
  lemma {:induction false} QuotedBody(s: string, tail: string, word: string)
    ensures ShellWords(ReplaceChar(s, '\'', "'\\''") + "'" + tail, Quoted, word)
         == ShellWords(tail, Bare, word + s)
    decreases |s|
  {
    var text := ReplaceChar(s, '\'', "'\\''") + "'" + tail;
    if s == "" {
      assert text == "'" + tail && text[1..] == tail;
      assert word + s == word;
    } else {
      var more := ReplaceChar(s[1..], '\'', "'\\''") + "'" + tail;
      QuotedBody(s[1..], tail, word + [s[0]]);
      assert word + [s[0]] + s[1..] == word + s;
      if s[0] == '\'' {
        assert text == "'\\''" + more;
        QuoteEscape(more, word);
      } else {
        assert text == [s[0]] + more && text[1..] == more;
      }
    }
  }

  lemma QuoteEscape(more: string, word: string)
    ensures ShellWords("'\\''" + more, Quoted, word) == ShellWords(more, Quoted, word + ['\''])
  {
    var t := "'\\''" + more;
    var t1, t2, t3 := "\\''" + more, "''" + more, "'" + more;
    assert t[1..] == t1 && t1[1..] == t2 && t2[1..] == t3 && t3[1..] == more;
    assert ShellWords(t, Quoted, word) == ShellWords(t1, Bare, word);
    assert t1[0] == '\\' && t2[0] == '\'';
    assert ShellWords(t1, Bare, word) == ShellWords(t3, Bare, word + ['\'']);
  }

  /** A quoted word at the start of a word list. */
  lemma QuotedWord(s: string, tail: string)
    ensures ShellWords(Posix(s) + tail, Between, "") == ShellWords(tail, Bare, s)
  {
    var body := ReplaceChar(s, '\'', "'\\''") + "'" + tail;
    assert Posix(s) + tail == "'" + body;
    assert ("'" + body)[1..] == body;
    QuotedBody(s, tail, "");
    assert "" + s == s;
  }

  /** Shell splitting undoes `posixCommand`, for every word list. */
  lemma {:induction false} CommandRoundTrip(words: seq<string>)
    ensures ShellWords(PosixCommand(words), Between, "") == Some(words)
  {
    if |words| == 1 {
      QuotedWord(words[0], "");
      assert PosixCommand(words) == Posix(words[0]) + "";
      assert words == [words[0]];
    } else if |words| > 1 {
      var more := PosixCommand(words[1..]);
      CommandRoundTrip(words[1..]);
      QuotedWord(words[0], " " + more);
      assert PosixCommand(words) == Posix(words[0]) + (" " + more);
      assert (" " + more)[1..] == more;
      assert words == [words[0]] + words[1..];
    }
  }

  const OPENING := "do shell script \""
  const PROMPT := " with prompt \""
  const CLOSING := " with administrator privileges"

  /** The osascript text of `osascriptCommand`. */
  function Script(words: seq<string>, prompt: string): string {
    OPENING + AppleScript(PosixCommand(words)) + "\"" + PROMPT + AppleScript(prompt) + "\"" + CLOSING
  }

  /** The words handed to the wrapper: interpreter, wrapper, session, exec helper or "-", command. */
  function WrapperWords(wrapper: string, session: string, execHelper: Option<string>,
                        executable: string, arguments: seq<string>): seq<string>
  {
    var helper := if execHelper.Some? then execHelper.value else "-";
    ["/bin/bash", wrapper, session, helper, executable] + arguments
  }

  predicate StartsWith(s: string, prefix: string) {
    prefix <= s
  }

  /** What AppleScript and then the shell make of the script text. */
  function Interpret(text: string): Option<(seq<string>, string)> {
    if !StartsWith(text, OPENING) then None else
      var first := ReadLiteral(text[|OPENING|..]);
      if first.None? || !StartsWith(first.value.1, PROMPT) then None else
        var second := ReadLiteral(first.value.1[|PROMPT|..]);
        if second.None? || second.value.1 != CLOSING then None else
          var words := ShellWords(first.value.0, Between, "");
          if words.None? then None else Some((words.value, second.value.0))
  }

  lemma DropPrefix(prefix: string, rest: string)
    ensures StartsWith(prefix + rest, prefix) && (prefix + rest)[|prefix|..] == rest
  {
  }

  lemma Regrouped(a: string, b: string, c: string, d: string, e: string)
    ensures a + b + "\"" + c + d + "\"" + e == a + (b + "\"" + (c + (d + "\"" + e)))
  {
  }

  /** Main result: the nested quoting is read back as the original words and prompt. */
  lemma ScriptRoundTrip(words: seq<string>, prompt: string)
    ensures Interpret(Script(words, prompt)) == Some((words, prompt))
  {
    var shell := PosixCommand(words);
    TwoPassesAreOne(shell);
    TwoPassesAreOne(prompt);
    var afterSecond := Escape(prompt) + "\"" + CLOSING;
    var afterFirst := PROMPT + afterSecond;
    var body := Escape(shell) + "\"" + afterFirst;
    Regrouped(OPENING, Escape(shell), PROMPT, Escape(prompt), CLOSING);
    DropPrefix(OPENING, body);
    LiteralRoundTrip(shell, afterFirst);
    DropPrefix(PROMPT, afterSecond);
    LiteralRoundTrip(prompt, CLOSING);
    CommandRoundTrip(words);
  }

  /** What the shell is to run, word by word. */
  predicate RunsCommand(words: seq<string>, wrapper: string, session: string, helper: Option<string>,
          executable: string, arguments: seq<string>)
  {
    && |words| == 5 + |arguments|
    && words[0] == "/bin/bash" && words[1] == wrapper && words[2] == session && words[4] == executable
    && (helper.Some? ==> words[3] == helper.value)
    && (helper.None? ==> words[3] == "-")
    && forall k | 0 <= k < |arguments| :: words[5 + k] == arguments[k]
  }

  lemma Joined(a: string, b: string, c: string, d: string, e: string)
    ensures a + b + "\"" + c + d + "\"" + e == a + b + ("\"" + c) + d + ("\"" + e)
  {
    assert a + b + "\"" + c == a + b + ("\"" + c);
  }

  lemma Pieces()
    ensures OPENING == "do shell script \""
    ensures "\"" + PROMPT == "\" with prompt \""
    ensures "\"" + CLOSING == "\" with administrator privileges"
  {
  }

  /**
   * Main result. The script is one `do shell script` command with a prompt, to be run with
   * administrator privileges; AppleScript and the shell read it as the words of the launch.
   */
  lemma LaunchText(wrapper: string, session: string, helper: Option<string>, executable: string,
        arguments: seq<string>, prompt: string)
      returns (words: seq<string>)
    ensures Script(WrapperWords(wrapper, session, helper, executable, arguments), prompt)
         == "do shell script \"" + Escape(PosixCommand(words)) + "\" with prompt \"" + Escape(prompt)
            + "\" with administrator privileges"
    ensures RunsCommand(words, wrapper, session, helper, executable, arguments)
    ensures ShellWords(PosixCommand(words), Between, "") == Some(words)
  {
    words := WrapperWords(wrapper, session, helper, executable, arguments);
    TwoPassesAreOne(PosixCommand(words));
    TwoPassesAreOne(prompt);
    CommandRoundTrip(words);
    Pieces();
    Joined(OPENING, Escape(PosixCommand(words)), PROMPT, Escape(prompt), CLOSING);
  }

  /** Two launches with the same script run the same command in the same session: no word can pass for another. */
  lemma LaunchIsInjective(wrapper: string, session: string, helper: Option<string>, executable: string,
        arguments: seq<string>, prompt: string, wrapper': string, session': string, helper': Option<string>,
        executable': string, arguments': seq<string>, prompt': string)
    requires Script(WrapperWords(wrapper, session, helper, executable, arguments), prompt)
          == Script(WrapperWords(wrapper', session', helper', executable', arguments'), prompt')
    ensures wrapper == wrapper' && session == session' && executable == executable' && arguments == arguments'
    ensures prompt == prompt'
    ensures helper == helper' || {helper, helper'} == {None, Some("-")}
  {
    var words := WrapperWords(wrapper, session, helper, executable, arguments);
    var words' := WrapperWords(wrapper', session', helper', executable', arguments');
    ScriptRoundTrip(words, prompt);
    ScriptRoundTrip(words', prompt');
    assert words[1..5] == words'[1..5] && words[5..] == words'[5..];
    assert words[1] == wrapper && words[2] == session && words[4] == executable;
    assert words'[1] == wrapper' && words'[2] == session' && words'[4] == executable';
    assert words[3] == words'[3];
  }
}
