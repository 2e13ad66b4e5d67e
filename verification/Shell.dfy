/** Quoting an argument for a POSIX shell, and the reader that undoes it: word splitting with the quoting
    rules of sections 2.2.1 (backslash), 2.2.2 (single quotes) and 2.2.3 (double quotes) of the POSIX.1-2017
    Shell Command Language. */
module Shell {
  import opened Wrappers

  // ----- Quoting -----

  /** Every single quote becomes '"'"': leave the quotes, quote the quote, enter them again. */
  function QuoteInside(s: string): string {
    if s == "" then ""
    else (if s[0] == '\'' then "'\"'\"'" else [s[0]]) + QuoteInside(s[1..])
  }

  function ShellEscapeArg(s: string): string {
    "'" + QuoteInside(s) + "'"
  }

  // ----- Reading -----

  datatype Mode = Plain | InSingle | InDouble

  /** Characters that mean something to the shell when they are not quoted (section 2.2). */
  predicate IsSpecial(c: char) {
    c in {'|', '&', ';', '<', '>', '(', ')', '$', '`', '\n', '*', '?', '[', '#', '~', '=', '%'}
  }

  predicate IsBlank(c: char) {
    c == ' ' || c == '\t'
  }

  /** What has been read: finished words, and the current one if it has begun (an empty quoted word has). */
  datatype Reading = Reading(words: seq<string>, begun: bool, word: string)

  function Finish(r: Reading): Reading {
    if r.begun then Reading(r.words + [r.word], false, "") else r
  }

  function Literal(r: Reading, c: char): Reading {
    r.(begun := true, word := r.word + [c])
  }

  /** The words of a command line; none if a quote is left open or an unquoted character, or an expansion
      in double quotes, would make the shell do more than read words. */
  function Read(s: string, mode: Mode, r: Reading): Option<seq<string>>
    decreases |s|
  {
    if s == "" then (if mode.Plain? then Some(Finish(r).words) else None)
    else
      var c := s[0];
      match mode
      case InSingle => if c == '\'' then Read(s[1..], Plain, r) else Read(s[1..], InSingle, Literal(r, c))
      case InDouble =>
        if c == '"' then Read(s[1..], Plain, r)
        else if c == '$' || c == '`' then None
        else if c == '\\' && |s| > 1 && s[1] in {'$', '`', '"', '\\'} then Read(s[2..], InDouble, Literal(r, s[1]))
        else if c == '\\' && |s| > 1 && s[1] == '\n' then Read(s[2..], InDouble, r)
        else Read(s[1..], InDouble, Literal(r, c))
      case Plain =>
        if c == '\'' then Read(s[1..], InSingle, r.(begun := true))
        else if c == '"' then Read(s[1..], InDouble, r.(begun := true))
        else if c == '\\' then
          if |s| == 1 then None
          else if s[1] == '\n' then Read(s[2..], Plain, r)
          else Read(s[2..], Plain, Literal(r, s[1]))
        else if IsBlank(c) then Read(s[1..], Plain, Finish(r))
        else if IsSpecial(c) then None
        else Read(s[1..], Plain, Literal(r, c))
  }

  function Words(s: string): Option<seq<string>> {
    Read(s, Plain, Reading([], false, ""))
  }

  // ----- Reading undoes quoting -----

  /** Reading a quoted quote from inside single quotes ends inside single quotes with one quote more. */
  lemma {:induction false} QuotedQuoteReads(tail: string, r: Reading)
    requires r.begun
    ensures Read("'\"'\"'" + tail, InSingle, r) == Read(tail, InSingle, Literal(r, '\''))
  {
    var s := "'\"'\"'" + tail;
    assert s[1..][1..][1..][1..][1..] == tail;
    assert Read(s, InSingle, r) == Read(s[1..], Plain, r);
    assert Read(s[1..], Plain, r) == Read(s[1..][1..], InDouble, r);
    assert Read(s[1..][1..], InDouble, r) == Read(s[1..][1..][1..], InDouble, Literal(r, '\''));
    assert Read(s[1..][1..][1..], InDouble, Literal(r, '\'')) == Read(s[1..][1..][1..][1..], Plain, Literal(r, '\''));
  }

  lemma {:induction false} QuotedReads(s: string, tail: string, r: Reading)
    requires r.begun
    ensures Read(QuoteInside(s) + tail, InSingle, r) == Read(tail, InSingle, r.(word := r.word + s))
    decreases |s|
  {
    if s == "" {
      assert QuoteInside(s) + tail == tail && r.word + s == r.word;
    } else {
      var rest := QuoteInside(s[1..]) + tail;
      var next := Literal(r, s[0]);
      if s[0] == '\'' {
        assert QuoteInside(s) + tail == "'\"'\"'" + rest;
        QuotedQuoteReads(rest, r);
      } else {
        assert QuoteInside(s) + tail == [s[0]] + rest;
        assert ([s[0]] + rest)[1..] == rest;
      }
      QuotedReads(s[1..], tail, next);
      assert next.word + s[1..] == r.word + s;
    }
  }

  /** A quoted argument at the end of a command line is read as exactly one word, the argument itself. */
  lemma {:induction false} ArgumentReads(s: string, words: seq<string>)
    ensures Read(ShellEscapeArg(s), Plain, Reading(words, false, "")) == Some(words + [s])
  {
    var quoted := ShellEscapeArg(s);
    var r := Reading(words, true, "");
    assert quoted[1..] == QuoteInside(s) + "'";
    QuotedReads(s, "'", r);
    assert "" + s == s;
    var last := r.(word := s);
    assert Read("'", InSingle, last) == Read("'"[1..], Plain, last);
    assert "'"[1..] == "";
  }

  /** For every string at all: quoting it and reading it back gives that one word. */
  lemma {:induction false} EscapedIsOneWord(s: string)
    ensures Words(ShellEscapeArg(s)) == Some([s])
  {
    ArgumentReads(s, []);
    assert [] + [s] == [s];
  }

  /** Different arguments are quoted differently. */
  lemma {:induction false} EscapeInjective(s: string, t: string)
    requires ShellEscapeArg(s) == ShellEscapeArg(t)
    ensures s == t
  {
    EscapedIsOneWord(s);
    EscapedIsOneWord(t);
    assert [s][0] == [t][0];
  }

  // ----- The collection command -----

  /** Ordinary characters, then a blank: one more word. */
  lemma {:induction false} PlainWordReads(w: string, tail: string, r: Reading)
    requires forall i :: 0 <= i < |w| ==> !IsBlank(w[i]) && !IsSpecial(w[i]) && w[i] !in {'\'', '"', '\\'}
    requires r.begun || w != ""
    ensures Read(w + " " + tail, Plain, r) == Read(tail, Plain, Reading(r.words + [r.word + w], false, ""))
    decreases |w|
  {
    var s := w + " " + tail;
    if w == "" {
      assert s[1..] == tail && r.word + w == r.word;
    } else {
      assert s[1..] == w[1..] + " " + tail;
      PlainWordReads(w[1..], tail, Literal(r, w[0]));
      assert Literal(r, w[0]).word + w[1..] == r.word + w;
    }
  }

  function VNStatCommand(networkInterface: string): string {
    "vnstat" + " " + ("--json" + " " + ("-i" + " " + ShellEscapeArg(networkInterface)))
  }

  /** A whole plain word, read from between words. */
  lemma {:induction false} WholeWordReads(w: string, tail: string, words: seq<string>)
    requires w != "" && forall i :: 0 <= i < |w| ==> !IsBlank(w[i]) && !IsSpecial(w[i]) && w[i] !in {'\'', '"', '\\'}
    ensures Read(w + " " + tail, Plain, Reading(words, false, "")) == Read(tail, Plain, Reading(words + [w], false, ""))
  {
    PlainWordReads(w, tail, Reading(words, false, ""));
    assert "" + w == w;
  }

  /** Whatever the interface name is, the command has these four words and nothing else. */
  lemma {:induction false} CommandReads(networkInterface: string)
    ensures Words(VNStatCommand(networkInterface)) == Some(["vnstat", "--json", "-i", networkInterface])
  {
    var arg := ShellEscapeArg(networkInterface);
    WholeWordReads("vnstat", "--json" + " " + ("-i" + " " + arg), []);
    WholeWordReads("--json", "-i" + " " + arg, [] + ["vnstat"]);
    WholeWordReads("-i", arg, [] + ["vnstat"] + ["--json"]);
    ArgumentReads(networkInterface, [] + ["vnstat"] + ["--json"] + ["-i"]);
    assert [] + ["vnstat"] + ["--json"] + ["-i"] + [networkInterface] == ["vnstat", "--json", "-i", networkInterface];
  }
}
