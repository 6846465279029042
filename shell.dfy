/** The subprocess runner (`child_process.execSync`) seen from the code that
    calls it. Every command handed to it is recorded in order. A command
    whose quotes are left open is a syntax error for `/bin/sh`, and
    `execSync` throws. Otherwise what the command prints, or whether it
    fails, is decided by the outside world, modelled as a fixed function of
    the commands run before and the command itself. The quote scan knows
    only `'`, `"` and `\`: not `#` comments, not `$(...)` or backquote
    substitutions (inside which quoting starts afresh), not here-documents,
    so on such lines its verdict can differ from `sh`'s either way. Nor does
    it model that `sh` runs the lines before the one holding an open
    quote. */
module Shell {

  /** What `execSync` does with one command: returns its standard output,
      decoded as text, or throws because the command failed. */
  datatype Outcome = Ok(output: string) | Failed

  /** Where `sh` stands while reading a line: outside quotes, inside
      single quotes or inside double quotes. */
  datatype Quoting = Unquoted | InSingle | InDouble

  /** The quoting state after reading `s` from state `q`. A backslash
      outside single quotes escapes the next character; inside single
      quotes only `'` matters. */
  function Scan(q: Quoting, s: string): Quoting
    decreases |s|
  {
    if s == [] then q
    else
      match q
      case Unquoted =>
        if s[0] == '\'' then Scan(InSingle, s[1..])
        else if s[0] == '"' then Scan(InDouble, s[1..])
        else if s[0] == '\\' then Scan(Unquoted, s[if |s| >= 2 then 2 else 1..])
        else Scan(Unquoted, s[1..])
      case InSingle =>
        Scan(if s[0] == '\'' then Unquoted else InSingle, s[1..])
      case InDouble =>
        if s[0] == '"' then Scan(Unquoted, s[1..])
        else if s[0] == '\\' then Scan(InDouble, s[if |s| >= 2 then 2 else 1..])
        else Scan(InDouble, s[1..])
  }

  /** Every quote the line opens is closed again before its end. */
  predicate QuotesClosed(line: string)
  {
    Scan(Unquoted, line) == Unquoted
  }

  /** No character of `s` opens a quote or escapes. */
  predicate QuoteFree(s: string)
  {
    '\'' !in s && '"' !in s && '\\' !in s
  }

  /** Characters that the shell treats specially: blanks and newlines,
      quotes and escapes, and the operator, expansion, glob and comment
      characters. */
  const ShellSpecial: set<char> :=
    {' ', '\t', '\n', '\r', '"', '\'', '\\', ';', '&', '|', '$', '`',
     '<', '>', '(', ')', '*', '?', '[', '#', '~'}

  /** `s` contains no character the shell treats specially, so inside a
      command line it reads as literal text. */
  predicate Plain(s: string)
  {
    forall i :: 0 <= i < |s| ==> s[i] !in ShellSpecial
  }

  /** A plain string contains none of the special characters. */
  lemma PlainExcludes(s: string, c: char)
    requires Plain(s) && c in ShellSpecial
    ensures c !in s
  {
    assert forall i :: 0 <= i < |s| ==> s[i] != c;
  }

  /** A plain string is quote free and free of blanks and newlines. */
  lemma PlainFacts(s: string)
    requires Plain(s)
    ensures QuoteFree(s) && ' ' !in s && '\t' !in s && '\n' !in s
  {
    PlainExcludes(s, '\'');
    PlainExcludes(s, '"');
    PlainExcludes(s, '\\');
    PlainExcludes(s, ' ');
    PlainExcludes(s, '\t');
    PlainExcludes(s, '\n');
  }

  /** Text without quotes or escapes leaves the quoting state as it is. */
  lemma {:induction false} ScanSkip(q: Quoting, a: string, rest: string)
    requires QuoteFree(a)
    ensures Scan(q, a + rest) == Scan(q, rest)
    decreases |a|
  {
    if a == [] {
      assert a + rest == rest;
    } else {
      assert (a + rest)[0] == a[0];
      assert (a + rest)[1..] == a[1..] + rest;
      ScanSkip(q, a[1..], rest);
    }
  }

  /** A quote-free string leaves every state as it is. */
  lemma ScanQuoteFree(q: Quoting, s: string)
    requires QuoteFree(s)
    ensures Scan(q, s) == q
  {
    ScanSkip(q, s, []);
    assert s + [] == s;
  }

  /** A line whose only quoting is one double-quoted stretch is parsed:
      the quote opened before `inner` is closed after it. */
  lemma DoubleQuotedClosed(before: string, inner: string, after: string)
    requires QuoteFree(before) && QuoteFree(inner) && QuoteFree(after)
    ensures QuotesClosed(before + ['"'] + inner + ['"'] + after)
  {
    var closing := ['"'] + after;
    var opening := ['"'] + (inner + closing);
    assert before + ['"'] + inner + ['"'] + after == before + opening;
    ScanSkip(Unquoted, before, opening);
    assert opening[0] == '"' && opening[1..] == inner + closing;
    ScanSkip(InDouble, inner, closing);
    assert closing[0] == '"' && closing[1..] == after;
    ScanQuoteFree(Unquoted, after);
  }

  /** A line whose only quote character is one `'` leaves that quote
      open. */
  lemma SingleQuoteOpen(before: string, after: string)
    requires QuoteFree(before) && QuoteFree(after)
    ensures !QuotesClosed(before + ['\''] + after)
  {
    var opening := ['\''] + after;
    assert before + ['\''] + after == before + opening;
    ScanSkip(Unquoted, before, opening);
    assert opening[0] == '\'' && opening[1..] == after;
    ScanQuoteFree(InSingle, after);
  }

  class Executor {
    /** The commands run so far, oldest first. */
    var log: seq<string>

    /** The outcome the outside world gives to a command that the shell
        parses, given the commands run before it (gcloud, the cloud
        service and the network are not part of this model). */
    const reply: (seq<string>, string) -> Outcome

    constructor (reply: (seq<string>, string) -> Outcome)
      ensures log == [] && this.reply == reply
    {
      log := [];
      this.reply := reply;
    }

    /** The outcome of `command` after `history`: a failure when the shell
        cannot parse the line, otherwise the outside world's reply. */
    function Response(history: seq<string>, command: string): Outcome
    {
      if QuotesClosed(command) then reply(history, command) else Failed
    }

    /** Runs `command` synchronously through `/bin/sh`. */
    method Exec(command: string) returns (outcome: Outcome)
      modifies this
      ensures log == old(log) + [command]
      ensures outcome == Response(old(log), command)
      ensures !QuotesClosed(command) ==> outcome == Failed
    {
      outcome := Response(log, command);
      log := log + [command];
    }
  }
}
