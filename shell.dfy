/**
 * The shell side of sipserv.c: callBash reading the first line a command
 * prints, the '#' wildcard of the screening command, the espeak command
 * line of synthesize_speech, the aftermath command line and the single
 * "%s" substitution of a DTMF answer text.
 */
module Shell {
  import opened CString

  // ---------------------------------------------------------------- callBash

  /** RESULTSIZE (sipserv.c:804): the size of every result buffer. */
  const ResultSize: nat := 20

  /** What popen gives: no process at all, or one whose standard output is known. */
  datatype Process = PopenFailed | Started(output: string)

  /** callBash reports an error when popen fails or when the command prints nothing. */
  predicate BashFails(proc: Process)
  {
    proc.PopenFailed? || proc.output == []
  }

  /** The line callBash leaves in result: fgets(result, RESULTSIZE - 1, fp). */
  function BashLine(proc: Process): (line: string)
    requires !BashFails(proc)
    ensures 0 < |line| <= ResultSize - 2 && |line| <= |proc.output|
    ensures line == proc.output[..|line|]
  {
    FgetsLine(proc.output, ResultSize - 1)
  }

  /**
   * callBash (sipserv.c:807-826): start the command and read one line of its
   * output into result. On failure result is left as it was; on success the
   * line is followed by a terminator and the rest of the buffer is untouched.
   */
  method CallBash(proc: Process, result: array<char>) returns (error: bool)
    requires result.Length >= ResultSize - 1
    modifies result
    ensures error <==> BashFails(proc)
    ensures error ==> result[..] == old(result[..])
    ensures !error ==>
      var line := BashLine(proc);
      && result[..|line|] == line && result[|line|] == '\0'
      && result[|line| + 1..] == old(result[|line| + 1..])
  {
    if proc.PopenFailed? || proc.output == [] {
      return true;
    }
    var out := proc.output;
    var i := 0;
    var done := false;
    while !done && i < ResultSize - 2 && i < |out|
      invariant i <= ResultSize - 2 && i <= |out|
      invariant result[..i] == out[..i]
      invariant result[i..] == old(result[i..])
      invariant forall j :: 0 <= j < i - 1 ==> out[j] != '\n'
      invariant done <==> i > 0 && out[i - 1] == '\n'
      decreases |out| - i
    {
      result[i] := out[i];
      done := out[i] == '\n';
      i := i + 1;
    }
    FgetsStop(out, ResultSize - 1, i);
    ghost var before := result[..];
    assert before[i + 1..] == old(result[i + 1..]) by {
      assert before[i + 1..] == before[i..][1..] && old(result[i + 1..]) == old(result[i..])[1..];
    }
    result[i] := '\0';
    assert result[..i] == before[..i];
    assert result[i + 1..] == before[i + 1..];
    error := false;
  }

  /** Where the fgets loop stops is the length of FgetsLine. */
  lemma FgetsStop(out: string, n: nat, i: nat)
    requires n >= 2 && 0 < |out| && i <= n - 1 && i <= |out|
    requires forall j :: 0 <= j < i - 1 ==> out[j] != '\n'
    requires i == n - 1 || i == |out| || (i > 0 && out[i - 1] == '\n')
    requires i > 0
    ensures |FgetsLine(out, n)| == i
  {
    var line := FgetsLine(out, n);
  }

  /**
   * The first character of result after the screening step of
   * on_incoming_call: the preset '1' survives when callBash fails,
   * otherwise it is the first character the command printed.
   */
  function ScreeningVerdict(proc: Process): (c: char)
    ensures BashFails(proc) ==> c == '1'
    ensures !BashFails(proc) ==> c == proc.output[0]
  {
    if BashFails(proc) then '1' else BashLine(proc)[0]
  }

  // ---------------------------------------------------------------- screening command

  /** How often c occurs in s. */
  function Occurrences(s: string, c: char): (k: nat)
    ensures k <= |s|
    ensures k == 0 <==> c !in s
  {
    if s == [] then 0
    else
      assert c in s <==> s[0] == c || c in s[1..];
      (if s[0] == c then 1 else 0) + Occurrences(s[1..], c)
  }

  lemma {:induction false} OccurrencesConcat(a: string, b: string, c: char)
    ensures Occurrences(a + b, c) == Occurrences(a, c) + Occurrences(b, c)
  {
    if a == [] {
      assert a + b == b;
    } else {
      assert (a + b)[0] == a[0] && (a + b)[1..] == a[1..] + b;
      OccurrencesConcat(a[1..], b, c);
    }
  }

  /**
   * The screening command with the caller number in place of the first '#'
   * (sipserv.c:867-881); a command without '#' is used as it is.
   */
  function SubstituteWildcard(cmd: string, nr: string): (out: string)
    ensures '#' !in cmd ==> out == cmd
    ensures '#' in cmd ==> |out| == |cmd| - 1 + |nr|
  {
    match IndexOf(cmd, '#')
    case None => cmd
    case Some(i) => cmd[..i] + nr + cmd[i + 1..]
  }

  /**
   * The substitution is undone by putting '#' back where the number went:
   * the text before the first '#' and everything after it are kept as they were.
   */
  lemma WildcardRoundTrip(cmd: string, nr: string)
    requires '#' in cmd
    ensures var i := SpanWithout(cmd, '#');
      var out := SubstituteWildcard(cmd, nr);
      && '#' !in out[..i]
      && out[i..i + |nr|] == nr
      && out[..i] + "#" + out[i + |nr|..] == cmd
  {
    var i := SpanWithout(cmd, '#');
    var out := SubstituteWildcard(cmd, nr);
    assert out == cmd[..i] + nr + cmd[i + 1..];
    assert out[..i] == cmd[..i];
    assert out[i + |nr|..] == cmd[i + 1..];
    assert cmd == cmd[..i] + "#" + cmd[i + 1..];
  }

  /** Only the first '#' is replaced: every later one is still in the command. */
  lemma WildcardReplacesOne(cmd: string, nr: string)
    requires '#' in cmd
    ensures Occurrences(SubstituteWildcard(cmd, nr), '#') == Occurrences(cmd, '#') - 1 + Occurrences(nr, '#')
  {
    var i := SpanWithout(cmd, '#');
    assert cmd == cmd[..i] + ("#" + cmd[i + 1..]);
    OccurrencesConcat(cmd[..i], "#" + cmd[i + 1..], '#');
    OccurrencesConcat("#", cmd[i + 1..], '#');
    OccurrencesConcat(cmd[..i], nr, '#');
    OccurrencesConcat(cmd[..i] + nr, cmd[i + 1..], '#');
  }

  // ---------------------------------------------------------------- quoting

  /**
   * The last quoted argument of a command line that ends with the quote q:
   * the text between the last q and the one before it.
   */
  function LastQuoted(s: string, q: char): (r: Option<string>)
    ensures r.Some? ==> |r.value| + 2 <= |s| && s[|s| - 1] == q && q !in r.value
  {
    if s == [] || s[|s| - 1] != q then None
    else match LastIndexOf(s[..|s| - 1], q)
      case None => None
      case Some(i) => Some(s[i + 1..|s| - 1])
  }

  /** A text without the quote character, quoted at the end of a line, is its last quoted argument. */
  lemma LastQuotedOf(prefix: string, q: char, x: string)
    requires q !in x
    ensures LastQuoted(prefix + [q] + x + [q], q) == Some(x)
  {
    var s := prefix + [q] + x + [q];
    var body := s[..|s| - 1];
    assert body == prefix + [q] + x;
    assert body[|prefix|] == q;
    assert body[|prefix| + 1..] == x;
    var j := LastIndexOf(body, q);
    assert j.Some?;
  }

  /**
   * Text in which sh starts no quoting and escapes nothing: no single quote,
   * no double quote and no backslash.
   */
  predicate Unquoted(s: string)
  {
    forall i :: 0 <= i < |s| ==> s[i] != '\'' && s[i] != '"' && s[i] != '\\'
  }

  /**
   * The quoted words of a command line, paired left to right as sh pairs the
   * quote character q when nothing escapes it: the text between the first
   * and the second q, then between the third and the fourth, and so on.
   * None when a quote is left open.
   */
  function QuotedWords(s: string, q: char): Option<seq<string>>
    decreases |s|
  {
    match IndexOf(s, q)
    case None => Some([])
    case Some(i) =>
      var rest := s[i + 1..];
      match IndexOf(rest, q)
      case None => None
      case Some(j) =>
        match QuotedWords(rest[j + 1..], q)
        case None => None
        case Some(ws) => Some([rest[..j]] + ws)
  }

  /** A quote-free text, quoted after a quote-free prefix, is the first quoted word. */
  lemma QuotedWordsCons(prefix: string, q: char, x: string, rest: string, ws: seq<string>)
    requires q !in prefix && q !in x && QuotedWords(rest, q) == Some(ws)
    ensures QuotedWords(prefix + [q] + x + [q] + rest, q) == Some([x] + ws)
  {
    var s := prefix + [q] + x + [q] + rest;
    assert s[..|prefix|] == prefix && s[|prefix|] == q;
    assert IndexOf(s, q) == Some(|prefix|);
    var r := s[|prefix| + 1..];
    assert r == x + [q] + rest;
    assert r[..|x|] == x && r[|x|] == q;
    assert IndexOf(r, q) == Some(|x|);
    assert r[|x| + 1..] == rest;
  }

  /** Text that starts no quoting stays so when joined to more of it. */
  lemma UnquotedConcat(a: string, b: string)
    requires Unquoted(a) && Unquoted(b)
    ensures Unquoted(a + b)
  {
    assert forall i :: 0 <= i < |a + b| ==> (a + b)[i] == if i < |a| then a[i] else b[i - |a|];
  }

  /** Text without the quote character has no quoted word. */
  lemma QuotedWordsNone(s: string, q: char)
    requires q !in s
    ensures QuotedWords(s, q) == Some([])
  {
  }

  /** A quote-free text quoted at the end of a quote-free prefix is the only quoted word. */
  lemma QuotedWordsLast(prefix: string, q: char, x: string)
    requires q !in prefix && q !in x
    ensures QuotedWords(prefix + [q] + x + [q], q) == Some([x])
  {
    var s := prefix + [q] + x + [q];
    QuotedWordsNone([], q);
    assert s + [] == s;
    QuotedWordsCons(prefix, q, x, [], []);
    assert [x] + [] == [x];
  }

  // ---------------------------------------------------------------- synthesize_speech

  /** The espeak options (sipserv.c:51-54). */
  const EspeakAmplitude: nat := 100
  const EspeakCapitalsPitch: nat := 20
  const EspeakSpeed: nat := 120
  const EspeakPitch: nat := 75

  /** The options as synthesize_speech prints them: " -a100 -k20 -s120 -p75 -w ". */
  const EspeakOptions: string := " -a100 -k20 -s120 -p75 -w "

  /** The option text is the four constants printed with %i. */
  lemma EspeakOptionsOfConstants()
    ensures EspeakOptions == " -a" + Decimal(EspeakAmplitude) + " -k" + Decimal(EspeakCapitalsPitch)
      + " -s" + Decimal(EspeakSpeed) + " -p" + Decimal(EspeakPitch) + " -w "
  {
    EspeakDigits();
    assert " -a" + Decimal(EspeakAmplitude) + " -k" == " -a100 -k";
    assert " -a100 -k" + Decimal(EspeakCapitalsPitch) + " -s" == " -a100 -k20 -s";
    assert " -a100 -k20 -s" + Decimal(EspeakSpeed) + " -p" == " -a100 -k20 -s120 -p";
    assert " -a100 -k20 -s120 -p" + Decimal(EspeakPitch) + " -w " == EspeakOptions;
  }

  lemma EspeakDigits()
    ensures Decimal(100) == "100" && Decimal(20) == "20" && Decimal(120) == "120" && Decimal(75) == "75"
  {
    assert Decimal(10) == "10" && Decimal(12) == "12";
  }

  /**
   * The command synthesize_speech hands to system() (sipserv.c:710-719):
   * espeak with the voice, the four options, the wave file to write and the
   * text in single quotes.
   */
  function SpeechCommand(speech: string, file: string, language: string): (cmd: string)
    ensures |cmd| == 38 + |language| + |file| + |speech|
  {
    "espeak -v" + language + EspeakOptions + file + " '" + speech + "'"
  }

  /** The fixed options open no quote. */
  lemma EspeakOptionsUnquoted()
    ensures Unquoted(EspeakOptions)
  {
  }

  /** The command starts with the voice and ends with the quoted text. */
  lemma SpeechCommandLayout(speech: string, file: string, language: string)
    ensures var cmd := SpeechCommand(speech, file, language);
      && cmd[..9 + |language|] == "espeak -v" + language
      && cmd[|cmd| - |speech| - 3..] == " '" + speech + "'"
  {
    var head, tail := "espeak -v" + language, " '" + speech + "'";
    var cmd := SpeechCommand(speech, file, language);
    assert cmd == head + (EspeakOptions + file) + tail;
  }

  /**
   * The shell sees the spoken text as the one single-quoted word of the
   * command, taken literally: nothing before it opens a quote or escapes a
   * character, provided the voice and the file name hold no quote or
   * backslash and the text holds no single quote.
   */
  lemma SpeechCommandQuotesText(speech: string, file: string, language: string)
    requires '\'' !in speech && Unquoted(language) && Unquoted(file)
    ensures LastQuoted(SpeechCommand(speech, file, language), '\'') == Some(speech)
    ensures QuotedWords(SpeechCommand(speech, file, language), '\'') == Some([speech])
    ensures var cmd := SpeechCommand(speech, file, language);
      Unquoted(cmd[..|cmd| - |speech| - 2])
  {
    var cmd := SpeechCommand(speech, file, language);
    var prefix := SpeechPrefix(file, language);
    SpeechPrefixUnquoted(file, language);
    assert cmd == prefix + ['\''] + speech + ['\''];
    assert cmd[..|cmd| - |speech| - 2] == prefix;
    LastQuotedOf(prefix, '\'', speech);
    QuotedWordsLast(prefix, '\'', speech);
  }

  /** The part of the espeak command before the quoted text. */
  function SpeechPrefix(file: string, language: string): string
  {
    "espeak -v" + language + EspeakOptions + file + " "
  }

  /** The part before the text opens no quote when the voice and the file open none. */
  lemma SpeechPrefixUnquoted(file: string, language: string)
    requires Unquoted(language) && Unquoted(file)
    ensures Unquoted(SpeechPrefix(file, language))
  {
    EspeakOptionsUnquoted();
    UnquotedConcat("espeak -v", language);
    UnquotedConcat("espeak -v" + language, EspeakOptions);
    UnquotedConcat("espeak -v" + language + EspeakOptions, file);
    UnquotedConcat("espeak -v" + language + EspeakOptions + file, " ");
  }

  /** For a given voice and file, different texts give different commands. */
  lemma SpeechCommandInjective(s1: string, s2: string, file: string, language: string)
    requires SpeechCommand(s1, file, language) == SpeechCommand(s2, file, language)
    ensures s1 == s2
  {
    var c := SpeechCommand(s1, file, language);
    SpeechCommandLayout(s1, file, language);
    SpeechCommandLayout(s2, file, language);
    assert |s1| == |s2|;
    assert s1 == (" '" + s1 + "'")[2..|s1| + 2];
    assert s2 == (" '" + s2 + "'")[2..|s2| + 2];
  }

  // ---------------------------------------------------------------- aftermath

  /**
   * The aftermath command (sipserv.c:973): the configured program followed
   * by the local URI, the caller number and the recording file, each in
   * double quotes.
   */
  function AftermathCommand(am: string, local: string, number: string, file: string): (cmd: string)
    ensures |cmd| == |am| + |local| + |number| + |file| + 9
  {
    am + " \"" + local + "\" \"" + number + "\" \"" + file + "\""
  }

  /** The command starts with the program and ends with the quoted file. */
  lemma AftermathLayout(am: string, local: string, number: string, file: string)
    ensures var cmd := AftermathCommand(am, local, number, file);
      cmd[..|am|] == am && cmd[|cmd| - |file| - 4..] == "\" \"" + file + "\""
  {
    var cmd := AftermathCommand(am, local, number, file);
    assert cmd == am + (" \"" + local + "\" \"" + number) + ("\" \"" + file + "\"");
  }

  /**
   * Text that sh passes on literally inside double quotes: no '"' to end the
   * quotes early, and none of '$', '`' and backslash, which sh still expands there.
   */
  predicate LiteralInDoubleQuotes(s: string)
  {
    forall i :: 0 <= i < |s| ==> s[i] != '"' && s[i] != '$' && s[i] != '`' && s[i] != '\\'
  }

  /**
   * The aftermath program receives its three arguments intact when the
   * program part opens no quote and escapes nothing, and the local URI, the
   * number and the file hold nothing sh interprets inside double quotes: the
   * double-quoted words, paired left to right, are exactly those three, the
   * file is the last of them, and the command holds no backslash.
   */
  lemma AftermathQuotesFile(am: string, local: string, number: string, file: string)
    requires Unquoted(am)
    requires LiteralInDoubleQuotes(local) && LiteralInDoubleQuotes(number) && LiteralInDoubleQuotes(file)
    ensures LastQuoted(AftermathCommand(am, local, number, file), '"') == Some(file)
    ensures QuotedWords(AftermathCommand(am, local, number, file), '"') == Some([local, number, file])
    ensures '\\' !in AftermathCommand(am, local, number, file)
  {
    NoDoubleQuote(local);
    NoDoubleQuote(number);
    NoDoubleQuote(file);
    assert '"' !in am;
    AftermathLastWord(am, local, number, file);
    AftermathWords(am, local, number, file);
    AftermathNoBackslash(am, local, number, file);
  }

  lemma NoDoubleQuote(s: string)
    requires LiteralInDoubleQuotes(s)
    ensures '"' !in s
  {
    assert forall i :: 0 <= i < |s| ==> s[i] != '"';
  }

  /** With no double quote in the file name, it is the text between the last two double quotes. */
  lemma AftermathLastWord(am: string, local: string, number: string, file: string)
    requires '"' !in file
    ensures LastQuoted(AftermathCommand(am, local, number, file), '"') == Some(file)
  {
    var cmd := AftermathCommand(am, local, number, file);
    AftermathLayout(am, local, number, file);
    var prefix := cmd[..|cmd| - |file| - 2];
    assert cmd == prefix + ['"'] + file + ['"'];
    LastQuotedOf(prefix, '"', file);
  }

  /** With no double quote in any part, the quoted words pair up as local, number and file. */
  lemma AftermathWords(am: string, local: string, number: string, file: string)
    requires '"' !in am && '"' !in local && '"' !in number && '"' !in file
    ensures QuotedWords(AftermathCommand(am, local, number, file), '"') == Some([local, number, file])
  {
    var t3 := " " + ['"'] + file + ['"'];
    var t2 := " " + ['"'] + number + ['"'] + t3;
    assert '"' !in am + " ";
    QuotedWordsLast(" ", '"', file);
    QuotedWordsCons(" ", '"', number, t3, [file]);
    assert [number] + [file] == [number, file];
    QuotedWordsCons(am + " ", '"', local, t2, [number, file]);
    assert [local] + [number, file] == [local, number, file];
    AftermathSplit(am, local, number, file);
  }

  /** The aftermath command as the program, then three quoted words, each after a space. */
  lemma AftermathSplit(am: string, local: string, number: string, file: string)
    ensures AftermathCommand(am, local, number, file)
      == (am + " ") + ['"'] + local + ['"'] + (" " + ['"'] + number + ['"'] + (" " + ['"'] + file + ['"']))
  {
  }

  /** No part of the aftermath command brings a backslash. */
  lemma AftermathNoBackslash(am: string, local: string, number: string, file: string)
    requires Unquoted(am)
    requires LiteralInDoubleQuotes(local) && LiteralInDoubleQuotes(number) && LiteralInDoubleQuotes(file)
    ensures '\\' !in AftermathCommand(am, local, number, file)
  {
    assert '\\' !in am && '\\' !in local && '\\' !in number && '\\' !in file;
  }

  // ---------------------------------------------------------------- DTMF answer text

  /**
   * The answer templates the model covers: at most one '%', and that one
   * starts "%s", so that sprintf substitutes the command result exactly once.
   */
  predicate AnswerTemplateSupported(t: string)
  {
    match IndexOf(t, '%')
    case None => true
    case Some(i) => i + 1 < |t| && t[i + 1] == 's' && '%' !in t[i + 1..]
  }

  /** sprintf(tts_buffer, tts_answer, result) (sipserv.c:1025) for a supported template. */
  function FormatAnswer(t: string, result: string): (r: string)
    requires AnswerTemplateSupported(t)
    ensures '%' !in t ==> r == t
    ensures '%' in t ==> |r| == |t| - 2 + |result|
  {
    match IndexOf(t, '%')
    case None => t
    case Some(i) => t[..i] + result + t[i + 2..]
  }

  /**
   * The answer is the template with its "%s" replaced by the result: what
   * precedes and follows the directive is kept and the result sits between.
   */
  lemma FormatAnswerPlacesResult(t: string, result: string)
    requires AnswerTemplateSupported(t) && '%' in t
    ensures var i := SpanWithout(t, '%');
      var r := FormatAnswer(t, result);
      && r[..i] == t[..i] && r[i..i + |result|] == result && r[i + |result|..] == t[i + 2..]
      && t == r[..i] + "%s" + r[i + |result|..]
  {
    var i := SpanWithout(t, '%');
    assert t == t[..i] + "%s" + t[i + 2..];
  }
}
