/**
 * The configuration of sipserv.c: struct app_config with its nine DTMF
 * entries, how parse_config_file reads one "key=value" line into it, and
 * the intro text main assembles from it.
 */
module Config {
  import opened CString

  /** MAX_DTMF_SETTINGS (sipserv.c:60). */
  const MaxDtmfSettings: nat := 9

  /** struct dtmf_config (sipserv.c:63-71); a NULL string is None. */
  datatype DtmfConfig = DtmfConfig(
    id: int, active: int, processingActive: int,
    description: Option<string>, ttsIntro: Option<string>, ttsAnswer: Option<string>, cmd: Option<string>)

  /** struct app_config (sipserv.c:74-87), without the log file name, which comes from the command line. */
  datatype AppConfig = AppConfig(
    sipDomain: Option<string>, sipUser: Option<string>, sipPassword: Option<string>, language: Option<string>,
    recordCalls: int, silentMode: int,
    tts: Option<string>, announcementFile: Option<string>, callCmd: Option<string>, afterMath: Option<string>,
    dtmf: seq<DtmfConfig>)

  /** A DTMF entry as static storage starts it: zeros and NULLs. */
  function BlankDtmf(): DtmfConfig
  {
    DtmfConfig(0, 0, 0, None, None, None, None)
  }

  /** app_cfg as the program starts: zeros and NULLs, nine blank DTMF entries. */
  function StaticConfig(): (cfg: AppConfig)
    ensures |cfg.dtmf| == MaxDtmfSettings
  {
    AppConfig(None, None, None, None, 0, 0, None, None, None, None, seq(MaxDtmfSettings, _ => BlankDtmf()))
  }

  /** The DTMF entries after the loop at sipserv.c:145-153: entry i has id i + 1, inactive and idle. */
  function InitialConfig(): (cfg: AppConfig)
    ensures |cfg.dtmf| == MaxDtmfSettings
    ensures forall i :: 0 <= i < MaxDtmfSettings ==>
      cfg.dtmf[i].id == i + 1 && cfg.dtmf[i].active == 0 && cfg.dtmf[i].processingActive == 0
  {
    StaticConfig().(dtmf := seq(MaxDtmfSettings, i => BlankDtmf().(id := i + 1)))
  }

  // ---------------------------------------------------------------- strtok

  /** How many '=' characters open s. */
  function LeadingDelims(s: string): (k: nat)
    ensures k <= |s| && (forall i :: 0 <= i < k ==> s[i] == '=')
    ensures k < |s| ==> s[k] != '='
  {
    if s != [] && s[0] == '=' then 1 + LeadingDelims(s[1..]) else 0
  }

  /**
   * One strtok call with the delimiter "=": the next token and the text the
   * following call continues from, or None when only delimiters are left.
   */
  function Strtok(s: string): (r: Option<(string, string)>)
    ensures r.None? <==> LeadingDelims(s) == |s|
    ensures r.Some? ==>
      var k, tok := LeadingDelims(s), r.value.0;
      && tok != [] && '=' !in tok && k + |tok| <= |s| && s[k..k + |tok|] == tok
      && (k + |tok| == |s| ==> r.value.1 == [])
      && (k + |tok| < |s| ==> s[k + |tok|] == '=' && r.value.1 == s[k + |tok| + 1..])
  {
    var k := LeadingDelims(s);
    if k == |s| then None
    else
      var t := s[k..];
      var n := SpanWithout(t, '=');
      assert n > 0;
      Some((t[..n], if n == |t| then [] else t[n + 1..]))
  }

  /** strstr(val, "\n") overwritten with a space: the first newline becomes a space. */
  function NewlineToSpace(v: string): (r: string)
    ensures |r| == |v|
    ensures '\n' !in v ==> r == v
    ensures '\n' in v ==> var i := SpanWithout(v, '\n'); r == v[..i] + " " + v[i + 1..]
  {
    match IndexOf(v, '\n')
    case None => v
    case Some(i) => v[..i] + " " + v[i + 1..]
  }

  // ---------------------------------------------------------------- strcasecmp, atoi, sscanf

  /** tolower in the C locale. */
  function Lower(c: char): char
  {
    if 'A' <= c <= 'Z' then (c as int - 'A' as int + 'a' as int) as char else c
  }

  /** strcasecmp(a, b) == 0. */
  predicate SameIgnoringCase(a: string, b: string)
  {
    |a| == |b| && (a == [] || (Lower(a[0]) == Lower(b[0]) && SameIgnoringCase(a[1..], b[1..])))
  }

  /** The number of decimal digits s starts with. */
  function DigitRun(s: string): (k: nat)
    ensures k <= |s| && (forall i :: 0 <= i < k ==> IsDigit(s[i]))
    ensures k < |s| ==> !IsDigit(s[k])
  {
    if s != [] && IsDigit(s[0]) then 1 + DigitRun(s[1..]) else 0
  }

  /** The value of the digits s starts with. */
  function LeadingNumber(s: string): nat
  {
    ParseDecimal(s[..DigitRun(s)])
  }

  /** atoi: white space, an optional sign, then digits; anything else reads as 0. */
  function Atoi(s: string): int
  {
    var t := TrimLeft(s);
    if t != [] && t[0] == '-' then -(LeadingNumber(t[1..]) as int)
    else if t != [] && t[0] == '+' then LeadingNumber(t[1..])
    else LeadingNumber(t)
  }

  /** atoi reads back what %d printed, whatever non-digit text follows it. */
  lemma AtoiOfDecimal(n: nat, tail: string)
    requires tail == [] || !IsDigit(tail[0])
    ensures Atoi(Decimal(n) + tail) == n
  {
    var s := Decimal(n) + tail;
    TrimLeftAt(s, 0);
    DigitRunOf(Decimal(n), tail);
    assert s[..DigitRun(s)] == Decimal(n);
    ParseDecimalOfDecimal(n);
  }

  lemma {:induction false} DigitRunOf(digits: string, tail: string)
    requires forall i :: 0 <= i < |digits| ==> IsDigit(digits[i])
    requires tail == [] || !IsDigit(tail[0])
    ensures DigitRun(digits + tail) == |digits|
  {
    if digits != [] {
      assert (digits + tail)[1..] == digits[1..] + tail;
      DigitRunOf(digits[1..], tail);
    }
  }

  /** How many characters at the start of s are not white space. */
  function NonSpaceRun(s: string): (k: nat)
    ensures k <= |s| && (forall i :: 0 <= i < k ==> !IsSpace(s[i]))
    ensures k < |s| ==> IsSpace(s[k])
  {
    if s != [] && !IsSpace(s[0]) then 1 + NonSpaceRun(s[1..]) else 0
  }

  /** The word sscanf's %s reads: white space skipped, then everything up to the next white space. */
  function ScanWord(s: string): (w: string)
    ensures forall i :: 0 <= i < |w| ==> !IsSpace(w[i])
  {
    var t := TrimLeft(s);
    t[..NonSpaceRun(t)]
  }

  /**
   * sscanf(arg, "dtmf.%1[^.].%s", dtmf_id, dtmf_setting) == 2 (sipserv.c:454):
   * the literal "dtmf.", one character other than '.', a '.', then a word.
   */
  function ScanDtmfKey(arg: string): (r: Option<(char, string)>)
    ensures r.Some? <==> |arg| >= 7 && arg[..5] == "dtmf." && arg[5] != '.' && arg[6] == '.' && ScanWord(arg[7..]) != []
    ensures r.Some? ==> r.value.0 == arg[5] && r.value.1 == ScanWord(arg[7..])
  {
    if |arg| >= 7 && arg[..5] == "dtmf." && arg[5] != '.' && arg[6] == '.' && ScanWord(arg[7..]) != [] then
      Some((arg[5], ScanWord(arg[7..])))
    else None
  }

  /** atoi(dtmf_id) for the one character %1[^.] read: a digit's value, 0 for anything else. */
  function DtmfId(c: char): (d: nat)
    ensures d <= 9
    ensures IsDigit(c) ==> d == DigitValue(c)
  {
    if IsDigit(c) then DigitValue(c) else 0
  }

  // ---------------------------------------------------------------- one line

  /** A line as parse_config_file sees it after the comment checks and the two strtok calls. */
  datatype Parsed = Ignored | NoValue(arg: string) | Setting(arg: string, val: string)

  /** A comment line or a line holding only a newline (sipserv.c:362-363). */
  predicate CommentOrEmpty(line: string)
  {
    line != [] && (line[0] == '#' || line[0] == '\n')
  }

  /** sipserv.c:362-374: skip comments, split at '=' and turn the newline of the value into a space. */
  function ParseLine(line: string): Parsed
  {
    if CommentOrEmpty(line) then Ignored
    else match Strtok(line)
      case None => Ignored
      case Some((arg, rest)) =>
        match Strtok(rest)
        case None => NoValue(arg)
        case Some((v, _)) => Setting(arg, NewlineToSpace(v))
  }

  /** The keys with a setting of their own (sipserv.c:382-447). */
  predicate SimpleKey(arg: string)
  {
    || SameIgnoringCase(arg, "sd") || SameIgnoringCase(arg, "su") || SameIgnoringCase(arg, "sp")
    || SameIgnoringCase(arg, "ln") || SameIgnoringCase(arg, "rc") || SameIgnoringCase(arg, "af")
    || SameIgnoringCase(arg, "cmd") || SameIgnoringCase(arg, "am") || SameIgnoringCase(arg, "s")
    || SameIgnoringCase(arg, "tts")
  }

  /** The settings of a DTMF entry (sipserv.c:467-499). */
  predicate DtmfSetting(setting: string)
  {
    || SameIgnoringCase(setting, "active") || SameIgnoringCase(setting, "description")
    || SameIgnoringCase(setting, "tts-intro") || SameIgnoringCase(setting, "tts-answer")
    || SameIgnoringCase(setting, "cmd")
  }

  /** Whether the line ends in the warning about an unknown setting (sipserv.c:502-504). */
  predicate Unknown(arg: string)
  {
    && !SimpleKey(arg)
    && match ScanDtmfKey(arg)
       case None => true
       case Some((c, setting)) => DtmfId(c) < MaxDtmfSettings && !DtmfSetting(setting)
  }

  /**
   * The lines whose handling the source defines: a line with a key must
   * have a value (strstr is otherwise handed NULL), a DTMF key must name
   * entry 1 to 9 (any other character reads as 0 and indexes entry -1) with
   * a setting that fits dtmf_setting[25], and the warning about an unknown
   * key must fit warning[200].
   */
  predicate LineSupported(line: string)
  {
    && '\0' !in line
    && match ParseLine(line)
       case Ignored => true
       case NoValue(_) => false
       case Setting(arg, val) =>
         && (!SimpleKey(arg) && ScanDtmfKey(arg).Some? ==>
               '1' <= ScanDtmfKey(arg).value.0 <= '9' && |ScanDtmfKey(arg).value.1| <= 24)
         && (Unknown(arg) ==> 54 + |arg| + |val| < 200)
  }

  /**
   * What one "key=value" line does to the configuration (sipserv.c:382-504).
   * A DTMF key whose id reads as 0 would index entry -1, which the source
   * leaves undefined and LineSupported excludes; the function keeps the
   * configuration there only so that it is total.
   */
  function ApplySetting(cfg: AppConfig, arg: string, val: string): (r: AppConfig)
    requires |cfg.dtmf| == MaxDtmfSettings
    ensures |r.dtmf| == MaxDtmfSettings
    ensures r.dtmf[MaxDtmfSettings - 1] == cfg.dtmf[MaxDtmfSettings - 1]
    ensures forall i :: 0 <= i < MaxDtmfSettings ==>
      r.dtmf[i].id == cfg.dtmf[i].id && r.dtmf[i].processingActive == cfg.dtmf[i].processingActive
  {
    if SameIgnoringCase(arg, "sd") then cfg.(sipDomain := Some(Trim(val)))
    else if SameIgnoringCase(arg, "su") then cfg.(sipUser := Some(Trim(val)))
    else if SameIgnoringCase(arg, "sp") then cfg.(sipPassword := Some(Trim(val)))
    else if SameIgnoringCase(arg, "ln") then cfg.(language := Some(Trim(val)))
    else if SameIgnoringCase(arg, "rc") then cfg.(recordCalls := Atoi(val))
    else if SameIgnoringCase(arg, "af") then cfg.(announcementFile := Some(Trim(val)))
    else if SameIgnoringCase(arg, "cmd") then cfg.(callCmd := Some(Trim(val)))
    else if SameIgnoringCase(arg, "am") then cfg.(afterMath := Some(Trim(val)))
    else if SameIgnoringCase(arg, "s") then cfg.(silentMode := Atoi(val))
    else if SameIgnoringCase(arg, "tts") then cfg.(tts := Some(val))
    else match ScanDtmfKey(arg)
      case None => cfg
      case Some((c, setting)) =>
        var d := DtmfId(c);
        if d >= MaxDtmfSettings || d == 0 then cfg
        else cfg.(dtmf := cfg.dtmf[d - 1 := ApplyDtmfSetting(cfg.dtmf[d - 1], setting, val)])
  }

  /** The settings of one DTMF entry; an unknown one leaves the entry alone. */
  function ApplyDtmfSetting(e: DtmfConfig, setting: string, val: string): (r: DtmfConfig)
    ensures r.id == e.id && r.processingActive == e.processingActive
  {
    if SameIgnoringCase(setting, "active") then e.(active := Atoi(val))
    else if SameIgnoringCase(setting, "description") then e.(description := Some(val))
    else if SameIgnoringCase(setting, "tts-intro") then e.(ttsIntro := Some(val))
    else if SameIgnoringCase(setting, "tts-answer") then e.(ttsAnswer := Some(val))
    else if SameIgnoringCase(setting, "cmd") then e.(cmd := Some(val))
    else e
  }

  /**
   * One line of the configuration file. Whatever it holds, the ids and the
   * processing flags of the DTMF entries are kept, and entry 9 is never
   * touched: a key "dtmf.9..." reads as id 9, which is skipped. A line
   * without a value is undefined in the source and excluded by LineSupported.
   */
  function ApplyLine(cfg: AppConfig, line: string): (r: AppConfig)
    requires |cfg.dtmf| == MaxDtmfSettings
    ensures |r.dtmf| == MaxDtmfSettings
    ensures r.dtmf[MaxDtmfSettings - 1] == cfg.dtmf[MaxDtmfSettings - 1]
    ensures forall i :: 0 <= i < MaxDtmfSettings ==>
      r.dtmf[i].id == cfg.dtmf[i].id && r.dtmf[i].processingActive == cfg.dtmf[i].processingActive
  {
    match ParseLine(line)
    case Setting(arg, val) => ApplySetting(cfg, arg, val)
    case _ => cfg
  }

  /** The lines of a file, applied in order. */
  function ApplyLines(cfg: AppConfig, lines: seq<string>): (r: AppConfig)
    requires |cfg.dtmf| == MaxDtmfSettings
    ensures |r.dtmf| == MaxDtmfSettings
    decreases |lines|
  {
    if lines == [] then cfg else ApplyLines(ApplyLine(cfg, lines[0]), lines[1..])
  }

  /** The pieces while (fgets(line, 200, file) != NULL) hands to the loop body. */
  function ConfigLines(file: string): (lines: seq<string>)
  {
    FgetsChunks(file, 200)
  }

  /** A configuration file whose every line the model covers. */
  predicate FileSupported(file: string)
  {
    forall i :: 0 <= i < |ConfigLines(file)| ==> LineSupported(ConfigLines(file)[i])
  }

  /** What parse_config_file makes of a file (sipserv.c:348-517). */
  function ParseConfig(cfg: AppConfig, file: string): (r: AppConfig)
    requires |cfg.dtmf| == MaxDtmfSettings
    ensures |r.dtmf| == MaxDtmfSettings
  {
    ApplyLines(cfg, ConfigLines(file))
  }

  /** One turn of the fgets loop of parse_config_file: the first piece is applied, the rest follows. */
  lemma ConfigLinesStep(cfg: AppConfig, rest: string)
    requires |cfg.dtmf| == MaxDtmfSettings && rest != []
    ensures 0 < |FgetsLine(rest, 200)| <= |rest|
    ensures ApplyLines(cfg, ConfigLines(rest))
      == ApplyLines(ApplyLine(cfg, FgetsLine(rest, 200)), ConfigLines(rest[|FgetsLine(rest, 200)|..]))
  {
    var line := FgetsLine(rest, 200);
    assert ConfigLines(rest) == [line] + ConfigLines(rest[|line|..]);
    assert ConfigLines(rest)[1..] == ConfigLines(rest[|line|..]);
  }

  // ---------------------------------------------------------------- properties of the parser

  /** Reading two pieces of a file one after the other is reading them together. */
  lemma {:induction false} ApplyLinesAppend(cfg: AppConfig, a: seq<string>, b: seq<string>)
    requires |cfg.dtmf| == MaxDtmfSettings
    ensures ApplyLines(cfg, a + b) == ApplyLines(ApplyLines(cfg, a), b)
    decreases |a|
  {
    if a == [] {
      assert a + b == b;
    } else {
      assert (a + b)[0] == a[0] && (a + b)[1..] == a[1..] + b;
      ApplyLinesAppend(ApplyLine(cfg, a[0]), a[1..], b);
    }
  }

  /**
   * No configuration file reaches entry 9, the ids, or the processing
   * flags: digit 9 can never be configured.
   */
  lemma {:induction false} ApplyLinesKeepsFixedFields(cfg: AppConfig, lines: seq<string>)
    requires |cfg.dtmf| == MaxDtmfSettings
    ensures var r := ApplyLines(cfg, lines);
      && r.dtmf[MaxDtmfSettings - 1] == cfg.dtmf[MaxDtmfSettings - 1]
      && forall i :: 0 <= i < MaxDtmfSettings ==>
           r.dtmf[i].id == cfg.dtmf[i].id && r.dtmf[i].processingActive == cfg.dtmf[i].processingActive
    decreases |lines|
  {
    if lines != [] {
      ApplyLinesKeepsFixedFields(ApplyLine(cfg, lines[0]), lines[1..]);
    }
  }

  /** The lines that are neither comments nor empty. */
  function Uncommented(lines: seq<string>): (r: seq<string>)
    ensures |r| <= |lines|
    ensures forall i :: 0 <= i < |r| ==> r[i] in lines && !CommentOrEmpty(r[i])
  {
    if lines == [] then []
    else if CommentOrEmpty(lines[0]) then Uncommented(lines[1..])
    else [lines[0]] + Uncommented(lines[1..])
  }

  /** Comment lines and empty lines can be dropped from a file without changing what it configures. */
  lemma {:induction false} CommentsIgnored(cfg: AppConfig, lines: seq<string>)
    requires |cfg.dtmf| == MaxDtmfSettings
    ensures ApplyLines(cfg, Uncommented(lines)) == ApplyLines(cfg, lines)
    decreases |lines|
  {
    if lines != [] {
      CommentsIgnored(if CommentOrEmpty(lines[0]) then cfg else ApplyLine(cfg, lines[0]), lines[1..]);
      if !CommentOrEmpty(lines[0]) {
        var u := Uncommented(lines);
        assert u[0] == lines[0] && u[1..] == Uncommented(lines[1..]);
      }
    }
  }

  /** Trailing white space does not survive trimming. */
  lemma TrimDropsTrailingSpace(v: string)
    ensures Trim(v + " ") == Trim(v)
  {
    var s := v + " ";
    TrimLeftSuffix(v);
    var l := TrimLeft(v);
    var k := |v| - |l|;
    assert forall i :: 0 <= i < k ==> IsSpace(s[i]);
    if k < |v| {
      TrimLeftAt(s, k);
      assert TrimLeft(s) == l + " ";
      var t := TrimRight(l);
      TrimRightAt(l + " ", |t|);
      assert (l + " ")[..|t|] == t;
    } else {
      TrimLeftAt(s, |s|);
      assert TrimLeft(s) == [];
      assert l == [];
    }
  }

  /** A key made of letters only, as are all the keys compared with strcasecmp. */
  lemma {:induction false} SameIgnoringCaseLetters(a: string, b: string)
    requires SameIgnoringCase(a, b)
    requires forall i :: 0 <= i < |b| ==> 'a' <= b[i] <= 'z'
    ensures |a| == |b|
    ensures forall i :: 0 <= i < |a| ==> 'a' <= a[i] <= 'z' || 'A' <= a[i] <= 'Z'
    decreases |a|
  {
    if a != [] {
      SameIgnoringCaseLetters(a[1..], b[1..]);
      assert forall i :: 1 <= i < |a| ==> a[i] == a[1..][i - 1];
    }
  }

  /** A line "key=value" with its newline: the setting gets the value with the newline turned into a space. */
  lemma SettingLine(cfg: AppConfig, key: string, v: string)
    requires |cfg.dtmf| == MaxDtmfSettings
    requires |key| > 0 && key[0] != '#' && key[0] != '\n' && '=' !in key && '=' !in v && '\n' !in v
    ensures ApplyLine(cfg, key + "=" + v + "\n") == ApplySetting(cfg, key, v + " ")
  {
    assert key + "=" + v + "\n" == key + "=" + (v + "\n");
    KeyValueSplit(key, v + "\n");
    NewlineLast(v);
  }

  /** The newline fgets leaves at the end of a line becomes a space. */
  lemma NewlineLast(v: string)
    requires '\n' !in v
    ensures NewlineToSpace(v + "\n") == v + " "
  {
    assert (v + "\n")[|v|] == '\n';
    assert SpanWithout(v + "\n", '\n') == |v|;
    assert (v + "\n")[..|v|] == v;
  }

  /**
   * A line "sd=value" with its newline, the key in any case, stores the SIP
   * domain trimmed of white space; the newline, turned into a space, is
   * trimmed away with it.
   */
  lemma SipDomainLine(cfg: AppConfig, key: string, v: string)
    requires |cfg.dtmf| == MaxDtmfSettings
    requires SameIgnoringCase(key, "sd") && '=' !in v && '\n' !in v
    ensures ApplyLine(cfg, key + "=" + v + "\n") == cfg.(sipDomain := Some(Trim(v)))
  {
    SameIgnoringCaseLetters(key, "sd");
    SettingLine(cfg, key, v);
    TrimDropsTrailingSpace(v);
  }

  /** The two strtok calls on "key=value": the key and the value. */
  lemma KeyValueSplit(key: string, rest: string)
    requires |key| > 0 && key[0] != '#' && key[0] != '\n' && '=' !in key && '=' !in rest && rest != []
    ensures ParseLine(key + "=" + rest) == Setting(key, NewlineToSpace(rest))
  {
    StrtokKey(key, rest);
    StrtokLast(rest);
  }

  /** strtok on "key=rest" returns the key and continues after the '='. */
  lemma StrtokKey(key: string, rest: string)
    requires key != [] && '=' !in key
    ensures Strtok(key + "=" + rest) == Some((key, rest))
  {
    var s := key + "=" + rest;
    assert s[0] == key[0];
    assert s[..|key|] == key && s[|key|] == '=';
    assert SpanWithout(s, '=') == |key|;
    assert s[|key| + 1..] == rest;
  }

  /** strtok on a text without '=' returns all of it, and the next call finds nothing more. */
  lemma StrtokLast(tok: string)
    requires tok != [] && '=' !in tok
    ensures Strtok(tok) == Some((tok, []))
  {
    assert tok[0] in tok;
    assert LeadingDelims(tok) == 0;
    assert tok[0..] == tok;
    assert SpanWithout(tok, '=') == |tok|;
    assert tok[..|tok|] == tok;
  }

  /** %s reads a word that holds no white space whole. */
  lemma {:induction false} ScanWordOfWord(w: string)
    requires w != [] && forall i :: 0 <= i < |w| ==> !IsSpace(w[i])
    ensures ScanWord(w) == w
  {
    assert TrimLeft(w) == w;
    NonSpaceRunOf(w);
  }

  lemma {:induction false} NonSpaceRunOf(w: string)
    requires forall i :: 0 <= i < |w| ==> !IsSpace(w[i])
    ensures NonSpaceRun(w) == |w|
    decreases |w|
  {
    if w != [] {
      NonSpaceRunOf(w[1..]);
    }
  }

  /** The key "dtmf.<c>.<setting>" of a DTMF entry's setting. */
  function DtmfKey(c: char, setting: string): (key: string)
    ensures |key| == 7 + |setting| && key[..5] == "dtmf." && key[5] == c && key[6] == '.' && key[7..] == setting
  {
    "dtmf." + [c] + "." + setting
  }

  /** The sscanf of a DTMF key splits it into its id character and its setting. */
  lemma DtmfKeyScan(c: char, setting: string)
    requires c != '.' && setting != [] && forall i :: 0 <= i < |setting| ==> !IsSpace(setting[i])
    ensures ScanDtmfKey(DtmfKey(c, setting)) == Some((c, setting))
  {
    var key := DtmfKey(c, setting);
    assert key[..5] == "dtmf." && key[5] == c && key[6] == '.' && key[7..] == setting;
    ScanWordOfWord(setting);
  }

  /** The key "dtmf.N.active" with 1 <= N <= 8 reaches that entry's active flag. */
  lemma DtmfActiveSetting(cfg: AppConfig, d: nat, val: string)
    requires |cfg.dtmf| == MaxDtmfSettings && 1 <= d <= 8
    ensures ApplySetting(cfg, DtmfKey(DigitChar(d), "active"), val)
      == cfg.(dtmf := cfg.dtmf[d - 1 := cfg.dtmf[d - 1].(active := Atoi(val))])
  {
    var c := DigitChar(d);
    var key := DtmfKey(c, "active");
    DtmfKeyScan(c, "active");
    assert !SimpleKey(key) by {
      assert |key| == 13;
    }
    assert DtmfId(c) == d;
  }

  /** A line "dtmf.N.active=n" with 1 <= N <= 8 sets that entry's active flag to n. */
  lemma DtmfActiveLine(cfg: AppConfig, d: nat, n: nat)
    requires |cfg.dtmf| == MaxDtmfSettings && 1 <= d <= 8
    ensures ApplyLine(cfg, DtmfKey(DigitChar(d), "active") + "=" + Decimal(n) + "\n")
      == cfg.(dtmf := cfg.dtmf[d - 1 := cfg.dtmf[d - 1].(active := n)])
  {
    var c := DigitChar(d);
    var key := DtmfKey(c, "active");
    assert '=' !in key by {
      assert key == key[..5] + [c, '.'] + "active";
    }
    assert key[0] == 'd' by {
      assert key[..5][0] == 'd';
    }
    assert '=' !in Decimal(n) && '\n' !in Decimal(n);
    DtmfActiveSetting(cfg, d, Decimal(n) + " ");
    AtoiOfDecimal(n, " ");
    SettingLine(cfg, key, Decimal(n));
  }

  /** A line for digit 9 is skipped, whatever setting it names. */
  lemma DigitNineLine(cfg: AppConfig, setting: string, v: string)
    requires |cfg.dtmf| == MaxDtmfSettings
    requires '=' !in setting && '=' !in v && v != [] && '\0' !in setting + v
    ensures ApplyLine(cfg, "dtmf.9." + setting + "=" + v) == cfg
  {
    var key := "dtmf.9." + setting;
    assert "dtmf.9." + setting + "=" + v == key + "=" + v;
    assert key[..7] == "dtmf.9.";
    assert '=' !in key;
    KeyValueSplit(key, v);
    DigitNineSetting(cfg, key, NewlineToSpace(v));
  }

  /** A key "dtmf.9..." names no simple setting and an entry id the loop skips. */
  lemma DigitNineSetting(cfg: AppConfig, key: string, val: string)
    requires |cfg.dtmf| == MaxDtmfSettings
    requires |key| >= 7 && key[..7] == "dtmf.9."
    ensures ApplySetting(cfg, key, val) == cfg
  {
    assert !SimpleKey(key) by {
      assert |key| >= 7;
    }
    assert key[5] == '9' by {
      assert key[..7][5] == '9';
    }
    var r := ScanDtmfKey(key);
    if r.Some? {
      assert r.value.0 == '9';
      assert DtmfId('9') == 9;
    }
  }

  // ---------------------------------------------------------------- the intro text

  /** What an entry adds to the intro: its intro text and a space when it is active, nothing otherwise. */
  function IntroPiece(e: DtmfConfig): string
    requires e.active == 1 ==> e.ttsIntro.Some?
  {
    if e.active == 1 then e.ttsIntro.value + " " else ""
  }

  predicate IntrosDefined(ds: seq<DtmfConfig>)
  {
    forall i :: 0 <= i < |ds| ==> ds[i].active == 1 ==> ds[i].ttsIntro.Some?
  }

  /** The intros of the active entries, in key order, each followed by a space. */
  function Intros(ds: seq<DtmfConfig>): string
    requires IntrosDefined(ds)
  {
    if ds == [] then "" else Intros(ds[..|ds| - 1]) + IntroPiece(ds[|ds| - 1])
  }

  /**
   * The text main assembles in tts_buffer (sipserv.c:235-248): the intro
   * "tts" setting, a space, then the intro of every active entry with a space.
   */
  function IntroText(cfg: AppConfig): string
    requires cfg.tts.Some? && IntrosDefined(cfg.dtmf)
  {
    cfg.tts.value + " " + Intros(cfg.dtmf)
  }

  /** Only active entries are announced: entries that differ only when inactive give the same intro. */
  lemma {:induction false} IntrosIgnoreInactive(a: seq<DtmfConfig>, b: seq<DtmfConfig>)
    requires IntrosDefined(a) && IntrosDefined(b) && |a| == |b|
    requires forall i :: 0 <= i < |a| ==> (a[i].active == 1 <==> b[i].active == 1)
    requires forall i :: 0 <= i < |a| ==> a[i].active == 1 ==> a[i].ttsIntro == b[i].ttsIntro
    ensures Intros(a) == Intros(b)
  {
    if a != [] {
      var n := |a| - 1;
      assert IntroPiece(a[n]) == IntroPiece(b[n]);
      IntrosIgnoreInactive(a[..n], b[..n]);
    }
  }

  /** The intro of two runs of entries is the intro of the first followed by that of the second. */
  lemma {:induction false} IntrosAppend(a: seq<DtmfConfig>, b: seq<DtmfConfig>)
    requires IntrosDefined(a) && IntrosDefined(b)
    ensures IntrosDefined(a + b)
    ensures Intros(a + b) == Intros(a) + Intros(b)
    decreases |b|
  {
    if b == [] {
      assert a + b == a;
    } else {
      var n := |b| - 1;
      assert (a + b)[..|a + b| - 1] == a + b[..n];
      assert (a + b)[|a + b| - 1] == b[n];
      assert IntrosDefined(a + b);
      IntrosAppend(a, b[..n]);
      var p := IntroPiece(b[n]);
      assert Intros(a + b) == Intros(a + b[..n]) + p;
      assert (Intros(a) + Intros(b[..n])) + p == Intros(a) + (Intros(b[..n]) + p);
    }
  }

  /** Every active entry's intro text is in the intro, after those of lower digits and before those of higher ones. */
  lemma IntrosMention(ds: seq<DtmfConfig>, i: nat)
    requires IntrosDefined(ds) && i < |ds| && ds[i].active == 1
    ensures IntroPiece(ds[i]) == ds[i].ttsIntro.value + " "
    ensures Intros(ds) == Intros(ds[..i]) + IntroPiece(ds[i]) + Intros(ds[i + 1..])
  {
    var a, b, x := ds[..i], ds[i + 1..], [ds[i]];
    SplitAround(ds, i);
    assert IntrosDefined(a) && IntrosDefined(b) && IntrosDefined(x);
    IntrosSingle(ds[i]);
    IntrosAppend(a, x);
    IntrosAppend(a + x, b);
  }

  /** A sequence is what comes before position i, the element at i, and what follows. */
  lemma SplitAround<T>(s: seq<T>, i: nat)
    requires i < |s|
    ensures s == (s[..i] + [s[i]]) + s[i + 1..]
  {
  }

  /** The intro of a single entry is its piece. */
  lemma IntrosSingle(e: DtmfConfig)
    requires e.active == 1 ==> e.ttsIntro.Some?
    ensures Intros([e]) == IntroPiece(e)
  {
    assert [e][..0] == [];
  }
}
