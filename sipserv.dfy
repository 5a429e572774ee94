/**
 * The event-driven core of sipserv.c: the globals the PJSUA callbacks
 * share, the start-up steps of main, the four callbacks and the two ways
 * out. PJSUA, popen and system() are not modelled: what they answer comes
 * in as parameters, and what the program asks of them is appended, in
 * order, to a trace of effects.
 */
module SipServ {
  import opened CString
  import opened FileName
  import opened Shell
  import opened Config
  import NumCheck

  /** PJSUA_INVALID_ID: no player, no recorder, no call. */
  const InvalidId: int := -1

  /** tts_file and tts_answer_file (sipserv.c:90-91). */
  const TtsFile: string := "play.wav"
  const TtsAnswerFile: string := "ans.wav"

  /** What the program asks of PJSUA, of the shell and of the C runtime. */
  datatype Effect =
    | Answer(call: int)                                  // pjsua_call_answer(call, 200)
    | RunCommand(cmd: string)                            // popen in callBash
    | Speak(cmd: string)                                 // system in synthesize_speech
    | PlayerCreated(file: string, player: int, call: int)      // a player on file, heard in the call
    | RecorderCreated(file: string, recorder: int, call: int)  // a recorder into file, fed by the call
    | PlayerDestroyed(player: int)
    | RecorderDestroyed(recorder: int)
    | Rewind(player: int)                                // pjmedia_wav_player_port_set_pos(port, 0)
    | HangupAll                                          // pjsua_call_hangup_all
    | Shutdown                                           // pjsua_destroy
    | Exit(status: int)                                  // exit(status)

  /** What pjsua_player_create and pjsua_player_get_port answer in create_player. */
  datatype PlayerOutcome = PlayerOk(id: nat) | PlayerCreateFailed | PlayerPortFailed(id: nat)

  /** What pjsua_recorder_create answers in create_recorder. */
  datatype RecorderOutcome = RecorderOk(id: nat) | RecorderCreateFailed

  /** The call states on_call_state tells apart. */
  datatype CallState = Confirmed | Disconnected | OtherState

  // ---------------------------------------------------------------- the trace

  /** How often the calls were hung up. */
  function Hangups(t: seq<Effect>): nat
  {
    multiset(t)[HangupAll]
  }

  /** player_destroy and recorder_destroy of the live handles. */
  function Released(playId: int, recId: int): (t: seq<Effect>)
  {
    (if playId != InvalidId then [PlayerDestroyed(playId)] else [])
    + (if recId != InvalidId then [RecorderDestroyed(recId)] else [])
  }

  /** What app_exit and error_exit do once past the latch (sipserv.c:1057-1098). */
  function Teardown(playId: int, recId: int, status: int): (t: seq<Effect>)
    ensures |t| >= 3 && t[|t| - 1] == Exit(status)
  {
    Released(playId, recId) + [HangupAll, Shutdown, Exit(status)]
  }

  /** What create_player asks for, given what PJSUA answers; a failure ends in error_exit. */
  function PlayerTrace(file: string, call: int, outcome: PlayerOutcome, playId: int, recId: int): (t: seq<Effect>)
  {
    match outcome
    case PlayerOk(id) => [PlayerCreated(file, id, call)]
    case PlayerCreateFailed => Teardown(playId, recId, 1)
    case PlayerPortFailed(id) =>
      [PlayerCreated(file, id, call)] + Teardown(id, recId, 1)
  }

  /** What create_recorder asks for, given what PJSUA answers; a failure ends in error_exit. */
  function RecorderTrace(file: string, call: int, outcome: RecorderOutcome, playId: int, recId: int): (t: seq<Effect>)
  {
    match outcome
    case RecorderOk(id) => [RecorderCreated(file, id, call)]
    case RecorderCreateFailed => Teardown(playId, recId, 1)
  }

  // ---------------------------------------------------------------- decisions

  /**
   * Whether on_incoming_call answers (sipserv.c:856-900): result is preset
   * to "1" and only a command that prints overwrites it.
   */
  predicate Admits(callCmd: Option<string>, proc: Process)
  {
    callCmd.None? || ScreeningVerdict(proc) == '1'
  }

  /**
   * The screening command, with the number in, fits cmdOut[200], and the
   * log line "Checking with \"...\"\n" built from it fits info[200]
   * (sipserv.c:883): 17 characters around it, plus the terminator.
   */
  predicate ScreeningFits(callCmd: Option<string>, nr: string)
  {
    callCmd.Some? ==> 18 + |SubstituteWildcard(callCmd.value, nr)| <= 200
  }

  /**
   * What on_incoming_call writes before screening fits its buffers: the
   * file name fits rec_ans_file[100], the diagnostic fits tmp[100], and the
   * log line "Incoming call from |...|\n>...<\n" fits info[200]
   * (sipserv.c:847): 25 characters around the two texts, plus the terminator.
   */
  predicate IncomingCallFits(remote: string, tm: Tm)
    requires RemoteInfoSupported(remote) && ValidTm(tm)
  {
    && DiagnosticFits(remote)
    && |FileNameOf(remote, tm)| < 100
    && 26 + |remote| + |FileNameOf(remote, tm)| <= 200
  }

  /** What on_incoming_call asks for after it has stored the caller's details. */
  function ScreeningTrace(callCmd: Option<string>, nr: string, proc: Process, call: int): (t: seq<Effect>)
  {
    (if callCmd.Some? then [RunCommand(SubstituteWildcard(callCmd.value, nr))] else [])
    + (if Admits(callCmd, proc) then [Answer(call)] else [])
  }

  /** The sound main and on_call_media_state play: the announcement file when one is set, the synthesized intro otherwise. */
  function MediaFile(cfg: AppConfig): string
  {
    if cfg.announcementFile.Some? then cfg.announcementFile.value else TtsFile
  }

  /** The spoken answer of a DTMF entry: its template with the first line the command printed. */
  function AnswerText(e: DtmfConfig, proc: Process): string
    requires e.ttsAnswer.Some? && AnswerTemplateSupported(e.ttsAnswer.value) && !BashFails(proc)
  {
    FormatAnswer(e.ttsAnswer.value, CStr(BashLine(proc)))
  }

  /**
   * What on_dtmf_digit needs of an active entry: a command that fits
   * command[100] and, only when that command prints a line, an answer
   * template, an answer that fits tts_buffer[200] and an espeak command that
   * fits speech_command[1024]. A failed command never reads the template.
   */
  predicate DtmfActionSupported(e: DtmfConfig, language: string, proc: Process)
  {
    && e.cmd.Some? && |e.cmd.value| < 100
    && (!BashFails(proc) ==>
          && e.ttsAnswer.Some? && AnswerTemplateSupported(e.ttsAnswer.value)
          && |AnswerText(e, proc)| < 200
          && |SpeechCommand(AnswerText(e, proc), TtsAnswerFile, language)| < 1024)
  }

  /** The settings main insists on before it sets up SIP (sipserv.c:199-205). */
  predicate SettingsComplete(cfg: AppConfig)
  {
    cfg.sipDomain.Some? && cfg.sipUser.Some? && cfg.sipPassword.Some? && cfg.language.Some?
  }

  // ---------------------------------------------------------------- the program state

  /** The globals of sipserv.c (sipserv.c:89-103) and what the program has done so far. */
  class Server {
    /** app_cfg */
    var cfg: AppConfig
    /** play_id and rec_id: the live player and recorder, InvalidId when there is none. */
    var playId: int
    var recId: int
    /** current_call */
    var currentCall: int
    /** rec_ans_file: the file the next recorder writes. */
    var recAnsFile: string
    /** lastNumber: the caller number of the latest incoming call. */
    var lastNumber: string
    /** app_exiting: the latch of app_exit and error_exit. */
    var appExiting: bool
    /** Whether exit() has ended the process. */
    var exited: bool
    /** What the program has asked for, oldest first. */
    var effects: seq<Effect>

    /**
     * Nine DTMF entries, handles that are PJSUA ids or InvalidId, and the
     * latch: app_exiting is only ever set on the way to exit().
     */
    predicate Valid()
      reads this`cfg, this`playId, this`recId, this`appExiting, this`exited
    {
      && |cfg.dtmf| == MaxDtmfSettings
      && (playId == InvalidId || playId >= 0)
      && (recId == InvalidId || recId >= 0)
      && (appExiting ==> exited)
    }

    /** The start of main (sipserv.c:89-103, 133-153): the globals' initial values and the DTMF entries' ids. */
    constructor ()
      ensures Valid()
      ensures cfg == InitialConfig()
      ensures playId == InvalidId && recId == InvalidId && currentCall == InvalidId
      ensures recAnsFile == "rec.wav" && lastNumber == "000"
      ensures !appExiting && !exited && effects == []
    {
      var c := StaticConfig();
      for i := 0 to MaxDtmfSettings
        invariant |c.dtmf| == MaxDtmfSettings
        invariant c.(dtmf := []) == StaticConfig().(dtmf := [])
        invariant forall j :: 0 <= j < i ==> c.dtmf[j] == BlankDtmf().(id := j + 1)
        invariant forall j :: i <= j < MaxDtmfSettings ==> c.dtmf[j] == BlankDtmf()
      {
        c := c.(dtmf := c.dtmf[i := c.dtmf[i].(id := i + 1, active := 0, processingActive := 0)]);
      }
      assert c.dtmf == InitialConfig().dtmf;
      cfg := c;
      playId, recId, currentCall := InvalidId, InvalidId, InvalidId;
      recAnsFile, lastNumber := "rec.wav", "000";
      appExiting, exited := false, false;
      effects := [];
    }

    /** Appends one effect to the trace. */
    method Emit(e: Effect)
      modifies this`effects
      ensures effects == old(effects) + [e]
    {
      effects := effects + [e];
    }

    // ---------------------------------------------------------------- main

    /**
     * parse_config_file (sipserv.c:348-517): each line fgets reads is applied
     * in turn; a file that cannot be opened ends the program.
     */
    method ParseConfigFile(file: Option<string>)
      requires Valid() && !exited
      requires file.Some? ==> FileSupported(file.value)
      modifies this`cfg, this`exited, this`effects
      ensures Valid()
      ensures file.Some? ==> cfg == ParseConfig(old(cfg), file.value) && !exited && effects == old(effects)
      ensures file.None? ==> cfg == old(cfg) && exited && effects == old(effects) + [Exit(1)]
    {
      if file.None? {
        Emit(Exit(1));
        exited := true;
        return;
      }
      var rest := file.value;
      while rest != []
        invariant |cfg.dtmf| == MaxDtmfSettings && !exited && effects == old(effects)
        invariant ApplyLines(cfg, ConfigLines(rest)) == ParseConfig(old(cfg), file.value)
        decreases |rest|
      {
        var line := FgetsLine(rest, 200);
        ConfigLinesStep(cfg, rest);
        cfg := ApplyLine(cfg, line);
        rest := rest[|line|..];
      }
      assert ConfigLines(rest) == [];
    }

    /**
     * The checks of main after parsing (sipserv.c:199-232): the four SIP
     * settings must be there, and an announcement file, when one is set,
     * must open.
     */
    method CheckSettings(announcementOpens: bool) returns (ok: bool)
      requires Valid() && !exited
      modifies this`exited, this`effects
      ensures Valid()
      ensures ok <==> SettingsComplete(cfg) && (cfg.announcementFile.Some? ==> announcementOpens)
      ensures ok ==> !exited && effects == old(effects)
      ensures !ok ==> exited && effects == old(effects) + [Exit(1)]
    {
      ok := SettingsComplete(cfg) && (cfg.announcementFile.Some? ==> announcementOpens);
      if !ok {
        Emit(Exit(1));
        exited := true;
      }
    }

    /** The intro text main builds with strcpy and strcat in tts_buffer[1024] (sipserv.c:235-248). */
    method GenerateIntro() returns (text: string)
      requires Valid() && cfg.tts.Some? && IntrosDefined(cfg.dtmf)
      requires |IntroText(cfg)| < 1024
      ensures text == IntroText(cfg)
    {
      text := cfg.tts.value + " ";
      for i := 0 to MaxDtmfSettings
        invariant IntrosDefined(cfg.dtmf[..i])
        invariant text == cfg.tts.value + " " + Intros(cfg.dtmf[..i])
      {
        var d := cfg.dtmf[i];
        assert cfg.dtmf[..i + 1][..i] == cfg.dtmf[..i];
        assert cfg.dtmf[..i + 1][i] == d;
        if d.active == 1 {
          text := text + d.ttsIntro.value + " ";
        }
      }
      assert cfg.dtmf[..MaxDtmfSettings] == cfg.dtmf;
    }

    /** synthesize_speech (sipserv.c:710-719): espeak writes the text to file; system() answers status. */
    method SynthesizeSpeech(speech: string, file: string, status: int) returns (r: int)
      requires cfg.language.Some? && |SpeechCommand(speech, file, cfg.language.value)| < 1024
      modifies this`effects
      ensures r == status
      ensures effects == old(effects) + [Speak(SpeechCommand(speech, file, cfg.language.value))]
    {
      Emit(Speak(SpeechCommand(speech, file, cfg.language.value)));
      r := status;
    }

    /** main synthesizes the intro into play.wav; a failure ends the program (sipserv.c:251-257). */
    method SynthesizeIntro(text: string, synthStatus: int)
      requires Valid() && !exited && cfg.language.Some?
      requires |SpeechCommand(text, TtsFile, cfg.language.value)| < 1024
      modifies this`playId, this`recId, this`appExiting, this`exited, this`effects
      ensures Valid()
      ensures synthStatus == 0 ==>
        && effects == old(effects) + [Speak(SpeechCommand(text, TtsFile, cfg.language.value))]
        && !exited && playId == old(playId) && recId == old(recId)
      ensures synthStatus != 0 ==>
        && effects == old(effects) + [Speak(SpeechCommand(text, TtsFile, cfg.language.value))]
                      + Teardown(old(playId), old(recId), 1)
        && exited && appExiting && playId == InvalidId && recId == InvalidId
    {
      var status := SynthesizeSpeech(text, TtsFile, synthStatus);
      if status != 0 {
        ErrorExit();
      }
    }

    // ---------------------------------------------------------------- players and recorders

    /** player_destroy (sipserv.c:691-697): a live handle is destroyed and play_id cleared. */
    method PlayerDestroy(id: int)
      modifies this`playId, this`effects
      ensures id != InvalidId ==> playId == InvalidId && effects == old(effects) + [PlayerDestroyed(id)]
      ensures id == InvalidId ==> playId == old(playId) && effects == old(effects)
    {
      if id != InvalidId {
        Emit(PlayerDestroyed(id));
        playId := InvalidId;
      }
    }

    /** recorder_destroy (sipserv.c:699-707): 0 when a live recorder was destroyed, 1 when there was none. */
    method RecorderDestroy(id: int) returns (r: int)
      modifies this`recId, this`effects
      ensures r == 0 <==> id != InvalidId
      ensures r == 0 || r == 1
      ensures id != InvalidId ==> recId == InvalidId && effects == old(effects) + [RecorderDestroyed(id)]
      ensures id == InvalidId ==> recId == old(recId) && effects == old(effects)
    {
      if id != InvalidId {
        Emit(RecorderDestroyed(id));
        recId := InvalidId;
        return 0;
      }
      return 1;
    }

    /** create_player (sipserv.c:646-669): a player on file joined to the call; a failure ends the program. */
    method CreatePlayer(call: int, file: string, outcome: PlayerOutcome)
      requires Valid() && !exited
      modifies this`playId, this`recId, this`appExiting, this`exited, this`effects
      ensures Valid()
      ensures effects == old(effects) + PlayerTrace(file, call, outcome, old(playId), old(recId))
      ensures outcome.PlayerOk? ==> playId == outcome.id && recId == old(recId) && !exited
      ensures !outcome.PlayerOk? ==> playId == InvalidId && recId == InvalidId && exited && appExiting
    {
      match outcome
      case PlayerOk(id) =>
        playId := id;
        Emit(PlayerCreated(file, id, call));
      case PlayerCreateFailed =>
        ErrorExit();
      case PlayerPortFailed(id) =>
        playId := id;
        Emit(PlayerCreated(file, id, call));
        ErrorExit();
    }

    /** create_recorder (sipserv.c:672-689): a recorder into rec_ans_file fed by the call; a failure ends the program. */
    method CreateRecorder(call: int, outcome: RecorderOutcome)
      requires Valid() && !exited
      modifies this`playId, this`recId, this`appExiting, this`exited, this`effects
      ensures Valid()
      ensures effects == old(effects) + RecorderTrace(recAnsFile, call, outcome, old(playId), old(recId))
      ensures outcome.RecorderOk? ==> recId == outcome.id && playId == old(playId) && !exited
      ensures !outcome.RecorderOk? ==> playId == InvalidId && recId == InvalidId && exited && appExiting
    {
      match outcome
      case RecorderOk(id) =>
        recId := id;
        Emit(RecorderCreated(recAnsFile, id, call));
      case RecorderCreateFailed =>
        ErrorExit();
    }

    // ---------------------------------------------------------------- the callbacks

    /**
     * on_incoming_call (sipserv.c:829-901): remember the call, the recording
     * file name and the caller number; run the screening command with the
     * number in place of its '#'; answer when the first character of result
     * is '1'. The error callBash reports is not looked at, so a command that
     * cannot start or prints nothing leaves the preset "1" and the call is
     * answered.
     */
    method OnIncomingCall(call: nat, remote: string, tm: Tm, proc: Process)
      requires !exited
      requires RemoteInfoSupported(remote) && ValidTm(tm)
      requires IncomingCallFits(remote, tm)
      requires ScreeningFits(cfg.callCmd, SipNumber(SipText(remote)))
      modifies this`currentCall, this`recAnsFile, this`lastNumber, this`effects
      ensures currentCall == call
      ensures recAnsFile == FileNameOf(remote, tm) && lastNumber == SipNumber(SipText(remote))
      ensures effects == old(effects) + ScreeningTrace(cfg.callCmd, lastNumber, proc, call)
    {
      RememberCaller(call, remote, tm);
      Screen(call, proc);
    }

    /** The first half of on_incoming_call (sipserv.c:841-854): the call, its recording file and the caller number are stored. */
    method RememberCaller(call: nat, remote: string, tm: Tm)
      requires RemoteInfoSupported(remote) && ValidTm(tm)
      requires IncomingCallFits(remote, tm)
      modifies this`currentCall, this`recAnsFile, this`lastNumber
      ensures currentCall == call
      ensures recAnsFile == FileNameOf(remote, tm) && lastNumber == SipNumber(SipText(remote))
    {
      var filename, sipNr := FileNameFromCallInfo(remote, tm);
      currentCall, recAnsFile, lastNumber := call, filename, sipNr;
    }

    /**
     * The screening half of on_incoming_call (sipserv.c:856-900): result
     * holds "1" until a command that prints overwrites it.
     */
    method Screen(call: int, proc: Process)
      requires ScreeningFits(cfg.callCmd, lastNumber)
      modifies this`effects
      ensures effects == old(effects) + ScreeningTrace(cfg.callCmd, lastNumber, proc, call)
    {
      var result := new char[ResultSize];
      result[0], result[1] := '1', '\0';
      if cfg.callCmd.Some? {
        Emit(RunCommand(SubstituteWildcard(cfg.callCmd.value, lastNumber)));
        var error := CallBash(proc, result);
      }
      if result[0] == '1' {
        Emit(Answer(call));
      }
    }

    /**
     * on_call_media_state (sipserv.c:904-933): once the media is active,
     * play the announcement or the intro into the call and, when calls are
     * recorded, record it into rec_ans_file.
     */
    method OnCallMediaState(call: int, mediaActive: bool, player: PlayerOutcome, recorder: RecorderOutcome)
      requires Valid() && !exited
      modifies this`playId, this`recId, this`appExiting, this`exited, this`effects
      ensures Valid()
      ensures !mediaActive ==>
        effects == old(effects) && playId == old(playId) && recId == old(recId) && !exited
      ensures mediaActive && !player.PlayerOk? ==>
        effects == old(effects) + PlayerTrace(MediaFile(cfg), call, player, old(playId), old(recId)) && exited
      ensures mediaActive && player.PlayerOk? && cfg.recordCalls == 0 ==>
        && effects == old(effects) + [PlayerCreated(MediaFile(cfg), player.id, call)]
        && playId == player.id && recId == old(recId) && !exited
      ensures mediaActive && player.PlayerOk? && cfg.recordCalls != 0 ==>
        && effects == old(effects) + [PlayerCreated(MediaFile(cfg), player.id, call)]
                      + RecorderTrace(recAnsFile, call, recorder, player.id, old(recId))
        && (recorder.RecorderOk? ==> playId == player.id && recId == recorder.id && !exited)
        && (!recorder.RecorderOk? ==> exited)
    {
      if mediaActive {
        CreatePlayer(call, MediaFile(cfg), player);
        if exited {
          return;
        }
        if cfg.recordCalls != 0 {
          CreateRecorder(call, recorder);
        }
      }
    }

    /**
     * on_call_state (sipserv.c:936-982): a confirmed call rewinds the player;
     * a disconnected one releases the player and the recorder, and when a
     * recorder was live and an aftermath command is set, runs that command
     * with the local URI, the caller number and the recording file.
     */
    method OnCallState(state: CallState, local: string)
      requires Valid() && !exited
      requires state == Disconnected && recId != InvalidId && cfg.afterMath.Some? ==>
        |AftermathCommand(cfg.afterMath.value, local, lastNumber, recAnsFile)| < 300
      modifies this`playId, this`recId, this`effects
      ensures Valid()
      ensures state == Confirmed ==>
        && playId == old(playId) && recId == old(recId)
        && effects == old(effects) + (if old(playId) != InvalidId then [Rewind(old(playId))] else [])
      ensures state == Disconnected ==>
        && playId == InvalidId && recId == InvalidId
        && effects == old(effects) + Released(old(playId), old(recId))
             + (if old(recId) != InvalidId && cfg.afterMath.Some?
                then [RunCommand(AftermathCommand(cfg.afterMath.value, local, lastNumber, recAnsFile))]
                else [])
      ensures state == OtherState ==> playId == old(playId) && recId == old(recId) && effects == old(effects)
    {
      if state == Confirmed && playId != InvalidId {
        Emit(Rewind(playId));
      }
      if state == Disconnected {
        PlayerDestroy(playId);
        var r := RecorderDestroy(recId);
        if r == 0 && cfg.afterMath.Some? {
          Emit(RunCommand(AftermathCommand(cfg.afterMath.value, local, lastNumber, recAnsFile)));
        }
      }
    }

    /**
     * on_dtmf_digit (sipserv.c:989-1047) for a digit '1' to '9'. An entry
     * already being processed drops the digit; otherwise its flag is set for
     * the duration and cleared on every way out but exit. An active entry
     * runs its command; when that prints a line, the player and the recorder
     * are released, the answer is synthesized into ans.wav and played,
     * whatever the synthesis answered.
     */
    method OnDtmfDigit(call: int, digit: char, proc: Process, synthStatus: int, player: PlayerOutcome)
      requires Valid() && !exited && cfg.language.Some?
      requires '1' <= digit <= '9'
      requires var e := cfg.dtmf[digit as int - '1' as int];
        e.processingActive == 0 && e.active == 1 ==> DtmfActionSupported(e, cfg.language.value, proc)
      modifies this`cfg, this`playId, this`recId, this`appExiting, this`exited, this`effects
      ensures Valid()
      ensures !exited ==> cfg == old(cfg)
      ensures var e := old(cfg.dtmf[digit as int - '1' as int]);
        e.processingActive != 0 || e.active != 1 ==>
          effects == old(effects) && playId == old(playId) && recId == old(recId) && !exited
      ensures var e := old(cfg.dtmf[digit as int - '1' as int]);
        e.processingActive == 0 && e.active == 1 && BashFails(proc) ==>
          effects == old(effects) + [RunCommand(e.cmd.value)] && playId == old(playId) && recId == old(recId)
          && !exited
      ensures var e := old(cfg.dtmf[digit as int - '1' as int]);
        e.processingActive == 0 && e.active == 1 && !BashFails(proc) ==>
          && effects == old(effects) + [RunCommand(e.cmd.value)] + Released(old(playId), old(recId))
               + [Speak(SpeechCommand(AnswerText(e, proc), TtsAnswerFile, old(cfg.language.value)))]
               + PlayerTrace(TtsAnswerFile, call, player, InvalidId, InvalidId)
          && recId == InvalidId
          && playId == (if player.PlayerOk? then player.id else InvalidId)
          && (exited <==> !player.PlayerOk?)
    {
      var k := digit as int - '1' as int;
      var e := cfg.dtmf[k];
      if e.processingActive != 0 {
        return;
      }
      cfg := cfg.(dtmf := cfg.dtmf[k := e.(processingActive := 1)]);
      if e.active == 1 {
        RunDtmfAction(call, e, proc, synthStatus, player);
        if exited {
          return;
        }
      }
      cfg := cfg.(dtmf := cfg.dtmf[k := e]);
    }

    /**
     * The body of on_dtmf_digit for an active entry (sipserv.c:1008-1040):
     * run the command; when it prints a line, release the player and the
     * recorder, speak the answer into ans.wav and play it into the call.
     */
    method RunDtmfAction(call: int, e: DtmfConfig, proc: Process, synthStatus: int, player: PlayerOutcome)
      requires Valid() && !exited && cfg.language.Some?
      requires DtmfActionSupported(e, cfg.language.value, proc)
      modifies this`playId, this`recId, this`appExiting, this`exited, this`effects
      ensures Valid()
      ensures BashFails(proc) ==>
        effects == old(effects) + [RunCommand(e.cmd.value)] && playId == old(playId) && recId == old(recId)
        && !exited
      ensures !BashFails(proc) ==>
        && effects == old(effects) + [RunCommand(e.cmd.value)] + Released(old(playId), old(recId))
             + [Speak(SpeechCommand(AnswerText(e, proc), TtsAnswerFile, cfg.language.value))]
             + PlayerTrace(TtsAnswerFile, call, player, InvalidId, InvalidId)
        && recId == InvalidId
        && playId == (if player.PlayerOk? then player.id else InvalidId)
        && (exited <==> !player.PlayerOk?)
    {
      var result := new char[ResultSize];
      Emit(RunCommand(e.cmd.value));
      var error := CallBash(proc, result);
      if !error {
        var line := BashLine(proc);
        assert result[..] == line + ['\0'] + result[|line| + 1..];
        CStrCut(line, result[|line| + 1..]);
        SpeakAnswer(call, e.ttsAnswer.value, CStr(result[..]), synthStatus, player);
      }
    }

    /**
     * What follows a command that printed a line (sipserv.c:1019-1032): drop
     * the player and the recorder, speak the template filled with the line
     * into ans.wav and play that file into the call.
     */
    method SpeakAnswer(call: int, template: string, line: string, synthStatus: int, player: PlayerOutcome)
      requires Valid() && !exited && cfg.language.Some? && AnswerTemplateSupported(template)
      requires |SpeechCommand(FormatAnswer(template, line), TtsAnswerFile, cfg.language.value)| < 1024
      modifies this`playId, this`recId, this`appExiting, this`exited, this`effects
      ensures Valid()
      ensures effects == old(effects) + Released(old(playId), old(recId))
        + [Speak(SpeechCommand(FormatAnswer(template, line), TtsAnswerFile, cfg.language.value))]
        + PlayerTrace(TtsAnswerFile, call, player, InvalidId, InvalidId)
      ensures recId == InvalidId && playId == (if player.PlayerOk? then player.id else InvalidId)
      ensures exited <==> !player.PlayerOk?
    {
      ReleaseMedia();
      var answer := FormatAnswer(template, line);
      var _ := SynthesizeSpeech(answer, TtsAnswerFile, synthStatus);
      CreatePlayer(call, TtsAnswerFile, player);
    }

    // ---------------------------------------------------------------- the ways out

    /** app_exit (sipserv.c:1057-1076), also what SIGINT leads to: past the latch, release, hang up, exit(0). */
    method AppExit()
      requires Valid()
      modifies this`playId, this`recId, this`appExiting, this`exited, this`effects
      ensures Valid() && appExiting && exited
      ensures old(appExiting) ==> effects == old(effects) && playId == old(playId) && recId == old(recId)
      ensures !old(appExiting) ==>
        effects == old(effects) + Teardown(old(playId), old(recId), 0) && playId == InvalidId && recId == InvalidId
    {
      if !appExiting {
        Terminate(0);
      }
    }

    /** error_exit (sipserv.c:1079-1098): as app_exit, with exit(1). */
    method ErrorExit()
      requires Valid()
      modifies this`playId, this`recId, this`appExiting, this`exited, this`effects
      ensures Valid() && appExiting && exited
      ensures old(appExiting) ==> effects == old(effects) && playId == old(playId) && recId == old(recId)
      ensures !old(appExiting) ==>
        effects == old(effects) + Teardown(old(playId), old(recId), 1) && playId == InvalidId && recId == InvalidId
    {
      if !appExiting {
        Terminate(1);
      }
    }

    /** The common body of app_exit and error_exit past the latch. */
    method Terminate(status: int)
      requires Valid() && !appExiting
      modifies this`playId, this`recId, this`appExiting, this`exited, this`effects
      ensures Valid() && appExiting && exited
      ensures effects == old(effects) + Teardown(old(playId), old(recId), status)
      ensures playId == InvalidId && recId == InvalidId
    {
      appExiting := true;
      ghost var released := effects;
      ReleaseMedia();
      Emit(HangupAll);
      Emit(Shutdown);
      Emit(Exit(status));
      assert effects == old(effects) + (Released(old(playId), old(recId)) + [HangupAll, Shutdown, Exit(status)]);
      exited := true;
    }

    /** player_destroy(play_id) and recorder_destroy(rec_id), as the exits and on_dtmf_digit call them. */
    method ReleaseMedia()
      modifies this`playId, this`recId, this`effects
      ensures playId == InvalidId && recId == InvalidId
      ensures effects == old(effects) + Released(old(playId), old(recId))
    {
      PlayerDestroy(playId);
      var _ := RecorderDestroy(recId);
    }
  }

  // ---------------------------------------------------------------- properties across the pieces

  /** The way out hangs the calls up exactly once (sipserv.c:1057-1098). */
  lemma TeardownHangsUpOnce(playId: int, recId: int, status: int)
    ensures Hangups(Teardown(playId, recId, status)) == 1
  {
    var r := Released(playId, recId);
    var tail := [HangupAll, Shutdown, Exit(status)];
    assert Teardown(playId, recId, status) == r + tail;
    assert HangupAll !in r && multiset(tail)[HangupAll] == 1;
    assert multiset(r + tail) == multiset(r) + multiset(tail);
  }

  /**
   * The way out destroys exactly the live player and recorder, and neither
   * runs a command nor answers a call (sipserv.c:691-707, 1057-1098).
   */
  lemma TeardownReleasesLive(playId: int, recId: int, status: int)
    ensures PlayerDestroyed(playId) in Teardown(playId, recId, status) <==> playId != InvalidId
    ensures RecorderDestroyed(recId) in Teardown(playId, recId, status) <==> recId != InvalidId
    ensures forall e :: e in Teardown(playId, recId, status) ==> !e.RunCommand? && !e.Answer?
  {
    var r := Released(playId, recId);
    assert Teardown(playId, recId, status) == r + [HangupAll, Shutdown, Exit(status)];
  }

  /**
   * Screening answers the call exactly when it admits it, and runs the
   * screening command exactly when one is configured (sipserv.c:856-900).
   */
  lemma ScreeningAnswersIffAdmitted(callCmd: Option<string>, nr: string, proc: Process, call: int)
    ensures Answer(call) in ScreeningTrace(callCmd, nr, proc, call) <==> Admits(callCmd, proc)
    ensures (exists c :: RunCommand(c) in ScreeningTrace(callCmd, nr, proc, call)) <==> callCmd.Some?
    ensures callCmd.None? ==> ScreeningTrace(callCmd, nr, proc, call) == [Answer(call)]
  {
    var t := ScreeningTrace(callCmd, nr, proc, call);
    if callCmd.Some? {
      assert RunCommand(SubstituteWildcard(callCmd.value, nr)) == t[0];
    }
  }

  /**
   * With numcheck.py as the screening command, no call is ever answered:
   * whatever the arguments and the numbers file, the first character it
   * prints is not '1' (numcheck.py:42, sipserv.c:892).
   */
  lemma NumCheckNeverAdmits(cmd: string, argv: seq<string>, file: NumCheck.NumbersFile)
    ensures !Admits(Some(cmd), Started(NumCheck.Stdout(NumCheck.Run(argv, file).out)))
  {
    NumCheck.FirstCharacterNeverOne(argv, file);
  }

  /** With the list print left out, numcheck.py admits exactly the numbers the file lists. */
  lemma IntendedNumCheckAdmits(cmd: string, number: string, lines: seq<string>)
    requires forall i :: 0 <= i < |lines| ==> lines[i] != []
    ensures Admits(Some(cmd), Started(NumCheck.Stdout(NumCheck.ScanIntended(number, lines))))
      <==> NumCheck.AnyMatch(number, lines)
  {
    NumCheck.ScanIntendedVerdict(number, lines);
  }

  /**
   * The recording file of a call holds none of '"', '$', '`' and backslash,
   * since the sanitizer replaces all four (sipserv.c:801). So when the
   * aftermath program part opens no quote and the local URI and the caller
   * number hold nothing sh interprets inside double quotes, the aftermath
   * command (sipserv.c:973) hands the file intact to the aftermath program
   * as its third double-quoted word. The caller number is not sanitized, so
   * that condition on it is the caller's to meet.
   */
  lemma RecordingReachesAftermath(am: string, local: string, number: string, remote: string, tm: Tm)
    requires RemoteInfoSupported(remote) && ValidTm(tm)
    requires Unquoted(am) && LiteralInDoubleQuotes(local) && LiteralInDoubleQuotes(number)
    ensures LiteralInDoubleQuotes(FileNameOf(remote, tm))
    ensures LastQuoted(AftermathCommand(am, local, number, FileNameOf(remote, tm)), '"') == Some(FileNameOf(remote, tm))
    ensures QuotedWords(AftermathCommand(am, local, number, FileNameOf(remote, tm)), '"')
      == Some([local, number, FileNameOf(remote, tm)])
  {
    var f := FileNameOf(remote, tm);
    SanitizeRemovesForbidden(RawFileName(Timestamp(tm), SipNumber(SipText(remote)), PhoneBookText(remote)));
    assert forall i :: 0 <= i < |f| ==> !Forbidden(f[i]);
    AftermathQuotesFile(am, local, number, f);
  }

  /**
   * Whatever the configuration file says, entry 9 stays inactive and idle,
   * so on_dtmf_digit ignores the digit 9 (sipserv.c:145-153, 454-461, 1002).
   */
  lemma DigitNineStaysIdle(file: string)
    ensures var e := ParseConfig(InitialConfig(), file).dtmf[MaxDtmfSettings - 1];
      e.active == 0 && e.processingActive == 0 && e.cmd.None?
  {
    ApplyLinesKeepsFixedFields(InitialConfig(), ConfigLines(file));
  }
}
