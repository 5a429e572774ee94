# SIP-Pi answering machine: a Dafny model of its call-handling core

SIP-Pi is an unattended answering machine built on the PJSUA SIP stack (`sipserv.c`).
When a call comes in it:
- derives a recording file name from the caller description and the local time;
- asks an optional screening command (typically `numcheck.py`) whether to take the call;
- plays an announcement or an espeak-synthesized intro, and can record the call;
- runs a configured command for each DTMF digit and speaks its first output line back;
- hands the recording to an "aftermath" command when the call ends.

The project models that core and proves what it does.

- `cstring.dfy` (module `CString`) is the C-string vocabulary:
  - a buffer is read as the characters before its first NUL;
  - `strchr`, `strrchr`, `strcspn`, `isspace`, `fgets` and `printf`'s `%d`/`%0Nd`;
  - `trim_string`, an in-place method on an `array<char>`.
- `filename.dfy` (module `FileName`) has `extractdelimited`, `getTimestamp`, `stringRemoveChars` and `FileNameFromCallInfo`.
  - The methods work on `array<char>` buffers as the C code does.
  - They are proved against specification functions (`Delimited`, `Timestamp`, `Sanitize`, `FileNameOf`).
- `shell.dfy` (module `Shell`) has:
  - `callBash`, which reads one `fgets` line of a command's output into a 20-character buffer;
  - the `#` wildcard of the screening command;
  - the espeak command line of `synthesize_speech`;
  - the aftermath command line;
  - the `sprintf` of a DTMF answer template.
- `config.dfy` (module `Config`) has:
  - `struct app_config`;
  - what one `key=value` line of the configuration file does to it (`strtok`, the newline fix-up, `strcasecmp`, `atoi`, the `sscanf` of `dtmf.N.setting` keys);
  - the intro text `main` assembles.
- `sipserv.dfy` (module `SipServ`) has the class `Server`. Its fields are the program's globals: `app_cfg`, `play_id`, `rec_id`, `current_call`, `rec_ans_file`, `lastNumber` and `app_exiting`. Its methods are:
  - the start-up steps of `main`;
  - the four PJSUA callbacks;
  - `player_destroy` and `recorder_destroy`;
  - `create_player` and `create_recorder`;
  - `app_exit` and `error_exit`.
- `numcheck.dfy` (module `NumCheck`) is the screening script `numcheck.py`:
  - its argument and file checks;
  - the prefix loop, as a function and as a method with a loop;
  - exactly what it prints.

PJSUA, `popen`, `system()`, `fopen` and `localtime` are not executed by the model.
- What they answer comes in as parameters: `Process`, `PlayerOutcome`, `RecorderOutcome`, `CallState`, a synthesis status, a `Tm`, and the configuration file as `Option<string>`.
- What the program asks of them is appended, in order, to the `effects` trace of the `Server`: answer, run a command, speak, create or destroy a player or recorder, rewind, hang up, shut down, exit.
- `exit()` is the effect `Exit(status)` followed by the flag `exited`.
- The exit latch `app_exiting` is kept as the class invariant `appExiting ==> exited`.

Behaviour of the code that the model keeps as written:
- **Screening failures admit the call.** `on_incoming_call` presets `result` to `"1"` and never looks at the error `callBash` reports. A screening command that cannot start, or prints nothing, therefore leaves the `'1'`, and the call is answered (`Shell.ScreeningVerdict`, `SipServ.Admits`). Only the comment at sipserv.c:857 describes the preset, as "take call".
- **The name part of a recording file is never empty.** `PhoneBookText` starts as `"NoEntry"`, and `strncpy` writes no terminator. A quoted name shorter than seven characters therefore keeps the rest of `"NoEntry"`: `"Jo"` gives `"JoEntry"` (`FileName.PhoneBookTextValue`).
- **Digit 9 can never be configured.** `parse_config_file` skips every `dtmf.N.*` line with `N >= MAX_DTMF_SETTINGS` (9), although entry 9 exists. Entry 9 therefore stays inactive and the digit 9 does nothing (`Config.DigitNineLine`, `SipServ.DigitNineStaysIdle`).
- **A failed DTMF synthesis still plays `ans.wav`.** `on_dtmf_digit` logs the failed synthesis and still creates the player (`SipServ.Server.SpeakAnswer`).
- **Player and recorder failures end the process**, even mid-call, through `error_exit`.
- **Digits outside '1' to '9'** (`'0'`, `'*'`, `'#'`, `'A'` to `'D'`) would index outside the nine entries in `on_dtmf_digit`; the code does not reject them. The model states this as a precondition; see "Left out".
- **`numcheck.py` never admits a call.** It prints the split form of every line it examines before it prints `1`. The first character it prints is therefore `'['` or `'0'`, never `'1'`, so with it as the screening command `sipserv.c` answers no call (`NumCheck.FirstCharacterNeverOne`, `SipServ.NumCheckNeverAdmits`). This is listed under "Findings" with the corrected loop.

## Model

| member | source | states |
|---|---|---|
| CString.CStr | sipserv.c:529-529 | the C string a buffer holds is the prefix before its first NUL: a prefix of the buffer, NUL-free, followed by a NUL when shorter than the buffer |
| CString.CStrOfTerminated | sipserv.c:534-534 | text followed by a written terminator reads back as exactly that text, whatever follows |
| CString.CStrCut | sipserv.c:819-819 | what follows a terminator is not part of the string |
| CString.IndexOf | sipserv.c:724-724 | strchr: None iff the character is absent, otherwise the index of its first occurrence |
| CString.LastIndexOf | sipserv.c:725-725 | strrchr: None iff the character is absent, otherwise the index of its last occurrence |
| CString.SpanWithout | sipserv.c:779-779 | strcspn with one reject character: the longest prefix free of it, stopped by it |
| CString.TrimLeft | sipserv.c:522-522 | drops only leading white space and leaves text that does not start with white space |
| CString.TrimRight | sipserv.c:532-534 | keeps a prefix, drops only trailing white space and leaves text that does not end with white space |
| CString.TrimLeftAt | sipserv.c:522-522 | skipping k white-space characters up to a non-space one is exactly TrimLeft |
| CString.TrimLeftSuffix | sipserv.c:522-522 | TrimLeft yields a suffix of its input |
| CString.TrimRightAt | sipserv.c:532-534 | cutting the white space after a non-space character at k-1 is exactly TrimRight |
| CString.TrimIdempotent | sipserv.c:520-537 | trimming trimmed text changes nothing |
| CString.TrimString | sipserv.c:520-537 | trim_string in place: the C string read from the returned index is the original C string trimmed on both sides; every byte but the new terminator keeps its value |
| CString.AllSpace | sipserv.c:529-530 | text of white space only trims to the empty string, which is what remains at the terminator |
| CString.CutAfter | sipserv.c:534-534 | the terminator written after the last non-space character leaves the trimmed text readable from the start index |
| CString.SkipSpace | sipserv.c:522-522 | the first loop stops at the index where TrimLeft's result begins |
| CString.StrLen | sipserv.c:529-529 | strlen: the index of the terminator |
| CString.SkipTrailingSpace | sipserv.c:532-533 | the second loop stops at the last non-space character, with only white space after it |
| CString.TrimmedBuffer | sipserv.c:532-536 | the buffer as trim_string leaves it reads back as the trimmed text |
| CString.CutReadsBack | sipserv.c:534-534 | a terminator written at stop leaves text[start..stop] readable from start |
| CString.TrimOfSlice | sipserv.c:522-534 | the text between the leading spaces and the trailing spaces is the trimmed text |
| CString.TrimRightOfSlice | sipserv.c:532-534 | seen from the start index, TrimRight cuts after the last non-space character |
| CString.FgetsLine | sipserv.c:819-819 | fgets takes at most n-1 characters, stops after the first newline, and returns nothing only at end of file |
| CString.FgetsChunks | sipserv.c:357-357 | the pieces of a `while (fgets(...))` loop are non-empty and at most n-1 long |
| CString.FgetsChunksConcat | sipserv.c:357-357 | reading a stream piece by piece loses and adds nothing |
| CString.DigitChar | sipserv.c:744-750 | a digit value prints as a decimal digit character |
| CString.Decimal | sipserv.c:744-750 | %d of a natural number: decimal digits only, no leading zero |
| CString.ParseDecimalOfDecimal | sipserv.c:744-750 | the printed digits read back as the number |
| CString.ParseDecimalLeadingZeros | sipserv.c:744-750 | leading zeros do not change the value a digit string reads as |
| CString.DecimalLength | sipserv.c:744-750 | a number below 10^w prints in at most w digits |
| CString.Padded | sipserv.c:744-750 | %0wd: only digits, at least w of them, reading back as the number |
| CString.PaddedLength | sipserv.c:744-750 | a number below 10^w prints in exactly w characters under %0wd |
| FileName.Sanitize | sipserv.c:754-762 | every character of the spanset becomes '_', every other character is kept, the length is kept |
| FileName.SanitizeRemovesForbidden | sipserv.c:801-801 | the sanitized name holds no forbidden character and keeps every allowed one in place |
| FileName.SanitizeIdempotent | sipserv.c:754-762 | sanitizing a sanitized name changes nothing |
| FileName.SanitizeConcat | sipserv.c:754-762 | sanitizing distributes over concatenation |
| FileName.SanitizeClean | sipserv.c:754-762 | a name without forbidden characters is left as it is |
| FileName.Strpbrk | sipserv.c:756-760 | strpbrk from an index: the first forbidden character of the C string at or after it, None when there is none |
| FileName.StringRemoveChars | sipserv.c:754-762 | in place on the buffer: its C string becomes the sanitized original, same length; the terminator and the rest of the buffer are kept |
| FileName.ReplaceForbidden | sipserv.c:759-759 | one loop turn: the found forbidden character becomes '_', and one more character is sanitized |
| FileName.Delimited | sipserv.c:724-731 | None iff a delimiter is missing; otherwise the text strictly between the first opening and the last closing delimiter |
| FileName.Overlay | sipserv.c:732-732 | strncpy without a terminator: the text replaces the start of the buffer and the rest is kept |
| FileName.ExtractDelimited | sipserv.c:722-733 | in place on dest: with a delimiter missing dest is unchanged, otherwise the delimited text is written over its start and nothing else changes |
| FileName.Timestamp | sipserv.c:735-752 | getTimestamp's text holds no character the file name sanitizer would replace, and no NUL |
| FileName.TimestampFields | sipserv.c:744-750 | for a four-digit year the timestamp is "YYYY-MM-DD hh-mm-ss", 19 characters, and each field reads back as tm's year+1900, month+1, day, hour, minute and second |
| FileName.TimestampLayoutReads | sipserv.c:744-750 | fields of the printed widths, joined by the format's separators, lay out as YYYY-MM-DD hh-mm-ss |
| FileName.TimestampLayoutClean | sipserv.c:744-750 | digits joined by '-' and ' ' are clean for a file name |
| FileName.TimestampLayoutFields | sipserv.c:744-744 | where each field and separator sits in the formatted timestamp |
| FileName.NoEntryBuffer | sipserv.c:768-768 | PhoneBookText is a 100-character buffer initialised to "NoEntry" |
| FileName.EmptyBuffer | sipserv.c:766-766 | sipTxt is a 100-character buffer initialised to "" |
| FileName.SipNumber | sipserv.c:778-786 | with the "sip:" scheme, the number is the text after it up to the first '@' or the end, holding no '@'; without the scheme it is empty |
| FileName.FileNameFromCallInfo | sipserv.c:764-802 | yields the number from the bracketed URI and the sanitized name assembled from the timestamp, the number and the quoted name |
| FileName.ExtractNumber | sipserv.c:778-786 | the strncpy into sipNr[100], preset to "", and the terminator after it: the buffer then reads back as the text after "sip:" up to the first '@', and stays "" without the scheme |
| FileName.ExtractCallerFields | sipserv.c:766-775 | the two extractdelimited calls over the initialised buffers leave the quoted name and the URI text |
| FileName.AssembleFileName | sipserv.c:791-801 | the strcpy/strcat assembly followed by stringRemoveChars is the sanitized "ts nr[ pb].wav" |
| FileName.PhoneBookTextValue | sipserv.c:768-774 | the name part is "NoEntry" without quotes; a quoted name of seven or more characters comes out intact; a shorter one keeps the tail of "NoEntry" ("Jo" gives "JoEntry") |
| FileName.PhoneBookTextNonEmpty | sipserv.c:794-794 | the test strlen(PhoneBookText) > 0 never fails |
| FileName.SipTextValue | sipserv.c:766-775 | the URI text is exactly the bracketed text, or empty without brackets |
| FileName.FileNameLayout | sipserv.c:788-801 | the file name is the timestamp intact, a space, the sanitized number, a space, the sanitized name part and ".wav" |
| FileName.SanitizeRawFileName | sipserv.c:791-801 | sanitizing the assembled name leaves the clean timestamp, the separators and ".wav" alone |
| FileName.SanitizeAround | sipserv.c:801-801 | a clean prefix survives sanitizing |
| FileName.SanitizeBefore | sipserv.c:801-801 | a clean suffix survives sanitizing |
| Shell.BashLine | sipserv.c:819-819 | the line callBash keeps is a non-empty prefix of the output of at most RESULTSIZE-2 characters |
| Shell.CallBash | sipserv.c:807-826 | error iff popen fails or the command prints nothing; on error result is untouched; otherwise result holds the fgets line, a terminator, and its old contents after that |
| Shell.FgetsStop | sipserv.c:819-819 | where the copying loop stops is the length fgets reads |
| Shell.ScreeningVerdict | sipserv.c:856-892 | the first character of result is '1' when callBash fails, otherwise the first character the command printed |
| Shell.Occurrences | sipserv.c:868-868 | a count of a character is zero iff the character is absent |
| Shell.OccurrencesConcat | sipserv.c:868-876 | counts add over concatenation |
| Shell.SubstituteWildcard | sipserv.c:867-881 | without '#' the command is used as it is; with '#' it grows by the number's length less one |
| Shell.WildcardRoundTrip | sipserv.c:867-881 | putting '#' back where the number went restores the command: the text before the first '#' and after it are kept |
| Shell.WildcardReplacesOne | sipserv.c:868-876 | only the first '#' is replaced: the command keeps all later ones |
| Shell.LastQuoted | sipserv.c:715-715 | the last quoted argument of a line ending in a quote holds no quote and fits in the line |
| Shell.LastQuotedOf | sipserv.c:715-715 | a quote-free text quoted at the end of a line is its last quoted argument |
| Shell.QuotedWordsCons | sipserv.c:973-973 | quotes pair left to right: a quote-free text quoted after a quote-free prefix is the first quoted word, followed by the words of the rest |
| Shell.QuotedWordsLast | sipserv.c:715-715 | a quote-free text quoted at the end of a quote-free prefix is the only quoted word |
| Shell.EspeakOptionsOfConstants | sipserv.c:51-54 | the option text is the four espeak constants printed with %i |
| Shell.SpeechCommand | sipserv.c:710-719 | the espeak command's length is fixed text plus voice, file and speech |
| Shell.SpeechCommandLayout | sipserv.c:715-715 | the command starts with "espeak -v" and the voice, and ends with the speech in single quotes |
| Shell.SpeechCommandQuotesText | sipserv.c:715-715 | when the voice and the wave file hold no quote or backslash and the text no single quote, nothing before the text opens a quote or escapes, and the text is the one single-quoted word of the command, the last one |
| Shell.SpeechCommandInjective | sipserv.c:715-715 | for a fixed voice and file, different texts give different commands |
| Shell.AftermathCommand | sipserv.c:973-973 | the aftermath command's length is the four parts plus the quotes and spaces |
| Shell.AftermathLayout | sipserv.c:973-973 | the command starts with the program and ends with the quoted recording file |
| Shell.AftermathQuotesFile | sipserv.c:973-973 | when the program part holds no quote or backslash and the local URI, the number and the file hold none of '"', '$', '`' and backslash, the double-quoted words, paired left to right, are exactly the local URI, the number and the file, and the command holds no backslash |
| Shell.AftermathWords | sipserv.c:973-973 | with no double quote in any part, the quoted words of the aftermath command are the local URI, the number and the file, in that order |
| Shell.FormatAnswer | sipserv.c:1025-1025 | a template without '%' is used as it is; otherwise "%s" gives way to the result |
| Shell.FormatAnswerPlacesResult | sipserv.c:1025-1025 | the answer keeps the template before and after "%s", with the result between; replacing the result by "%s" restores the template |
| Config.StaticConfig | sipserv.c:74-87 | app_cfg starts with nine DTMF entries |
| Config.InitialConfig | sipserv.c:145-153 | after main's loop, entry i has id i+1 and is inactive and idle |
| Config.LeadingDelims | sipserv.c:366-366 | the '=' characters strtok skips first |
| Config.Strtok | sipserv.c:366-368 | None iff only delimiters are left; otherwise a non-empty '='-free token at the first non-delimiter, and the text after the '=' that ends it |
| Config.NewlineToSpace | sipserv.c:371-373 | the first newline of the value becomes a space; nothing else changes |
| Config.DigitRun | sipserv.c:469-469 | the digits atoi reads: a digit prefix stopped by a non-digit |
| Config.AtoiOfDecimal | sipserv.c:469-469 | atoi reads back what %d printed, whatever non-digit text follows |
| Config.DigitRunOf | sipserv.c:469-469 | a digit string followed by a non-digit is read whole |
| Config.NonSpaceRun | sipserv.c:454-454 | the run %s reads: non-space characters stopped by white space |
| Config.ScanWord | sipserv.c:454-454 | the word %s reads holds no white space |
| Config.ScanDtmfKey | sipserv.c:454-454 | the sscanf matches iff the key is "dtmf.", a character other than '.', '.', and a non-empty word; it yields that character and word |
| Config.DtmfId | sipserv.c:458-458 | atoi of the one-character id: the digit's value, 0 for anything else |
| Config.ApplySetting | sipserv.c:382-504 | one setting never changes the number of DTMF entries, their ids, their processing flags, or entry 9 |
| Config.ApplyDtmfSetting | sipserv.c:467-499 | a DTMF setting never changes the entry's id or processing flag |
| Config.ApplyLine | sipserv.c:357-506 | no line changes the ids, the processing flags or entry 9 |
| Config.ApplyLines | sipserv.c:357-507 | applying lines keeps the nine DTMF entries |
| Config.ParseConfig | sipserv.c:348-517 | parsing a file keeps the nine DTMF entries |
| Config.ConfigLinesStep | sipserv.c:357-357 | one turn of the fgets loop applies the first piece, then the rest of the file |
| Config.ApplyLinesAppend | sipserv.c:357-507 | reading two parts of a file one after the other is reading them together |
| Config.ApplyLinesKeepsFixedFields | sipserv.c:454-464 | no configuration file changes entry 9, the ids or the processing flags |
| Config.Uncommented | sipserv.c:362-363 | the lines kept are lines of the file that are neither comments nor empty |
| Config.CommentsIgnored | sipserv.c:362-363 | dropping comment and empty lines does not change what a file configures |
| Config.TrimDropsTrailingSpace | sipserv.c:373-384 | the space the newline became is trimmed away |
| Config.SameIgnoringCaseLetters | sipserv.c:382-382 | a key equal to a letter key under strcasecmp has the same length and is letters only |
| Config.SettingLine | sipserv.c:362-379 | a "key=value\n" line applies the key with the value and a trailing space in place of the newline |
| Config.NewlineLast | sipserv.c:371-373 | the newline fgets leaves at the end becomes a space |
| Config.SipDomainLine | sipserv.c:382-386 | "sd=value\n", in any case, stores the value trimmed, without the newline |
| Config.KeyValueSplit | sipserv.c:366-373 | the two strtok calls split "key=value" into the key and the value with its newline turned into a space |
| Config.StrtokKey | sipserv.c:366-366 | strtok on "key=rest" returns the key and continues after the '=' |
| Config.StrtokLast | sipserv.c:368-368 | strtok on '='-free text returns all of it |
| Config.ScanWordOfWord | sipserv.c:454-454 | %s reads a word without white space whole |
| Config.NonSpaceRunOf | sipserv.c:454-454 | a space-free word is one run |
| Config.DtmfKey | sipserv.c:454-454 | "dtmf.c.setting" has its id character at 5 and its setting from 7 |
| Config.DtmfKeyScan | sipserv.c:454-454 | sscanf splits a DTMF key back into its id character and setting |
| Config.DtmfActiveSetting | sipserv.c:454-471 | dtmf.N.active with 1 <= N <= 8 sets entry N's active flag to atoi of the value and changes nothing else |
| Config.DtmfActiveLine | sipserv.c:454-471 | the line "dtmf.N.active=n\n" with 1 <= N <= 8 sets entry N's active flag to n and changes nothing else |
| Config.DigitNineLine | sipserv.c:454-461 | any "dtmf.9.setting=value" line leaves the configuration unchanged |
| Config.DigitNineSetting | sipserv.c:454-461 | a key starting "dtmf.9." changes nothing |
| Config.IntrosIgnoreInactive | sipserv.c:239-248 | entries that differ only when inactive give the same intro |
| Config.IntrosAppend | sipserv.c:239-248 | the intro of two runs of entries is the first's followed by the second's |
| Config.IntrosMention | sipserv.c:239-248 | an active entry's intro text and a space sit in the intro after those of lower digits and before those of higher ones |
| Config.IntrosSingle | sipserv.c:243-247 | one entry contributes its intro and a space when active, nothing otherwise |
| NumCheck.Render | numcheck.py:42-42 | a printed list starts with its prefix and '['; text prints as itself |
| NumCheck.Stdout | numcheck.py:10-50 | standard output starts with the first printed line |
| NumCheck.ReadLines | numcheck.py:34-34 | readlines: non-empty lines, a newline only at the end of each, every line but the last ending with one |
| NumCheck.ReadLinesConcat | numcheck.py:34-34 | the lines put together are the file |
| NumCheck.Blanked | numcheck.py:39-40 | every newline and '#' becomes a space; every other character is kept |
| NumCheck.Split | numcheck.py:41-41 | split(" ", 1): two parts iff the blanked line holds a space, joined back by that space; otherwise the blanked line whole |
| NumCheck.Key | numcheck.py:39-41 | sline[0] is the prefix of the line before its first space, '#' or newline |
| NumCheck.Scan | numcheck.py:37-50 | the loop always prints something |
| NumCheck.Run | numcheck.py:10-50 | wrong argument count or unreadable file: status 1 and '0' first; a missing file is created with the two comment lines; a readable file gives status 0 |
| NumCheck.NumCheck | numcheck.py:10-50 | the script as it runs prints, exits and leaves the file as Run says |
| NumCheck.ScanLines | numcheck.py:37-50 | the loop with its early exit prints exactly Scan's output |
| NumCheck.ScanExhausted | numcheck.py:48-49 | past the last line only "0 Number not found!" remains |
| NumCheck.ScanSkipped | numcheck.py:38-38 | a comment or empty line prints nothing |
| NumCheck.ScanListed | numcheck.py:41-43 | a line that does not match prints its split form and the loop goes on |
| NumCheck.ScanFound | numcheck.py:42-46 | the first match prints its split form, "1" and "Number found!", and ends the output |
| NumCheck.ScanStep | numcheck.py:37-46 | one loop turn in terms of the next |
| NumCheck.KeyUpToSeparator | numcheck.py:39-41 | a line's key ends at its first space, '#' or newline |
| NumCheck.KeyExamples | numcheck.py:39-41 | "4917#mum", "4917 mum" and "4917" all stand for the prefix 4917 |
| NumCheck.LeadingSpaceMatchesEverything | numcheck.py:41-43 | a line starting with a space has the empty key and matches every number |
| NumCheck.ScanPrintsOne | numcheck.py:42-45 | "1" is printed iff some line matches |
| NumCheck.ScanLastLine | numcheck.py:44-49 | the last line is "Number found!" when "1" was printed and "0 Number not found!" otherwise |
| NumCheck.ListingFirst | numcheck.py:42-42 | a list printed first changes neither the last line nor whether "1" is printed |
| NumCheck.AnyMatchCons | numcheck.py:37-43 | some line matches iff the first does or a later one does |
| NumCheck.ScanFirstLine | numcheck.py:37-42 | the first printed line is the split form of the first non-comment line, or "0 Number not found!" exactly when every line is a comment |
| NumCheck.FirstCharacterNeverOne | numcheck.py:10-42 | the first character printed is never '1'; with a readable file holding a non-comment line it is '[' |
| NumCheck.ScanIntended | numcheck.py:3-50 | the loop without the list print prints "1" first iff some line matches, "0 Number not found!" otherwise |
| NumCheck.ScanIntendedVerdict | numcheck.py:3-50 | without the list print the first character printed is '1' iff the number is listed |
| SipServ.Teardown | sipserv.c:1057-1098 | the way out ends with exit(status) |
| SipServ.TeardownHangsUpOnce | sipserv.c:1057-1098 | the way out hangs the calls up exactly once |
| SipServ.TeardownReleasesLive | sipserv.c:1057-1098 | the way out destroys the player iff one is live and the recorder iff one is live, and neither runs a command nor answers a call |
| SipServ.ScreeningAnswersIffAdmitted | sipserv.c:856-900 | the call is answered iff it is admitted; a command runs iff one is configured; without one the call is simply answered |
| SipServ.NumCheckNeverAdmits | sipserv.c:892-896 | with numcheck.py as the screening command, no call is admitted |
| SipServ.IntendedNumCheckAdmits | sipserv.c:892-896 | with the corrected numcheck loop, a call is admitted iff the numbers file lists a prefix of the caller number |
| SipServ.RecordingReachesAftermath | sipserv.c:969-979 | the sanitized recording file name holds none of '"', '$', '`' and backslash; with a program part free of quotes and a local URI and caller number free of those four, it is the third double-quoted word of the aftermath command, after the URI and the number |
| SipServ.DigitNineStaysIdle | sipserv.c:454-464 | whatever the configuration file, entry 9 stays inactive and idle and has no command |
| SipServ.Server.constructor | sipserv.c:89-153 | the globals start as declared: no player, recorder or call; rec.wav and 000; no latch; the DTMF entries numbered 1 to 9, inactive and idle |
| SipServ.Server.ParseConfigFile | sipserv.c:348-517 | an unopenable file ends the program with exit(1); otherwise the configuration becomes ParseConfig of the file and nothing else happens |
| SipServ.Server.CheckSettings | sipserv.c:200-230 | the program goes on iff the four SIP settings are present and a set announcement file opens; otherwise exit(1) |
| SipServ.Server.GenerateIntro | sipserv.c:235-248 | the strcpy/strcat loop builds the tts text, a space, and each active entry's intro with a space |
| SipServ.Server.SynthesizeSpeech | sipserv.c:710-719 | the espeak command is handed to the shell and its status returned |
| SipServ.Server.SynthesizeIntro | sipserv.c:255-257 | the intro is spoken into play.wav; a failure runs error_exit |
| SipServ.Server.PlayerDestroy | sipserv.c:691-697 | a live player is destroyed and play_id cleared; an invalid id does nothing |
| SipServ.Server.RecorderDestroy | sipserv.c:699-707 | returns 0 iff a live recorder was destroyed (and rec_id cleared), 1 otherwise, with no effect |
| SipServ.Server.CreatePlayer | sipserv.c:646-669 | success leaves the new player in play_id; a create or port failure runs error_exit, the latter after the player exists |
| SipServ.Server.CreateRecorder | sipserv.c:672-689 | success records into rec_ans_file and sets rec_id; a failure runs error_exit |
| SipServ.Server.OnIncomingCall | sipserv.c:829-901 | stores the call, the recording file name and the number; runs the screening command with the number in place of '#'; answers iff admitted |
| SipServ.Server.RememberCaller | sipserv.c:841-853 | the call, the sanitized recording file name and the caller number are stored |
| SipServ.Server.Screen | sipserv.c:856-900 | runs the configured command and answers exactly as ScreeningTrace says |
| SipServ.Server.OnCallMediaState | sipserv.c:904-933 | nothing happens unless the media is active; then the announcement or play.wav is played, and when calls are recorded a recorder follows; failures end the program |
| SipServ.Server.OnCallState | sipserv.c:936-982 | confirmed rewinds a live player; disconnected releases both and runs the aftermath command iff a recorder was live and one is set; other states change nothing |
| SipServ.Server.OnDtmfDigit | sipserv.c:989-1047 | a busy or inactive entry does nothing; an active one runs its command and, when it printed a line, releases the media, speaks the answer and plays ans.wav; the processing flag is restored unless the program exited |
| SipServ.Server.RunDtmfAction | sipserv.c:1007-1035 | the command runs; without output nothing else happens and the answer template is not needed; with output the media is released, the answer spoken and played |
| SipServ.Server.SpeakAnswer | sipserv.c:1019-1032 | player and recorder released, the filled template spoken into ans.wav and played whatever the synthesis answered |
| SipServ.Server.AppExit | sipserv.c:1057-1076 | past the latch: release, hang up, shut down, exit(0); a second call does nothing |
| SipServ.Server.ErrorExit | sipserv.c:1079-1098 | past the latch: release, hang up, shut down, exit(1); a second call does nothing |
| SipServ.Server.Terminate | sipserv.c:1059-1075 | sets the latch and produces exactly the teardown trace; no player or recorder remains |
| SipServ.Server.ReleaseMedia | sipserv.c:1021-1022 | player_destroy and recorder_destroy of the current handles: both cleared, only the live ones destroyed |

## Left out

- PJSUA itself: SIP setup and registration (`setup_sip`, `register_sip`), conference-port connections, and `pjsua_call_get_info`. Their answers are parameters and their requests are trace effects.
- `log_message`, the log file, silent mode and `usage`. They only write text.
- Command-line parsing in `main` (`try_get_argument`, `--config-file`, `-s`, `--help`) and the final sleep loop.
- Signals: the SIGINT handler only calls `app_exit`, which is modelled.
- Concurrency is not modelled. The callbacks are taken to run one at a time, and no callback runs after `exit()`.
- `time()` and `localtime()`: the broken-down time is a parameter `Tm` within localtime's ranges.
- `popen`, `fgets` on the pipe, and `system()` are modelled as outcomes passed in. `pclose` is never called by the source; the model has no process table.
- `mail.py`, the example aftermath script: it is not part of the core.
- C undefined behaviour is excluded by preconditions rather than modelled:
  - a buffer overflow of the fixed buffers: `tmp[100]` (the copy of the caller description and the diagnostic at sipserv.c:784), `info[200]` (the log lines at sipserv.c:847 and 883), `rec_ans_file[100]`, `cmdOut[200]`, `tts_buffer[200]`, `command[100]`, `command[300]`, `speech_command[1024]`, `warning[200]` and `dtmf_setting[25]`;
  - a configuration line with a key but no value, where `strstr` is given NULL;
  - a DTMF key whose id reads as 0, which would index entry -1;
  - any DTMF digit other than '1' to '9' in `on_dtmf_digit`: '0' would index entry -1, '*' entry -7, '#' entry -14 and 'A' to 'D' entries 16 to 19, all outside the nine entries;
  - `extractdelimited` when the first opening delimiter does not precede the last closing one, where the length wraps around;
  - a NULL `app_cfg.tts`, which `strcpy(tts_buffer, app_cfg.tts)` at sipserv.c:236 reads even when an announcement file is set (`SipServ.Server.GenerateIntro` requires `cfg.tts.Some?`);
  - an active DTMF entry without a `tts-intro`, which the `strcat` at sipserv.c:245 reads (`Config.IntrosDefined`);
  - an active DTMF entry without a `cmd`, which `strcpy(command, d_cfg->cmd)` at sipserv.c:1016 reads (`SipServ.DtmfActionSupported` requires `e.cmd.Some?`);
  - a DTMF command that prints a line while its entry has no `tts-answer`, which the `sprintf` at sipserv.c:1025 reads as its format (`SipServ.DtmfActionSupported`, on the success path).
- Characters: a Dafny `char` stands for one byte of a C string and one character of a Python 2 byte `str`. A name in UTF-8, such as "Jürgen", is a sequence of its bytes, and every buffer bound counts bytes; the model does not read multi-byte characters as one.
- Shell quoting is modelled only as far as the two lemmas below need: one quote character paired left to right (`Shell.QuotedWords`), with no other quoting or escaping before or between the quoted words. Word splitting, expansion of the unquoted program part and the rest of sh's grammar are not modelled.
- SpeechCommandQuotesText: proved only for a voice and a wave file name that hold no quote or backslash and a spoken text without a single quote; a `'` in the text or the voice would end or open the quoting early, and the model says nothing about what espeak then receives.
- AftermathQuotesFile: proved only for a program part without quotes or backslash and a local URI and number without '"', '$', '`' and backslash; with any of them sh may pair the quotes differently, and the model says nothing about what the aftermath program then receives.
- RecordingReachesAftermath: the caller number comes straight from the SIP URI and is not sanitized (sipserv.c:780, 852), so its condition is not guaranteed by the program. The number is also pasted unquoted into the screening command (sipserv.c:875) and double-quoted into the aftermath command (sipserv.c:973), so a `$(...)` or a backquote in the SIP user part would be run by the shell. The model records only the command text and does not model that execution.
- Config.ApplySetting: a key like `dtmf.0.x` is undefined in the source; the function leaves the configuration unchanged there only to be total, and `LineSupported` excludes such lines.
- Config.Atoi: does not model overflow beyond `int`, because the configuration values are small flags.
- Shell.FormatAnswer: covers only templates whose single `%` starts `%s`, because `sprintf` with other directives would read arguments that are not passed.
- NumCheck.Render: prints a list without Python's repr escaping of quotes and backslashes, because only its first character matters to the caller.
- SipServ.Server.CheckSettings: whether the announcement file opens is a boolean parameter; the `errno` distinction only selects a log message.
- `sscanf` writing two bytes (the character and its terminator) into `dtmf_id[1]` on every `dtmf.N.*` line: the model ignores this overflow and reads the one character, since no precondition could exclude it without excluding every DTMF setting.
- NumCheck.Run: assumes the `open(filename, 'w')` for a missing numbers file succeeds; when it raises an IOError the printed text and the exit status 1 are the same, but no file is created.
- The program's memory of `strdup`ed strings: the model stores values, not pointers, so aliasing between `arg_val` and the configuration cannot arise.

## Findings

| source | as written | input that shows it | evidently intended | confidence | as-written member | corrected member |
|---|---|---|---|---|---|---|
| numcheck.py:42 | `print sline` runs before the match test, so the first character the script prints is '[' (or '0' on the error paths); sipserv.c answers only when the first character is '1', so no call is ever answered | numbers.txt holding "4917\n", argument "4917123": the script prints "['4917', '']" first, then "1" | the comment at numcheck.py:3 says the first character printed must be the verdict: print "1" first when a line's prefix matches | not executed | NumCheck.FirstCharacterNeverOne | NumCheck.ScanIntendedVerdict |
