/**
 * How sipserv.c derives the recording file name of a call from the caller
 * description PJSUA reports ("Name" <sip:NUMBER@host>) and the local time:
 * extractdelimited, getTimestamp, stringRemoveChars and FileNameFromCallInfo.
 */
module FileName {
  import opened CString

  // ---------------------------------------------------------------- stringRemoveChars

  /** The characters replaced in a file name (the spanset at sipserv.c:801). */
  predicate Forbidden(c: char)
  {
    || c == '"' || c == ':' || c == '\\' || c == '/' || c == '*' || c == '?' || c == '|'
    || c == '<' || c == '>' || c == '$' || c == '%' || c == '&' || c == '\'' || c == '`'
    || c == '{' || c == '}' || c == '[' || c == ']' || c == '(' || c == ')' || c == '@'
  }

  function SanitizeChar(c: char): char
  {
    if Forbidden(c) then '_' else c
  }

  /** The file name with every forbidden character replaced by an underscore. */
  function Sanitize(s: seq<char>): (r: seq<char>)
    ensures |r| == |s|
    ensures forall i :: 0 <= i < |s| ==> r[i] == SanitizeChar(s[i])
  {
    if s == [] then [] else [SanitizeChar(s[0])] + Sanitize(s[1..])
  }

  /** What is left of a name: no forbidden character, and every other character where it was. */
  lemma SanitizeRemovesForbidden(s: seq<char>)
    ensures forall i :: 0 <= i < |s| ==> !Forbidden(Sanitize(s)[i])
    ensures forall i :: 0 <= i < |s| && !Forbidden(s[i]) ==> Sanitize(s)[i] == s[i]
  {
  }

  /** Sanitizing a sanitized name changes nothing. */
  lemma {:induction false} SanitizeIdempotent(s: seq<char>)
    ensures Sanitize(Sanitize(s)) == Sanitize(s)
  {
    if s != [] {
      SanitizeIdempotent(s[1..]);
    }
  }

  /** Sanitizing works character by character, so it distributes over concatenation. */
  lemma {:induction false} SanitizeConcat(a: seq<char>, b: seq<char>)
    ensures Sanitize(a + b) == Sanitize(a) + Sanitize(b)
  {
    if a != [] {
      assert (a + b)[1..] == a[1..] + b;
      SanitizeConcat(a[1..], b);
    }
  }

  /** A name without forbidden characters is left as it is. */
  lemma {:induction false} SanitizeClean(s: seq<char>)
    requires forall i :: 0 <= i < |s| ==> !Forbidden(s[i])
    ensures Sanitize(s) == s
  {
    if s != [] {
      SanitizeClean(s[1..]);
    }
  }

  /**
   * strpbrk with the forbidden set: the first forbidden character of the C
   * string in buf at or after index from.
   */
  method Strpbrk(buf: array<char>, from: nat) returns (p: Option<nat>)
    requires '\0' in buf[..]
    requires from <= |CStr(buf[..])|
    ensures p.Some? ==> from <= p.value < |CStr(buf[..])| && Forbidden(buf[p.value])
    ensures forall i :: from <= i < (if p.Some? then p.value else |CStr(buf[..])|) ==> !Forbidden(buf[i])
  {
    ghost var n := |CStr(buf[..])|;
    var j := from;
    while buf[j] != '\0' && !Forbidden(buf[j])
      invariant from <= j <= n
      invariant forall i :: from <= i < j ==> !Forbidden(buf[i])
      decreases n - j
    {
      j := j + 1;
    }
    if buf[j] == '\0' {
      p := None;
    } else {
      p := Some(j);
    }
  }

  /**
   * stringRemoveChars (sipserv.c:754-762): repeatedly find the next forbidden
   * character with strpbrk and overwrite it with '_', in place. Only the C
   * string changes; the terminator and whatever follows it are kept.
   */
  method StringRemoveChars(buf: array<char>)
    requires '\0' in buf[..]
    modifies buf
    ensures |CStr(buf[..])| == |CStr(old(buf[..]))|
    ensures CStr(buf[..]) == Sanitize(CStr(old(buf[..])))
    ensures buf[|CStr(buf[..])|..] == old(buf[|CStr(buf[..])|..])
  {
    ghost var s := CStr(buf[..]);
    ghost var n := |s|;
    ghost var tail := buf[n..];
    var ptr := Strpbrk(buf, 0);
    ghost var k := if ptr.Some? then ptr.value else n;
    while ptr.Some?
      invariant k <= n && (ptr.Some? <==> k < n) && (ptr.Some? ==> ptr.value == k && Forbidden(buf[k]))
      invariant SanitizedUpTo(buf[..], s, k)
      invariant buf[n..] == tail
      invariant '\0' in buf[..] && CStr(buf[..]) == buf[..n]
      decreases n - k
    {
      ReplaceForbidden(buf, ptr.value, s, tail);
      ptr := Strpbrk(buf, ptr.value);
      k := if ptr.Some? then ptr.value else n;
    }
    assert buf[..n] == Sanitize(s);
  }

  /** The first k characters of the name are sanitized, the rest of it is still the original. */
  ghost predicate SanitizedUpTo(b: seq<char>, s: seq<char>, k: nat)
  {
    && k <= |s| < |b|
    && (forall i :: 0 <= i < k ==> b[i] == Sanitize(s)[i])
    && (forall i :: k <= i < |s| ==> b[i] == s[i])
  }

  /** One turn of the loop in stringRemoveChars: the forbidden character at p becomes an underscore. */
  method ReplaceForbidden(buf: array<char>, p: nat, ghost s: seq<char>, ghost tail: seq<char>)
    requires p < |s| < buf.Length && Forbidden(buf[p]) && '\0' !in s
    requires SanitizedUpTo(buf[..], s, p)
    requires buf[|s|..] == tail && buf[|s|] == '\0'
    modifies buf
    ensures SanitizedUpTo(buf[..], s, p + 1) && buf[p] == '_'
    ensures buf[|s|..] == tail && '\0' in buf[..] && CStr(buf[..]) == buf[..|s|]
  {
    buf[p] := '_';
    assert buf[|s|] == '\0';
    assert forall i :: 0 <= i < |s| ==> buf[i] != '\0';
    CStrOfPrefix(buf[..|s|], buf[..]);
  }

  // ---------------------------------------------------------------- extractdelimited

  /**
   * The source's pointer arithmetic is defined only if, when both delimiters
   * occur, the first cBeg lies strictly before the last cEnd; otherwise the
   * length handed to strncpy wraps round to a huge size_t.
   */
  predicate DelimitersOrdered(src: string, cBeg: char, cEnd: char)
  {
    (IndexOf(src, cBeg).Some? && LastIndexOf(src, cEnd).Some?) ==>
      IndexOf(src, cBeg).value < LastIndexOf(src, cEnd).value
  }

  /** The text strictly between the first cBeg and the last cEnd, if both occur. */
  function Delimited(src: string, cBeg: char, cEnd: char): (r: Option<string>)
    requires DelimitersOrdered(src, cBeg, cEnd)
    ensures r.None? <==> (cBeg !in src || cEnd !in src)
    ensures r.Some? ==> exists b, e :: (0 <= b < e < |src| && r.value == src[b + 1..e]
      && src[b] == cBeg && cBeg !in src[..b] && src[e] == cEnd && cEnd !in src[e + 1..])
  {
    match (IndexOf(src, cBeg), LastIndexOf(src, cEnd))
    case (Some(b), Some(e)) => Some(src[b + 1..e])
    case _ => None
  }

  /** The buffer after text has been written over its start, with no terminator. */
  function Overlay(dest: seq<char>, text: seq<char>): (r: seq<char>)
    requires |text| <= |dest|
    ensures |r| == |dest| && r[..|text|] == text && r[|text|..] == dest[|text|..]
  {
    text + dest[|text|..]
  }

  /**
   * extractdelimited (sipserv.c:722-733): strncpy of the characters between
   * the delimiters over the start of dest. strncpy writes no terminator here,
   * so the rest of dest keeps its old contents; with a delimiter missing dest
   * is left alone.
   */
  method ExtractDelimited(dest: array<char>, src: string, cBeg: char, cEnd: char)
    requires '\0' !in src
    requires DelimitersOrdered(src, cBeg, cEnd)
    requires Delimited(src, cBeg, cEnd).Some? ==> |Delimited(src, cBeg, cEnd).value| <= dest.Length
    modifies dest
    ensures Delimited(src, cBeg, cEnd).None? ==> dest[..] == old(dest[..])
    ensures Delimited(src, cBeg, cEnd).Some? ==>
      dest[..] == Overlay(old(dest[..]), Delimited(src, cBeg, cEnd).value)
  {
    var pBeg := IndexOf(src, cBeg);
    var pEnd := LastIndexOf(src, cEnd);
    if pBeg.None? || pEnd.None? {
      return;
    }
    var len := pEnd.value - pBeg.value;
    ghost var text := src[pBeg.value + 1..pEnd.value];
    var i := 0;
    while i < len - 1
      invariant 0 <= i <= len - 1
      invariant dest[..i] == text[..i]
      invariant dest[i..] == old(dest[..])[i..]
    {
      dest[i] := src[pBeg.value + 1 + i];
      i := i + 1;
    }
    assert dest[..] == dest[..i] + dest[i..];
  }

  // ---------------------------------------------------------------- getTimestamp

  /** The fields of struct tm that getTimestamp prints, as localtime fills them. */
  datatype Tm = Tm(tmYear: int, tmMon: int, tmMday: int, tmHour: int, tmMin: int, tmSec: int)

  /** The ranges localtime guarantees (tm_sec allows a leap second); years from 0 AD. */
  predicate ValidTm(tm: Tm)
  {
    && -1900 <= tm.tmYear
    && 0 <= tm.tmMon <= 11 && 1 <= tm.tmMday <= 31
    && 0 <= tm.tmHour <= 23 && 0 <= tm.tmMin <= 59 && 0 <= tm.tmSec <= 60
  }

  /**
   * getTimestamp (sipserv.c:744-750): "%04d-%02d-%02d %02d-%02d-%02d" of the
   * year, month (1-based), day, hour, minute and second. Being digits and
   * separators only, it holds no character a file name may not carry.
   */
  function Timestamp(tm: Tm): (r: string)
    requires ValidTm(tm)
    ensures Clean(r)
  {
    var year, mon, day := Padded(tm.tmYear + 1900, 4), Padded(tm.tmMon + 1, 2), Padded(tm.tmMday, 2);
    var hour, min, sec := Padded(tm.tmHour, 2), Padded(tm.tmMin, 2), Padded(tm.tmSec, 2);
    TimestampLayoutClean(year, mon, day, hour, min, sec);
    year + "-" + mon + "-" + day + " " + hour + "-" + min + "-" + sec
  }

  /** A text a file name can carry as it is: no forbidden character and no terminator. */
  predicate Clean(s: string)
  {
    forall i :: 0 <= i < |s| ==> CleanChar(s[i])
  }

  predicate CleanChar(c: char)
  {
    !Forbidden(c) && c != '\0'
  }

  /**
   * A timestamp with a four-digit year is 19 characters long; its six fields
   * sit between fixed separators and read back as the fields of tm.
   */
  lemma TimestampFields(tm: Tm)
    requires ValidTm(tm) && tm.tmYear + 1900 <= 9999
    ensures LaidOut(Timestamp(tm), tm.tmYear + 1900, tm.tmMon + 1, tm.tmMday, tm.tmHour, tm.tmMin, tm.tmSec)
  {
    PaddedLength(tm.tmYear + 1900, 4);
    PaddedLength(tm.tmMon + 1, 2);
    PaddedLength(tm.tmMday, 2);
    PaddedLength(tm.tmHour, 2);
    PaddedLength(tm.tmMin, 2);
    PaddedLength(tm.tmSec, 2);
    TimestampLayoutReads(Padded(tm.tmYear + 1900, 4), Padded(tm.tmMon + 1, 2), Padded(tm.tmMday, 2),
      Padded(tm.tmHour, 2), Padded(tm.tmMin, 2), Padded(tm.tmSec, 2),
      tm.tmYear + 1900, tm.tmMon + 1, tm.tmMday, tm.tmHour, tm.tmMin, tm.tmSec);
  }

  /** The layout "YYYY-MM-DD hh-mm-ss", each field reading back as its number. */
  ghost predicate LaidOut(r: string, year: nat, mon: nat, day: nat, hour: nat, min: nat, sec: nat)
  {
    && |r| == 19
    && r[4] == '-' && r[7] == '-' && r[10] == ' ' && r[13] == '-' && r[16] == '-'
    && ReadsAs(r[0..4], year) && ReadsAs(r[5..7], mon) && ReadsAs(r[8..10], day)
    && ReadsAs(r[11..13], hour) && ReadsAs(r[14..16], min) && ReadsAs(r[17..19], sec)
  }

  /** Fields of the right widths, joined as getTimestamp joins them, are laid out as LaidOut says. */
  lemma TimestampLayoutReads(year: string, mon: string, day: string, hour: string, min: string, sec: string,
                             y: nat, mo: nat, d: nat, h: nat, mi: nat, s: nat)
    requires |year| == 4 && |mon| == 2 && |day| == 2 && |hour| == 2 && |min| == 2 && |sec| == 2
    requires ReadsAs(year, y) && ReadsAs(mon, mo) && ReadsAs(day, d)
    requires ReadsAs(hour, h) && ReadsAs(min, mi) && ReadsAs(sec, s)
    ensures LaidOut(year + "-" + mon + "-" + day + " " + hour + "-" + min + "-" + sec, y, mo, d, h, mi, s)
  {
    TimestampLayoutFields(year, mon, day, hour, min, sec);
  }

  /** s is a string of decimal digits whose value is n. */
  predicate ReadsAs(s: string, n: nat)
  {
    (forall i :: 0 <= i < |s| ==> IsDigit(s[i])) && ParseDecimal(s) == n
  }

  /** Every character of s is a decimal digit. */
  predicate AllDigits(s: string)
  {
    forall i :: 0 <= i < |s| ==> IsDigit(s[i])
  }

  /** Digits and the separators '-' and ' ' are neither forbidden nor terminators. */
  lemma TimestampLayoutClean(year: string, mon: string, day: string, hour: string, min: string, sec: string)
    requires AllDigits(year) && AllDigits(mon) && AllDigits(day)
    requires AllDigits(hour) && AllDigits(min) && AllDigits(sec)
    ensures Clean(year + "-" + mon + "-" + day + " " + hour + "-" + min + "-" + sec)
  {
    var r := year + "-" + mon + "-" + day + " " + hour + "-" + min + "-" + sec;
    forall i | 0 <= i < |r| ensures CleanChar(r[i]) {
      assert IsDigit(r[i]) || r[i] == '-' || r[i] == ' ';
    }
  }

  /** Where the six fields and the separators sit in a timestamp with a four-digit year. */
  lemma TimestampLayoutFields(year: string, mon: string, day: string, hour: string, min: string, sec: string)
    requires |year| == 4 && |mon| == 2 && |day| == 2 && |hour| == 2 && |min| == 2 && |sec| == 2
    ensures var r := year + "-" + mon + "-" + day + " " + hour + "-" + min + "-" + sec;
      && |r| == 19
      && r[4] == '-' && r[7] == '-' && r[10] == ' ' && r[13] == '-' && r[16] == '-'
      && r[0..4] == year && r[5..7] == mon && r[8..10] == day
      && r[11..13] == hour && r[14..16] == min && r[17..19] == sec
  {
    var r := year + "-" + mon + "-" + day + " " + hour + "-" + min + "-" + sec;
    assert r[0] == year[0] && r[1] == year[1] && r[2] == year[2] && r[3] == year[3];
    assert r[5] == mon[0] && r[6] == mon[1] && r[8] == day[0] && r[9] == day[1];
    assert r[11] == hour[0] && r[12] == hour[1] && r[14] == min[0] && r[15] == min[1];
    assert r[17] == sec[0] && r[18] == sec[1];
  }

  // ---------------------------------------------------------------- FileNameFromCallInfo

  /**
   * What the source needs of the caller description: a C string that fits
   * tmp[100] (sipserv.c:769-771), whose quotes and angle brackets are such
   * that both extractdelimited calls are defined.
   */
  predicate RemoteInfoSupported(remote: string)
  {
    && '\0' !in remote
    && |remote| < 100
    && DelimitersOrdered(remote, '"', '"')
    && DelimitersOrdered(remote, '<', '>')
  }

  /** PhoneBookText[100] = "NoEntry": the literal, then zero bytes. */
  function NoEntryBuffer(): (b: seq<char>)
    ensures |b| == 100
  {
    "NoEntry" + seq(93, _ => '\0')
  }

  /** sipTxt[100] = "": all zero bytes. */
  function EmptyBuffer(): (b: seq<char>)
    ensures |b| == 100
  {
    seq(100, _ => '\0')
  }

  /** The name part of the file name: the C string left in PhoneBookText (sipserv.c:768, 774). */
  function PhoneBookText(remote: string): string
    requires RemoteInfoSupported(remote)
  {
    match Delimited(remote, '"', '"')
    case None => CStr(NoEntryBuffer())
    case Some(t) => CStr(Overlay(NoEntryBuffer(), t))
  }

  /** The text of the SIP URI: the C string left in sipTxt (sipserv.c:766, 775). */
  function SipText(remote: string): string
    requires RemoteInfoSupported(remote)
  {
    match Delimited(remote, '<', '>')
    case None => CStr(EmptyBuffer())
    case Some(t) => CStr(Overlay(EmptyBuffer(), t))
  }

  predicate HasSipScheme(txt: string)
  {
    |txt| >= 4 && txt[..4] == "sip:"
  }

  /**
   * The caller number (sipserv.c:778-786): after a leading "sip:", the text up
   * to the first '@' or to the end; without the scheme it stays empty.
   */
  function SipNumber(txt: string): (nr: string)
    ensures HasSipScheme(txt) ==>
      && 4 + |nr| <= |txt| && txt[4..4 + |nr|] == nr && '@' !in nr
      && (4 + |nr| == |txt| || txt[4 + |nr|] == '@')
    ensures !HasSipScheme(txt) ==> nr == ""
  {
    if HasSipScheme(txt) then
      assert '@' !in txt[..4];
      txt[4..SpanWithout(txt, '@')]
    else ""
  }

  /**
   * Without the "sip:" scheme the diagnostic
   * "SIP does not start with sip:<...>\n" is written into tmp[100]
   * (sipserv.c:784): 31 characters around the URI text, plus the terminator.
   */
  predicate DiagnosticFits(remote: string)
    requires RemoteInfoSupported(remote)
  {
    HasSipScheme(SipText(remote)) || 32 + |SipText(remote)| <= 100
  }

  /** The file name before sanitizing (sipserv.c:791-798). */
  function RawFileName(timestamp: string, nr: string, phoneBook: string): string
  {
    timestamp + " " + nr + (if |phoneBook| > 0 then " " + phoneBook else "") + ".wav"
  }

  /** The recording file name FileNameFromCallInfo produces. */
  function FileNameOf(remote: string, tm: Tm): string
    requires RemoteInfoSupported(remote) && ValidTm(tm)
  {
    Sanitize(RawFileName(Timestamp(tm), SipNumber(SipText(remote)), PhoneBookText(remote)))
  }

  /**
   * FileNameFromCallInfo (sipserv.c:764-802): pick the quoted name and the
   * bracketed URI out of the caller description into their fixed buffers,
   * extract the number, assemble the name and sanitize it in place.
   */
  method FileNameFromCallInfo(remote: string, tm: Tm) returns (filename: string, sipNr: string)
    requires RemoteInfoSupported(remote) && ValidTm(tm) && DiagnosticFits(remote)
    ensures sipNr == SipNumber(SipText(remote))
    ensures filename == FileNameOf(remote, tm)
  {
    var name, txt := ExtractCallerFields(remote);
    var nrBuf := new char[100](i => '\0');
    assert nrBuf[..] == EmptyBuffer();
    ExtractNumber(txt, nrBuf);
    sipNr := CStr(nrBuf[..]);
    var ts := Timestamp(tm);
    filename := AssembleFileName(ts, sipNr, name);
  }

  /**
   * The number extraction of FileNameFromCallInfo (sipserv.c:778-786) on the
   * caller's sipNr[100], which starts out as "": when the URI text starts
   * with "sip:", strncpy copies the characters up to the first '@' and a
   * terminator is written after them; otherwise sipNr is left as it was.
   */
  method ExtractNumber(txt: string, sipNr: array<char>)
    requires '\0' !in txt && |txt| <= 100
    requires sipNr.Length == 100 && sipNr[..] == EmptyBuffer()
    modifies sipNr
    ensures CStr(sipNr[..]) == SipNumber(txt)
  {
    if |txt| >= 4 && txt[..4] == "sip:" {
      var i := SpanWithout(txt, '@') - 4;
      var k := 0;
      while k < i
        invariant 0 <= k <= i
        invariant sipNr[..k] == txt[4..4 + k]
      {
        sipNr[k] := txt[4 + k];
        k := k + 1;
      }
      sipNr[i] := '\0';
      assert sipNr[..] == txt[4..4 + i] + ['\0'] + sipNr[i + 1..];
      CStrOfTerminated(txt[4..4 + i], sipNr[i + 1..]);
    } else {
      assert sipNr[..] == [] + ['\0'] + sipNr[1..];
      CStrOfTerminated([], sipNr[1..]);
    }
  }

  /** The two extractdelimited calls of FileNameFromCallInfo over their initialised buffers. */
  method ExtractCallerFields(remote: string) returns (name: string, txt: string)
    requires RemoteInfoSupported(remote)
    ensures name == PhoneBookText(remote) && txt == SipText(remote)
  {
    var phoneBook := new char[100](i requires 0 <= i < 100 => NoEntryBuffer()[i]);
    var sipTxt := new char[100](i => '\0');
    assert phoneBook[..] == NoEntryBuffer();
    assert sipTxt[..] == EmptyBuffer();
    ExtractDelimited(phoneBook, remote, '"', '"');
    ExtractDelimited(sipTxt, remote, '<', '>');
    name := CStr(phoneBook[..]);
    txt := CStr(sipTxt[..]);
  }

  /** strcpy/strcat of the parts into filename, then stringRemoveChars on it. */
  method AssembleFileName(ts: string, nr: string, pb: string) returns (filename: string)
    requires '\0' !in ts && '\0' !in nr && '\0' !in pb
    ensures filename == Sanitize(RawFileName(ts, nr, pb))
  {
    var raw := ts + " " + nr;
    if |pb| > 0 {
      raw := raw + " " + pb;
    }
    raw := raw + ".wav";
    assert raw == RawFileName(ts, nr, pb);
    var buf := new char[|raw| + 1](i requires 0 <= i <= |raw| => if i < |raw| then raw[i] else '\0');
    assert buf[..] == raw + ['\0'] + [];
    CStrOfTerminated(raw, []);
    StringRemoveChars(buf);
    filename := CStr(buf[..]);
  }

  // ---------------------------------------------------------------- properties

  /**
   * PhoneBookText starts as "NoEntry" and strncpy does not terminate what it
   * copies: a quoted name of seven or more characters comes out intact, a
   * shorter one keeps the tail of "NoEntry" ("Jo" reads "JoEntry"), and with
   * no quotes, or an empty pair, the name is "NoEntry".
   */
  lemma PhoneBookTextValue(remote: string)
    requires RemoteInfoSupported(remote)
    ensures var d := Delimited(remote, '"', '"');
      PhoneBookText(remote) ==
        if d.None? then "NoEntry"
        else if |d.value| >= 7 then d.value
        else d.value + "NoEntry"[|d.value|..]
  {
    var d := Delimited(remote, '"', '"');
    assert '\0' !in "NoEntry";
    assert NoEntryBuffer() == "NoEntry" + ['\0'] + seq(92, _ => '\0');
    if d.None? {
      CStrOfTerminated("NoEntry", seq(92, _ => '\0'));
    } else {
      var t := d.value;
      assert '\0' !in t;
      var o := Overlay(NoEntryBuffer(), t);
      if |t| >= 7 {
        assert o == t + ['\0'] + o[|t| + 1..];
        CStrOfTerminated(t, o[|t| + 1..]);
      } else {
        assert o == (t + "NoEntry"[|t|..]) + ['\0'] + seq(92, _ => '\0');
        CStrOfTerminated(t + "NoEntry"[|t|..], seq(92, _ => '\0'));
      }
    }
  }

  /** So the test `strlen(PhoneBookText) > 0` (sipserv.c:794) never fails. */
  lemma PhoneBookTextNonEmpty(remote: string)
    requires RemoteInfoSupported(remote)
    ensures |PhoneBookText(remote)| > 0
  {
    PhoneBookTextValue(remote);
  }

  /** The URI text is exactly the bracketed text, or empty without brackets. */
  lemma SipTextValue(remote: string)
    requires RemoteInfoSupported(remote)
    ensures var d := Delimited(remote, '<', '>');
      SipText(remote) == if d.None? then "" else d.value
  {
    var d := Delimited(remote, '<', '>');
    if d.Some? {
      var t := d.value;
      assert '\0' !in t;
      var o := Overlay(EmptyBuffer(), t);
      assert o == t + ['\0'] + o[|t| + 1..];
      CStrOfTerminated(t, o[|t| + 1..]);
    } else {
      assert EmptyBuffer() == [] + ['\0'] + EmptyBuffer()[1..];
      CStrOfTerminated([], EmptyBuffer()[1..]);
    }
  }

  /**
   * The file name is the timestamp, a space, the sanitized number, a space,
   * the sanitized name part and ".wav": the timestamp is left intact and the
   * number appears in it whenever it holds no forbidden character.
   */
  lemma FileNameLayout(remote: string, tm: Tm)
    requires RemoteInfoSupported(remote) && ValidTm(tm)
    ensures FileNameOf(remote, tm) ==
      Timestamp(tm) + " " + Sanitize(SipNumber(SipText(remote))) + " "
        + Sanitize(PhoneBookText(remote)) + ".wav"
  {
    PhoneBookTextNonEmpty(remote);
    SanitizeRawFileName(Timestamp(tm), SipNumber(SipText(remote)), PhoneBookText(remote));
  }

  /** Sanitizing the assembled name leaves the timestamp and the separators alone. */
  lemma SanitizeRawFileName(ts: string, nr: string, pb: string)
    requires forall i :: 0 <= i < |ts| ==> !Forbidden(ts[i])
    requires |pb| > 0
    ensures Sanitize(RawFileName(ts, nr, pb)) == ts + " " + Sanitize(nr) + " " + Sanitize(pb) + ".wav"
  {
    var a := ts + " ";
    SanitizeAround(a, nr);
    SanitizeAround(" ", pb);
    SanitizeConcat(a + nr, " " + pb);
    SanitizeBefore(a + nr + (" " + pb), ".wav");
    assert (a + Sanitize(nr)) + (" " + Sanitize(pb)) == a + Sanitize(nr) + " " + Sanitize(pb);
  }

  /** A clean prefix is kept by Sanitize. */
  lemma SanitizeAround(a: string, b: string)
    requires forall i :: 0 <= i < |a| ==> !Forbidden(a[i])
    ensures Sanitize(a + b) == a + Sanitize(b)
  {
    SanitizeConcat(a, b);
    SanitizeClean(a);
  }

  /** A clean suffix is kept by Sanitize. */
  lemma SanitizeBefore(a: string, b: string)
    requires forall i :: 0 <= i < |b| ==> !Forbidden(b[i])
    ensures Sanitize(a + b) == Sanitize(a) + b
  {
    SanitizeConcat(a, b);
    SanitizeClean(b);
  }
}
