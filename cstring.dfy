/**
 * C-string vocabulary shared by the model of sipserv.c: the view of a
 * character buffer as the NUL-terminated string it holds, the <string.h>
 * searches the program uses, isspace, trim_string and decimal formatting.
 */
module CString {

  /** A C pointer that may be NULL, or a search that may find nothing. */
  datatype Option<T> = None | Some(value: T)

  /** The characters of a C string held in a buffer: everything before the first NUL. */
  function CStr(s: seq<char>): (r: seq<char>)
    ensures |r| <= |s| && r == s[..|r|]
    ensures '\0' !in r
    ensures |r| < |s| ==> s[|r|] == '\0'
  {
    if s == [] || s[0] == '\0' then [] else [s[0]] + CStr(s[1..])
  }

  /** A buffer holding text followed by a terminator reads back as that text. */
  lemma {:induction false} CStrOfTerminated(t: seq<char>, rest: seq<char>)
    requires '\0' !in t
    ensures CStr(t + ['\0'] + rest) == t
  {
    if t != [] {
      assert (t + ['\0'] + rest)[1..] == t[1..] + ['\0'] + rest;
      CStrOfTerminated(t[1..], rest);
    }
  }

  /** Whatever follows a terminator is not part of the string. */
  lemma {:induction false} CStrCut(t: seq<char>, rest: seq<char>)
    ensures CStr(t + ['\0'] + rest) == CStr(t)
    decreases |t|
  {
    if t != [] && t[0] != '\0' {
      assert (t + ['\0'] + rest)[1..] == t[1..] + ['\0'] + rest;
      CStrCut(t[1..], rest);
    }
  }

  /** strchr: the index of the first occurrence of c. */
  function IndexOf(s: seq<char>, c: char): (r: Option<nat>)
    ensures r.None? <==> c !in s
    ensures r.Some? ==> r.value < |s| && s[r.value] == c && c !in s[..r.value]
  {
    if s == [] then None
    else if s[0] == c then Some(0)
    else match IndexOf(s[1..], c)
      case None => None
      case Some(i) => Some(i + 1)
  }

  /** strrchr: the index of the last occurrence of c. */
  function LastIndexOf(s: seq<char>, c: char): (r: Option<nat>)
    ensures r.None? <==> c !in s
    ensures r.Some? ==> r.value < |s| && s[r.value] == c && c !in s[r.value + 1..]
  {
    if s == [] then None
    else if s[|s| - 1] == c then Some(|s| - 1)
    else LastIndexOf(s[..|s| - 1], c)
  }

  /** strcspn with a one-character reject set: the length of the prefix free of c. */
  function SpanWithout(s: seq<char>, c: char): (n: nat)
    ensures n <= |s| && c !in s[..n]
    ensures n < |s| ==> s[n] == c
  {
    match IndexOf(s, c)
    case None => |s|
    case Some(i) => i
  }

  /** isspace in the C locale: space, \t, \n, \v, \f and \r. */
  predicate IsSpace(c: char)
  {
    c == ' ' || c == '\t' || c == '\n' || c == '\U{000B}' || c == '\U{000C}' || c == '\r'
  }

  /** The string without its leading white space. */
  function TrimLeft(s: seq<char>): (r: seq<char>)
    ensures |r| <= |s|
    ensures forall i :: 0 <= i < |s| - |r| ==> IsSpace(s[i])
    ensures r == [] || !IsSpace(r[0])
  {
    if s != [] && IsSpace(s[0]) then TrimLeft(s[1..]) else s
  }

  /** The string without its trailing white space. */
  function TrimRight(s: seq<char>): (r: seq<char>)
    ensures |r| <= |s| && r == s[..|r|]
    ensures forall i :: |r| <= i < |s| ==> IsSpace(s[i])
    ensures r == [] || !IsSpace(r[|r| - 1])
  {
    if s != [] && IsSpace(s[|s| - 1]) then TrimRight(s[..|s| - 1]) else s
  }

  /** The string without leading and trailing white space, as trim_string leaves it. */
  function Trim(s: seq<char>): seq<char>
  {
    TrimRight(TrimLeft(s))
  }

  /** Skipping k leading spaces up to a non-space character is what TrimLeft does. */
  lemma {:induction false} TrimLeftAt(s: seq<char>, k: nat)
    requires k <= |s|
    requires forall i :: 0 <= i < k ==> IsSpace(s[i])
    requires k == |s| || !IsSpace(s[k])
    ensures TrimLeft(s) == s[k..]
  {
    if k > 0 {
      TrimLeftAt(s[1..], k - 1);
    }
  }

  /** TrimLeft removes a prefix: what it returns is a suffix of its input. */
  lemma {:induction false} TrimLeftSuffix(s: seq<char>)
    ensures TrimLeft(s) == s[|s| - |TrimLeft(s)|..]
  {
    if s != [] && IsSpace(s[0]) {
      TrimLeftSuffix(s[1..]);
      assert s[1..][|s| - 1 - |TrimLeft(s)|..] == s[|s| - |TrimLeft(s)|..];
    }
  }

  /** Cutting white space after index k, which is not white space, is what TrimRight does. */
  lemma {:induction false} TrimRightAt(s: seq<char>, k: nat)
    requires k <= |s|
    requires forall i :: k <= i < |s| ==> IsSpace(s[i])
    requires k == 0 || !IsSpace(s[k - 1])
    ensures TrimRight(s) == s[..k]
  {
    if k < |s| {
      assert s[..|s| - 1][..k] == s[..k];
      TrimRightAt(s[..|s| - 1], k);
    }
  }

  /** Trimming twice is trimming once. */
  lemma TrimIdempotent(s: seq<char>)
    ensures Trim(Trim(s)) == Trim(s)
  {
    var t := Trim(s);
    TrimLeftAt(t, 0);
    TrimRightAt(t, |t|);
  }

  /**
   * trim_string (sipserv.c:520-537) on a NUL-terminated buffer: it skips the
   * leading white space, writes a NUL after the last non-space character and
   * returns where the trimmed text starts, all inside the same buffer.
   */
  method TrimString(buf: array<char>) returns (start: nat)
    requires '\0' in buf[..]
    modifies buf
    ensures start < buf.Length
    ensures CStr(buf[start..]) == Trim(CStr(old(buf[..])))
    ensures forall i :: 0 <= i < start ==> buf[i] == old(buf[i])
    ensures forall i :: 0 <= i < buf.Length && i != start + |CStr(buf[start..])| ==> buf[i] == old(buf[i])
  {
    ghost var s := CStr(buf[..]);
    start := SkipSpace(buf);
    var n := StrLen(buf, start);
    if n == start {
      AllSpace(buf[..], start);
      return;
    }
    var end := SkipTrailingSpace(buf, start, n);
    CutAfter(buf, start, end + 1);
  }

  /** A buffer holding white space only trims to the empty text, which is what remains past it. */
  lemma AllSpace(buf: seq<char>, start: nat)
    requires start == |CStr(buf)| < |buf|
    requires TrimLeft(CStr(buf)) == CStr(buf)[start..]
    ensures CStr(buf[start..]) == Trim(CStr(buf)) == []
  {
    assert buf[start..] == [] + ['\0'] + buf[start + 1..];
    CStrOfTerminated([], buf[start + 1..]);
  }

  /** The write of trim_string: a terminator just after the last non-space character. */
  method CutAfter(buf: array<char>, start: nat, stop: nat)
    requires start < stop <= |CStr(buf[..])| < buf.Length
    requires TrimLeft(CStr(buf[..])) == CStr(buf[..])[start..]
    requires forall i :: stop <= i < |CStr(buf[..])| ==> IsSpace(buf[i])
    requires !IsSpace(buf[stop - 1])
    modifies buf
    ensures CStr(buf[start..]) == Trim(CStr(old(buf[..])))
    ensures forall i :: 0 <= i < start ==> buf[i] == old(buf[i])
    ensures forall i :: 0 <= i < buf.Length && i != start + |CStr(buf[start..])| ==> buf[i] == old(buf[i])
  {
    ghost var before := buf[..];
    buf[stop] := '\0';
    assert buf[..] == before[stop := '\0'];
    TrimmedBuffer(before, start, stop);
  }

  /** The first loop of trim_string: the index of the first character that is not white space. */
  method SkipSpace(buf: array<char>) returns (start: nat)
    requires '\0' in buf[..]
    ensures start <= |CStr(buf[..])|
    ensures TrimLeft(CStr(buf[..])) == CStr(buf[..])[start..]
  {
    ghost var s := CStr(buf[..]);
    start := 0;
    while IsSpace(buf[start])
      invariant start <= |s|
      invariant forall i :: 0 <= i < start ==> IsSpace(s[i])
      decreases |s| - start
    {
      start := start + 1;
    }
    TrimLeftAt(s, start);
  }

  /** strlen from index from: the index of the terminator. */
  method StrLen(buf: array<char>, from: nat) returns (n: nat)
    requires '\0' in buf[..] && from <= |CStr(buf[..])|
    ensures n == |CStr(buf[..])|
  {
    n := from;
    while buf[n] != '\0'
      invariant from <= n <= |CStr(buf[..])|
      decreases |CStr(buf[..])| - n
    {
      n := n + 1;
    }
  }

  /**
   * The second loop of trim_string: from stop - 1 down to start, the last
   * index that is not white space, or start - 1 if there is none.
   */
  method SkipTrailingSpace(buf: array<char>, start: nat, stop: nat) returns (end: int)
    requires start < stop <= buf.Length
    ensures start - 1 <= end < stop
    ensures forall i :: end < i < stop ==> IsSpace(buf[i])
    ensures end >= start ==> !IsSpace(buf[end])
  {
    end := stop - 1;
    while end >= start && IsSpace(buf[end])
      invariant start - 1 <= end < stop
      invariant forall i :: end < i < stop ==> IsSpace(buf[i])
      decreases end
    {
      end := end - 1;
    }
  }

  /** The buffer as trim_string leaves it reads back as the trimmed text. */
  lemma TrimmedBuffer(buf: seq<char>, start: nat, stop: nat)
    requires start < stop <= |CStr(buf)| < |buf|
    requires TrimLeft(CStr(buf)) == CStr(buf)[start..]
    requires forall i :: stop <= i < |CStr(buf)| ==> IsSpace(buf[i])
    requires !IsSpace(buf[stop - 1])
    ensures CStr(buf[stop := '\0'][start..]) == Trim(CStr(buf))
    ensures |CStr(buf[stop := '\0'][start..])| == stop - start
  {
    var s := CStr(buf);
    assert forall i :: 0 <= i < |s| ==> s[i] == buf[i];
    TrimOfSlice(s, start, stop);
    CutReadsBack(buf, s, start, stop);
  }

  /** With the text s at the start of buf, a terminator written at stop leaves s[start..stop] readable from start. */
  lemma CutReadsBack(buf: seq<char>, s: seq<char>, start: nat, stop: nat)
    requires start <= stop <= |s| < |buf| && s == buf[..|s|] && '\0' !in s
    ensures CStr(buf[stop := '\0'][start..]) == s[start..stop]
  {
    var t := buf[start..stop];
    assert forall i :: 0 <= i < |s| ==> s[i] == buf[i];
    assert t == s[start..stop];
    CutAt(buf, start, stop);
    CStrOfTerminated(t, buf[stop + 1..]);
  }

  /** Text after the leading white space, cut after its last non-space character, is the trimmed text. */
  lemma TrimOfSlice(s: seq<char>, start: nat, stop: nat)
    requires start < stop <= |s|
    requires TrimLeft(s) == s[start..]
    requires forall i :: stop <= i < |s| ==> IsSpace(s[i])
    requires !IsSpace(s[stop - 1])
    ensures Trim(s) == s[start..stop]
  {
    TrimRightOfSlice(s, start, stop);
  }

  /** Seen from start, text whose last non-space character is at stop - 1 trims on the right to s[start..stop]. */
  lemma TrimRightOfSlice(s: seq<char>, start: nat, stop: nat)
    requires start < stop <= |s|
    requires forall i :: stop <= i < |s| ==> IsSpace(s[i])
    requires !IsSpace(s[stop - 1])
    ensures TrimRight(s[start..]) == s[start..stop]
  {
    SliceTail(s, start, stop);
    TrimRightAt(s[start..], stop - start);
  }

  /** Seen from start, the last non-space character sits at stop - start - 1 and only white space follows it. */
  lemma SliceTail(s: seq<char>, start: nat, stop: nat)
    requires start < stop <= |s|
    requires forall i :: stop <= i < |s| ==> IsSpace(s[i])
    requires !IsSpace(s[stop - 1])
    ensures var l := s[start..]; forall i :: stop - start <= i < |l| ==> IsSpace(l[i])
    ensures !IsSpace(s[start..][stop - start - 1]) && s[start..][..stop - start] == s[start..stop]
  {
    var l := s[start..];
    assert l[stop - start - 1] == s[stop - 1];
    forall i | stop - start <= i < |l| ensures IsSpace(l[i]) {
      assert l[i] == s[start + i];
    }
  }

  /** Writing a terminator at stop leaves, from start on, the text before it, the terminator and the rest. */
  lemma CutAt(buf: seq<char>, start: nat, stop: nat)
    requires start <= stop < |buf|
    ensures buf[stop := '\0'][start..] == buf[start..stop] + ['\0'] + buf[stop + 1..]
  {
  }

  /** A buffer whose first |t| characters are t, followed by a NUL, reads back as t. */
  lemma CStrOfPrefix(t: seq<char>, buf: seq<char>)
    requires '\0' !in t
    requires |buf| > |t| && buf[..|t|] == t && buf[|t|] == '\0'
    ensures CStr(buf) == t
  {
    assert buf == t + ['\0'] + buf[|t| + 1..];
    CStrOfTerminated(t, buf[|t| + 1..]);
  }

  // ---------------------------------------------------------------- fgets

  /**
   * What fgets(buf, n, fp) takes from the stream: at most n - 1 characters,
   * stopping after the first newline. An empty result means end of file.
   */
  function FgetsLine(stream: seq<char>, n: nat): (line: seq<char>)
    requires n >= 2
    ensures |line| <= n - 1 && |line| <= |stream| && line == stream[..|line|]
    ensures stream != [] <==> line != []
    ensures forall i :: 0 <= i < |line| - 1 ==> line[i] != '\n'
    ensures |line| < n - 1 && |line| < |stream| ==> line[|line| - 1] == '\n'
  {
    var k := match IndexOf(stream, '\n') case Some(i) => i + 1 case None => |stream|;
    stream[..if k < n - 1 then k else n - 1]
  }

  /** The successive pieces a while (fgets(buf, n, fp) != NULL) loop reads. */
  function FgetsChunks(stream: seq<char>, n: nat): (chunks: seq<seq<char>>)
    requires n >= 2
    ensures forall i :: 0 <= i < |chunks| ==> 0 < |chunks[i]| <= n - 1
    decreases |stream|
  {
    if stream == [] then []
    else
      var line := FgetsLine(stream, n);
      [line] + FgetsChunks(stream[|line|..], n)
  }

  function Concat(chunks: seq<seq<char>>): seq<char>
  {
    if chunks == [] then [] else chunks[0] + Concat(chunks[1..])
  }

  /** Reading a stream chunk by chunk loses and adds nothing. */
  lemma {:induction false} FgetsChunksConcat(stream: seq<char>, n: nat)
    requires n >= 2
    ensures Concat(FgetsChunks(stream, n)) == stream
    decreases |stream|
  {
    if stream != [] {
      var line := FgetsLine(stream, n);
      var rest := stream[|line|..];
      assert stream == line + rest;
      var chunks := FgetsChunks(stream, n);
      assert chunks[0] == line && chunks[1..] == FgetsChunks(rest, n);
      FgetsChunksConcat(rest, n);
    }
  }

  // ---------------------------------------------------------------- decimal numbers

  predicate IsDigit(c: char)
  {
    '0' <= c <= '9'
  }

  function DigitChar(d: nat): (c: char)
    requires d < 10
    ensures IsDigit(c)
  {
    ('0' as int + d) as char
  }

  function DigitValue(c: char): nat
    requires IsDigit(c)
  {
    c as int - '0' as int
  }

  /** printf's %d for a non-negative number: its decimal digits, no leading zero. */
  function Decimal(n: nat): (r: string)
    ensures |r| >= 1 && forall i :: 0 <= i < |r| ==> IsDigit(r[i])
    ensures |r| > 1 ==> r[0] != '0'
  {
    if n < 10 then [DigitChar(n)] else Decimal(n / 10) + [DigitChar(n % 10)]
  }

  /** The value of a string of decimal digits. */
  function ParseDecimal(s: string): nat
    requires forall i :: 0 <= i < |s| ==> IsDigit(s[i])
  {
    if s == [] then 0 else ParseDecimal(s[..|s| - 1]) * 10 + DigitValue(s[|s| - 1])
  }

  /** Decimal and ParseDecimal are inverse. */
  lemma {:induction false} ParseDecimalOfDecimal(n: nat)
    ensures ParseDecimal(Decimal(n)) == n
  {
    if n >= 10 {
      var r := Decimal(n);
      assert r[..|r| - 1] == Decimal(n / 10);
      ParseDecimalOfDecimal(n / 10);
    }
  }

  function Zeros(k: nat): (r: string)
    ensures |r| == k && forall i :: 0 <= i < k ==> r[i] == '0'
  {
    if k == 0 then [] else Zeros(k - 1) + ['0']
  }

  /** Leading zeros do not change the value of a digit string. */
  lemma {:induction false} ParseDecimalLeadingZeros(k: nat, s: string)
    requires forall i :: 0 <= i < |s| ==> IsDigit(s[i])
    ensures ParseDecimal(Zeros(k) + s) == ParseDecimal(s) + ParseDecimal(Zeros(k)) * Pow10(|s|)
    ensures ParseDecimal(Zeros(k)) == 0
    decreases |s|
  {
    ZerosValue(k);
    if s == [] {
      assert Zeros(k) + s == Zeros(k);
    } else {
      assert (Zeros(k) + s)[..|Zeros(k) + s| - 1] == Zeros(k) + s[..|s| - 1];
      ParseDecimalLeadingZeros(k, s[..|s| - 1]);
    }
  }

  lemma {:induction false} ZerosValue(k: nat)
    ensures ParseDecimal(Zeros(k)) == 0
  {
    if k > 0 {
      assert Zeros(k)[..k - 1] == Zeros(k - 1);
      ZerosValue(k - 1);
    }
  }

  function Pow10(k: nat): (p: nat)
    ensures p >= 1
  {
    if k == 0 then 1 else 10 * Pow10(k - 1)
  }

  /** A number below 10^w has at most w digits. */
  lemma {:induction false} DecimalLength(n: nat, w: nat)
    requires 1 <= w && n < Pow10(w)
    ensures |Decimal(n)| <= w
  {
    if n >= 10 {
      DecimalLength(n / 10, w - 1);
    }
  }

  /** printf's %0<w>d for a non-negative number: zero-padded to width w. */
  function Padded(n: nat, w: nat): (r: string)
    ensures forall i :: 0 <= i < |r| ==> IsDigit(r[i])
    ensures |r| >= w && |r| >= 1
    ensures ParseDecimal(r) == n
  {
    var d := Decimal(n);
    var z := if |d| < w then w - |d| else 0;
    ParseDecimalLeadingZeros(z, d);
    ParseDecimalOfDecimal(n);
    Zeros(z) + d
  }

  /** A number below 10^w is printed by %0<w>d in exactly w characters. */
  lemma PaddedLength(n: nat, w: nat)
    requires 1 <= w && n < Pow10(w)
    ensures |Padded(n, w)| == w
  {
    DecimalLength(n, w);
  }
}
