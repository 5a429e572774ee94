/**
 * numcheck.py, the screening script shipped beside sipserv.c: it looks the
 * number given as its only argument up in numbers.txt, one prefix per line,
 * and prints its verdict; sipserv.c answers a call only when the first
 * character the script prints is '1'.
 */
module NumCheck {
  import opened CString

  /** The numbers file as the script finds it (numcheck.py:8, 17, 24-26). */
  datatype NumbersFile = Missing | Unreadable(errno: nat, strerror: string) | Readable(content: string)

  /**
   * One printed line: plain text, or a text followed by a Python list, which
   * print writes as its repr.
   */
  datatype OutLine = Text(s: string) | Listing(prefix: string, items: seq<string>)

  /** What the script prints, the exit status it ends with and the file it leaves behind. */
  datatype Outcome = Outcome(out: seq<OutLine>, status: int, file: NumbersFile)

  /** The two comment lines written into a numbers file that did not exist (numcheck.py:21-22). */
  const NewFileContent: string :=
    "# Numbers file for numcheck.py\n" + "# one number per line, # makes a comment\n"

  // ---------------------------------------------------------------- printing

  function Quoted(items: seq<string>): string
  {
    if items == [] then ""
    else if |items| == 1 then "'" + items[0] + "'"
    else "'" + items[0] + "', " + Quoted(items[1..])
  }

  /** A printed line, without its newline; a list is shown as [ 'a', 'b' ] without repr escapes. */
  function Render(o: OutLine): (r: string)
    ensures o.Listing? ==> |r| > |o.prefix| && r[..|o.prefix|] == o.prefix && r[|o.prefix|] == '['
    ensures o.Text? ==> r == o.s
  {
    match o
    case Text(s) => s
    case Listing(prefix, items) =>
      assert (prefix + "[" + Quoted(items) + "]")[|prefix|] == '[';
      prefix + "[" + Quoted(items) + "]"
  }

  /** Everything the script writes to standard output, each print ending its line. */
  function Stdout(out: seq<OutLine>): (r: string)
    ensures out != [] ==> |r| > |Render(out[0])| && r[..|Render(out[0])|] == Render(out[0])
  {
    if out == [] then ""
    else
      var head := Render(out[0]) + "\n";
      assert (head + Stdout(out[1..]))[..|Render(out[0])|] == Render(out[0]);
      head + Stdout(out[1..])
  }

  // ---------------------------------------------------------------- reading the file

  /** f.readlines(): the content cut after every newline, the last line possibly without one. */
  function ReadLines(content: string): (lines: seq<string>)
    ensures forall i :: 0 <= i < |lines| ==> lines[i] != []
    ensures forall i :: 0 <= i < |lines| ==> '\n' !in lines[i][..|lines[i]| - 1]
    ensures forall i :: 0 <= i < |lines| - 1 ==> lines[i][|lines[i]| - 1] == '\n'
    decreases |content|
  {
    if content == [] then []
    else match IndexOf(content, '\n')
      case None => [content]
      case Some(i) =>
        var rest := ReadLines(content[i + 1..]);
        var lines := [content[..i + 1]] + rest;
        assert lines[1..] == rest;
        lines
  }

  /** readlines loses and adds nothing: the lines put together are the file. */
  lemma {:induction false} ReadLinesConcat(content: string)
    ensures Concat(ReadLines(content)) == content
    decreases |content|
  {
    if content != [] {
      match IndexOf(content, '\n')
      case None =>
        assert Concat([content]) == content + Concat([]);
      case Some(i) =>
        var lines := ReadLines(content);
        assert lines[0] == content[..i + 1] && lines[1..] == ReadLines(content[i + 1..]);
        ReadLinesConcat(content[i + 1..]);
        assert content == content[..i + 1] + content[i + 1..];
    }
  }

  // ---------------------------------------------------------------- one line

  /** Comment lines and empty lines are skipped (numcheck.py:38). */
  predicate Skipped(line: string)
    requires line != []
  {
    line[0] == '#' || line[0] == '\n'
  }

  /** The line with every newline and every '#' turned into a space (numcheck.py:39-40). */
  function Blanked(line: string): (r: string)
    ensures |r| == |line|
    ensures forall i :: 0 <= i < |line| ==> r[i] == (if line[i] == '\n' || line[i] == '#' then ' ' else line[i])
  {
    if line == [] then []
    else [if line[0] == '\n' || line[0] == '#' then ' ' else line[0]] + Blanked(line[1..])
  }

  /** line.split(" ", 1) of the blanked line (numcheck.py:41). */
  function Split(line: string): (parts: seq<string>)
    ensures 1 <= |parts| <= 2 && ' ' !in parts[0]
    ensures |parts| == 2 <==> ' ' in Blanked(line)
    ensures |parts| == 2 ==> Blanked(line) == parts[0] + " " + parts[1]
    ensures |parts| == 1 ==> parts[0] == Blanked(line)
  {
    var b := Blanked(line);
    match IndexOf(b, ' ')
    case None => [b]
    case Some(i) =>
      assert b == b[..i] + " " + b[i + 1..];
      [b[..i], b[i + 1..]]
  }

  /** The prefix a line stands for: sline[0], the text before the first space, '#' or newline. */
  function Key(line: string): (k: string)
    ensures |k| <= |line| && k == line[..|k|]
    ensures forall i :: 0 <= i < |k| ==> k[i] != ' ' && k[i] != '#' && k[i] != '\n'
    ensures |k| < |line| ==> line[|k|] == ' ' || line[|k|] == '#' || line[|k|] == '\n'
  {
    var b := Blanked(line);
    var k := Split(line)[0];
    assert b[..|k|] == k;
    assert forall i :: 0 <= i < |k| ==> k[i] == b[i] == line[i];
    k
  }

  predicate StartsWith(s: string, prefix: string)
  {
    |prefix| <= |s| && s[..|prefix|] == prefix
  }

  /** A line admits the number when it is not a comment and the number starts with its key (numcheck.py:43). */
  predicate Matches(number: string, line: string)
    requires line != []
  {
    !Skipped(line) && StartsWith(number, Key(line))
  }

  // ---------------------------------------------------------------- the script

  /**
   * The loop over the lines (numcheck.py:37-50): each line that is not a
   * comment prints its split form; the first that matches prints "1" and
   * "Number found!" and ends the script; if none does, "0 Number not found!".
   */
  function Scan(number: string, lines: seq<string>): (out: seq<OutLine>)
    requires forall i :: 0 <= i < |lines| ==> lines[i] != []
    ensures out != []
  {
    if lines == [] then [Text("0 Number not found!")]
    else if Skipped(lines[0]) then Scan(number, lines[1..])
    else if StartsWith(number, Key(lines[0])) then
      [Listing("", Split(lines[0])), Text("1"), Text("Number found!")]
    else [Listing("", Split(lines[0]))] + Scan(number, lines[1..])
  }

  /** The whole script for its argument vector (script name first) and the state of numbers.txt. */
  function Run(argv: seq<string>, file: NumbersFile): (r: Outcome)
    ensures r.out != []
    ensures |argv| != 2 || !file.Readable? ==> r.status == 1 && r.out[0] == Text("0")
    ensures |argv| == 2 && file.Missing? ==> r.file == Readable(NewFileContent)
    ensures !(|argv| == 2 && file.Missing?) ==> r.file == file
    ensures |argv| == 2 && file.Readable? ==> r.status == 0
  {
    if |argv| != 2 then
      Outcome([Text("0"),
               Text("Number of arguments: " + Decimal(|argv|) + " arguments."),
               Listing("Argument List: ", argv),
               Text("call with one argument (the number to be searched)")], 1, file)
    else if file.Missing? then
      Outcome([Text("0"), Text("file numbers.txt does not exist. Creating it for you.")], 1,
              Readable(NewFileContent))
    else if file.Unreadable? then
      Outcome([Text("0"),
               Text("I/O error(" + Decimal(file.errno) + "): " + file.strerror),
               Text("Error reading File numbers.txt.")], 1, file)
    else
      Outcome(Scan(argv[1], ReadLines(file.content)), 0, file)
  }

  /** numcheck.py as it runs: the checks, then the loop with its early exit. */
  method NumCheck(argv: seq<string>, file: NumbersFile) returns (out: seq<OutLine>, status: int, newFile: NumbersFile)
    ensures Outcome(out, status, newFile) == Run(argv, file)
  {
    newFile := file;
    if |argv| != 2 {
      out := [Text("0"),
              Text("Number of arguments: " + Decimal(|argv|) + " arguments."),
              Listing("Argument List: ", argv),
              Text("call with one argument (the number to be searched)")];
      return out, 1, newFile;
    }
    if file.Missing? {
      out := [Text("0"), Text("file numbers.txt does not exist. Creating it for you.")];
      newFile := Readable(NewFileContent);
      return out, 1, newFile;
    }
    if file.Unreadable? {
      out := [Text("0"),
              Text("I/O error(" + Decimal(file.errno) + "): " + file.strerror),
              Text("Error reading File numbers.txt.")];
      return out, 1, newFile;
    }
    out := ScanLines(argv[1], ReadLines(file.content));
    return out, 0, newFile;
  }

  /** The for loop of numcheck.py:37-50, leaving the script at the first match. */
  method ScanLines(number: string, lines: seq<string>) returns (out: seq<OutLine>)
    requires forall i :: 0 <= i < |lines| ==> lines[i] != []
    ensures out == Scan(number, lines)
  {
    out := [];
    for i := 0 to |lines|
      invariant ScannedTo(number, lines, i, out)
    {
      var line := lines[i];
      if !(line[0] == '#' || line[0] == '\n') {
        var sline := Split(line);
        if StartsWith(number, sline[0]) {
          ScanFound(number, lines, i, out);
          out := out + [Listing("", sline), Text("1"), Text("Number found!")];
          return;
        }
        ScanListed(number, lines, i, out);
        out := out + [Listing("", sline)];
      } else {
        ScanSkipped(number, lines, i, out);
      }
    }
    ScanExhausted(number, lines, out);
    out := out + [Text("0 Number not found!")];
  }

  /** The loop's invariant: what has been printed, followed by what scanning from line i prints, is the whole output. */
  ghost predicate ScannedTo(number: string, lines: seq<string>, i: nat, out: seq<OutLine>)
  {
    && (forall k :: 0 <= k < |lines| ==> lines[k] != [])
    && i <= |lines|
    && out + Scan(number, lines[i..]) == Scan(number, lines)
  }

  /** Past the last line, only "0 Number not found!" remains to be printed. */
  lemma ScanExhausted(number: string, lines: seq<string>, out: seq<OutLine>)
    requires ScannedTo(number, lines, |lines|, out)
    ensures out + [Text("0 Number not found!")] == Scan(number, lines)
  {
    assert lines[|lines|..] == [];
  }

  /** A comment line prints nothing: the loop goes on to the next line. */
  lemma ScanSkipped(number: string, lines: seq<string>, i: nat, out: seq<OutLine>)
    requires ScannedTo(number, lines, i, out) && i < |lines| && Skipped(lines[i])
    ensures ScannedTo(number, lines, i + 1, out)
  {
    ScanStep(number, lines, i);
  }

  /** A line that does not match prints its split form and the loop goes on. */
  lemma ScanListed(number: string, lines: seq<string>, i: nat, out: seq<OutLine>)
    requires ScannedTo(number, lines, i, out) && i < |lines|
    requires !Skipped(lines[i]) && !StartsWith(number, Split(lines[i])[0])
    ensures ScannedTo(number, lines, i + 1, out + [Listing("", Split(lines[i]))])
  {
    ScanStep(number, lines, i);
    var rest := Scan(number, lines[i + 1..]);
    assert out + [Listing("", Split(lines[i]))] + rest == out + ([Listing("", Split(lines[i]))] + rest);
  }

  /** The first matching line prints its split form, "1" and "Number found!", and the scan ends. */
  lemma ScanFound(number: string, lines: seq<string>, i: nat, out: seq<OutLine>)
    requires ScannedTo(number, lines, i, out) && i < |lines|
    requires !Skipped(lines[i]) && StartsWith(number, Split(lines[i])[0])
    ensures out + [Listing("", Split(lines[i])), Text("1"), Text("Number found!")] == Scan(number, lines)
  {
    ScanStep(number, lines, i);
  }

  /** One turn of the loop: what scanning from line i prints, in terms of scanning from line i + 1. */
  lemma ScanStep(number: string, lines: seq<string>, i: nat)
    requires forall i :: 0 <= i < |lines| ==> lines[i] != []
    requires i < |lines|
    ensures Scan(number, lines[i..]) ==
      if Skipped(lines[i]) then Scan(number, lines[i + 1..])
      else if StartsWith(number, Key(lines[i])) then [Listing("", Split(lines[i])), Text("1"), Text("Number found!")]
      else [Listing("", Split(lines[i]))] + Scan(number, lines[i + 1..])
  {
    assert lines[i..][0] == lines[i];
    assert lines[i..][1..] == lines[i + 1..];
  }

  // ---------------------------------------------------------------- properties

  /**
   * A line's key ends at the first space, '#' or newline: "4917#mum" and
   * "4917 mum" both stand for the prefix 4917.
   */
  lemma KeyUpToSeparator(k: string, sep: char, rest: string)
    requires forall i :: 0 <= i < |k| ==> k[i] != ' ' && k[i] != '#' && k[i] != '\n'
    requires sep == ' ' || sep == '#' || sep == '\n'
    ensures Key(k + [sep] + rest) == k
  {
    var line := k + [sep] + rest;
    assert line[..|k|] == k && line[|k|] == sep;
  }

  lemma KeyExamples()
    ensures Key("4917#mum\n") == "4917"
    ensures Key("4917 mum\n") == "4917"
    ensures Key("4917\n") == "4917"
  {
    assert "4917#mum\n" == "4917" + ['#'] + "mum\n";
    assert "4917 mum\n" == "4917" + [' '] + "mum\n";
    assert "4917\n" == "4917" + ['\n'] + "";
    KeyUpToSeparator("4917", '#', "mum\n");
    KeyUpToSeparator("4917", ' ', "mum\n");
    KeyUpToSeparator("4917", '\n', "");
  }

  /** A line that begins with a space has the empty key, which every number starts with. */
  lemma LeadingSpaceMatchesEverything(number: string, line: string)
    requires line != [] && line[0] == ' '
    ensures Key(line) == "" && Matches(number, line)
  {
  }

  /** Some line of the file matches the number. */
  predicate AnyMatch(number: string, lines: seq<string>)
    requires forall i :: 0 <= i < |lines| ==> lines[i] != []
  {
    exists i :: 0 <= i < |lines| && Matches(number, lines[i])
  }

  /** "1" is printed iff some line matches (numcheck.py:42-45). */
  lemma {:induction false} ScanPrintsOne(number: string, lines: seq<string>)
    requires forall i :: 0 <= i < |lines| ==> lines[i] != []
    ensures Text("1") in Scan(number, lines) <==> AnyMatch(number, lines)
  {
    if lines == [] {
      assert Scan(number, lines) == [Text("0 Number not found!")];
    } else if Skipped(lines[0]) {
      AnyMatchCons(number, lines);
      assert Scan(number, lines) == Scan(number, lines[1..]);
      ScanPrintsOne(number, lines[1..]);
    } else if StartsWith(number, Key(lines[0])) {
      assert Matches(number, lines[0]);
      assert Scan(number, lines)[1] == Text("1");
    } else {
      AnyMatchCons(number, lines);
      ScanPrintsOne(number, lines[1..]);
      ListingFirst(Listing("", Split(lines[0])), Scan(number, lines[1..]));
    }
  }

  /**
   * The last line printed is "Number found!" when "1" was printed and
   * "0 Number not found!" otherwise (numcheck.py:44-50).
   */
  predicate EndsAsVerdict(out: seq<OutLine>)
  {
    out != [] && out[|out| - 1] == (if Text("1") in out then Text("Number found!") else Text("0 Number not found!"))
  }

  /** The loop's output ends with its verdict; with ScanPrintsOne, the last line tells whether some line matches. */
  lemma {:induction false} ScanLastLine(number: string, lines: seq<string>)
    requires forall i :: 0 <= i < |lines| ==> lines[i] != []
    ensures EndsAsVerdict(Scan(number, lines))
  {
    if lines == [] {
      assert Scan(number, lines) == [Text("0 Number not found!")];
    } else if Skipped(lines[0]) {
      assert Scan(number, lines) == Scan(number, lines[1..]);
      ScanLastLine(number, lines[1..]);
    } else if StartsWith(number, Key(lines[0])) {
      var out := Scan(number, lines);
      assert out[1] == Text("1") && out[2] == Text("Number found!") && |out| == 3;
    } else {
      ScanLastLine(number, lines[1..]);
      ListingFirst(Listing("", Split(lines[0])), Scan(number, lines[1..]));
    }
  }

  /** Printing a list first changes neither the last line nor whether "1" is printed. */
  lemma ListingFirst(x: OutLine, tail: seq<OutLine>)
    requires x.Listing? && tail != []
    ensures var out := [x] + tail;
      out[|out| - 1] == tail[|tail| - 1] && (Text("1") in out <==> Text("1") in tail)
  {
  }

  /** Some line matches iff the first one does or some later one does. */
  lemma AnyMatchCons(number: string, lines: seq<string>)
    requires forall i :: 0 <= i < |lines| ==> lines[i] != []
    requires lines != []
    ensures AnyMatch(number, lines) <==> Matches(number, lines[0]) || AnyMatch(number, lines[1..])
  {
    if AnyMatch(number, lines[1..]) {
      var i :| 0 <= i < |lines[1..]| && Matches(number, lines[1..][i]);
      assert lines[1..][i] == lines[i + 1];
    }
    if AnyMatch(number, lines) && !Matches(number, lines[0]) {
      var i :| 0 <= i < |lines| && Matches(number, lines[i]);
      assert lines[1..][i - 1] == lines[i];
    }
  }

  /**
   * What the loop prints first: the split form of the first line that is not
   * a comment, or "0 Number not found!" when every line is one.
   */
  lemma {:induction false} ScanFirstLine(number: string, lines: seq<string>)
    requires forall i :: 0 <= i < |lines| ==> lines[i] != []
    ensures var out := Scan(number, lines);
      (out[0].Listing? && out[0].prefix == "") || out[0] == Text("0 Number not found!")
    ensures var out := Scan(number, lines);
      out[0] == Text("0 Number not found!") <==> forall i :: 0 <= i < |lines| ==> Skipped(lines[i])
  {
    if lines != [] && Skipped(lines[0]) {
      ScanFirstLine(number, lines[1..]);
      assert forall i :: 1 <= i < |lines| ==> lines[i] == lines[1..][i - 1];
    }
  }

  /**
   * The first character of the output is never '1': on every error path it
   * is '0', and once a line that is not a comment is scanned it is the '['
   * of the printed list, before any "1" (numcheck.py:3, 42).
   */
  lemma FirstCharacterNeverOne(argv: seq<string>, file: NumbersFile)
    ensures var s := Stdout(Run(argv, file).out);
      s != [] && s[0] != '1'
    ensures var s := Stdout(Run(argv, file).out);
      (|argv| == 2 && file.Readable?
        && (exists i :: 0 <= i < |ReadLines(file.content)| && !Skipped(ReadLines(file.content)[i])))
        ==> s[0] == '['
  {
    var r := Run(argv, file);
    if |argv| == 2 && file.Readable? {
      ScanFirstLine(argv[1], ReadLines(file.content));
    }
    assert Render(r.out[0])[0] == Stdout(r.out)[0];
  }

  // ---------------------------------------------------------------- without the list print

  /**
   * The loop as the comment at numcheck.py:3 intends it: the same search,
   * without printing each line's split form first.
   */
  function ScanIntended(number: string, lines: seq<string>): (out: seq<OutLine>)
    requires forall i :: 0 <= i < |lines| ==> lines[i] != []
    ensures out != [] && (out[0] == Text("1") <==> AnyMatch(number, lines))
    ensures out[0] == Text("1") || out[0] == Text("0 Number not found!")
  {
    if lines == [] then [Text("0 Number not found!")]
    else if Matches(number, lines[0]) then [Text("1"), Text("Number found!")]
    else ScanIntended(number, lines[1..])
  }

  /** Without the list print, the first character printed is '1' exactly when the number is listed. */
  lemma {:induction false} ScanIntendedVerdict(number: string, lines: seq<string>)
    requires forall i :: 0 <= i < |lines| ==> lines[i] != []
    ensures Stdout(ScanIntended(number, lines))[0] == '1' <==> AnyMatch(number, lines)
  {
    var out := ScanIntended(number, lines);
    assert Render(out[0])[0] == Stdout(out)[0];
    if lines != [] && !Matches(number, lines[0]) {
      AnyMatchCons(number, lines);
      ScanIntendedVerdict(number, lines[1..]);
    } else if lines != [] {
      assert Matches(number, lines[0]);
    }
  }
}
