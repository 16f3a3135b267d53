/**
 * The names of the spreadsheets to import: the ship name (a run of Han
 * characters), a start and an end timestamp "YYYY-MM-DD-hh-mm-ss" joined
 * by 至; each timestamp is read as a local time and truncated to the start
 * of its day. The command-line importer picks the .xlsx files of a
 * directory and routes each to the importer for its ship.
 */
module ImportFiles {
  import opened Wrappers
  import opened Text
  import opened ImportRows
  import DemoRunner
  import SuctionVacuum

  /** The ranges of the Unicode Han script (Unicode 15.0), as pairs of first and last character. */
  const HanRanges: seq<(char, char)> := [
    ('\U{2E80}', '\U{2E99}'), ('\U{2E9B}', '\U{2EF3}'), ('\U{2F00}', '\U{2FD5}'), ('\U{3005}', '\U{3005}'),
    ('\U{3007}', '\U{3007}'), ('\U{3021}', '\U{3029}'), ('\U{3038}', '\U{303B}'), ('\U{3400}', '\U{4DBF}'),
    ('\U{4E00}', '\U{9FFF}'), ('\U{F900}', '\U{FA6D}'), ('\U{FA70}', '\U{FAD9}'), ('\U{16FE2}', '\U{16FE3}'),
    ('\U{16FF0}', '\U{16FF1}'), ('\U{20000}', '\U{2A6DF}'), ('\U{2A700}', '\U{2B739}'), ('\U{2B740}', '\U{2B81D}'),
    ('\U{2B820}', '\U{2CEA1}'), ('\U{2CEB0}', '\U{2EBE0}'), ('\U{2F800}', '\U{2FA1D}'), ('\U{30000}', '\U{3134A}'),
    ('\U{31350}', '\U{323AF}')]

  /** c lies in one of the Han ranges from the k-th on. */
  predicate InHanRanges(c: char, k: nat)
    decreases |HanRanges| - k
  {
    k < |HanRanges| && (HanRanges[k].0 <= c <= HanRanges[k].1 || InHanRanges(c, k + 1))
  }

  /** \p{Han}: a character of the Han script. */
  predicate IsHan(c: char)
  {
    InHanRanges(c, 0)
  }

  /** A character of a Han range is Han. */
  lemma {:induction false} InHanRange(c: char, k: nat, j: nat)
    requires j <= k < |HanRanges| && HanRanges[k].0 <= c <= HanRanges[k].1
    ensures InHanRanges(c, j)
    decreases k - j
  {
    if j < k {
      InHanRange(c, k, j + 1);
    }
  }

  /** No ASCII character is Han. */
  lemma {:induction false} AsciiIsNotHan(c: char, k: nat)
    requires c < '\U{80}'
    ensures !InHanRanges(c, k)
    decreases |HanRanges| - k
  {
    if k < |HanRanges| {
      AsciiIsNotHan(c, k + 1);
    }
  }

  /** The \d class of the pattern: an ASCII digit. */
  predicate IsDigit(c: char)
  {
    '0' <= c <= '9'
  }

  /** The separator of the two timestamps. */
  const To: char := '至'

  const StampLength: nat := 19

  /** The length of the longest run of Han characters at the start of s. */
  function HanRun(s: string): (n: nat)
    ensures n <= |s|
    ensures forall i :: 0 <= i < n ==> IsHan(s[i])
    ensures n < |s| ==> !IsHan(s[n])
  {
    if s != [] && IsHan(s[0]) then 1 + HanRun(s[1..]) else 0
  }

  /** \d{4}-\d{2}-\d{2}-\d{2}-\d{2}-\d{2} */
  predicate StampShape(t: string)
  {
    && |t| == StampLength
    && IsDigit(t[0]) && IsDigit(t[1]) && IsDigit(t[2]) && IsDigit(t[3]) && t[4] == '-'
    && IsDigit(t[5]) && IsDigit(t[6]) && t[7] == '-'
    && IsDigit(t[8]) && IsDigit(t[9]) && t[10] == '-'
    && IsDigit(t[11]) && IsDigit(t[12]) && t[13] == '-'
    && IsDigit(t[14]) && IsDigit(t[15]) && t[16] == '-'
    && IsDigit(t[17]) && IsDigit(t[18])
  }

  /** The three groups of a match: the ship name and the two timestamps. */
  datatype NameMatch = NameMatch(ship: string, start: string, end: string)

  /**
   * FindStringSubmatch of the file-name pattern, anchored at the start
   * only. The Han run must be the whole run: the character after it must
   * be a digit, which is not Han.
   */
  function MatchName(name: string): Option<NameMatch>
  {
    var h := HanRun(name);
    if h > 0 && h + 2 * StampLength + 1 <= |name|
       && StampShape(name[h..h + StampLength]) && name[h + StampLength] == To
       && StampShape(name[h + StampLength + 1..h + 2 * StampLength + 1])
    then Some(NameMatch(name[..h], name[h..h + StampLength], name[h + StampLength + 1..h + 2 * StampLength + 1]))
    else None
  }

  /** A match splits the start of the name into a Han ship name, a timestamp, 至 and a timestamp. */
  lemma MatchSound(name: string)
    requires MatchName(name).Some?
    ensures var m := MatchName(name).value;
      && m.ship != [] && (forall i :: 0 <= i < |m.ship| ==> IsHan(m.ship[i]))
      && StampShape(m.start) && StampShape(m.end)
      && HasPrefix(name, m.ship + m.start + [To] + m.end)
  {
    NameParts(name, HanRun(name));
  }

  /** The prefix of a name cut at the places of the groups. */
  lemma NameParts(name: string, h: nat)
    requires h + 2 * StampLength + 1 <= |name|
    ensures name[..h + 2 * StampLength + 1]
      == name[..h] + name[h..h + StampLength] + [name[h + StampLength]] + name[h + StampLength + 1..h + 2 * StampLength + 1]
  {
  }

  /**
   * Every name that starts with a Han ship name, a timestamp, 至 and a
   * timestamp matches, with those groups, whatever follows them.
   */
  lemma MatchComplete(ship: string, start: string, end: string, rest: string)
    requires ship != [] && forall i :: 0 <= i < |ship| ==> IsHan(ship[i])
    requires StampShape(start) && StampShape(end)
    ensures MatchName(ship + start + [To] + end + rest) == Some(NameMatch(ship, start, end))
  {
    var name := ship + start + [To] + end + rest;
    AsciiIsNotHan(start[0], 0);
    HanRunOf(ship, start + [To] + end + rest);
    assert name == ship + (start + [To] + end + rest);
    var h := |ship|;
    assert name[..h] == ship;
    assert name[h..h + StampLength] == start;
    assert name[h + StampLength] == To;
    assert name[h + StampLength + 1..h + 2 * StampLength + 1] == end;
  }

  /** A run of Han characters followed by a non-Han character is the Han run. */
  lemma {:induction false} HanRunOf(run: string, tail: string)
    requires forall i :: 0 <= i < |run| ==> IsHan(run[i])
    requires tail != [] && !IsHan(tail[0])
    ensures HanRun(run + tail) == |run|
  {
    if run != [] {
      assert (run + tail)[1..] == run[1..] + tail;
      HanRunOf(run[1..], tail);
    } else {
      assert run + tail == tail;
    }
  }

  /** The calendar fields of a timestamp. */
  datatype CivilTime = CivilTime(year: int, month: int, day: int, hour: int, minute: int, second: int)

  /** A calendar day, the argument of the local-midnight conversion. */
  datatype CivilDate = CivilDate(year: int, month: int, day: int)

  function DigitValue(c: char): (d: nat)
    requires IsDigit(c)
    ensures d <= 9
  {
    c as int - '0' as int
  }

  /** The value of two digits. */
  function TwoDigitValue(hi: char, lo: char): nat
    requires IsDigit(hi) && IsDigit(lo)
  {
    10 * DigitValue(hi) + DigitValue(lo)
  }

  predicate IsLeap(year: int)
  {
    year % 4 == 0 && (year % 100 != 0 || year % 400 == 0)
  }

  function DaysIn(month: int, year: int): (n: int)
    requires 1 <= month <= 12
    ensures 28 <= n <= 31
  {
    if month == 2 then (if IsLeap(year) then 29 else 28)
    else if month in {4, 6, 9, 11} then 30
    else 31
  }

  /** The fields of a timestamp of the right shape, read at their fixed positions. */
  function StampFields(t: string): CivilTime
    requires StampShape(t)
  {
    CivilTime(100 * TwoDigitValue(t[0], t[1]) + TwoDigitValue(t[2], t[3]), TwoDigitValue(t[5], t[6]),
              TwoDigitValue(t[8], t[9]), TwoDigitValue(t[11], t[12]), TwoDigitValue(t[14], t[15]),
              TwoDigitValue(t[17], t[18]))
  }

  /** The ranges time.Parse checks: month, day of that month (leap years counted), hour, minute and second. */
  predicate ValidTime(c: CivilTime)
  {
    && 1 <= c.month <= 12
    && 1 <= c.day <= DaysIn(c.month, c.year)
    && 0 <= c.hour < 24 && 0 <= c.minute < 60 && 0 <= c.second < 60
  }

  datatype NameError = InvalidName | BadTime(stamp: string)

  /**
   * parseTime: the timestamp under the layout "2006-01-02-15-04-05", then
   * the start of its day; dayStart converts a local calendar day to Unix
   * milliseconds.
   */
  function ParseTime(t: string, dayStart: CivilDate -> int): (r: Result<int, NameError>)
    requires StampShape(t)
    ensures r.Ok? <==> ValidTime(StampFields(t))
    ensures r.Ok? ==> r.value == dayStart(CivilDate(StampFields(t).year, StampFields(t).month, StampFields(t).day))
  {
    var c := StampFields(t);
    if ValidTime(c) then Ok(dayStart(CivilDate(c.year, c.month, c.day))) else Err(BadTime(t))
  }

  /** Two timestamps of the same calendar day give the same start of day. */
  lemma SameDaySameStart(a: string, b: string, dayStart: CivilDate -> int)
    requires StampShape(a) && StampShape(b)
    requires ParseTime(a, dayStart).Ok? && ParseTime(b, dayStart).Ok?
    requires a[..10] == b[..10]
    ensures ParseTime(a, dayStart) == ParseTime(b, dayStart)
  {
    assert forall k :: 0 <= k < 10 ==> a[k] == a[..10][k] == b[k];
  }

  /** The import parameters a file name gives: the ship name and the starts of both days. */
  datatype ImportName = ImportName(ship: string, start: int, end: int)

  /**
   * parseFileName of the command-line importer: the pattern must match,
   * then the start and then the end timestamp must parse. The two days are
   * not compared.
   */
  function ParseFileName(name: string, dayStart: CivilDate -> int): (r: Result<ImportName, NameError>)
    ensures MatchName(name).None? ==> r == Err(InvalidName)
    ensures MatchName(name).Some? ==>
      var m := MatchName(name).value;
      && (ParseTime(m.start, dayStart).Err? ==> r == Err(BadTime(m.start)))
      && (ParseTime(m.start, dayStart).Ok? && ParseTime(m.end, dayStart).Err? ==> r == Err(BadTime(m.end)))
      && (r.Ok? <==> ParseTime(m.start, dayStart).Ok? && ParseTime(m.end, dayStart).Ok?)
      && (r.Ok? ==> r.value == ImportName(m.ship, ParseTime(m.start, dayStart).value, ParseTime(m.end, dayStart).value))
  {
    match MatchName(name)
    case None => Err(InvalidName)
    case Some(m) =>
      match ParseTime(m.start, dayStart)
      case Err(e) => Err(e)
      case Ok(start) =>
        match ParseTime(m.end, dayStart)
        case Err(e) => Err(e)
        case Ok(end) => Ok(ImportName(m.ship, start, end))
  }

  /** parseFileName of the upload handler: the same rule, without the ship name. */
  function HandlerParseFileName(name: string, dayStart: CivilDate -> int): (r: Result<(int, int), NameError>)
    ensures r.Ok? <==> ParseFileName(name, dayStart).Ok?
    ensures r.Ok? ==> r.value == (ParseFileName(name, dayStart).value.start, ParseFileName(name, dayStart).value.end)
    ensures r.Err? ==> r.error == ParseFileName(name, dayStart).error
  {
    match ParseFileName(name, dayStart)
    case Err(e) => Err(e)
    case Ok(n) => Ok((n.start, n.end))
  }

  /** A file name with text after the end timestamp and an end day before the start day is accepted. */
  lemma TrailingTextAndReversedDays(dayStart: CivilDate -> int)
    ensures var start, end := "2024-05-02-10-00-00", "2024-05-01-23-59-59";
      ParseFileName("敏龙" + start + [To] + end + "(2)", dayStart)
        == Ok(ImportName("敏龙", dayStart(CivilDate(2024, 5, 2)), dayStart(CivilDate(2024, 5, 1))))
  {
    var start, end := "2024-05-02-10-00-00", "2024-05-01-23-59-59";
    assert StampShape(start) && StampShape(end);
    InHanRange('敏', 8, 0);
    InHanRange('龙', 8, 0);
    MatchComplete("敏龙", start, end, "(2)");
    StampExample(start, dayStart);
    StampExample(end, dayStart);
  }

  lemma StampExample(t: string, dayStart: CivilDate -> int)
    requires t in {"2024-05-02-10-00-00", "2024-05-01-23-59-59"}
    ensures t == "2024-05-02-10-00-00" ==> ParseTime(t, dayStart) == Ok(dayStart(CivilDate(2024, 5, 2)))
    ensures t == "2024-05-01-23-59-59" ==> ParseTime(t, dayStart) == Ok(dayStart(CivilDate(2024, 5, 1)))
  {
    assert StampShape(t);
  }

  /** 29 February is a day in a leap year: one divisible by 4 that is not a century, or a multiple of 400. */
  lemma LeapDay(dayStart: CivilDate -> int)
    ensures ParseTime("2024-02-29-00-00-00", dayStart).Ok?
    ensures ParseTime("2000-02-29-00-00-00", dayStart).Ok?
  {
    assert StampShape("2024-02-29-00-00-00") && StampShape("2000-02-29-00-00-00");
  }

  /** 29 February is not a day in other years. */
  lemma NoLeapDay(dayStart: CivilDate -> int)
    ensures ParseTime("2023-02-29-00-00-00", dayStart) == Err(BadTime("2023-02-29-00-00-00"))
    ensures ParseTime("2100-02-29-00-00-00", dayStart).Err?
  {
    assert StampShape("2023-02-29-00-00-00") && StampShape("2100-02-29-00-00-00");
  }

  /** The final element's extension, as filepath.Ext finds it: from the last dot, or empty. */
  function Ext(path: string): string
  {
    if path == [] || path[|path| - 1] == '/' then []
    else if path[|path| - 1] == '.' then [path[|path| - 1]]
    else
      var r := Ext(path[..|path| - 1]);
      if r == [] then [] else r + [path[|path| - 1]]
  }

  /** strings.HasSuffix(strings.ToLower(name), ".xlsx"), with case folded on ASCII letters. */
  predicate IsXlsx(name: string)
  {
    HasSuffix(ToLowerAscii(name), ".xlsx")
  }

  /** A dot followed by characters that are neither dots nor slashes is the extension. */
  lemma {:induction false} ExtOfSuffix(p: string, t: string)
    requires forall i :: 0 <= i < |t| ==> t[i] != '.' && t[i] != '/'
    ensures Ext(p + ['.'] + t) == ['.'] + t
  {
    if t != [] {
      var init := t[..|t| - 1];
      ExtOfSuffix(p, init);
      assert (p + ['.'] + t)[..|p + ['.'] + t| - 1] == p + ['.'] + init;
      assert ['.'] + init + [t[|t| - 1]] == ['.'] + t;
    }
  }

  /** The extension of a spreadsheet name is its last five characters; the base name is the rest. */
  lemma XlsxBaseName(name: string)
    requires IsXlsx(name)
    ensures Ext(name) == name[|name| - 5..]
    ensures TrimSuffix(name, Ext(name)) == name[..|name| - 5]
  {
    XlsxChars(name);
    ExtOfFiveLast(name);
    assert HasSuffix(name, name[|name| - 5..]);
  }

  /** The last five characters of a spreadsheet name: a dot, then four that are neither dots nor slashes. */
  lemma XlsxChars(name: string)
    requires IsXlsx(name)
    ensures var n := |name|; n >= 5 && name[n - 5] == '.'
    ensures var n := |name|; name[n - 4] != '.' && name[n - 3] != '.' && name[n - 2] != '.' && name[n - 1] != '.'
    ensures var n := |name|; name[n - 4] != '/' && name[n - 3] != '/' && name[n - 2] != '/' && name[n - 1] != '/'
  {
    var l := ToLowerAscii(name);
    var n := |name|;
    var suffix := l[n - 5..];
    assert suffix == ".xlsx";
    assert suffix[0] == '.' && suffix[1] == 'x' && suffix[2] == 'l' && suffix[3] == 's' && suffix[4] == 'x';
    LetterOfLower(name[n - 4], 'x');
    LetterOfLower(name[n - 3], 'l');
    LetterOfLower(name[n - 2], 's');
    LetterOfLower(name[n - 1], 'x');
    LetterOfLower(name[n - 5], '.');
  }

  /** A name whose fifth-last character is a dot and whose last four are neither dots nor slashes has those five as its extension. */
  lemma ExtOfFiveLast(name: string)
    requires |name| >= 5 && name[|name| - 5] == '.'
    requires var n := |name|; name[n - 4] != '.' && name[n - 3] != '.' && name[n - 2] != '.' && name[n - 1] != '.'
    requires var n := |name|; name[n - 4] != '/' && name[n - 3] != '/' && name[n - 2] != '/' && name[n - 1] != '/'
    ensures Ext(name) == name[|name| - 5..]
  {
    var n := |name|;
    var t := name[n - 4..];
    assert t == [name[n - 4], name[n - 3], name[n - 2], name[n - 1]];
    assert name == name[..n - 5] + ['.'] + t;
    ExtOfSuffix(name[..n - 5], t);
  }

  /** A character whose ASCII lower case is a lower-case letter or a dot is that letter in either case, or the dot. */
  lemma LetterOfLower(c: char, lower: char)
    requires LowerAscii(c) == lower
    requires lower == '.' || 'a' <= lower <= 'z'
    ensures lower == '.' ==> c == '.'
    ensures lower != '.' ==> c != '.' && c != '/'
  {
  }

  /** The importer of the command-line tool for a ship: the Hualong one when the name contains 华安龙. */
  function ScriptImporter(ship: string): (r: Importer)
    ensures r == HualongImport <==> Contains(ship, SuctionVacuum.HualongName)
    ensures r != ServiceImport
  {
    if Contains(ship, SuctionVacuum.HualongName) then HualongImport else ScriptImport
  }

  /** The record tables of the service import. */
  datatype Table = HualongTable | DatumTable

  const MinlongName: string := "敏龙"

  /** The service import's table for a ship: 华安龙 first, then 敏龙; any other ship is refused. */
  function ServiceTable(ship: string): (r: Option<Table>)
    ensures r == Some(HualongTable) <==> Contains(ship, SuctionVacuum.HualongName)
    ensures r == Some(DatumTable) <==> !Contains(ship, SuctionVacuum.HualongName) && Contains(ship, MinlongName)
    ensures r.None? <==> !Contains(ship, SuctionVacuum.HualongName) && !Contains(ship, MinlongName)
  {
    if Contains(ship, SuctionVacuum.HualongName) then Some(HualongTable)
    else if Contains(ship, MinlongName) then Some(DatumTable)
    else None
  }

  /** A file the command-line tool imports: its name, what the name gives, and the importer. */
  datatype Job = Job(fileName: string, name: ImportName, importer: Importer)

  /** The job of a directory entry, if the tool imports it. */
  function JobOf(e: DemoRunner.DirEntry, dayStart: CivilDate -> int): Option<Job>
  {
    if e.isDir || !IsXlsx(e.name) then None
    else
      match ParseFileName(TrimSuffix(e.name, Ext(e.name)), dayStart)
      case Err(_) => None
      case Ok(n) => Some(Job(e.name, n, ScriptImporter(n.ship)))
  }

  /** The values f gives the elements of xs, in order, where it gives one. */
  function Collect<E, J>(xs: seq<E>, f: E -> Option<J>): seq<J>
  {
    if xs == [] then [] else Collect(xs[..|xs| - 1], f) + AsSeq(f(xs[|xs| - 1]))
  }

  /** A value is collected exactly when f gives it for some element. */
  lemma {:induction false} CollectMembers<E, J>(xs: seq<E>, f: E -> Option<J>, y: J)
    ensures y in Collect(xs, f) <==> exists i :: 0 <= i < |xs| && f(xs[i]) == Some(y)
  {
    if xs != [] {
      var init := xs[..|xs| - 1];
      CollectMembers(init, f, y);
      if exists i :: 0 <= i < |init| && f(init[i]) == Some(y) {
        var i :| 0 <= i < |init| && f(init[i]) == Some(y);
        assert xs[i] == init[i];
      }
      if exists i :: 0 <= i < |xs| && f(xs[i]) == Some(y) {
        var i :| 0 <= i < |xs| && f(xs[i]) == Some(y);
        if i < |init| {
          assert init[i] == xs[i];
        }
      }
    }
  }

  /** The jobs of a directory listing, in listing order. */
  function Jobs(entries: seq<DemoRunner.DirEntry>, dayStart: CivilDate -> int): seq<Job>
  {
    Collect(entries, e => JobOf(e, dayStart))
  }

  /** The jobs are exactly the jobs of the entries of the listing. */
  lemma JobsOfEntries(entries: seq<DemoRunner.DirEntry>, dayStart: CivilDate -> int, j: Job)
    ensures j in Jobs(entries, dayStart) <==> exists i :: 0 <= i < |entries| && JobOf(entries[i], dayStart) == Some(j)
  {
    CollectMembers(entries, e => JobOf(e, dayStart), j);
  }

  /** The job of an entry is the entry's spreadsheet, its parsed base name and its importer. */
  lemma JobOfFacts(e: DemoRunner.DirEntry, dayStart: CivilDate -> int)
    requires JobOf(e, dayStart).Some?
    ensures var j := JobOf(e, dayStart).value;
      && !e.isDir && j.fileName == e.name && IsXlsx(e.name)
      && ParseFileName(e.name[..|e.name| - 5], dayStart) == Ok(j.name)
      && j.importer == ScriptImporter(j.name.ship)
  {
    XlsxBaseName(e.name);
  }

  /** The filter and parse steps of the directory loop for one entry. */
  method EntryJob(e: DemoRunner.DirEntry, dayStart: CivilDate -> int) returns (job: Option<Job>)
    ensures job == JobOf(e, dayStart)
  {
    if e.isDir || !IsXlsx(e.name) {
      return None;
    }
    var baseName := TrimSuffix(e.name, Ext(e.name));
    var parsed := ParseFileName(baseName, dayStart);
    if parsed.Err? {
      return None;
    }
    return Some(Job(e.name, parsed.value, ScriptImporter(parsed.value.ship)));
  }

  function AsSeq<T>(o: Option<T>): seq<T>
  {
    match o
    case None => []
    case Some(x) => [x]
  }

  /** The job of entry i extends the jobs of the entries before it. */
  method NextJob(entries: seq<DemoRunner.DirEntry>, dayStart: CivilDate -> int, i: nat) returns (job: Option<Job>)
    requires i < |entries|
    ensures Jobs(entries[..i + 1], dayStart) == Jobs(entries[..i], dayStart) + AsSeq(job)
  {
    assert entries[..i + 1][..i] == entries[..i];
    job := EntryJob(entries[i], dayStart);
  }

  /**
   * The directory loop of the command-line tool: it skips directories,
   * files not ending in .xlsx and names that do not parse, imports each
   * other file with the importer for its ship, and adds up the records of
   * the imports that succeed. outcome stands for the import of one file.
   */
  method ImportDirectory(entries: seq<DemoRunner.DirEntry>, dayStart: CivilDate -> int,
                         outcome: Job -> Result<nat, string>)
    returns (jobs: seq<Job>, total: nat)
    ensures jobs == Jobs(entries, dayStart)
    ensures total == SucceededTotal(jobs, outcome)
  {
    jobs, total := [], 0;
    var i := 0;
    while i < |entries|
      invariant 0 <= i <= |entries|
      invariant jobs == Jobs(entries[..i], dayStart)
      invariant total == SucceededTotal(jobs, outcome)
    {
      var job := NextJob(entries, dayStart, i);
      if job.Some? {
        assert (jobs + [job.value])[..|jobs|] == jobs;
        jobs := jobs + [job.value];
        var imported := outcome(job.value);
        if imported.Ok? {
          total := total + imported.value;
        }
      }
      i := i + 1;
    }
    assert entries[..i] == entries;
  }

  function Count(r: Result<nat, string>): nat
  {
    if r.Ok? then r.value else 0
  }

  /** The records of the imports that succeed; a failed import adds nothing. */
  function SucceededTotal(jobs: seq<Job>, outcome: Job -> Result<nat, string>): nat
  {
    if jobs == [] then 0 else SucceededTotal(jobs[..|jobs| - 1], outcome) + Count(outcome(jobs[|jobs| - 1]))
  }
}
