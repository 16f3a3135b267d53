/**
 * The demo runner of the service: the files a demo program run leaves
 * behind, the service's memory of the files it has seen, the execution log
 * the newest entry is read from, and the command line of the solid
 * program. Directory listings, the clock and number formatting are given.
 */
module DemoRunner {
  import opened Wrappers

  /** One entry of a directory listing. */
  datatype DirEntry = DirEntry(name: string, isDir: bool)

  /** The names of the files (not directories) of a listing. */
  function FileNames(entries: seq<DirEntry>): set<string>
  {
    if entries == [] then {}
    else
      var last := entries[|entries| - 1];
      FileNames(entries[..|entries| - 1]) + (if last.isDir then {} else {last.name})
  }

  /** A name is a file name of a listing exactly when some entry of it is a file of that name. */
  lemma {:induction false} FileNamesMembers(entries: seq<DirEntry>, x: string)
    ensures x in FileNames(entries) <==> exists i :: 0 <= i < |entries| && !entries[i].isDir && entries[i].name == x
  {
    if entries != [] {
      var init := entries[..|entries| - 1];
      FileNamesMembers(init, x);
      if x in FileNames(init) {
        var i :| 0 <= i < |init| && !init[i].isDir && init[i].name == x;
        assert entries[i] == init[i];
      }
      if exists i :: 0 <= i < |entries| && !entries[i].isDir && entries[i].name == x {
        var i :| 0 <= i < |entries| && !entries[i].isDir && entries[i].name == x;
        if i < |init| {
          assert init[i] == entries[i];
        }
      }
    }
  }

  /** The file names of a listing that are not known, in listing order. */
  function FreshFiles(after: seq<DirEntry>, known: set<string>): seq<string>
  {
    if after == [] then []
    else
      var last := after[|after| - 1];
      FreshFiles(after[..|after| - 1], known) + (if last.isDir || last.name in known then [] else [last.name])
  }

  /** The fresh files are exactly the file names of the listing that are not known. */
  lemma {:induction false} FreshFilesMembers(after: seq<DirEntry>, known: set<string>, x: string)
    ensures x in FreshFiles(after, known) <==> x in FileNames(after) && x !in known
  {
    if after != [] {
      FreshFilesMembers(after[..|after| - 1], known, x);
    }
  }

  /** The set of the elements of a sequence of names. */
  function Elements(s: seq<string>): (r: set<string>)
    ensures forall x :: x in r <==> x in s
  {
    set x | x in s
  }

  /** An entry of execution_log.json: when a run finished and the files it left. */
  datatype LogEntry = LogEntry(timestamp: int, files: seq<string>)

  /** The state of a demo's execution_log.json. */
  datatype LogFile = Missing | Unreadable | Malformed | Parsed(entries: seq<LogEntry>)

  /**
   * The newest log entry: one with the greatest timestamp (the first such
   * in log order; sorting by descending timestamp leaves the choice among
   * equal timestamps open).
   */
  method Newest(entries: seq<LogEntry>) returns (latest: LogEntry)
    requires entries != []
    ensures latest in entries
    ensures forall e :: e in entries ==> e.timestamp <= latest.timestamp
  {
    latest := entries[0];
    var i := 1;
    while i < |entries|
      invariant 1 <= i <= |entries|
      invariant latest in entries[..i]
      invariant forall k :: 0 <= k < i ==> entries[k].timestamp <= latest.timestamp
    {
      if entries[i].timestamp > latest.timestamp {
        latest := entries[i];
      }
      i := i + 1;
    }
    assert entries[..i] == entries;
  }

  /**
   * The log read back by a run before it appends its entry: an unreadable
   * or malformed file counts as an empty log.
   */
  function ExistingEntries(file: LogFile): (r: seq<LogEntry>)
    ensures file.Parsed? ==> r == file.entries
    ensures !file.Parsed? ==> r == []
  {
    if file.Parsed? then file.entries else []
  }

  /** The service state the demo runs touch: demo directories, seen files and the execution logs. */
  class DemoService {
    var demoDirs: map<int, string>
    var seen: map<int, set<string>>
    var logFiles: map<int, LogFile>

    /** The log file of demo id; one never written is missing. */
    function LogOf(id: int): (f: LogFile)
      reads this
      ensures id !in logFiles ==> f == Missing
      ensures id in logFiles ==> f == logFiles[id]
    {
      if id in logFiles then logFiles[id] else Missing
    }

    /** The files already seen for demo id. */
    function SeenOf(id: int): (r: set<string>)
      reads this
      ensures id !in seen ==> r == {}
      ensures id in seen ==> r == seen[id]
    {
      if id in seen then seen[id] else {}
    }

    /**
     * NewService and initSeen: every demo directory's present files are
     * seen; listing gives the directory of each demo as listed at start.
     */
    constructor(dirs: map<int, string>, listing: int -> seq<DirEntry>, logs: map<int, LogFile>)
      ensures demoDirs == dirs && logFiles == logs
      ensures forall id :: id in seen <==> id in dirs
      ensures forall id :: id in seen ==> seen[id] == FileNames(listing(id))
    {
      demoDirs := dirs;
      logFiles := logs;
      seen := map id | id in dirs :: FileNames(listing(id));
    }

    /**
     * RunDemo after the program has run: the new files are the files of
     * the listing after the run whose names were not files before it; each
     * is remembered as seen, and when there is any, an entry stamped now is
     * appended to the log (written only when writeOk).
     */
    method FinishRun(id: int, before: seq<DirEntry>, after: seq<DirEntry>, now: int, writeOk: bool)
      returns (r: Result<seq<string>, string>)
      modifies this
      ensures demoDirs == old(demoDirs)
      ensures id !in demoDirs ==> r.Err? && seen == old(seen) && logFiles == old(logFiles)
      ensures id in demoDirs ==> r == Ok(FreshFiles(after, FileNames(before)))
      ensures r.Ok? && r.value != [] ==> seen == old(seen)[id := old(SeenOf(id)) + Elements(r.value)]
      ensures r.Ok? && r.value == [] ==> seen == old(seen)
      ensures r.Ok? && r.value != [] && writeOk ==>
        logFiles == old(logFiles)[id := Parsed(ExistingEntries(old(LogOf(id))) + [LogEntry(now, r.value)])]
      ensures !(r.Ok? && r.value != [] && writeOk) ==> logFiles == old(logFiles)
    {
      if id !in demoDirs {
        return Err("unknown demo id");
      }
      var news := NewFiles(before, after);
      RememberSeen(id, news);
      if news != [] && writeOk {
        logFiles := logFiles[id := Parsed(ExistingEntries(LogOf(id)) + [LogEntry(now, news)])];
      }
      return Ok(news);
    }

    /** The loop of RunDemo that adds each new file to the files seen for demo id. */
    method RememberSeen(id: int, news: seq<string>)
      modifies this
      ensures demoDirs == old(demoDirs) && logFiles == old(logFiles)
      ensures news == [] ==> seen == old(seen)
      ensures news != [] ==> seen == old(seen)[id := old(SeenOf(id)) + Elements(news)]
    {
      var k := 0;
      while k < |news|
        invariant 0 <= k <= |news|
        invariant demoDirs == old(demoDirs) && logFiles == old(logFiles)
        invariant k == 0 ==> seen == old(seen)
        invariant k > 0 ==> seen == old(seen)[id := old(SeenOf(id)) + Elements(news[..k])]
      {
        assert Elements(news[..k + 1]) == Elements(news[..k]) + {news[k]} by {
          assert news[..k + 1] == news[..k] + [news[k]];
        }
        assert SeenOf(id) + {news[k]} == old(SeenOf(id)) + Elements(news[..k + 1]);
        seen := seen[id := SeenOf(id) + {news[k]}];
        assert seen == old(seen)[id := old(SeenOf(id)) + Elements(news[..k + 1])];
        k := k + 1;
      }
      assert news[..k] == news;
    }

    /**
     * GetLatestResult: an unknown demo or a log that cannot be read or
     * parsed is an error; a missing or empty log has no result; otherwise
     * the newest entry.
     */
    method LatestResult(id: int) returns (r: Result<Option<LogEntry>, string>)
      ensures id !in demoDirs ==> r.Err?
      ensures id in demoDirs && (LogOf(id).Unreadable? || LogOf(id).Malformed?) ==> r.Err?
      ensures id in demoDirs && (LogOf(id).Missing? || LogOf(id) == Parsed([])) ==> r == Ok(None)
      ensures id in demoDirs && LogOf(id).Parsed? && LogOf(id).entries != [] ==>
        && r.Ok? && r.value.Some?
        && r.value.value in LogOf(id).entries
        && forall e :: e in LogOf(id).entries ==> e.timestamp <= r.value.value.timestamp
    {
      if id !in demoDirs {
        return Err("unknown demo id");
      }
      var file := LogOf(id);
      match file
      case Missing => return Ok(None);
      case Unreadable => return Err("log file unreadable");
      case Malformed => return Err("log file malformed");
      case Parsed(entries) =>
        if entries == [] {
          return Ok(None);
        }
        var latest := Newest(entries);
        return Ok(Some(latest));
    }
  }

  /** The before/after scan of RunDemo: the names of the files of after that were not files of before, in listing order. */
  method NewFiles(before: seq<DirEntry>, after: seq<DirEntry>) returns (news: seq<string>)
    ensures news == FreshFiles(after, FileNames(before))
  {
    var beforeSet: set<string> := {};
    var i := 0;
    while i < |before|
      invariant 0 <= i <= |before|
      invariant beforeSet == FileNames(before[..i])
    {
      assert before[..i + 1][..i] == before[..i];
      if !before[i].isDir {
        beforeSet := beforeSet + {before[i].name};
      }
      i := i + 1;
    }
    assert before[..i] == before;
    news := [];
    var j := 0;
    while j < |after|
      invariant 0 <= j <= |after|
      invariant news == FreshFiles(after[..j], beforeSet)
    {
      assert after[..j + 1][..j] == after[..j];
      if !after[j].isDir && after[j].name !in beforeSet {
        news := news + [after[j].name];
      }
      j := j + 1;
    }
    assert after[..j] == after;
  }

  /** The value of a field of the solid program's parameters. */
  datatype ParamValue = TextValue(s: string) | NumberValue(x: real) | OtherValue

  datatype ParamField = ParamField(name: string, value: ParamValue)

  /**
   * The flag of a field: "--", then the field name's first byte plus 32
   * (wrapping as a byte), then the rest of the name.
   */
  function FlagName(name: string): (r: string)
    requires name != [] && name[0] as int < 256
    ensures |r| == |name| + 2 && r[..2] == "--" && r[3..] == name[1..]
    ensures r[2] as int == (name[0] as int + 32) % 256
  {
    "--" + [((name[0] as int + 32) % 256) as char] + name[1..]
  }

  /** An exported field name's capital first letter becomes lower case in its flag. */
  lemma FlagLowersInitial(name: string)
    requires name != [] && 'A' <= name[0] <= 'Z'
    ensures FlagName(name)[2] == (name[0] as int - 'A' as int + 'a' as int) as char
  {
  }

  /** Whether a field has its zero value and adds nothing to the command line. */
  predicate IsZero(v: ParamValue)
  {
    match v
    case TextValue(s) => s == ""
    case NumberValue(x) => x == 0.0
    case OtherValue => false
  }

  /** Every field has a name whose first character is a byte. */
  predicate NamesAreBytes(fields: seq<ParamField>)
  {
    forall i :: 0 <= i < |fields| ==> fields[i].name != [] && fields[i].name[0] as int < 256
  }

  /** The text of a non-zero value: the string itself, or the number formatted. */
  function ValueText(v: ParamValue, format: real -> string): string
  {
    match v
    case TextValue(s) => s
    case NumberValue(x) => format(x)
    case OtherValue => ""
  }

  /** The fields that are set, in order. */
  function SetFields(fields: seq<ParamField>): (r: seq<ParamField>)
    ensures |r| <= |fields|
    ensures forall f :: f in r <==> f in fields && !IsZero(f.value)
  {
    if fields == [] then []
    else
      var last := fields[|fields| - 1];
      SetFields(fields[..|fields| - 1]) + (if IsZero(last.value) then [] else [last])
  }

  /** The arguments a sequence of fields contributes: the flag and the value of each set field. */
  function FieldArgs(fields: seq<ParamField>, format: real -> string): seq<string>
    requires NamesAreBytes(fields)
  {
    if fields == [] then []
    else
      var last := fields[|fields| - 1];
      FieldArgs(fields[..|fields| - 1], format)
        + (if IsZero(last.value) then [] else [FlagName(last.name), ValueText(last.value, format)])
  }

  /** The arguments come in pairs, a flag then its value, one pair per set field in field order. */
  lemma {:induction false} FieldArgsArePairs(fields: seq<ParamField>, format: real -> string)
    requires NamesAreBytes(fields)
    ensures |FieldArgs(fields, format)| == 2 * |SetFields(fields)|
    ensures forall k :: 0 <= k < |SetFields(fields)| ==>
      && SetFields(fields)[k].name != [] && SetFields(fields)[k].name[0] as int < 256
      && FieldArgs(fields, format)[2 * k] == FlagName(SetFields(fields)[k].name)
      && FieldArgs(fields, format)[2 * k + 1] == ValueText(SetFields(fields)[k].value, format)
  {
    if fields != [] {
      var init := fields[..|fields| - 1];
      assert NamesAreBytes(init) by {
        assert forall i :: 0 <= i < |init| ==> init[i] == fields[i];
      }
      FieldArgsArePairs(init, format);
      assert SetFields(fields)[..|SetFields(init)|] == SetFields(init);
    }
  }

  /**
   * ExecuteSolidProgram's command line: the script, then the flag and value
   * of every field that is set; a field of any other kind is an error.
   */
  method SolidArgs(fields: seq<ParamField>, format: real -> string) returns (r: Result<seq<string>, string>)
    requires NamesAreBytes(fields)
    ensures r.Err? <==> exists i :: 0 <= i < |fields| && fields[i].value.OtherValue?
    ensures r.Ok? ==> r.value == ["solid.py"] + FieldArgs(fields, format)
  {
    var args := ["solid.py"];
    var i := 0;
    while i < |fields|
      invariant 0 <= i <= |fields|
      invariant NamesAreBytes(fields[..i])
      invariant args == ["solid.py"] + FieldArgs(fields[..i], format)
      invariant forall k :: 0 <= k < i ==> !fields[k].value.OtherValue?
    {
      var field := fields[i];
      if field.value.OtherValue? {
        return Err("invalid field type");
      }
      assert fields[..i + 1][..i] == fields[..i];
      if !IsZero(field.value) {
        args := args + [FlagName(field.name), ValueText(field.value, format)];
      }
      i := i + 1;
    }
    assert fields[..i] == fields;
    return Ok(args);
  }
}
