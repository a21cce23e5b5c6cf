/** `src/django_perf_rec/api.py`: choosing the file and the name of a performance
    record, collecting the operations a block performs, and comparing the collected
    record with the stored one or storing it, as the `MODE` setting says. */
module PerfRecApi {
  import opened PyBase
  import opened PyStr
  import opened PyPath
  import opened RecordStore
  import opened PerfRecOperation
  import opened PerfRecUtils
  import PerfRecDb
  import PerfRecCache

  /** `get_perf_path(file_path)`: the test module's path with `.py` or `.pyc` replaced by
      `.perf.yml`, or with `.perf.yml` appended to any other path. */
  function GetPerfPath(filePath: string): (r: string)
    ensures EndsWith(r, ".perf.yml")
    ensures StartsWith(filePath, r[..|r| - |".perf.yml"|])
  {
    if EndsWith(filePath, ".py") then filePath[..|filePath| - |".py"|] + ".perf.yml"
    else if EndsWith(filePath, ".pyc") then filePath[..|filePath| - |".pyc"|] + ".perf.yml"
    else filePath + ".perf.yml"
  }

  /** A module and its compiled file share one record file. */
  lemma ModuleAndCompiledShareRecordFile(stem: string)
    ensures GetPerfPath(stem + ".py") == stem + ".perf.yml"
    ensures GetPerfPath(stem + ".pyc") == stem + ".perf.yml"
  {
    assert (stem + ".py")[..|stem|] == stem;
    assert (stem + ".pyc")[..|stem|] == stem;
    assert (stem + ".pyc")[|stem| + 1..] == "pyc";
  }

  /** Any other path keeps its whole name, extension included. */
  lemma OtherPathsKeepTheirName(filePath: string)
    requires !EndsWith(filePath, ".py") && !EndsWith(filePath, ".pyc")
    ensures GetPerfPath(filePath) == filePath + ".perf.yml"
  {
  }

  /** The record name before any counter suffix: `ClassName.test_name` when the test has
      a (non-empty) class name, else `test_name`. */
  function BaseRecordName(testName: string, className: Option<string>): (r: string)
    ensures EndsWith(r, testName)
    ensures className.None? || className.value == "" ==> r == testName
    ensures className.Some? && className.value != "" ==> StartsWith(r, className.value + ".")
  {
    if className.Some? && className.value != "" then
      assert (className.value + "." + testName)[..|className.value + "."|] == className.value + ".";
      className.value + "." + testName
    else testName
  }

  /** The name of the `k`th record with the same base name in a row: the base itself,
      then `base.2`, `base.3`, ... */
  function Suffixed(base: string, k: nat): (r: string)
    ensures StartsWith(r, base)
    ensures k <= 1 <==> r == base
  {
    if k <= 1 then base
    else
      assert (base + "." + NatToString(k))[..|base|] == base;
      base + "." + NatToString(k)
  }

  /** No two records in a row get the same name. */
  lemma SuffixedInjective(base: string, i: nat, j: nat)
    requires 1 <= i && 1 <= j
    requires Suffixed(base, i) == Suffixed(base, j)
    ensures i == j
  {
    if i > 1 && j > 1 {
      var a, b := Suffixed(base, i), Suffixed(base, j);
      assert NatToString(i) == a[|base| + 1..];
      assert NatToString(j) == b[|base| + 1..];
      NatToStringInjective(i, j);
    }
  }

  /** `Suffixed(base, 2)` is `base.2`, and so on. */
  lemma SuffixedExamples(base: string)
    ensures Suffixed(base, 1) == base
    ensures Suffixed(base, 2) == base + ".2"
    ensures Suffixed(base, 3) == base + ".3"
  {
  }

  /** The `record_current` thread-local as `get_record_name` leaves it: the
      `(file_name, record_name)` pair it last named and how many times in a row. */
  class RecordCurrent {
    var recordSpec: Option<(string, string)>
    var counter: int

    /** Once a pair is remembered, it has been named at least once. */
    ghost predicate Valid()
      reads this
    {
      recordSpec.Some? ==> counter >= 1
    }

    /** A fresh thread: neither attribute is set yet. */
    constructor ()
      ensures recordSpec.None? && Valid()
    {
      recordSpec := None;
      counter := 0;
    }

    /** `get_record_name(test_name, class_name, file_name)`: the same file and base
        name as last time count on from the previous call; anything else starts again
        at 1. The name returned is the base name with the count as suffix. */
    method GetRecordName(testName: string, className: Option<string>, fileName: string)
      returns (name: string)
      requires Valid()
      modifies this
      ensures Valid()
      ensures recordSpec == Some((fileName, BaseRecordName(testName, className)))
      ensures counter == if old(recordSpec) == recordSpec then old(counter) + 1 else 1
      ensures name == Suffixed(BaseRecordName(testName, className), counter)
    {
      name := BaseRecordName(testName, className);
      var spec := (fileName, name);
      if recordSpec == Some(spec) {
        counter := counter + 1;
        name := name + "." + NatToString(counter);
      } else {
        recordSpec := Some(spec);
        counter := 1;
      }
    }
  }

  /** Three records in a row in the same test and file are named `X`, `X.2`, `X.3`. */
  method ThreeRecordsInARow(current: RecordCurrent, testName: string, className: Option<string>, fileName: string)
    returns (first: string, second: string, third: string)
    requires current.Valid()
    requires current.recordSpec != Some((fileName, BaseRecordName(testName, className)))
    modifies current
    ensures first == BaseRecordName(testName, className)
    ensures second == BaseRecordName(testName, className) + ".2"
    ensures third == BaseRecordName(testName, className) + ".3"
  {
    first := current.GetRecordName(testName, className, fileName);
    second := current.GetRecordName(testName, className, fileName);
    third := current.GetRecordName(testName, className, fileName);
    SuffixedExamples(BaseRecordName(testName, className));
  }

  /** `os.path.join(directory, os.path.basename(perf_path))`: the record file's base name
      inside `directory`. */
  function InDirectory(directory: string, perfPath: string): (r: string)
    requires EndsWith(perfPath, ".perf.yml")
    ensures StartsWith(r, directory)
    ensures Basename(r) == Basename(perfPath)
  {
    var name := Basename(perfPath);
    PerfSuffixKeptByBasename(perfPath);
    assert |name| >= 9 && name[0] != '/';
    BasenameOfJoin(directory, name);
    JoinPath(directory, name)
  }

  /** The file `record(path=...)` uses for a test defined in `testFile`: the test
      module's record file when no path is given; a path not ending in `/` as it is; and
      for a directory path, the record file's base name inside that directory, taken
      relative to the test module's directory unless it is absolute. */
  function RecordFileName(path: Option<string>, testFile: string): (r: string)
    ensures path.None? ==> r == GetPerfPath(testFile)
    ensures path.Some? && !EndsWith(path.value, "/") ==> r == path.value
    ensures path.Some? && EndsWith(path.value, "/") ==>
      (var directory := if IsAbs(path.value) then path.value else JoinPath(Dirname(testFile), path.value);
       StartsWith(r, directory) && Basename(r) == Basename(GetPerfPath(testFile)))
  {
    match path
    case None => GetPerfPath(testFile)
    case Some(p) =>
      if !EndsWith(p, "/") then p
      else InDirectory(if IsAbs(p) then p else JoinPath(Dirname(testFile), p), GetPerfPath(testFile))
  }

  /** Unless an explicit file path is given, the record file is a `.perf.yml` file. */
  lemma RecordFileIsPerfFile(path: Option<string>, testFile: string)
    requires path.None? || EndsWith(path.value, "/")
    ensures EndsWith(RecordFileName(path, testFile), ".perf.yml")
  {
    if path.Some? {
      var directory := if IsAbs(path.value) then path.value else JoinPath(Dirname(testFile), path.value);
      assert RecordFileName(path, testFile) == InDirectory(directory, GetPerfPath(testFile));
      InDirectoryIsPerfFile(directory, GetPerfPath(testFile));
    }
  }

  /** The record file inside a directory keeps the `.perf.yml` suffix. */
  lemma InDirectoryIsPerfFile(directory: string, perfPath: string)
    requires EndsWith(perfPath, ".perf.yml")
    ensures EndsWith(InDirectory(directory, perfPath), ".perf.yml")
  {
    var r := InDirectory(directory, perfPath);
    PerfSuffixKeptByBasename(perfPath);
    EndsWithTransitive(r, Basename(r), ".perf.yml");
  }

  /** The `.perf.yml` suffix has no slash, so `basename` keeps it. */
  lemma PerfSuffixKeptByBasename(p: string)
    requires EndsWith(p, ".perf.yml")
    ensures EndsWith(Basename(p), ".perf.yml")
  {
    var suffix := ".perf.yml";
    forall k | 0 <= k < |suffix| ensures suffix[k] != '/' {
    }
    BasenameKeepsSuffix(p, suffix);
  }

  /** `MODE`, one of the four values the settings accept. */
  datatype Mode = AllMode | NoneMode | OnceMode | OverwriteMode

  /** What `save_or_assert` does with the records file's contents `stored`: the outcome,
      and the contents afterwards. */
  function Reconcile(mode: Mode, stored: map<string, Record>, name: string, record: Record)
    : (r: (Outcome<()>, map<string, Record>))
    ensures name in stored ==> (r.0.Ok? <==> mode == OverwriteMode || record == stored[name])
    ensures name !in stored ==> (r.0.Ok? <==> mode == OnceMode || mode == OverwriteMode)
    ensures r.1 == stored || r.1 == stored[name := record]
    ensures r.0.Ok? ==> r.1 == stored[name := record]
    ensures r.0.Raised? ==> r.0.error.AssertionError?
  {
    if mode == NoneMode && name !in stored then
      (Raised(AssertionError("Original performance record does not exist for " + name)), stored)
    else if name in stored && mode != OverwriteMode && record != stored[name] then
      (Raised(AssertionError("Performance record did not match for " + name)), stored)
    else if mode == AllMode && name !in stored then
      (Raised(AssertionError("Original performance record did not exist for " + name)), stored[name := record])
    else
      assert name !in stored ==> mode == OnceMode || mode == OverwriteMode;
      (Ok(()), stored[name := record])
  }

  /** Mode `none` without a stored record fails, and nothing is written. */
  lemma NoneModeNeedsStoredRecord(stored: map<string, Record>, name: string, record: Record)
    requires name !in stored
    ensures Reconcile(NoneMode, stored, name, record)
      == (Raised(AssertionError("Original performance record does not exist for " + name)), stored)
  {
  }

  /** Mode `all` without a stored record writes the new one, then fails. */
  lemma AllModeWritesThenFails(stored: map<string, Record>, name: string, record: Record)
    requires name !in stored
    ensures Reconcile(AllMode, stored, name, record)
      == (Raised(AssertionError("Original performance record did not exist for " + name)), stored[name := record])
  {
  }

  /** A stored record that differs from the new one fails every mode but `overwrite`,
      and nothing is written. */
  lemma MismatchFailsWithoutWriting(mode: Mode, stored: map<string, Record>, name: string, record: Record)
    requires name in stored && stored[name] != record && mode != OverwriteMode
    ensures Reconcile(mode, stored, name, record).0.Raised?
    ensures Reconcile(mode, stored, name, record).1 == stored
  {
  }

  /** After a successful save, the same record passes again in every mode and the file
      does not change: a rerun of an unchanged test is quiet. */
  lemma SavedRecordPassesAgain(mode: Mode, again: Mode, stored: map<string, Record>, name: string, record: Record)
    requires Reconcile(mode, stored, name, record).0.Ok?
    ensures var after := Reconcile(mode, stored, name, record).1;
      Reconcile(again, after, name, record) == (Ok(()), after)
  {
    var after := Reconcile(mode, stored, name, record).1;
    assert after[name := record] == after;
  }

  /** `op.name`. The base `Operation` class has no `name`, so asking raises. */
  function OpName(op: Operation): (r: Outcome<string>)
    ensures r.Raised? <==> op.cls.OperationClass?
    ensures r.Raised? ==> r.error == AttributeError
    ensures op.cls.DBOpClass? ==> r == Ok(PerfRecDb.Name(op.alias))
    ensures op.cls.CacheOpClass? ==> r == Ok(PerfRecCache.Name(op.alias, op.cls.operation))
    ensures r.Ok? ==> r.value != "traceback"
  {
    match op.cls
    case OperationClass => Raised(AttributeError)
    case DBOpClass =>
      assert PerfRecDb.Name(op.alias)[0] == 'd';
      Ok(PerfRecDb.Name(op.alias))
    case CacheOpClass(operation) =>
      assert PerfRecCache.Name(op.alias, operation)[0] == 'c';
      Ok(PerfRecCache.Name(op.alias, operation))
  }

  /** `op.query` as it is stored in a record. */
  function QueryValue(query: Query): RecordValue
  {
    match query
    case Text(text) => Str(text)
    case Keys(keys) => StrList(keys)
  }

  /** The entry `on_op` adds to the record for `op`, whose formatted stack is
      `traceback`: none when `capture_operation` rejects it, otherwise the operation's
      name mapped to its query and, when `capture_traceback` accepts it, `traceback`
      mapped to the stack. The name is looked up before either filter runs. */
  function Entry(op: Operation, traceback: seq<string>,
                 captureOperation: Option<Operation -> bool>,
                 captureTraceback: Option<Operation -> bool>): (r: Outcome<Option<Item>>)
    ensures r.Raised? <==> OpName(op).Raised?
    ensures r.Raised? ==> r.error == AttributeError
    ensures r.Ok? ==> (r.value.None? <==> captureOperation.Some? && !captureOperation.value(op))
    ensures r.Ok? && r.value.Some? ==>
      (var item, name := r.value.value, OpName(op).value;
       var traced := captureTraceback.Some? && captureTraceback.value(op);
       item.Keys == {name} + (if traced then {"traceback"} else {})
       && item[name] == QueryValue(op.query)
       && (traced ==> item["traceback"] == StrList(traceback)))
  {
    match OpName(op)
    case Raised(e) => Raised(e)
    case Ok(name) =>
      if captureOperation.Some? && !captureOperation.value(op) then Ok(None)
      else
        var item := map[name := QueryValue(op.query)];
        if captureTraceback.Some? && captureTraceback.value(op) then
          Ok(Some(item["traceback" := StrList(traceback)]))
        else
          Ok(Some(item))
  }

  /** The steps a `PerformanceRecorder` takes on entry and exit, in order. */
  datatype Phase = DbEntered | CacheEntered | Loaded | CacheExited | DbExited | SaveCalled

  /** `PerformanceRecorder`: collects the record of one block and reconciles it with the
      records file on exit. `phases` is a ghost account of the recorder calls it
      makes. */
  class PerformanceRecorder {
    const fileName: string
    const recordName: string
    const captureTraceback: Option<Operation -> bool>
    const captureOperation: Option<Operation -> bool>
    var record: Record
    var recordsFile: RecordsFile?
    ghost var phases: seq<Phase>

    constructor (fileName: string, recordName: string,
                 captureTraceback: Option<Operation -> bool>, captureOperation: Option<Operation -> bool>)
      ensures this.fileName == fileName && this.recordName == recordName
      ensures this.captureTraceback == captureTraceback && this.captureOperation == captureOperation
      ensures record == [] && recordsFile == null && phases == []
    {
      this.fileName := fileName;
      this.recordName := recordName;
      this.captureTraceback := captureTraceback;
      this.captureOperation := captureOperation;
      record := [];
      recordsFile := null;
      phases := [];
    }

    /** `__enter__`: start the database recorders, then the cache recorders, then open
        the records file, whose contents are `stored`. */
    method Enter(stored: map<string, Record>)
      modifies this
      ensures recordsFile != null && fresh(recordsFile) && recordsFile.data == stored
      ensures record == old(record)
      ensures phases == old(phases) + [DbEntered, CacheEntered, Loaded]
    {
      phases := phases + [DbEntered, CacheEntered];
      recordsFile := new RecordsFile(stored);
      phases := phases + [Loaded];
    }

    /** `on_op(op)`: the callback every recorder reports to. */
    method OnOp(op: Operation, traceback: seq<string>) returns (r: Outcome<()>)
      modifies this`record
      ensures r.Ok? <==> Entry(op, traceback, captureOperation, captureTraceback).Ok?
      ensures var e := Entry(op, traceback, captureOperation, captureTraceback);
        record == old(record) + (if e.Ok? && e.value.Some? then [e.value.value] else [])
    {
      match Entry(op, traceback, captureOperation, captureTraceback)
      case Raised(e) => r := Raised(e);
      case Ok(entry) =>
        if entry.Some? {
          record := record + [entry.value];
        }
        r := Ok(());
    }

    /** `save_or_assert()`, with `mode` the `MODE` setting. */
    method SaveOrAssert(mode: Mode) returns (r: Outcome<()>)
      requires recordsFile != null
      modifies recordsFile
      ensures (r, recordsFile.data) == Reconcile(mode, old(recordsFile.data), recordName, record)
    {
      var orig := recordsFile.Get(recordName);
      if mode == NoneMode && orig.None? {
        return Raised(AssertionError("Original performance record does not exist for " + recordName));
      }
      if orig.Some? && mode != OverwriteMode && record != orig.value {
        return Raised(AssertionError("Performance record did not match for " + recordName));
      }
      recordsFile.SetAndSave(recordName, record);
      if mode == AllMode && orig.None? {
        return Raised(AssertionError("Original performance record did not exist for " + recordName));
      }
      r := Ok(());
    }

    /** `__exit__`: stop the cache recorders, then the database recorders (the reverse of
        `__enter__`), and save or compare the record only when the block raised
        nothing. */
    method Exit(raised: bool, mode: Mode) returns (r: Outcome<()>)
      requires recordsFile != null
      modifies this, recordsFile
      ensures recordsFile == old(recordsFile) && record == old(record)
      ensures phases == old(phases) + [CacheExited, DbExited] + (if raised then [] else [SaveCalled])
      ensures raised ==> r == Ok(()) && recordsFile.data == old(recordsFile.data)
      ensures !raised ==> (r, recordsFile.data) == Reconcile(mode, old(recordsFile.data), recordName, record)
    {
      phases := phases + [CacheExited, DbExited];
      if raised {
        return Ok(());
      }
      phases := phases + [SaveCalled];
      r := SaveOrAssert(mode);
    }
  }

  /** `record(record_name=..., path=..., capture_traceback=..., capture_operation=...)`
      for the test `details`: an explicit record name is used as it is and leaves
      `record_current` alone; otherwise `get_record_name` names the record. */
  method Record(recordName: Option<string>, path: Option<string>,
                captureTraceback: Option<Operation -> bool>, captureOperation: Option<Operation -> bool>,
                details: TestDetails, current: RecordCurrent)
    returns (recorder: PerformanceRecorder)
    requires current.Valid()
    modifies current
    ensures current.Valid()
    ensures fresh(recorder) && recorder.record == [] && recorder.recordsFile == null
    ensures recorder.fileName == RecordFileName(path, details.filePath)
    ensures recorder.captureTraceback == captureTraceback && recorder.captureOperation == captureOperation
    ensures recordName.Some? ==>
      (recorder.recordName == recordName.value
       && current.recordSpec == old(current.recordSpec) && current.counter == old(current.counter))
    ensures recordName.None? ==>
      (var base := BaseRecordName(details.testName, details.className);
       current.recordSpec == Some((recorder.fileName, base))
       && current.counter == (if old(current.recordSpec) == current.recordSpec then old(current.counter) + 1 else 1)
       && recorder.recordName == Suffixed(base, current.counter))
  {
    var fileName := RecordFileName(path, details.filePath);
    var name: string;
    if recordName.None? {
      name := current.GetRecordName(details.testName, details.className, fileName);
    } else {
      name := recordName.value;
    }
    recorder := new PerformanceRecorder(fileName, name, captureTraceback, captureOperation);
  }
}
