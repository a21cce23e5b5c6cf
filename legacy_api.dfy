/** `django_perf_rec/api.py`, the older generation: `record` works out the file and the
    name itself, counting repeated names without regard to the file; the recorder has
    one callback for database operations and one for cache operations; and
    `save_or_assert` knows no `overwrite` mode. The names of entries and the base record
    name are built as in the current generation, and are taken from there. */
module LegacyApi {
  import opened PyBase
  import opened PyStr
  import opened PyPath
  import opened RecordStore
  import opened PerfRecUtils
  import PerfRecApi
  import PerfRecDb
  import PerfRecCache
  import LegacyDb

  /** The file `record(path=...)` uses for a test defined in `testFile`. A directory
      path is always joined onto the test module's directory; an absolute one wins that
      join. */
  function FileName(path: Option<string>, testFile: string): (r: string)
    ensures path.Some? && !EndsWith(path.value, "/") ==> r == path.value
  {
    var fileName :=
      if path.Some? && !EndsWith(path.value, "/") then path.value
      else if EndsWith(testFile, ".py") then testFile[..|testFile| - |".py"|] + ".perf.yml"
      else if EndsWith(testFile, ".pyc") then testFile[..|testFile| - |".pyc"|] + ".perf.yml"
      else testFile + ".perf.yml";
    if path.Some? && EndsWith(path.value, "/") then
      JoinPath(JoinPath(Dirname(testFile), path.value), Basename(fileName))
    else fileName
  }

  /** Both generations pick the same file for every `path` and test module. */
  lemma FileNameAgreesWithCurrent(path: Option<string>, testFile: string)
    ensures FileName(path, testFile) == PerfRecApi.RecordFileName(path, testFile)
  {
    if path.Some? && EndsWith(path.value, "/") {
      var perfPath := PerfRecApi.GetPerfPath(testFile);
      var directory := if IsAbs(path.value) then path.value else JoinPath(Dirname(testFile), path.value);
      assert JoinPath(Dirname(testFile), path.value) == directory;
      assert PerfRecApi.RecordFileName(path, testFile)
        == PerfRecApi.InDirectory(directory, perfPath)
        == JoinPath(directory, Basename(perfPath));
    }
  }

  /** The `record_current` thread-local of this generation: the record name it last gave
      out and how many times in a row. */
  class RecordCurrent {
    var recordName: Option<string>
    var counter: int

    ghost predicate Valid()
      reads this
    {
      recordName.Some? ==> counter >= 1
    }

    constructor ()
      ensures recordName.None? && Valid()
    {
      recordName := None;
      counter := 0;
    }
  }

  /** `PerformanceRecorder`: the record collected so far, the records file once
      entered, and a ghost account of the recorder calls it makes. */
  class PerformanceRecorder {
    const fileName: string
    const recordName: string
    var record: Record
    var recordsFile: RecordsFile?
    ghost var phases: seq<PerfRecApi.Phase>

    constructor (fileName: string, recordName: string)
      ensures this.fileName == fileName && this.recordName == recordName
      ensures record == [] && recordsFile == null && phases == []
    {
      this.fileName := fileName;
      this.recordName := recordName;
      record := [];
      recordsFile := null;
      phases := [];
    }

    /** `__enter__`: the database recorders, then the cache recorders, then the records
        file, whose contents are `stored`. */
    method Enter(stored: map<string, Record>)
      modifies this
      ensures recordsFile != null && fresh(recordsFile) && recordsFile.data == stored
      ensures record == old(record)
      ensures phases == old(phases) + [PerfRecApi.DbEntered, PerfRecApi.CacheEntered, PerfRecApi.Loaded]
    {
      phases := phases + [PerfRecApi.DbEntered, PerfRecApi.CacheEntered];
      recordsFile := new RecordsFile(stored);
      phases := phases + [PerfRecApi.Loaded];
    }

    /** `on_db_op(db_op)`: one entry, the connection's name mapped to the SQL. */
    method OnDbOp(op: LegacyDb.DBOp)
      modifies this`record
      ensures record == old(record) + [map[PerfRecDb.Name(op.alias) := Str(op.sql)]]
    {
      var name := PerfRecDb.Name(op.alias);
      record := record + [map[name := Str(op.sql)]];
    }

    /** `on_cache_op(cache_op)`: one entry, the cache method's name mapped to the key or
        keys as the operation holds them. */
    method OnCacheOp(alias: string, operation: string, keyOrKeys: RecordValue)
      modifies this`record
      ensures record == old(record) + [map[PerfRecCache.Name(alias, operation) := keyOrKeys]]
    {
      var name := PerfRecCache.Name(alias, operation);
      record := record + [map[name := keyOrKeys]];
    }

    /** `save_or_assert()`, with `mode` the `MODE` setting as given. */
    method SaveOrAssert(mode: string) returns (r: Outcome<()>)
      requires recordsFile != null
      modifies recordsFile
      ensures (r, recordsFile.data) == Reconcile(mode, old(recordsFile.data), recordName, record)
    {
      var orig := recordsFile.Get(recordName);
      if mode == "none" && orig.None? {
        return Raised(AssertionError("Original performance record does not exist for " + recordName));
      }
      if orig.Some? && record != orig.value {
        return Raised(AssertionError("Performance record did not match for " + recordName));
      }
      recordsFile.SetAndSave(recordName, record);
      if mode == "all" && orig.None? {
        return Raised(AssertionError("Original performance record did not exist for " + recordName));
      }
      r := Ok(());
    }

    /** `__exit__`: the cache recorders, then the database recorders, then
        `save_or_assert` unless the block raised. */
    method Exit(raised: bool, mode: string) returns (r: Outcome<()>)
      requires recordsFile != null
      modifies this, recordsFile
      ensures recordsFile == old(recordsFile) && record == old(record)
      ensures phases == old(phases) + [PerfRecApi.CacheExited, PerfRecApi.DbExited]
        + (if raised then [] else [PerfRecApi.SaveCalled])
      ensures raised ==> r == Ok(()) && recordsFile.data == old(recordsFile.data)
      ensures !raised ==> (r, recordsFile.data) == Reconcile(mode, old(recordsFile.data), recordName, record)
    {
      phases := phases + [PerfRecApi.CacheExited, PerfRecApi.DbExited];
      if raised {
        return Ok(());
      }
      phases := phases + [PerfRecApi.SaveCalled];
      r := SaveOrAssert(mode);
    }
  }

  /** What this generation's `save_or_assert` does with the stored records: a stored
      record must always match, `none` needs one before anything is written, and `all`
      needs one after the new record has been written. */
  function Reconcile(mode: string, stored: map<string, Record>, name: string, record: Record)
    : (r: (Outcome<()>, map<string, Record>))
    ensures name in stored ==> (r.0.Ok? <==> record == stored[name])
    ensures name !in stored ==> (r.0.Ok? <==> mode != "none" && mode != "all")
    ensures r.0.Ok? ==> r.1 == stored[name := record]
    ensures r.1 == stored || r.1 == stored[name := record]
  {
    if mode == "none" && name !in stored then
      (Raised(AssertionError("Original performance record does not exist for " + name)), stored)
    else if name in stored && record != stored[name] then
      (Raised(AssertionError("Performance record did not match for " + name)), stored)
    else if mode == "all" && name !in stored then
      (Raised(AssertionError("Original performance record did not exist for " + name)), stored[name := record])
    else
      assert name !in stored ==> mode != "none" && mode != "all";
      (Ok(()), stored[name := record])
  }

  /** For `all`, `none` and `once` the two generations reconcile alike, messages
      included; `overwrite`, and any other text, means `once` here. */
  lemma ReconcileAgreesWithCurrent(mode: string, stored: map<string, Record>, name: string, record: Record)
    ensures mode in {"all", "none"} ==> (var m := if mode == "all" then PerfRecApi.AllMode else PerfRecApi.NoneMode;
      Reconcile(mode, stored, name, record) == PerfRecApi.Reconcile(m, stored, name, record))
    ensures mode !in {"all", "none"} ==>
      Reconcile(mode, stored, name, record) == PerfRecApi.Reconcile(PerfRecApi.OnceMode, stored, name, record)
  {
  }

  /** `record(record_name=..., path=...)` for the test `details`. An explicit record
      name is used as it is and skips the counter; otherwise the base name counts on
      when it is the one given out last, whatever the file, and starts again at 1 when
      it is not. */
  method Record(recordName: Option<string>, path: Option<string>, details: TestDetails, current: RecordCurrent)
    returns (recorder: PerformanceRecorder)
    requires current.Valid()
    modifies current
    ensures current.Valid()
    ensures fresh(recorder) && recorder.record == [] && recorder.recordsFile == null
    ensures recorder.fileName == FileName(path, details.filePath)
    ensures recordName.Some? ==>
      (recorder.recordName == recordName.value
       && current.recordName == old(current.recordName) && current.counter == old(current.counter))
    ensures recordName.None? ==>
      (var base := PerfRecApi.BaseRecordName(details.testName, details.className);
       current.recordName == Some(base)
       && current.counter == (if old(current.recordName) == Some(base) then old(current.counter) + 1 else 1)
       && recorder.recordName == PerfRecApi.Suffixed(base, current.counter))
  {
    var fileName := FileName(path, details.filePath);
    var name: string;
    if recordName.Some? {
      name := recordName.value;
    } else {
      name := PerfRecApi.BaseRecordName(details.testName, details.className);
      if current.recordName == Some(name) {
        current.counter := current.counter + 1;
        name := name + "." + NatToString(current.counter);
      } else {
        current.recordName := Some(name);
        current.counter := 1;
      }
    }
    recorder := new PerformanceRecorder(fileName, name);
  }
}
