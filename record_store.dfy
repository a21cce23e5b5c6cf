/** Performance records and the file that holds them. A record is the list of entries
    one recorded block produced; each entry maps an operation's name to its query (a
    string, or a list of cache keys) and, optionally, `traceback` to a list of lines.
    The records file maps record names to records. How it is read from and written to
    YAML on disk is not part of this model: the file is its in-memory contents. */
module RecordStore {
  import opened PyBase

  /** A value in a record entry: `str` or `list[str]`. */
  datatype RecordValue = Str(text: string) | StrList(items: seq<string>)

  /** `PerformanceRecordItem`. */
  type Item = map<string, RecordValue>

  /** `PerformanceRecord`. */
  type Record = seq<Item>

  /** `KVFile`: the records of one `.perf.yml` file, by record name. */
  class RecordsFile {
    var data: map<string, Record>

    /** `KVFile(file_name)`: the records the file held when it was opened. */
    constructor (stored: map<string, Record>)
      ensures data == stored
    {
      data := stored;
    }

    /** `get(key, None)`. */
    function Get(key: string): (r: Option<Record>)
      reads this
      ensures r.Some? <==> key in data
      ensures r.Some? ==> r.value == data[key]
    {
      if key in data then Some(data[key]) else None
    }

    /** `set_and_save(key, value)`: the record under `key` becomes `value`; every other
        record stays as it was. */
    method SetAndSave(key: string, value: Record)
      modifies this
      ensures data == old(data)[key := value]
      ensures Get(key) == Some(value)
      ensures forall k :: k != key ==> Get(k) == old(Get(k))
    {
      data := data[key := value];
    }
  }
}
