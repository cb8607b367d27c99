/** The Redis list subscription schema (faststream/redis/schemas/list_sub.py): a list name,
    the batch flag, the batch size and the polling interval, plus the `records` value that is
    computed on first read and cached on the object. */
module RedisListSub {
  import opened Base

  const DefaultMaxRecords: int := 10
  const DefaultPollingInterval: real := 0.1

  class ListSub {
    var name: string
    var batch: bool
    var maxRecords: int
    var pollingInterval: real
    /** The `cached_property` slot: `None` until `records` is first read. */
    var recordsCache: Option<Option<int>>

    /** `ListSub.__init__`: every argument is stored; nothing is cached yet. */
    constructor (listName: string, batch: bool, maxRecords: int, pollingInterval: real)
      ensures name == listName && this.batch == batch
      ensures this.maxRecords == maxRecords && this.pollingInterval == pollingInterval
      ensures recordsCache.None?
    {
      name := listName;
      this.batch := batch;
      this.maxRecords := maxRecords;
      this.pollingInterval := pollingInterval;
      recordsCache := None;
    }

    /** `ListSub(list_name)` with the remaining arguments left at their defaults. */
    constructor WithDefaults(listName: string)
      ensures name == listName && !batch
      ensures maxRecords == DefaultMaxRecords && pollingInterval == DefaultPollingInterval
      ensures recordsCache.None?
    {
      name := listName;
      batch := false;
      maxRecords := DefaultMaxRecords;
      pollingInterval := DefaultPollingInterval;
      recordsCache := None;
    }

    /** `records`: the batch size when `batch` is set and `None` otherwise, computed on the
        first read; every later read returns the cached value, whatever the fields are now. */
    method Records() returns (r: Option<int>)
      modifies this
      ensures old(recordsCache).Some? ==> r == old(recordsCache).value
      ensures old(recordsCache).None? ==> r == (if batch then Some(maxRecords) else None)
      ensures recordsCache == Some(r)
      ensures name == old(name) && batch == old(batch)
      ensures maxRecords == old(maxRecords) && pollingInterval == old(pollingInterval)
    {
      if recordsCache.None? {
        recordsCache := Some(if batch then Some(maxRecords) else None);
      }
      r := recordsCache.value;
    }

    /** `deepcopy`: a new object with the same field values, cache included. */
    method Copy() returns (c: ListSub)
      ensures fresh(c)
      ensures c.name == name && c.batch == batch && c.maxRecords == maxRecords
      ensures c.pollingInterval == pollingInterval && c.recordsCache == recordsCache
    {
      c := new ListSub(name, batch, maxRecords, pollingInterval);
      c.recordsCache := recordsCache;
    }
  }

  /** Once `records` has been read, changing `batch` and `max_records` does not change it:
      both reads give the value the fields had at the first read. */
  method CachedRecords(listName: string, batch: bool, maxRecords: int,
                       laterBatch: bool, laterMaxRecords: int)
    returns (first: Option<int>, second: Option<int>)
    ensures first == (if batch then Some(maxRecords) else None)
    ensures second == first
  {
    var l := new ListSub(listName, batch, maxRecords, DefaultPollingInterval);
    first := l.Records();
    l.batch := laterBatch;
    l.maxRecords := laterMaxRecords;
    second := l.Records();
  }
}
