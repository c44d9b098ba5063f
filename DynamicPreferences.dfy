/**
 * The key-value store the engine persists into. It is an external library; only what
 * the engine uses is modelled: named partitions of entries, typed load with a
 * default, save and delete.
 */
module DynamicPreferences {
  import opened JavaInt
  import opened Optional

  /** A persisted primitive value. */
  datatype StoredValue = LongValue(l: Int64) | IntValue(i: Int32) | BoolValue(b: bool)

  type Partition = map<string, StoredValue>

  /** The `long` stored under `key`, if there is one. */
  function GetLong(p: Partition, key: string): (r: Option<Int64>)
    ensures r.Some? <==> key in p && p[key].LongValue?
    ensures r.Some? ==> p[key] == LongValue(r.value)
  {
    if key in p && p[key].LongValue? then Some(p[key].l) else None
  }

  /** The `int` stored under `key`, if there is one. */
  function GetInt(p: Partition, key: string): (r: Option<Int32>)
    ensures r.Some? <==> key in p && p[key].IntValue?
    ensures r.Some? ==> p[key] == IntValue(r.value)
  {
    if key in p && p[key].IntValue? then Some(p[key].i) else None
  }

  /** The `boolean` stored under `key`, if there is one. */
  function GetBool(p: Partition, key: string): (r: Option<bool>)
    ensures r.Some? <==> key in p && p[key].BoolValue?
    ensures r.Some? ==> p[key] == BoolValue(r.value)
  {
    if key in p && p[key].BoolValue? then Some(p[key].b) else None
  }

  /** The process-wide store: one partition of entries per partition name. */
  class DynamicPreferences {
    var files: map<string, Partition>

    constructor ()
      ensures files == map[]
    {
      files := map[];
    }

    /** The entries of partition `name`; a partition never written to is empty. */
    function File(name: string): (p: Partition)
      reads this
      ensures name in files ==> p == files[name]
      ensures name !in files ==> p == map[]
    {
      if name in files then files[name] else map[]
    }

    function LoadLong(name: string, key: string, default: Int64): Int64
      reads this
    {
      GetLong(File(name), key).GetOr(default)
    }

    function LoadInt(name: string, key: string, default: Int32): Int32
      reads this
    {
      GetInt(File(name), key).GetOr(default)
    }

    function LoadBool(name: string, key: string, default: bool): bool
      reads this
    {
      GetBool(File(name), key).GetOr(default)
    }

    method Save(name: string, key: string, value: StoredValue)
      modifies this
      ensures files == old(files)[name := old(File(name))[key := value]]
      ensures files - {name} == old(files) - {name}
    {
      files := files[name := File(name)[key := value]];
    }

    method Delete(name: string, key: string)
      modifies this
      ensures files == old(files)[name := old(File(name)) - {key}]
      ensures files - {name} == old(files) - {name}
    {
      files := files[name := File(name) - {key}];
    }
  }
}
