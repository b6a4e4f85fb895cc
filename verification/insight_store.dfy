/**
 The `insights_cache` table: a string-to-string store keyed by `cache_key`
 (the primary key), written with `INSERT OR REPLACE`. Both copies of the
 store code, the `CacheManager` class and the module-level functions of
 `database.py`, have this one contract, so it is modelled once.

 Every storage failure is turned into a value: `Save` reports `false`,
 `Load` reports `None` and `GetAll` reports no rows.
 */
module InsightStore {
  import opened Base

  /** The state of the SQLite file as the store operations see it. */
  datatype Health =
    | Ready        // the file opens and the table exists
    | NoTable      // the file opens but `init_db` never created the table
    | Unavailable  // the file cannot be opened or written

  datatype Store = Store(entries: map<string, string>, health: Health)

  /** The outcome of a save: the store afterwards and the returned flag. */
  datatype Saved = Saved(store: Store, ok: bool)

  /**
   `init_db`: `CREATE TABLE IF NOT EXISTS`. An existing table keeps its rows;
   a missing one is created empty. Opening the file is not guarded by a
   `try`, so an unusable file makes `init_db` (and the `CacheManager`
   constructor that calls it) raise.
   */
  function InitDb(s: Store): (r: Option<Store>)
    ensures r.Some? <==> s.health != Unavailable
    ensures r.Some? ==> r.value.health == Ready
    ensures s.health == Ready ==> r == Some(s)
    ensures s.health == NoTable ==> r == Some(Store(map[], Ready))
  {
    match s.health
    case Ready => Some(s)
    case NoTable => Some(Store(map[], Ready))
    case Unavailable => None
  }

  /** `save_insights`: upsert `text` under `key`; `false` on any storage error. */
  function Save(s: Store, key: string, text: string): (r: Saved)
    ensures r.ok <==> s.health == Ready
    ensures !r.ok ==> r.store == s
    ensures r.store.health == s.health
    ensures r.ok ==> key in r.store.entries && r.store.entries[key] == text
    ensures forall k :: k != key ==> (k in r.store.entries <==> k in s.entries)
    ensures forall k :: k != key && k in s.entries ==> r.store.entries[k] == s.entries[k]
  {
    if s.health == Ready then Saved(Store(s.entries[key := text], Ready), true)
    else Saved(s, false)
  }

  /**
   `load_insights`: the stored text, or `None` when the key has no row or
   the storage fails. A stored empty string is returned as `""`: the
   fetched row is a one-element tuple and is truthy whatever it holds.
   */
  function Load(s: Store, key: string): (r: Option<string>)
    ensures r.Some? <==> s.health == Ready && key in s.entries
    ensures r.Some? ==> r.value == s.entries[key]
  {
    if s.health == Ready && key in s.entries then Some(s.entries[key]) else None
  }

  /** The set of keys that occur in a list of rows. */
  ghost function KeysOf(rows: seq<(string, string)>): set<string>
  {
    set i | 0 <= i < |rows| :: rows[i].0
  }

  lemma KeysOfAppend(rows: seq<(string, string)>, k: string, v: string)
    ensures KeysOf(rows + [(k, v)]) == KeysOf(rows) + {k}
  {
    var rows' := rows + [(k, v)];
    assert rows'[|rows|].0 == k;
    forall x | x in KeysOf(rows)
      ensures x in KeysOf(rows')
    {
      var i :| 0 <= i < |rows| && rows[i].0 == x;
      assert rows'[i].0 == x;
    }
  }

  /** No key occurs twice in a list of rows. */
  ghost predicate DistinctKeys(rows: seq<(string, string)>)
  {
    forall i, j :: 0 <= i < j < |rows| ==> rows[i].0 != rows[j].0
  }

  /**
   `get_all_insights`: every `(cache_key, insights)` row, in an unspecified
   order. As `cache_key` is the primary key each stored key yields exactly
   one pair; any storage failure yields `[]`.
   */
  method GetAll(s: Store) returns (rows: seq<(string, string)>)
    ensures s.health != Ready ==> rows == []
    ensures s.health == Ready ==> KeysOf(rows) == s.entries.Keys
    ensures s.health == Ready ==> |rows| == |s.entries|
    ensures DistinctKeys(rows)
    ensures forall i :: 0 <= i < |rows| ==> rows[i].0 in s.entries && rows[i].1 == s.entries[rows[i].0]
  {
    rows := [];
    if s.health != Ready {
      return;
    }
    var remaining := s.entries.Keys;
    assert |remaining| == |s.entries|;
    while remaining != {}
      invariant remaining <= s.entries.Keys
      invariant KeysOf(rows) !! remaining
      invariant KeysOf(rows) + remaining == s.entries.Keys
      invariant |rows| + |remaining| == |s.entries|
      invariant DistinctKeys(rows)
      invariant forall i :: 0 <= i < |rows| ==> rows[i].0 in s.entries && rows[i].1 == s.entries[rows[i].0]
      decreases remaining
    {
      var k :| k in remaining;
      KeysOfAppend(rows, k, s.entries[k]);
      assert |remaining - {k}| == |remaining| - 1;
      rows := rows + [(k, s.entries[k])];
      remaining := remaining - {k};
    }
  }

  /** Save followed by load returns the saved text. */
  lemma SaveThenLoad(s: Store, key: string, text: string)
    requires s.health == Ready
    ensures Save(s, key, text).ok
    ensures Load(Save(s, key, text).store, key) == Some(text)
  {
  }

  /** Save is an upsert: the second of two saves to one key wins. */
  lemma LastWriterWins(s: Store, key: string, first: string, second: string)
    requires s.health == Ready
    ensures Load(Save(Save(s, key, first).store, key, second).store, key) == Some(second)
    ensures Save(Save(s, key, first).store, key, second).store == Save(s, key, second).store
  {
  }

  /** Saving under one key leaves every other key's lookup unchanged. */
  lemma SaveLeavesOtherKeys(s: Store, key: string, text: string, other: string)
    requires other != key
    ensures Load(Save(s, key, text).store, other) == Load(s, other)
  {
  }

  /** A key that was never written is a miss, not an error. */
  lemma MissIsNone(s: Store, key: string)
    requires key !in s.entries
    ensures Load(s, key) == None
  {
  }

  /** A stored empty text is found, as `""`. */
  lemma EmptyTextIsFound(s: Store, key: string)
    requires s.health == Ready && key in s.entries && s.entries[key] == ""
    ensures Load(s, key) == Some("")
  {
  }

  /** A failing or table-less store degrades to "always miss, never write". */
  lemma BrokenStoreDegrades(s: Store, key: string, text: string)
    requires s.health != Ready
    ensures Save(s, key, text) == Saved(s, false)
    ensures Load(s, key) == None
  {
  }
}
