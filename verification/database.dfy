/**
 The module-level store functions of `database.py`. They act on the same
 `insights_cache` table as `CacheManager`, so `save_insights_to_db`,
 `load_insights_from_db` and `get_all_insights_from_db` are
 `InsightStore.Save`, `InsightStore.Load` and `InsightStore.GetAll`, and
 `init_db` is `InsightStore.InitDb`. What is particular to this file is
 that none of these functions calls `init_db`: until someone else creates
 the table the store is in the `NoTable` state.
 */
module Database {
  import opened Base
  import opened InsightStore

  /** The hard-coded path of the SQLite file. */
  const DatabaseFile := "insights_cache.db"

  /** Before `init_db` has run, saves fail and loads miss; nothing raises. */
  lemma UninitialisedDegrades(s: Store, key: string, text: string)
    requires s.health == NoTable
    ensures Save(s, key, text) == Saved(s, false)
    ensures Load(s, key) == None
  {
  }

  /** `CREATE TABLE IF NOT EXISTS` may run any number of times. */
  lemma InitDbIdempotent(s: Store)
    requires s.health != Unavailable
    ensures InitDb(s).Some? && InitDb(InitDb(s).value) == InitDb(s)
  {
  }

  /** Once the table exists, a save returns `True` and is read back. */
  lemma InitThenRoundTrip(s: Store, key: string, text: string, other: string)
    requires s.health != Unavailable
    requires other != key && other !in s.entries
    ensures Save(InitDb(s).value, key, text).ok
    ensures Load(Save(InitDb(s).value, key, text).store, key) == Some(text)
    ensures Load(Save(InitDb(s).value, key, text).store, other) == None
  {
  }
}
