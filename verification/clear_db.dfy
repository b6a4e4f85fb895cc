/**
 `clear_db.py`: the administrative "delete every row" of the
 `insights_cache` table in the default database file.
 */
module ClearDb {
  import opened Base
  import opened InsightStore
  import Database

  /** The file `clear_database` opens. */
  const DatabaseFile := "insights_cache.db"

  /**
   `clear_database`: `DELETE FROM insights_cache`. A storage error, or a
   missing table, is caught and printed; the store is then left as it was.
   */
  function ClearDatabase(s: Store): (r: Store)
    ensures r.health == s.health
    ensures s.health == Ready ==> r.entries == map[]
    ensures s.health != Ready ==> r == s
    ensures forall key :: Load(r, key) == None
  {
    if s.health == Ready then Store(map[], Ready) else s
  }

  /** Clearing twice is the same as clearing once. */
  lemma ClearIdempotent(s: Store)
    ensures ClearDatabase(ClearDatabase(s)) == ClearDatabase(s)
  {
  }

  /** Clearing and the module-level store functions address the same file. */
  lemma SameFileAsDatabase()
    ensures DatabaseFile == Database.DatabaseFile
  {
  }
}
