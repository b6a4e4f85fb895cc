/**
 `utils.py`: two thin delegates kept under their historical "file" names.
 They hold no state and add no behaviour of their own.
 */
module Utils {
  import opened Base
  import opened InsightStore

  /** `save_insights_to_file`: exactly `save_insights_to_db`. */
  function SaveInsightsToFile(s: Store, key: string, text: string): (r: Saved)
    ensures r == Save(s, key, text)
  {
    Save(s, key, text)
  }

  /**
   `load_insights_from_file`: exactly `load_insights_from_db`, so a missing
   key gives `None` even though the Python signature announces a `str`.
   */
  function LoadInsightsFromFile(s: Store, key: string): (r: Option<string>)
    ensures r == Load(s, key)
  {
    Load(s, key)
  }

  /** Saving and loading through the delegates round-trips the text. */
  lemma UtilsRoundTrip(s: Store, key: string, text: string)
    requires s.health == Ready
    ensures SaveInsightsToFile(s, key, text).ok
    ensures LoadInsightsFromFile(SaveInsightsToFile(s, key, text).store, key) == Some(text)
  {
  }
}
