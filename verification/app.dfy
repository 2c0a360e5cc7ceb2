/**
 * The Convert button: run the conversion the page's inputs select and record
 * it in the session's history.
 */
module App {
  import opened Conversion
  import opened History

  /**
   * Converts `value` from `from` to `to` in the category labelled `category`.
   * A conversion that yields a number is appended to the history; one that
   * fails (unknown unit or category) leaves the history unchanged.
   */
  method Submit(log: HistoryLog, category: string, value: real, from: string, to: string) returns (r: Result)
    modifies log
    ensures r == ConvertLabel(category, value, from, to)
    ensures r.Ok? ==> log.entries == old(log.entries) + [Entry(value, from, r.value, to)]
    ensures r.Err? ==> log.entries == old(log.entries)
  {
    r := ConvertLabel(category, value, from, to);
    if r.Ok? {
      log.Append(Entry(value, from, r.value, to));
    }
  }
}
