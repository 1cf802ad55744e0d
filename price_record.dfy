/**
 * The normalised price record both services store per symbol, and the
 * front end's merge of a partial update into it.
 */
module PriceRecord {
  import opened Wrappers
  import opened JsValues

  /** A reading of the wall clock, in milliseconds. */
  type Time = int

  /**
   * A field value. Parsing is not evaluated: `ParsedFloat(arg)` is the number
   * `parseFloat(arg)` yields, whatever it is.
   */
  datatype Field =
    | Num(x: real)
    | ParsedFloat(arg: JsValue)
    | Text(s: string)
    | Raw(v: JsValue)
    | Date(at: Time)
    | IsoTimestamp(at: Time)

  /** An object of fields keyed by name. */
  type Record = map<string, Field>

  const LAST_UPDATED := "lastUpdated"

  /**
   * `{...prev, ...update, lastUpdated: new Date()}`: later spreads win, and the
   * time stamp is written last, so it always wins.
   */
  function Merge(prev: Record, update: Record, now: Time): (r: Record)
    ensures r.Keys == prev.Keys + update.Keys + {LAST_UPDATED}
    ensures r[LAST_UPDATED] == Date(now)
    ensures forall k :: k in update && k != LAST_UPDATED ==> r[k] == update[k]
    ensures forall k :: k in prev && k !in update && k != LAST_UPDATED ==> r[k] == prev[k]
  {
    prev + update + map[LAST_UPDATED := Date(now)]
  }

  /** The record after applying `updates` in order, oldest first, to `base`. */
  function MergeAll(base: Record, updates: seq<(Record, Time)>): Record
  {
    if updates == [] then base
    else
      var last := updates[|updates| - 1];
      Merge(MergeAll(base, updates[..|updates| - 1]), last.0, last.1)
  }

  /** The value most recently supplied for `k`: by the latest update that has it, else by `base`. */
  function LatestValue(base: Record, updates: seq<(Record, Time)>, k: string): Option<Field>
  {
    if updates == [] then (if k in base then Some(base[k]) else None)
    else if k in updates[|updates| - 1].0 then Some(updates[|updates| - 1].0[k])
    else LatestValue(base, updates[..|updates| - 1], k)
  }

  /**
   * The merge law over any sequence of updates: the record holds exactly the
   * fields ever supplied, each with its most recent value.
   */
  lemma {:induction false} MergeAllKeepsLatest(base: Record, updates: seq<(Record, Time)>, k: string)
    requires k != LAST_UPDATED
    ensures k in MergeAll(base, updates) <==> LatestValue(base, updates, k).Some?
    ensures k in MergeAll(base, updates) ==> MergeAll(base, updates)[k] == LatestValue(base, updates, k).value
  {
    if updates != [] {
      MergeAllKeepsLatest(base, updates[..|updates| - 1], k);
    }
  }

  /** After at least one update, `lastUpdated` holds the time of the latest one. */
  lemma MergeAllStampsLatest(base: Record, updates: seq<(Record, Time)>)
    requires updates != []
    ensures LAST_UPDATED in MergeAll(base, updates)
    ensures MergeAll(base, updates)[LAST_UPDATED] == Date(updates[|updates| - 1].1)
  {
  }
}
