/** Records as the insert pipeline sees them: string-keyed maps of opaque scalars. */
module Records {

  /** A scalar held in a record field. `Nil` is Ruby's nil; `Time` is a timestamp. */
  datatype Value = Nil | Bool(b: bool) | Int(i: int) | Str(s: string) | Time(t: int)

  /** A record: column name to value. Keys are plain strings; symbol keys are taken
      to be already converted, as HashWithIndifferentAccess does on construction. */
  type Record = map<string, Value>

  /** Hash lookup `record[key]`: a missing key reads as nil. */
  function Get(r: Record, key: string): Value
  {
    if key in r then r[key] else Nil
  }

  /** `record.merge!(row)`: every key of either side, the row's value winning. */
  function Merge(r: Record, row: Record): (m: Record)
    ensures m.Keys == r.Keys + row.Keys
    ensures forall k :: k in row ==> m[k] == row[k]
    ensures forall k :: k in r && k !in row ==> m[k] == r[k]
  {
    r + row
  }
}
