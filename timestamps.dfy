/** The normaliser stage: filling in `created_at` and `updated_at`. */
module Timestamps {
  import opened Records

  const CreatedAt: string := "created_at"
  const UpdatedAt: string := "updated_at"

  /** `record[key] = now if record[key].nil?` */
  function Fill(r: Record, key: string, now: Value): Record
  {
    if Get(r, key) == Nil then r[key := now] else r
  }

  /** One record after the loop body of `with_timestamps!`. */
  function Stamp(r: Record, now: int): (s: Record)
    // both timestamp fields are set afterwards
    ensures Get(s, CreatedAt) != Nil && Get(s, UpdatedAt) != Nil
    ensures s.Keys == r.Keys + {CreatedAt, UpdatedAt}
    // a field that already held a value keeps it
    ensures forall k :: k in r && r[k] != Nil ==> s[k] == r[k]
    // no other field is touched
    ensures forall k :: k != CreatedAt && k != UpdatedAt ==> Get(s, k) == Get(r, k)
    // a field that changed was nil before and now holds the request's single timestamp
    ensures forall k :: Get(s, k) != Get(r, k) ==> Get(r, k) == Nil && Get(s, k) == Time(now)
  {
    Fill(Fill(r, CreatedAt, Time(now)), UpdatedAt, Time(now))
  }

  /** Every record of the request, stamped with the same `now`. */
  function StampAll(rs: seq<Record>, now: int): seq<Record>
  {
    seq(|rs|, i requires 0 <= i < |rs| => Stamp(rs[i], now))
  }

  /** Stamping a record twice is stamping it once. */
  lemma StampIdempotent(r: Record, now: int)
    ensures Stamp(Stamp(r, now), now) == Stamp(r, now)
  {
    var s := Stamp(r, now);
    assert Fill(s, CreatedAt, Time(now)) == s;
  }

  /** Running `with_timestamps!` twice equals running it once. */
  lemma StampAllIdempotent(rs: seq<Record>, now: int)
    ensures StampAll(StampAll(rs, now), now) == StampAll(rs, now)
  {
    forall i | 0 <= i < |rs|
      ensures StampAll(StampAll(rs, now), now)[i] == StampAll(rs, now)[i]
    {
      StampIdempotent(rs[i], now);
    }
  }

  /** After stamping, every record of the request has both fields, each either its
      own earlier value or the one shared timestamp. */
  lemma StampAllShared(rs: seq<Record>, now: int, i: int)
    requires 0 <= i < |rs|
    ensures |StampAll(rs, now)| == |rs|
    ensures Get(StampAll(rs, now)[i], CreatedAt) in {Get(rs[i], CreatedAt), Time(now)} - {Nil}
    ensures Get(StampAll(rs, now)[i], UpdatedAt) in {Get(rs[i], UpdatedAt), Time(now)} - {Nil}
  {
  }
}
