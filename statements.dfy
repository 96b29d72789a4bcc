/** The statement builder: value lists and the full INSERT text. */
module Statements {
  import opened Records
  import opened Text

  /** The sanitised values of one record, one per column, in column order
      (the inner loop of `get_values`). */
  function Sanitized(r: Record, columns: seq<string>, sanitize: Value -> string): seq<string>
  {
    seq(|columns|, i requires 0 <= i < |columns| => sanitize(Get(r, columns[i])))
  }

  /** `"(#{values.join(",")})"` for one record. */
  function ValueList(r: Record, columns: seq<string>, sanitize: Value -> string): string
  {
    "(" + Join(",", Sanitized(r, columns, sanitize)) + ")"
  }

  /** What `get_values(subset)` returns: one value list per record, in subset order. */
  function ValueLists(subset: seq<Record>, columns: seq<string>, sanitize: Value -> string): seq<string>
  {
    seq(|subset|, i requires 0 <= i < |subset| => ValueList(subset[i], columns, sanitize))
  }

  /** Column alignment: when no sanitised literal holds a comma, the text between
      a value list's parentheses splits back into exactly one literal per column,
      the `i`-th being the sanitised value of column `i`. */
  lemma ValueListAligned(r: Record, columns: seq<string>, sanitize: Value -> string)
    requires |columns| >= 1
    requires forall c :: c in columns ==> ',' !in sanitize(Get(r, c))
    ensures var v := ValueList(r, columns, sanitize);
      && |v| >= 2 && v[0] == '(' && v[|v| - 1] == ')'
      && var parts := Split(v[1..|v| - 1], ',');
      && |parts| == |columns|
      && forall i :: 0 <= i < |columns| ==> parts[i] == sanitize(Get(r, columns[i]))
  {
    var vs := Sanitized(r, columns, sanitize);
    forall i | 0 <= i < |vs| ensures ',' !in vs[i] {
      assert columns[i] in columns;
    }
    SplitJoin(vs, ',');
    var v := ValueList(r, columns, sanitize);
    assert v[1..|v| - 1] == Join(",", vs);
  }

  /** `returning_ids_text`. */
  function ReturningText(returning: string): (t: string)
    ensures t == "" <==> IsBlank(returning)
    ensures t != "" ==> |t| == 10 + |returning| && t[..10] == "returning " && t[10..] == returning
  {
    if IsBlank(returning) then "" else "returning " + returning
  }

  /** `build_sql`: the INSERT prefix (the table and column list, produced by the
      ORM and opaque here), the value lists, the trailing fragment and the
      optional RETURNING clause. */
  function BuildSql(prefix: string, values: seq<string>, sqlAppend: string, returning: string): string
  {
    prefix + " VALUES " + Join(",", values) + " " + sqlAppend + " " + ReturningText(returning)
  }

  /** How the statement reads: it opens with the prefix and " VALUES ", the joined
      value lists follow, then the fragment; it ends in "returning <spec>" exactly
      when the RETURNING spec is not blank, and otherwise in the fragment and a
      space, with no dangling keyword. */
  lemma BuildSqlLayout(prefix: string, values: seq<string>, sqlAppend: string, returning: string)
    ensures var sql := BuildSql(prefix, values, sqlAppend, returning);
      var body := Join(",", values);
      var at := |prefix| + 8;
      var gap := at + |body|;
      && |sql| >= gap + |sqlAppend| + 2
      && sql[..|prefix|] == prefix
      && sql[|prefix|..at] == " VALUES "
      && sql[at..gap] == body
      && sql[gap] == ' ' && sql[gap + 1..gap + 1 + |sqlAppend|] == sqlAppend && sql[gap + 1 + |sqlAppend|] == ' '
      && (IsBlank(returning) ==> |sql| == gap + |sqlAppend| + 2)
      && (!IsBlank(returning) ==> sql[gap + |sqlAppend| + 2..] == "returning " + returning)
  {
    SevenParts(prefix, " VALUES ", Join(",", values), " ", sqlAppend, " ", ReturningText(returning),
               BuildSql(prefix, values, sqlAppend, returning));
  }

  /** Where each part of a seven-part concatenation sits. */
  lemma SevenParts<T>(a: seq<T>, b: seq<T>, c: seq<T>, d: seq<T>, e: seq<T>, f: seq<T>, g: seq<T>, s: seq<T>)
    requires s == a + b + c + d + e + f + g
    ensures var i1, i2, i3 := |a|, |a| + |b|, |a| + |b| + |c|;
      var i4, i5, i6 := i3 + |d|, i3 + |d| + |e|, i3 + |d| + |e| + |f|;
      && |s| == i6 + |g|
      && s[..i1] == a && s[i1..i2] == b && s[i2..i3] == c && s[i3..i4] == d
      && s[i4..i5] == e && s[i5..i6] == f && s[i6..] == g
  {
  }
}
