/**
 * The shape of the Supabase (PostgREST) requests the handlers build, and
 * what a filter chain means for a row: `.eq`, `.ilike`, `.gte` and `.lte`
 * each add one condition, and a row is selected when it meets all of them.
 * Rows are records of parsed JSON values.
 */
module Supabase {
  import opened Common

  /** A PostgREST error: its `code` and `message`. */
  datatype DbError = DbError(code: string, message: string)

  /** The code `.single()` reports when no row matched. */
  const NOT_FOUND_CODE := "PGRST116"

  type Row = map<string, Json>

  /** `{ data, error }` of a `.single()` read: the row, if one came back. */
  datatype Single = Single(data: Option<Row>, error: Option<DbError>)

  datatype Filter =
    | Eq(column: string, value: Json)
    | ILike(column: string, pattern: string)
    | Gte(column: string, bound: string)
    | Lte(column: string, bound: string)

  datatype Order = Order(column: string, ascending: bool)

  /** `.range(first, last)`: the rows at offsets first..last, both included. */
  datatype Window = Window(first: int, last: int)

  /** A `select` request. */
  datatype Select = Select(
    table: string,
    columns: string,
    filters: seq<Filter>,
    order: Option<Order>,
    limit: Option<int>,
    range: Option<Window>)

  datatype Request =
    | Read(query: Select)
    | Insert(table: string, rows: seq<Row>)
    | Update(table: string, values: Row, filters: seq<Filter>)
    | Upsert(table: string, row: Row, onConflict: Option<string>)
    | Delete(table: string, filters: seq<Filter>)

  /** Lexicographic order on strings, the order of ISO-8601 timestamps
    * written in one format. */
  predicate StrLe(a: string, b: string)
  {
    if a == "" then true
    else if b == "" then false
    else if a[0] != b[0] then a[0] < b[0]
    else StrLe(a[1..], b[1..])
  }

  /** ASCII case folding: the letters A to Z become a to z. */
  function FoldCase(c: char): char
  {
    if 'A' <= c <= 'Z' then (c as int + 32) as char else c
  }

  /** Two strings of one length that agree letter by letter up to case. */
  predicate SameUpToCase(a: string, b: string)
  {
    |a| == |b| && forall k :: 0 <= k < |a| ==> FoldCase(a[k]) == FoldCase(b[k])
  }

  /** SQL `ILIKE` as PostgREST sends it: `%`, and `*` which PostgREST turns
    * into `%`, match any run of characters, `_` any one character,
    * a backslash makes the character after it literal, and every other
    * character matches itself up to case. A pattern that ends in a lone
    * backslash matches nothing. */
  predicate ILikeMatch(s: string, p: string)
    decreases |s| + |p|
  {
    if p == "" then s == ""
    else if p[0] == '%' || p[0] == '*' then ILikeMatch(s, p[1..]) || (s != "" && ILikeMatch(s[1..], p))
    else if p[0] == '_' then s != "" && ILikeMatch(s[1..], p[1..])
    else if p[0] == '\\' then |p| >= 2 && s != "" && FoldCase(s[0]) == FoldCase(p[1]) && ILikeMatch(s[1..], p[2..])
    else s != "" && FoldCase(s[0]) == FoldCase(p[0]) && ILikeMatch(s[1..], p[1..])
  }

  /** A string with no `%`, `*`, `_` or backslash: in a pattern it stands
    * for itself. */
  predicate Literal(q: string)
  {
    forall k :: 0 <= k < |q| ==> q[k] != '%' && q[k] != '*' && q[k] != '_' && q[k] != '\\'
  }

  /** PostgREST reads `*` in a like pattern as `%`: "a*b" finds "axb". */
  lemma StarIsWildcard()
    ensures !Literal("a*b")
    ensures ILikeMatch("axb", "%a*b%")
  {
    assert "%a*b%"[1..] == "a*b%";
    assert "a*b%"[1..] == "*b%";
    assert "*b%"[1..] == "b%";
    assert "axb"[1..] == "xb";
    assert "xb"[1..] == "b";
    assert "b%"[1..] == "%";
    assert "b"[1..] == "";
    assert ILikeMatch("", "%");
    assert ILikeMatch("b", "b%");
    assert ILikeMatch("b", "*b%");
    assert ILikeMatch("xb", "*b%");
    assert ILikeMatch("axb", "a*b%");
  }

  /** `%` alone matches every string. */
  lemma {:induction false} ILikeAnything(s: string)
    ensures ILikeMatch(s, "%")
  {
    if s != "" {
      ILikeAnything(s[1..]);
    }
  }

  /** A literal prefix of a pattern matches a prefix of the string of the
    * same length that agrees with it up to case. */
  lemma {:induction false} ILikeLiteralPrefix(s: string, q: string, rest: string)
    requires Literal(q)
    ensures ILikeMatch(s, q + rest) <==> |q| <= |s| && SameUpToCase(s[..|q|], q) && ILikeMatch(s[|q|..], rest)
  {
    if q == "" {
      assert q + rest == rest;
      assert s[|q|..] == s;
    } else {
      assert (q + rest)[0] == q[0];
      assert (q + rest)[1..] == q[1..] + rest;
      if s != "" {
        ILikeLiteralPrefix(s[1..], q[1..], rest);
        if |q| <= |s| {
          assert s[1..][|q[1..]|..] == s[|q|..];
          assert s[1..][..|q[1..]|] == s[..|q|][1..];
          if SameUpToCase(s[..|q|], q) {
            assert FoldCase(s[..|q|][0]) == FoldCase(q[0]);
            assert SameUpToCase(s[..|q|][1..], q[1..]) by {
              forall k | 0 <= k < |q| - 1 ensures FoldCase(s[..|q|][1..][k]) == FoldCase(q[1..][k]) {
                assert s[..|q|][1..][k] == s[..|q|][k + 1];
              }
            }
          }
          if FoldCase(s[0]) == FoldCase(q[0]) && SameUpToCase(s[..|q|][1..], q[1..]) {
            forall k | 0 <= k < |q| ensures FoldCase(s[..|q|][k]) == FoldCase(q[k]) {
              if k > 0 {
                assert s[..|q|][k] == s[..|q|][1..][k - 1];
              }
            }
          }
        }
      }
    }
  }

  /** q occurs in s at offset i, up to case. */
  predicate OccursAt(s: string, q: string, i: int)
  {
    0 <= i && i + |q| <= |s| && SameUpToCase(s[i..i + |q|], q)
  }

  /** `%q%` with a literal q matches exactly the strings that contain q up
    * to case: the email search of the admin listing is a case-insensitive
    * substring search. */
  lemma {:induction false} ILikeContains(s: string, q: string)
    requires Literal(q)
    ensures ILikeMatch(s, "%" + q + "%") <==> exists i :: OccursAt(s, q, i)
  {
    var x := q + "%";
    assert "%" + q + "%" == "%" + x;
    assert ("%" + x)[0] == '%' && ("%" + x)[1..] == x;
    ILikeLiteralPrefix(s, q, "%");
    if |q| <= |s| {
      ILikeAnything(s[|q|..]);
      assert s[0..0 + |q|] == s[..|q|];
    }
    assert ILikeMatch(s, x) <==> OccursAt(s, q, 0);
    if s == "" {
      assert forall i :: OccursAt(s, q, i) ==> i == 0;
    } else {
      ILikeContains(s[1..], q);
      assert ILikeMatch(s, "%" + q + "%") <==> OccursAt(s, q, 0) || ILikeMatch(s[1..], "%" + q + "%");
      forall i | OccursAt(s[1..], q, i) ensures OccursAt(s, q, i + 1) {
        assert s[1..][i..i + |q|] == s[i + 1..i + 1 + |q|];
      }
      forall i | OccursAt(s, q, i) && i > 0 ensures OccursAt(s[1..], q, i - 1) {
        assert s[1..][i - 1..i - 1 + |q|] == s[i..i + |q|];
      }
    }
  }

  /** The condition one filter puts on a row. */
  predicate Holds(row: Row, f: Filter)
  {
    match f
    case Eq(c, v) => c in row && row[c] == v
    case ILike(c, p) => c in row && row[c].JStr? && ILikeMatch(row[c].s, p)
    case Gte(c, b) => c in row && row[c].JStr? && StrLe(b, row[c].s)
    case Lte(c, b) => c in row && row[c].JStr? && StrLe(row[c].s, b)
  }

  /** A row meets a filter chain when it meets every filter of it. */
  predicate Matches(row: Row, filters: seq<Filter>)
  {
    forall i :: 0 <= i < |filters| ==> Holds(row, filters[i])
  }

  /** Adding a filter to a chain narrows it by exactly that filter. */
  lemma MatchesSnoc(row: Row, filters: seq<Filter>, f: Filter)
    ensures Matches(row, filters + [f]) <==> Matches(row, filters) && Holds(row, f)
  {
    if Matches(row, filters) && Holds(row, f) {
      forall i | 0 <= i < |filters + [f]|
        ensures Holds(row, (filters + [f])[i])
      {
        if i < |filters| {
          assert (filters + [f])[i] == filters[i];
        }
      }
    }
    if Matches(row, filters + [f]) {
      forall i | 0 <= i < |filters|
        ensures Holds(row, filters[i])
      {
        assert (filters + [f])[i] == filters[i];
      }
      assert (filters + [f])[|filters|] == f;
    }
  }

  /** `.eq(column, value)` etc.: the query with one more filter. */
  function Where(q: Select, f: Filter): (r: Select)
    ensures r.table == q.table && r.columns == q.columns && r.order == q.order
    ensures r.limit == q.limit && r.range == q.range
    ensures forall row :: Matches(row, r.filters) <==> Matches(row, q.filters) && Holds(row, f)
  {
    var r := q.(filters := q.filters + [f]);
    forall row ensures Matches(row, r.filters) <==> Matches(row, q.filters) && Holds(row, f) {
      MatchesSnoc(row, q.filters, f);
    }
    r
  }

  /** `supabase.from(table).select(columns)`: no filter, every row matches. */
  function From(table: string, columns: string): (q: Select)
    ensures q.table == table && q.columns == columns
    ensures q.order.None? && q.limit.None? && q.range.None?
    ensures forall row :: Matches(row, q.filters)
  {
    Select(table, columns, [], None, None, None)
  }

  /** The filter `Eq(column, JStr(s))` on a row: the column holds the string s. */
  predicate HasString(row: Row, column: string, s: string)
  {
    column in row && row[column] == JStr(s)
  }
}
