/** The dynamic UPDATE statement of the PostgreSQL backend: a loop over the
    patch's entries that skips `undefined` values, emits `"key" = $n` with
    `n` counting up from 2, and pushes each value after the id (`$1`). */
module SetClause {
  import opened Entities
  import opened Seqs
  import opened Text
  import opened Patches

  /** `"${key}" = $${n}` */
  function Clause(column: string, n: nat): string
  {
    "\"" + column + "\" = $" + NatToString(n)
  }

  /** A clause names its column quoted, exactly as written. */
  lemma ClauseQuotesColumn(column: string, n: nat)
    ensures var s := Clause(column, n);
      |s| > |column| + 1 && s[0] == '"' && s[1..|column| + 1] == column && s[|column| + 1] == '"'
  {
  }

  /** `parts.join(sep)` */
  function JoinWith(parts: seq<string>, sep: string): (r: string)
    ensures (forall i :: 0 <= i < |parts| ==> parts[i] != "") ==> (r == "" <==> parts == [])
  {
    if parts == [] then ""
    else if |parts| == 1 then parts[0]
    else parts[0] + sep + JoinWith(parts[1..], sep)
  }

  /** `UPDATE ${table} SET ${setClauses.join(', ')} WHERE id = $1 RETURNING *` */
  function UpdateStatement(table: string, setClauses: seq<string>): string
  {
    "UPDATE " + table + " SET " + JoinWith(setClauses, ", ") + " WHERE id = $1 RETURNING *"
  }

  /** The statement with nothing between `SET` and `WHERE`, which PostgreSQL
      rejects as a syntax error. */
  function EmptySetStatement(table: string): string
  {
    "UPDATE " + table + " SET  WHERE id = $1 RETURNING *"
  }

  /** With non-empty clauses, the statement has nothing between `SET` and
      `WHERE` exactly when there are no clauses. */
  lemma EmptySetListIff(table: string, setClauses: seq<string>)
    requires forall i :: 0 <= i < |setClauses| ==> setClauses[i] != ""
    ensures setClauses == [] <==> UpdateStatement(table, setClauses) == EmptySetStatement(table)
  {
    if setClauses != [] {
      assert |UpdateStatement(table, setClauses)| > |EmptySetStatement(table)|;
    }
  }

  /** `setClauses` and `values` are what the loop emits for the entries `kept`. */
  predicate Emitted<K>(id: string, kept: seq<Entry<K>>, columnName: K -> string,
                       setClauses: seq<string>, values: seq<string>)
  {
    && |values| == |setClauses| + 1 && values[0] == id
    && |setClauses| == |kept|
    && forall k :: 0 <= k < |setClauses| ==>
         kept[k].value.Some? &&
         setClauses[k] == Clause(columnName(kept[k].key), k + 2) &&
         values[k + 1] == kept[k].value.value
  }

  /** The loop of `updateCategory`/`updateLink`: the k-th SET clause names the
      k-th entry with a defined value and binds placeholder `$(k+2)`, whose
      value sits at `values[k+1]`, right after the id at `values[0]`. */
  method BuildSetClauses<K>(id: string, p: Patch<K>, columnName: K -> string)
    returns (setClauses: seq<string>, values: seq<string>)
    ensures Emitted(id, Defined(p), columnName, setClauses, values)
  {
    setClauses := [];
    values := [id];
    var paramIndex := 2;
    ghost var kept: seq<Entry<K>> := [];
    for i := 0 to |p|
      invariant kept == Defined(p[..i])
      invariant paramIndex == |setClauses| + 2
      invariant Emitted(id, kept, columnName, setClauses, values)
    {
      assert p[..i + 1] == p[..i] + [p[i]];
      FilterAppend(p[..i], [p[i]], IsDefined);
      if p[i].value.Some? {
        setClauses := setClauses + [Clause(columnName(p[i].key), paramIndex)];
        values := values + [p[i].value.value];
        paramIndex := paramIndex + 1;
        kept := kept + [p[i]];
      }
    }
    assert p[..|p|] == p;
  }

  /** The SET list is empty exactly when every value of the patch is `undefined`. */
  lemma DefinedEmpty<K>(p: Patch<K>)
    ensures Defined(p) == [] <==> forall i :: 0 <= i < |p| ==> p[i].value.None?
  {
    if Defined(p) != [] {
      var e := Defined(p)[0];
      var i :| 0 <= i < |p| && p[i] == e;
      assert p[i].value.Some?;
    }
    if i :| 0 <= i < |p| && p[i].value.Some? {
      assert p[i] in Defined(p);
    }
  }

  /** A clause ends in its placeholder, and the placeholder reads back as its
      parameter number, so distinct clauses of one SET list bind distinct
      parameters. */
  lemma ClausePlaceholder(column: string, n: nat)
    ensures var s, digits := Clause(column, n), NatToString(n);
      |s| > |digits| && s[|s| - |digits| - 1] == '$' &&
      AllDigits(s[|s| - |digits|..]) && ParseNat(s[|s| - |digits|..]) == n
  {
    var s, digits := Clause(column, n), NatToString(n);
    assert s == ("\"" + column + "\" = ") + ("$" + digits);
    assert s[|s| - |digits|..] == digits;
    ParseNatToString(n);
  }

  /** The statement the loop's output makes has an empty `SET` list exactly
      when every value of the patch is `undefined`. */
  lemma EmptyStatementExactlyWhenUndefined<K>(table: string, id: string, p: Patch<K>,
                                              columnName: K -> string,
                                              setClauses: seq<string>, values: seq<string>)
    requires Emitted(id, Defined(p), columnName, setClauses, values)
    ensures UpdateStatement(table, setClauses) == EmptySetStatement(table) <==>
      forall i :: 0 <= i < |p| ==> p[i].value.None?
  {
    DefinedEmpty(p);
    forall i | 0 <= i < |setClauses| ensures setClauses[i] != "" {
      ClauseQuotesColumn(columnName(Defined(p)[i].key), i + 2);
    }
    EmptySetListIff(table, setClauses);
  }
}
