/** The two tables (collections) of the store as sequences of records, and
    the row operations both backends perform on them: the category join of
    `getLinks`, finding a record by id, deleting by id and updating by id. */
module Tables {
  import opened Entities
  import opened Seqs

  function CategoryId(c: Category): string
  {
    c.id
  }

  function LinkId(l: LinkItem): string
  {
    l.id
  }

  // ---------------------------------------------------------------------------
  // The join of getLinks.

  /** The join condition `l.categoryId = c.id`. */
  predicate Matches(l: LinkItem, c: Category)
  {
    l.categoryId == c.id
  }

  /** One joined row: the link with the category's name as `categoryName`. */
  function Joined(l: LinkItem, c: Category): LinkItem
  {
    l.(categoryName := Some(c.name))
  }

  /** The rows one link contributes: one per matching category, in table order. */
  function JoinOne(l: LinkItem, cs: seq<Category>): seq<LinkItem>
  {
    if cs == [] then []
    else (if Matches(l, cs[0]) then [Joined(l, cs[0])] else []) + JoinOne(l, cs[1..])
  }

  /** `links JOIN categories ON l.categoryId = c.id` projecting `c.name AS
      categoryName`; equally `$lookup` by `categoryId`, `$unwind`, `$addFields`. */
  function JoinLinks(ls: seq<LinkItem>, cs: seq<Category>): seq<LinkItem>
  {
    if ls == [] then [] else JoinOne(ls[0], cs) + JoinLinks(ls[1..], cs)
  }

  /** The categories a link refers to, in table order. */
  function CategoriesOf(l: LinkItem, cs: seq<Category>): seq<Category>
  {
    Filter(cs, c => Matches(l, c))
  }

  /** The k-th row a link contributes pairs it with the k-th category it refers to. */
  lemma {:induction false} JoinOneRows(l: LinkItem, cs: seq<Category>)
    ensures |JoinOne(l, cs)| == |CategoriesOf(l, cs)|
    ensures forall k :: 0 <= k < |JoinOne(l, cs)| ==>
      JoinOne(l, cs)[k] == Joined(l, CategoriesOf(l, cs)[k])
  {
    if cs != [] {
      JoinOneRows(l, cs[1..]);
    }
  }

  /** `x` is the row the join builds from link `i` and category `j`. */
  predicate JoinRow(ls: seq<LinkItem>, cs: seq<Category>, i: int, j: int, x: LinkItem)
  {
    0 <= i < |ls| && 0 <= j < |cs| && Matches(ls[i], cs[j]) && x == Joined(ls[i], cs[j])
  }

  lemma {:induction false} JoinOneMembers(l: LinkItem, cs: seq<Category>, x: LinkItem)
    ensures x in JoinOne(l, cs) <==>
      exists j :: 0 <= j < |cs| && Matches(l, cs[j]) && x == Joined(l, cs[j])
  {
    if cs != [] {
      JoinOneMembers(l, cs[1..], x);
      if x in JoinOne(l, cs[1..]) {
        var j :| 0 <= j < |cs[1..]| && Matches(l, cs[1..][j]) && x == Joined(l, cs[1..][j]);
        assert cs[j + 1] == cs[1..][j];
      }
      if j :| 0 <= j < |cs| && Matches(l, cs[j]) && x == Joined(l, cs[j]) {
        if j > 0 {
          assert cs[1..][j - 1] == cs[j];
        }
      }
    }
  }

  /** A row is in the join exactly when some link and some category it refers to
      produce it: the link's fields with that category's name. */
  lemma {:induction false} JoinLinksMembers(ls: seq<LinkItem>, cs: seq<Category>, x: LinkItem)
    ensures x in JoinLinks(ls, cs) <==> exists i, j :: JoinRow(ls, cs, i, j, x)
  {
    if ls != [] {
      JoinLinksMembers(ls[1..], cs, x);
      JoinOneMembers(ls[0], cs, x);
      if x in JoinLinks(ls[1..], cs) {
        var i, j :| JoinRow(ls[1..], cs, i, j, x);
        assert JoinRow(ls, cs, i + 1, j, x);
      }
      if x in JoinOne(ls[0], cs) {
        var j :| 0 <= j < |cs| && Matches(ls[0], cs[j]) && x == Joined(ls[0], cs[j]);
        assert JoinRow(ls, cs, 0, j, x);
      }
      if i, j :| JoinRow(ls, cs, i, j, x) {
        if i > 0 {
          assert JoinRow(ls[1..], cs, i - 1, j, x);
        }
      }
    }
  }

  /** Joining a concatenation of link lists joins each part. */
  lemma {:induction false} JoinLinksAppend(a: seq<LinkItem>, b: seq<LinkItem>, cs: seq<Category>)
    ensures JoinLinks(a + b, cs) == JoinLinks(a, cs) + JoinLinks(b, cs)
  {
    if a == [] {
      assert a + b == b;
    } else {
      assert (a + b)[1..] == a[1..] + b;
      JoinLinksAppend(a[1..], b, cs);
    }
  }

  /** The link refers to a category that exists. */
  predicate Resolves(l: LinkItem, cs: seq<Category>)
  {
    exists j :: 0 <= j < |cs| && Matches(l, cs[j])
  }

  /** The links whose category exists, in table order. */
  function ResolvedLinks(ls: seq<LinkItem>, cs: seq<Category>): seq<LinkItem>
  {
    Filter(ls, l => Resolves(l, cs))
  }

  /** A link refers to an existing category exactly when it has categories. */
  lemma {:induction false} ResolvesIff(l: LinkItem, cs: seq<Category>)
    ensures Resolves(l, cs) <==> CategoriesOf(l, cs) != []
  {
    if cs != [] && !Matches(l, cs[0]) {
      ResolvesIff(l, cs[1..]);
      if Resolves(l, cs) {
        var j :| 0 <= j < |cs| && Matches(l, cs[j]);
        assert Matches(l, cs[1..][j - 1]);
      }
      if Resolves(l, cs[1..]) {
        var j :| 0 <= j < |cs[1..]| && Matches(l, cs[1..][j]);
        assert Matches(l, cs[j + 1]);
      }
    } else if cs != [] {
      assert Matches(l, cs[0]);
    }
  }

  /** A link with a dangling `categoryId` contributes no row at all. */
  lemma JoinOneDangling(l: LinkItem, cs: seq<Category>)
    requires !Resolves(l, cs)
    ensures JoinOne(l, cs) == []
  {
    JoinOneRows(l, cs);
    ResolvesIff(l, cs);
  }

  /** The join is the join of the links whose category exists: dangling links
      vanish without a trace. */
  lemma {:induction false} JoinIgnoresDangling(ls: seq<LinkItem>, cs: seq<Category>)
    ensures JoinLinks(ls, cs) == JoinLinks(ResolvedLinks(ls, cs), cs)
  {
    if ls != [] {
      JoinIgnoresDangling(ls[1..], cs);
      if Resolves(ls[0], cs) {
        assert ResolvedLinks(ls, cs) == [ls[0]] + ResolvedLinks(ls[1..], cs);
        assert ([ls[0]] + ResolvedLinks(ls[1..], cs))[1..] == ResolvedLinks(ls[1..], cs);
      } else {
        JoinOneDangling(ls[0], cs);
      }
    }
  }

  /** No two records share an id. */
  predicate UniqueIds<T>(rows: seq<T>, idOf: T -> string)
  {
    forall i, j :: 0 <= i < j < |rows| ==> idOf(rows[i]) != idOf(rows[j])
  }

  lemma {:induction false} CategoriesOfUnique(l: LinkItem, cs: seq<Category>)
    requires UniqueIds(cs, CategoryId)
    ensures |CategoriesOf(l, cs)| == if Resolves(l, cs) then 1 else 0
  {
    if cs != [] {
      CategoriesOfUnique(l, cs[1..]);
      if Matches(l, cs[0]) {
        forall j | 0 <= j < |cs[1..]| ensures !Matches(l, cs[1..][j]) {
          assert CategoryId(cs[0]) != CategoryId(cs[j + 1]);
        }
      } else {
        if Resolves(l, cs) {
          var j :| 0 <= j < |cs| && Matches(l, cs[j]);
          assert Matches(l, cs[1..][j - 1]);
        }
        if Resolves(l, cs[1..]) {
          var j :| 0 <= j < |cs[1..]| && Matches(l, cs[1..][j]);
          assert Matches(l, cs[j + 1]);
        }
      }
    }
  }

  /** With unique category ids, the join yields exactly one row per link whose
      category exists. */
  lemma {:induction false} JoinCountUnique(ls: seq<LinkItem>, cs: seq<Category>)
    requires UniqueIds(cs, CategoryId)
    ensures |JoinLinks(ls, cs)| == |ResolvedLinks(ls, cs)|
  {
    if ls != [] {
      JoinCountUnique(ls[1..], cs);
      JoinOneRows(ls[0], cs);
      CategoriesOfUnique(ls[0], cs);
    }
  }

  // ---------------------------------------------------------------------------
  // Finding, deleting and updating records by id.

  /** The position of the first record with the given id (the one `findOne`
      and `deleteOne` pick), if there is one. */
  function FirstIndexOf<T>(rows: seq<T>, idOf: T -> string, id: string): (r: Option<nat>)
    ensures r.Some? ==> (r.value < |rows| && idOf(rows[r.value]) == id &&
      forall j :: 0 <= j < r.value ==> idOf(rows[j]) != id)
    ensures r.None? ==> forall j :: 0 <= j < |rows| ==> idOf(rows[j]) != id
  {
    if rows == [] then None
    else if idOf(rows[0]) == id then Some(0)
    else match FirstIndexOf(rows[1..], idOf, id)
      case None => None
      case Some(i) => Some(i + 1)
  }

  /** `DELETE FROM t WHERE id = $1`: every record with the id goes. */
  function RemoveAllWithId<T>(rows: seq<T>, idOf: T -> string, id: string): seq<T>
  {
    Filter(rows, Other(idOf, id))
  }

  /** The test a record survives a delete by: its id is not the one deleted. */
  function Other<T>(idOf: T -> string, id: string): T -> bool
  {
    x => idOf(x) != id
  }

  /** `deleteOne({ id })`: the first record with the id goes, if any. */
  function RemoveFirstWithId<T>(rows: seq<T>, idOf: T -> string, id: string): seq<T>
  {
    match FirstIndexOf(rows, idOf, id)
    case None => rows
    case Some(i) => rows[..i] + rows[i + 1..]
  }

  /** After `DELETE ... WHERE id = $1` no record has the id and every other
      record remains, in order. */
  lemma RemoveAllSpec<T>(rows: seq<T>, idOf: T -> string, id: string)
    ensures forall k :: 0 <= k < |RemoveAllWithId(rows, idOf, id)| ==>
      idOf(RemoveAllWithId(rows, idOf, id)[k]) != id
    ensures forall k :: 0 <= k < |rows| && idOf(rows[k]) != id ==>
      rows[k] in RemoveAllWithId(rows, idOf, id)
    ensures IsSubsequence(RemoveAllWithId(rows, idOf, id), rows)
  {
    FilterIsSubsequence(rows, Other(idOf, id));
  }

  /** The delete changes nothing exactly when no record had the id. */
  lemma RemoveAllUnchangedIff<T>(rows: seq<T>, idOf: T -> string, id: string)
    ensures (forall k :: 0 <= k < |rows| ==> idOf(rows[k]) != id) <==>
      RemoveAllWithId(rows, idOf, id) == rows
  {
    FilterKeepsAll(rows, Other(idOf, id));
  }

  /** `deleteOne` removes at most one record: the first with the id. Without a
      record with the id nothing changes. */
  lemma RemoveFirstSpec<T>(rows: seq<T>, idOf: T -> string, id: string)
    ensures FirstIndexOf(rows, idOf, id).None? ==> RemoveFirstWithId(rows, idOf, id) == rows
    ensures FirstIndexOf(rows, idOf, id).Some? ==>
      |RemoveFirstWithId(rows, idOf, id)| == |rows| - 1 &&
      multiset(RemoveFirstWithId(rows, idOf, id)) + multiset{rows[FirstIndexOf(rows, idOf, id).value]}
        == multiset(rows)
  {
    match FirstIndexOf(rows, idOf, id)
    case None =>
    case Some(i) =>
      assert rows == rows[..i] + [rows[i]] + rows[i + 1..];
  }

  /** With unique ids both delete statements have the same effect. */
  lemma RemoveFirstIsRemoveAll<T>(rows: seq<T>, idOf: T -> string, id: string)
    requires UniqueIds(rows, idOf)
    ensures RemoveFirstWithId(rows, idOf, id) == RemoveAllWithId(rows, idOf, id)
  {
    match FirstIndexOf(rows, idOf, id)
    case None =>
      RemoveAllUnchangedIff(rows, idOf, id);
    case Some(i) =>
      forall k | i < k < |rows| ensures idOf(rows[k]) != id {
        assert idOf(rows[i]) != idOf(rows[k]);
      }
      RemoveAllAroundOnly(rows, idOf, id, i);
  }

  /** Deleting the id from a list where only position `i` has it drops just that record. */
  lemma RemoveAllAroundOnly<T>(rows: seq<T>, idOf: T -> string, id: string, i: nat)
    requires i < |rows| && idOf(rows[i]) == id
    requires forall k :: 0 <= k < |rows| && k != i ==> idOf(rows[k]) != id
    ensures RemoveAllWithId(rows, idOf, id) == rows[..i] + rows[i + 1..]
  {
    var before, after := rows[..i], rows[i + 1..];
    assert rows == before + ([rows[i]] + after);
    FilterAppend(before, [rows[i]] + after, Other(idOf, id));
    FilterAppend([rows[i]], after, Other(idOf, id));
    assert RemoveAllWithId(before, idOf, id) == before by {
      RemoveAllUnchangedIff(before, idOf, id);
    }
    assert RemoveAllWithId(after, idOf, id) == after by {
      forall k | 0 <= k < |after| ensures idOf(after[k]) != id {
        assert after[k] == rows[i + 1 + k];
      }
      RemoveAllUnchangedIff(after, idOf, id);
    }
    assert RemoveAllWithId([rows[i]], idOf, id) == [];
  }

  /** `UPDATE t SET ... WHERE id = $1`: every record with the id is rewritten by `f`. */
  function UpdateWhere<T>(rows: seq<T>, idOf: T -> string, id: string, f: T -> T): (r: seq<T>)
    ensures |r| == |rows|
    ensures forall k :: 0 <= k < |rows| ==>
      r[k] == if idOf(rows[k]) == id then f(rows[k]) else rows[k]
  {
    if rows == [] then []
    else [if idOf(rows[0]) == id then f(rows[0]) else rows[0]] + UpdateWhere(rows[1..], idOf, id, f)
  }

  /** With unique ids, updating every record with the id is updating the first
      (MongoDB's `findOneAndUpdate`); without a record with the id, nothing changes. */
  lemma UpdateWhereUnique<T>(rows: seq<T>, idOf: T -> string, id: string, f: T -> T)
    requires UniqueIds(rows, idOf)
    ensures FirstIndexOf(rows, idOf, id).None? ==> UpdateWhere(rows, idOf, id, f) == rows
    ensures FirstIndexOf(rows, idOf, id).Some? ==>
      var i := FirstIndexOf(rows, idOf, id).value;
      UpdateWhere(rows, idOf, id, f) == rows[i := f(rows[i])]
  {
  }
}
