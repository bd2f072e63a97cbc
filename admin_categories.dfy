/** The admin categories page: its list state and the three handlers that
    change it. The server's answer to each request and the user's answer to
    the confirmation dialog are inputs. */
module AdminCategories {
  import opened Entities
  import opened Tables

  /** A listed category; `order` is set once the list has been reordered. */
  datatype CategoryRow = CategoryRow(category: Category, order: Option<int>)

  function RowId(row: CategoryRow): string
  {
    row.category.id
  }

  /** `{ ...category, name: newName }` */
  function Renamer(newName: string): (f: CategoryRow -> CategoryRow)
    ensures forall row ::
      && f(row).category.name == newName
      && f(row).order == row.order
      && f(row).category.(name := row.category.name) == row.category
  {
    (row: CategoryRow) => row.(category := row.category.(name := newName))
  }

  /** `splice(i, 1)` on an in-range index: the list without its i-th element. */
  function RemoveAt<T>(s: seq<T>, i: nat): (r: seq<T>)
    requires i < |s|
    ensures |r| == |s| - 1
    ensures forall k :: 0 <= k < i ==> r[k] == s[k]
    ensures forall k :: i <= k < |r| ==> r[k] == s[k + 1]
  {
    s[..i] + s[i + 1..]
  }

  /** `splice(i, 0, x)` on an index no larger than the length. */
  function InsertAt<T>(s: seq<T>, i: nat, x: T): (r: seq<T>)
    requires i <= |s|
    ensures |r| == |s| + 1
    ensures r[i] == x
    ensures forall k :: 0 <= k < i ==> r[k] == s[k]
    ensures forall k :: i < k < |r| ==> r[k] == s[k - 1]
  {
    s[..i] + [x] + s[i..]
  }

  /** Where `splice(end, 0, x)` inserts into a list of length `n`: past the end
      it appends. */
  function InsertPosition(end: nat, n: nat): (p: nat)
    ensures p <= n
    ensures end <= n ==> p == end
    ensures end > n ==> p == n
  {
    if end <= n then end else n
  }

  /** The list with the element at `from` moved to position `to`, described
      position by position: the moved element lands at `to`, the elements in
      between shift by one towards `from`, the rest stay. */
  function Moved<T>(s: seq<T>, from: nat, to: nat): (r: seq<T>)
    requires from < |s| && to < |s|
    ensures |r| == |s| && r[to] == s[from]
  {
    seq(|s|, k requires 0 <= k < |s| =>
      if k == to then s[from]
      else if from <= k < to then s[k + 1]
      else if to < k <= from then s[k - 1]
      else s[k])
  }

  /** `result.map((category, index) => ({ ...category, order: index }))` */
  function Renumbered(rows: seq<CategoryRow>): (r: seq<CategoryRow>)
    ensures |r| == |rows|
    ensures forall i :: 0 <= i < |r| ==> r[i].order == Some(i) && r[i].category == rows[i].category
  {
    seq(|rows|, i requires 0 <= i < |rows| => rows[i].(order := Some(i)))
  }

  /** Removing the element and inserting it again is the move. */
  lemma SpliceIsMove<T>(s: seq<T>, from: nat, to: nat)
    requires from < |s| && to < |s|
    ensures InsertAt(RemoveAt(s, from), to, s[from]) == Moved(s, from, to)
  {
    var rest := RemoveAt(s, from);
    var r := InsertAt(rest, to, s[from]);
    forall k | 0 <= k < |s| ensures r[k] == Moved(s, from, to)[k] {
      if k < to {
        assert r[k] == rest[k];
      } else if k > to {
        assert r[k] == rest[k - 1];
      }
    }
  }

  /** A move is a permutation. */
  lemma MovePermutes<T>(s: seq<T>, from: nat, to: nat)
    requires from < |s| && to < |s|
    ensures multiset(Moved(s, from, to)) == multiset(s)
  {
    SpliceIsMove(s, from, to);
    var x, rest := s[from], RemoveAt(s, from);
    assert s == s[..from] + [x] + s[from + 1..];
    assert multiset(s) == multiset(rest) + multiset{x};
    assert rest[..to] + rest[to..] == rest;
    assert multiset(InsertAt(rest, to, x)) == multiset(rest[..to]) + multiset{x} + multiset(rest[to..]);
  }

  /** Taking the moved element out of the result gives the original list with
      that element taken out: all other elements keep their relative order. */
  lemma MoveKeepsOthersInOrder<T>(s: seq<T>, from: nat, to: nat)
    requires from < |s| && to < |s|
    ensures RemoveAt(Moved(s, from, to), to) == RemoveAt(s, from)
  {
    SpliceIsMove(s, from, to);
    var rest := RemoveAt(s, from);
    assert RemoveAt(InsertAt(rest, to, s[from]), to) == rest;
  }

  class AdminCategoriesPage {
    var categories: seq<CategoryRow>

    constructor (categories: seq<CategoryRow>)
      ensures this.categories == categories
    {
      this.categories := categories;
    }

    /** After a successful PUT, every entry with the id is renamed; otherwise
        the list stays as it was. */
    method HandleEdit(id: string, newName: string, ok: bool)
      modifies this`categories
      ensures ok ==> categories == UpdateWhere(old(categories), RowId, id, Renamer(newName))
      ensures !ok ==> categories == old(categories)
    {
      if ok {
        categories := UpdateWhere(categories, RowId, id, Renamer(newName));
      }
    }

    /** Only when the user confirms and the DELETE succeeds are the entries
        with the id dropped. */
    method HandleDelete(id: string, confirmed: bool, ok: bool)
      modifies this`categories
      ensures confirmed && ok ==> categories == RemoveAllWithId(old(categories), RowId, id)
      ensures !(confirmed && ok) ==> categories == old(categories)
    {
      if confirmed {
        if ok {
          categories := RemoveAllWithId(categories, RowId, id);
        }
      }
    }

    /** Copies the list, splices the element at `startIndex` out and back in
        at `endIndex`, numbers every entry by its position, and sends that
        list; it becomes the page's list only when the request succeeds. */
    method HandleReorder(startIndex: nat, endIndex: nat, ok: bool) returns (sent: seq<CategoryRow>)
      requires startIndex < |categories|
      modifies this`categories
      ensures sent == Renumbered(Moved(old(categories),
                                       startIndex, InsertPosition(endIndex, |old(categories)| - 1)))
      ensures ok ==> categories == sent
      ensures !ok ==> categories == old(categories)
    {
      var result := categories;
      var removed := result[startIndex];
      result := RemoveAt(result, startIndex);
      var at := InsertPosition(endIndex, |result|);
      result := InsertAt(result, at, removed);
      SpliceIsMove(categories, startIndex, at);
      sent := Renumbered(result);
      if ok {
        categories := sent;
      }
    }
  }

  /** A rename touches only the `name` of the entries with the id. */
  lemma RenameTouchesOnlyName(rows: seq<CategoryRow>, id: string, newName: string)
    ensures var r := UpdateWhere(rows, RowId, id, Renamer(newName));
      |r| == |rows| &&
      forall k :: 0 <= k < |rows| ==>
        && r[k].order == rows[k].order
        && r[k].category.(name := rows[k].category.name) == rows[k].category
        && (RowId(rows[k]) == id ==> r[k].category.name == newName)
        && (RowId(rows[k]) != id ==> r[k] == rows[k])
  {
  }

  /** Renaming twice to the same name is renaming once. */
  lemma {:induction false} RenameIdempotent(rows: seq<CategoryRow>, id: string, newName: string)
    ensures UpdateWhere(UpdateWhere(rows, RowId, id, Renamer(newName)), RowId, id, Renamer(newName))
      == UpdateWhere(rows, RowId, id, Renamer(newName))
  {
    var once := UpdateWhere(rows, RowId, id, Renamer(newName));
    var twice := UpdateWhere(once, RowId, id, Renamer(newName));
    forall k | 0 <= k < |rows| ensures twice[k] == once[k] {
    }
  }

  /** The categories of a list, without their `order`. */
  function Categories(rows: seq<CategoryRow>): (r: seq<Category>)
    ensures |r| == |rows| && forall i :: 0 <= i < |rows| ==> r[i] == rows[i].category
  {
    seq(|rows|, i requires 0 <= i < |rows| => rows[i].category)
  }

  /** After reordering, each entry's `order` is its position, the categories
      are the old ones rearranged, and the moved category sits at its target. */
  lemma ReorderNumbersPositions(rows: seq<CategoryRow>, startIndex: nat, endIndex: nat)
    requires startIndex < |rows|
    ensures var to := InsertPosition(endIndex, |rows| - 1);
      var sent := Renumbered(Moved(rows, startIndex, to));
      && |sent| == |rows|
      && sent[to].category == rows[startIndex].category
      && multiset(Categories(sent)) == multiset(Categories(rows))
      && forall i :: 0 <= i < |sent| ==> sent[i].order == Some(i)
  {
    var to := InsertPosition(endIndex, |rows| - 1);
    var moved := Moved(rows, startIndex, to);
    MovePermutes(Categories(rows), startIndex, to);
    assert Categories(Renumbered(moved)) == Categories(moved);
    assert Categories(moved) == Moved(Categories(rows), startIndex, to);
  }
}
