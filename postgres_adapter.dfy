/** The PostgreSQL implementation of the data-access interface. The `pg`
    pool is reduced to the connection string it was created with; the two
    tables are sequences of rows. */
module PostgresBackend {
  import opened Entities
  import opened Tables
  import opened Patches
  import opened SetClause
  import opened SqlNames

  /** A `pg` connection pool. */
  datatype Pool = Pool(connectionString: string)

  /** The `links` table has no `categoryName` column. */
  predicate NoCategoryNames(ls: seq<LinkItem>)
  {
    forall i :: 0 <= i < |ls| ==> ls[i].categoryName.None?
  }

  /** The row `INSERT INTO links (...) RETURNING *` stores and returns: the
      column list leaves out `categoryName`. */
  function InsertedLink(l: NewLink, id: string): (r: LinkItem)
    ensures r.id == id && r.categoryName.None?
    ensures r.title == l.title && r.url == l.url && r.categoryId == l.categoryId
    ensures r.createdDate == l.createdDate && r.imageUrl == l.imageUrl && r.aiHint == l.aiHint
    ensures r.description == l.description && r.faviconUrl == l.faviconUrl
  {
    LinkWithId(l, id).(categoryName := None)
  }

  function CategoryPatcher(p: Patch<CategoryKey>): Category -> Category
  {
    c => MergeCategory(c, p)
  }

  function LinkPatcher(p: Patch<LinkKey>): LinkItem -> LinkItem
  {
    l => MergeLink(l, p)
  }

  /** PostgreSQL accepts the UPDATE statement for a link patch: its SET list is
      not empty and names only columns of `links`. */
  predicate LinkSetAccepted(p: Patch<LinkKey>)
  {
    Defined(p) != [] && forall i :: 0 <= i < |p| && p[i].value.Some? ==> IsLinkColumn(p[i].key)
  }

  /** The row `RETURNING *` yields first: the first row with the id, updated. */
  function FirstUpdated<T>(rows: seq<T>, idOf: T -> string, id: string, f: T -> T): (r: Option<T>)
    ensures r.None? <==> forall k :: 0 <= k < |rows| ==> idOf(rows[k]) != id
    ensures r.Some? ==> exists k ::
      && 0 <= k < |rows| && idOf(rows[k]) == id && r.value == f(rows[k])
      && forall j :: 0 <= j < k ==> idOf(rows[j]) != id
  {
    match FirstIndexOf(rows, idOf, id)
    case None => None
    case Some(i) => Some(f(rows[i]))
  }

  class PostgresAdapter {
    var pool: Option<Pool>
    var categories: seq<Category>
    var links: seq<LinkItem>

    ghost predicate Valid()
      reads this
    {
      NoCategoryNames(links)
    }

    /** `new PostgresAdapter()` over a database holding the given tables. */
    constructor (categories: seq<Category>, links: seq<LinkItem>)
      requires NoCategoryNames(links)
      ensures Valid() && pool.None?
      ensures this.categories == categories && this.links == links
    {
      pool := None;
      this.categories := categories;
      this.links := links;
    }

    /** Fails before touching any state when `DATABASE_URL` is unset or empty. */
    method Connect(databaseUrl: Option<string>) returns (r: Result<(), Error>)
      modifies this`pool
      ensures !Truthy(databaseUrl) ==> r == Failure(PostgresUrlNotConfigured) && pool == old(pool)
      ensures Truthy(databaseUrl) ==> r == Success(()) && pool == Some(Pool(databaseUrl.value))
    {
      if !Truthy(databaseUrl) {
        return Failure(PostgresUrlNotConfigured);
      }
      pool := Some(Pool(databaseUrl.value));
      r := Success(());
    }

    /** Ends the pool if there is one; always leaves the adapter unconnected. */
    method Disconnect()
      modifies this`pool
      ensures pool.None?
    {
      pool := None;
    }

    method GetCategories() returns (r: Result<seq<Category>, Error>)
      ensures pool.None? ==> r == Failure(NotConnected)
      ensures pool.Some? ==> r == Success(categories)
    {
      if pool.None? {
        return Failure(NotConnected);
      }
      r := Success(categories);
    }

    /** The server-side join: one row per (link, category) pair with matching
        id. The join key is quoted here; see `SqlNames` for the statement as
        written. */
    method GetLinks() returns (r: Result<seq<LinkItem>, Error>)
      ensures pool.None? ==> r == Failure(NotConnected)
      ensures pool.Some? ==> r == Success(JoinLinks(links, categories))
    {
      if pool.None? {
        return Failure(NotConnected);
      }
      JoinCorrectedAccepted(links, categories);
      r := RunJoin(JoinKeyCorrected, links, categories);
    }

    /** `INSERT ... RETURNING *` with the database-assigned id `assignedId`. */
    method AddCategory(c: NewCategory, assignedId: string) returns (r: Result<Category, Error>)
      modifies this`categories
      ensures pool.None? ==> r == Failure(NotConnected) && categories == old(categories)
      ensures pool.Some? ==>
        r == Success(CategoryWithId(c, assignedId)) && categories == old(categories) + [r.value]
    {
      if pool.None? {
        return Failure(NotConnected);
      }
      var row := CategoryWithId(c, assignedId);
      categories := categories + [row];
      r := Success(row);
    }

    /** Builds `UPDATE categories SET "key" = $2, ... WHERE id = $1 RETURNING *`
        and runs it: every row with the id is updated and the first is
        returned, or nothing when no row has the id. An all-`undefined` patch
        yields an empty SET list, which PostgreSQL rejects. */
    method UpdateCategory(id: string, patch: Patch<CategoryKey>)
      returns (r: Result<Option<Category>, Error>)
      requires DistinctKeys(patch)
      modifies this`categories
      ensures pool.None? ==> r == Failure(NotConnected) && categories == old(categories)
      ensures pool.Some? && Defined(patch) == [] ==>
        r == Failure(StatementRejected) && categories == old(categories)
      ensures pool.Some? && Defined(patch) != [] ==>
        && categories == UpdateWhere(old(categories), CategoryId, id, CategoryPatcher(patch))
        && r == Success(FirstUpdated(old(categories), CategoryId, id, CategoryPatcher(patch)))
    {
      if pool.None? {
        return Failure(NotConnected);
      }
      var setClauses, _ := BuildSetClauses(id, patch, CategoryKeyName);
      if |setClauses| == 0 {
        return Failure(StatementRejected);
      }
      var first := FirstUpdated(categories, CategoryId, id, CategoryPatcher(patch));
      categories := UpdateWhere(categories, CategoryId, id, CategoryPatcher(patch));
      r := Success(first);
    }

    /** `DELETE FROM categories WHERE id = $1`: no error when no row has the id. */
    method DeleteCategory(id: string) returns (r: Result<(), Error>)
      modifies this`categories
      ensures pool.None? ==> r == Failure(NotConnected) && categories == old(categories)
      ensures pool.Some? ==>
        r == Success(()) && categories == RemoveAllWithId(old(categories), CategoryId, id)
    {
      if pool.None? {
        return Failure(NotConnected);
      }
      categories := RemoveAllWithId(categories, CategoryId, id);
      r := Success(());
    }

    /** `INSERT ... RETURNING *`: `categoryName` is not among the inserted columns. */
    method AddLink(l: NewLink, assignedId: string) returns (r: Result<LinkItem, Error>)
      requires Valid()
      modifies this`links
      ensures Valid()
      ensures pool.None? ==> r == Failure(NotConnected) && links == old(links)
      ensures pool.Some? ==>
        r == Success(InsertedLink(l, assignedId)) && links == old(links) + [r.value]
    {
      if pool.None? {
        return Failure(NotConnected);
      }
      var row := InsertedLink(l, assignedId);
      links := links + [row];
      r := Success(row);
    }

    /** As `UpdateCategory`, on `links`; a defined `categoryName` names no column,
        so PostgreSQL rejects that statement too. */
    method UpdateLink(id: string, patch: Patch<LinkKey>)
      returns (r: Result<Option<LinkItem>, Error>)
      requires Valid() && DistinctKeys(patch)
      modifies this`links
      ensures Valid()
      ensures pool.None? ==> r == Failure(NotConnected) && links == old(links)
      ensures pool.Some? && !LinkSetAccepted(patch) ==>
        r == Failure(StatementRejected) && links == old(links)
      ensures pool.Some? && LinkSetAccepted(patch) ==>
        && links == UpdateWhere(old(links), LinkId, id, LinkPatcher(patch))
        && r == Success(FirstUpdated(old(links), LinkId, id, LinkPatcher(patch)))
    {
      if pool.None? {
        return Failure(NotConnected);
      }
      var setClauses, _ := BuildSetClauses(id, patch, LinkKeyName);
      if |setClauses| == 0 {
        return Failure(StatementRejected);
      }
      if exists i :: 0 <= i < |patch| && patch[i].value.Some? && !IsLinkColumn(patch[i].key) {
        return Failure(StatementRejected);
      }
      var first := FirstUpdated(links, LinkId, id, LinkPatcher(patch));
      links := UpdateWhere(links, LinkId, id, LinkPatcher(patch));
      r := Success(first);
    }

    /** `DELETE FROM links WHERE id = $1`: no error when no row has the id. */
    method DeleteLink(id: string) returns (r: Result<(), Error>)
      requires Valid()
      modifies this`links
      ensures Valid()
      ensures pool.None? ==> r == Failure(NotConnected) && links == old(links)
      ensures pool.Some? ==> r == Success(()) && links == RemoveAllWithId(old(links), LinkId, id)
    {
      if pool.None? {
        return Failure(NotConnected);
      }
      links := RemoveAllWithId(links, LinkId, id);
      r := Success(());
    }
  }
}
