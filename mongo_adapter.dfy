/** The MongoDB implementation of the data-access interface. The driver's
    client and database handles are reduced to the URL and database name they
    were opened with; the two collections are sequences of documents. */
module MongoBackend {
  import opened Entities
  import opened Text
  import opened Tables
  import opened Patches

  datatype MongoClient = MongoClient(url: string)

  datatype Db = Db(name: string)

  /** The database name: `NEXT_PUBLIC_MONGODB_DB || 'navigation'`. */
  function DatabaseName(configured: Option<string>): string
  {
    OrDefault(configured, "navigation")
  }

  /** The application-level id: the current time in milliseconds, in decimal.
      Two documents created in the same millisecond get the same id. */
  function TimestampId(clock: nat): (id: string)
    ensures id != [] && AllDigits(id)
  {
    NatToString(clock)
  }

  class MongoAdapter {
    var client: Option<MongoClient>
    var db: Option<Db>
    var categories: seq<Category>
    var links: seq<LinkItem>

    /** `new MongoAdapter()` over a database holding the given collections. */
    constructor (categories: seq<Category>, links: seq<LinkItem>)
      ensures client.None? && db.None?
      ensures this.categories == categories && this.links == links
    {
      client, db := None, None;
      this.categories := categories;
      this.links := links;
    }

    /** Fails before touching any state when the URL is unset or empty. The
        client is assigned before the handshake, so a server that cannot be
        reached leaves a client but no database handle. */
    method Connect(mongoUrl: Option<string>, dbName: Option<string>, reachable: bool)
      returns (r: Result<(), Error>)
      modifies this`client, this`db
      ensures !Truthy(mongoUrl) ==>
        r == Failure(MongoUrlNotConfigured) && client == old(client) && db == old(db)
      ensures Truthy(mongoUrl) ==> client == Some(MongoClient(mongoUrl.value))
      ensures Truthy(mongoUrl) && !reachable ==> r == Failure(ConnectionRefused) && db == old(db)
      ensures Truthy(mongoUrl) && reachable ==>
        r == Success(()) && db == Some(Db(DatabaseName(dbName)))
    {
      if !Truthy(mongoUrl) {
        return Failure(MongoUrlNotConfigured);
      }
      client := Some(MongoClient(mongoUrl.value));
      if !reachable {
        return Failure(ConnectionRefused);
      }
      db := Some(Db(DatabaseName(dbName)));
      r := Success(());
    }

    /** Closes the client if there is one; always clears both handles. */
    method Disconnect()
      modifies this`client, this`db
      ensures client.None? && db.None?
    {
      client := None;
      db := None;
    }

    method GetCategories() returns (r: Result<seq<Category>, Error>)
      ensures db.None? ==> r == Failure(NotConnected)
      ensures db.Some? ==> r == Success(categories)
    {
      if db.None? {
        return Failure(NotConnected);
      }
      r := Success(categories);
    }

    /** `$lookup` of the categories whose `id` equals the link's `categoryId`,
        `$unwind` (one document per match, none without a match), `$addFields`
        of the matched category's name. */
    method GetLinks() returns (r: Result<seq<LinkItem>, Error>)
      ensures db.None? ==> r == Failure(NotConnected)
      ensures db.Some? ==> r == Success(JoinLinks(links, categories))
    {
      if db.None? {
        return Failure(NotConnected);
      }
      r := Success(JoinLinks(links, categories));
    }

    /** `{ ...category, id }` with a timestamp id, inserted and returned as is. */
    method AddCategory(c: NewCategory, clock: nat) returns (r: Result<Category, Error>)
      modifies this`categories
      ensures db.None? ==> r == Failure(NotConnected) && categories == old(categories)
      ensures db.Some? ==>
        r == Success(CategoryWithId(c, TimestampId(clock))) && categories == old(categories) + [r.value]
    {
      if db.None? {
        return Failure(NotConnected);
      }
      var newCategory := CategoryWithId(c, TimestampId(clock));
      categories := categories + [newCategory];
      r := Success(newCategory);
    }

    /** `findOneAndUpdate({ id }, { $set: patch }, { returnDocument: 'after' })`:
        the first document with the id is merged with the patch and returned;
        without one, "Category not found". */
    method UpdateCategory(id: string, patch: Patch<CategoryKey>)
      returns (r: Result<Category, Error>)
      modifies this`categories
      ensures db.None? ==> r == Failure(NotConnected) && categories == old(categories)
      ensures db.Some? && FirstIndexOf(old(categories), CategoryId, id).None? ==>
        r == Failure(CategoryNotFound) && categories == old(categories)
      ensures db.Some? && FirstIndexOf(old(categories), CategoryId, id).Some? ==>
        var i := FirstIndexOf(old(categories), CategoryId, id).value;
        r == Success(MergeCategory(old(categories)[i], patch)) &&
        categories == old(categories)[i := r.value]
    {
      if db.None? {
        return Failure(NotConnected);
      }
      var found := FirstIndexOf(categories, CategoryId, id);
      if found.None? {
        return Failure(CategoryNotFound);
      }
      var updated := MergeCategory(categories[found.value], patch);
      categories := categories[found.value := updated];
      r := Success(updated);
    }

    /** `deleteOne({ id })`: no error when no document has the id. */
    method DeleteCategory(id: string) returns (r: Result<(), Error>)
      modifies this`categories
      ensures db.None? ==> r == Failure(NotConnected) && categories == old(categories)
      ensures db.Some? ==>
        r == Success(()) && categories == RemoveFirstWithId(old(categories), CategoryId, id)
    {
      if db.None? {
        return Failure(NotConnected);
      }
      categories := RemoveFirstWithId(categories, CategoryId, id);
      r := Success(());
    }

    /** `{ ...link, id }` with a timestamp id, inserted and returned as is. */
    method AddLink(l: NewLink, clock: nat) returns (r: Result<LinkItem, Error>)
      modifies this`links
      ensures db.None? ==> r == Failure(NotConnected) && links == old(links)
      ensures db.Some? ==>
        r == Success(LinkWithId(l, TimestampId(clock))) && links == old(links) + [r.value]
    {
      if db.None? {
        return Failure(NotConnected);
      }
      var newLink := LinkWithId(l, TimestampId(clock));
      links := links + [newLink];
      r := Success(newLink);
    }

    /** As `UpdateCategory`, on `links`, failing with "Link not found". */
    method UpdateLink(id: string, patch: Patch<LinkKey>) returns (r: Result<LinkItem, Error>)
      modifies this`links
      ensures db.None? ==> r == Failure(NotConnected) && links == old(links)
      ensures db.Some? && FirstIndexOf(old(links), LinkId, id).None? ==>
        r == Failure(LinkNotFound) && links == old(links)
      ensures db.Some? && FirstIndexOf(old(links), LinkId, id).Some? ==>
        var i := FirstIndexOf(old(links), LinkId, id).value;
        r == Success(MergeLink(old(links)[i], patch)) && links == old(links)[i := r.value]
    {
      if db.None? {
        return Failure(NotConnected);
      }
      var found := FirstIndexOf(links, LinkId, id);
      if found.None? {
        return Failure(LinkNotFound);
      }
      var updated := MergeLink(links[found.value], patch);
      links := links[found.value := updated];
      r := Success(updated);
    }

    /** `deleteOne({ id })`: no error when no document has the id. */
    method DeleteLink(id: string) returns (r: Result<(), Error>)
      modifies this`links
      ensures db.None? ==> r == Failure(NotConnected) && links == old(links)
      ensures db.Some? ==> r == Success(()) && links == RemoveFirstWithId(old(links), LinkId, id)
    {
      if db.None? {
        return Failure(NotConnected);
      }
      links := RemoveFirstWithId(links, LinkId, id);
      r := Success(());
    }
  }
}
