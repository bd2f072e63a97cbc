/** `createDatabaseAdapter`: the backend is chosen by the database-type
    setting, compared case-insensitively, PostgreSQL when the setting is unset
    or empty. */
module AdapterFactory {
  import opened Entities
  import opened Text
  import opened PostgresBackend
  import opened MongoBackend

  datatype DatabaseType = PostgreSQL | MongoDB

  /** The tag the setting selects: `NEXT_PUBLIC_DATABASE_TYPE || 'postgresql'`. */
  function TypeTag(dbType: Option<string>): string
  {
    OrDefault(dbType, "postgresql")
  }

  /** The `switch` on the lower-cased tag; an unknown tag is reported as written. */
  function SelectDatabaseType(dbType: Option<string>): (r: Result<DatabaseType, Error>)
    ensures r.Failure? ==> r.error == UnsupportedDatabaseType(TypeTag(dbType))
    ensures r.Failure? ==> Message(r.error) == "Unsupported database type: " + TypeTag(dbType)
  {
    var tag := TypeTag(dbType);
    if ToLower(tag) == "postgresql" then Success(PostgreSQL)
    else if ToLower(tag) == "mongodb" then Success(MongoDB)
    else Failure(UnsupportedDatabaseType(tag))
  }

  /** `s` spells `word` (which is lower case) in any mix of upper and lower case. */
  predicate SpellsIgnoringCase(s: string, word: string)
  {
    |s| == |word| && forall i :: 0 <= i < |s| ==> s[i] == word[i] || s[i] == UpperChar(word[i])
  }

  /** An unset or empty setting selects PostgreSQL. */
  lemma DefaultIsPostgres(dbType: Option<string>)
    requires !Truthy(dbType)
    ensures SelectDatabaseType(dbType) == Success(PostgreSQL)
  {
    assert TypeTag(dbType) == "postgresql";
    ToLowerMatches("postgresql", "postgresql");
  }

  /** A set tag selects a backend exactly when it spells that backend's name in
      any case, and is rejected exactly when it spells neither. */
  lemma SelectionIgnoresCase(tag: string)
    requires tag != ""
    ensures SelectDatabaseType(Some(tag)) == Success(PostgreSQL) <==>
      SpellsIgnoringCase(tag, "postgresql")
    ensures SelectDatabaseType(Some(tag)) == Success(MongoDB) <==>
      SpellsIgnoringCase(tag, "mongodb")
    ensures SelectDatabaseType(Some(tag)).Failure? <==>
      !SpellsIgnoringCase(tag, "postgresql") && !SpellsIgnoringCase(tag, "mongodb")
  {
    ToLowerMatches(tag, "postgresql");
    ToLowerMatches(tag, "mongodb");
  }

  /** The adapter the factory hands out. */
  datatype Adapter = Postgres(pg: PostgresAdapter) | Mongo(mongo: MongoAdapter)

  /** Creates a fresh, unconnected adapter of the selected kind over a store
      holding the given tables. */
  method CreateDatabaseAdapter(dbType: Option<string>, categories: seq<Category>, links: seq<LinkItem>)
    returns (r: Result<Adapter, Error>)
    requires SelectDatabaseType(dbType) == Success(PostgreSQL) ==> NoCategoryNames(links)
    ensures SelectDatabaseType(dbType).Failure? ==> r == Failure(SelectDatabaseType(dbType).error)
    ensures SelectDatabaseType(dbType) == Success(PostgreSQL) ==>
      && r.Success? && r.value.Postgres? && fresh(r.value.pg)
      && r.value.pg.Valid() && r.value.pg.pool.None?
      && r.value.pg.categories == categories && r.value.pg.links == links
    ensures SelectDatabaseType(dbType) == Success(MongoDB) ==>
      && r.Success? && r.value.Mongo? && fresh(r.value.mongo)
      && r.value.mongo.client.None? && r.value.mongo.db.None?
      && r.value.mongo.categories == categories && r.value.mongo.links == links
  {
    match SelectDatabaseType(dbType)
    case Failure(e) =>
      r := Failure(e);
    case Success(PostgreSQL) =>
      var pg := new PostgresAdapter(categories, links);
      r := Success(Postgres(pg));
    case Success(MongoDB) =>
      var mongo := new MongoAdapter(categories, links);
      r := Success(Mongo(mongo));
  }
}
