# Link directory: storage adapters, API routes and page state in Dafny

The system is a small link directory: categories, and links that belong to a
category, kept either in PostgreSQL or in MongoDB behind one data-access
interface, created over HTTP routes, browsed on a public page and managed on
admin pages. This project models:

- the two implementations of the data-access interface, `PostgresAdapter`
  and `MongoAdapter`, as classes whose connection fields (`pool`, or
  `client`/`db`) are assigned by `Connect`/`Disconnect` and guard every
  operation, and whose database is two sequences of records
  (`postgres_adapter.dfy`, `mongo_adapter.dfy`);
- the row operations both backends perform on those sequences: the category
  join of `getLinks` (SQL `JOIN` and `$lookup`/`$unwind`/`$addFields`), find,
  delete and update by id (`tables.dfy`), and the merge of a partial record
  into a stored one (`patches.dfy`);
- the loop that builds the PostgreSQL `UPDATE ... SET` list
  (`set_clause.dfy`) and PostgreSQL's resolution of quoted and unquoted
  column names in the join (`sql_names.dfy`);
- the factory that picks a backend from the database-type setting
  (`factory.dfy`);
- the `GET` and `POST` handlers of `/api/categories` and `/api/links`
  (`categories_route.dfy`, `links_route.dfy`, responses in `http.dfy`);
- the search filter of the public navigation page (`navigation_page.dfy`);
- the list-state transitions of the admin categories page (rename, delete,
  reorder-by-splice with `order` renumbering), of the admin links page
  (delete, URL and category display) and of the navigation manager (load,
  add with form reset, delete) (`admin_categories.dfy`, `admin_links.dfy`,
  `admin_navigation.dfy`).

Shared pieces: `entities.dfy` (records, partial records as key/value entries,
the errors the adapters throw and their messages), `seqs.dfy` (`filter` and
order preservation), `text.dfy` (ASCII `toLowerCase`, `includes`, decimal
rendering of a number and its parse back).

Inputs the code takes from outside are parameters: environment settings are
`Option<string>` values (`None` for unset); the clock is a number (`clock`,
`now`); a database-assigned id is `assignedId`; whether the MongoDB server
answers is `reachable`; whether `getDatabase()` succeeded is `dbReady`; the
outcome of each browser `fetch` is an `Option` or a `bool`; the user's answer
to `window.confirm` is `confirmed`. JavaScript falsiness of a string is
`Entities.Truthy` (unset or empty is falsy).

Decisions where the code leaves the database's behaviour to the engine:

- PostgreSQL rejects an `UPDATE` whose `SET` list is empty (an all-`undefined`
  patch), and one that names `categoryName`, which is not a column of `links`
  (the columns are those its `INSERT` names, plus `id`); both are
  `StatementRejected`.
- PostgreSQL's `UPDATE`/`DELETE ... WHERE id = $1` act on every row with the
  id; `RETURNING *` yields the first updated row, or nothing, which the code
  returns as `rows[0]` without raising: the model returns `Option`.
- MongoDB's `findOneAndUpdate` and `deleteOne` act on the first document
  with the id only; `updateX` raises "Category not found"/"Link not found"
  when there is none. Ids are not assumed unique: the MongoDB ids are the
  clock in milliseconds, and two adds in one millisecond share an id.
  `Tables.RemoveFirstIsRemoveAll` and `Tables.UpdateWhereUnique` show that
  with unique ids the two backends' deletes leave the same table, and so do
  their updates for any patch PostgreSQL accepts (`LinkSetAccepted`: a
  non-empty `SET` list naming only columns of `links`), and
  `Patches.ExecuteCategorySetIsMerge`/`Patches.ExecuteLinkSetIsMerge` show
  that executing the generated `SET` list column by column has the effect of
  MongoDB's `$set` merge. The results still differ: with no row having the
  id PostgreSQL returns nothing while MongoDB raises "Category not
  found"/"Link not found"; an all-`undefined` patch or one setting
  `categoryName` is rejected by PostgreSQL and applied by MongoDB.
- `connect` of the MongoDB adapter assigns `client` before the handshake, so
  an unreachable server leaves `client` set and `db` as it was.

Facts of the code the model keeps: the `SET`-list builder takes every key of
the patch, with no allow-list of column names. The MongoDB `addX` returns the
input object with its id. The PostgreSQL `updateX` raises no not-found error.
Deletes never raise for a missing id. The adapters do no validation.

One statement is modelled as evidently intended rather than as written: the
PostgreSQL join of `getLinks`. The statement as written, and why PostgreSQL
rejects it, are modelled beside it (see "## Findings").

## Model

| member | source | states |
|---|---|---|
| `Entities.CategoryWithId` | src/lib/db-adapter.ts:199 | `{ ...category, id }`: every field of the input is kept and the id is added |
| `Entities.LinkWithId` | src/lib/db-adapter.ts:222 | `{ ...link, id }`: every field of the input is kept and the id is added |
| `PostgresBackend.PostgresAdapter.constructor` | src/lib/db-adapter.ts:38-39 | a new adapter has no pool; the tables are the given ones |
| `PostgresBackend.PostgresAdapter.Connect` | src/lib/db-adapter.ts:41-54 | an unset or empty `DATABASE_URL` fails with "PostgreSQL Database URL is not configured." and leaves the pool as it was; otherwise the pool is opened on that URL |
| `PostgresBackend.PostgresAdapter.Disconnect` | src/lib/db-adapter.ts:56-59 | afterwards there is no pool, whether or not there was one |
| `PostgresBackend.PostgresAdapter.GetCategories` | src/lib/db-adapter.ts:61-67 | without a pool, "Database not connected"; otherwise every category row |
| `PostgresBackend.PostgresAdapter.GetLinks` | src/lib/db-adapter.ts:69-77 | without a pool, "Database not connected"; otherwise, with the join key quoted as intended, exactly the join of links and categories, one row per matching pair |
| `PostgresBackend.PostgresAdapter.AddCategory` | src/lib/db-adapter.ts:79-86 | without a pool, nothing changes; otherwise the row with the database's id is appended and returned |
| `PostgresBackend.PostgresAdapter.UpdateCategory` | src/lib/db-adapter.ts:88-105 | without a pool or with an empty `SET` list nothing changes and it fails; otherwise every row with the id gets the patch merged in and the first such row, or none, is returned |
| `PostgresBackend.PostgresAdapter.DeleteCategory` | src/lib/db-adapter.ts:107-110 | without a pool nothing changes; otherwise every row with the id is removed, and a missing id is no error |
| `PostgresBackend.PostgresAdapter.AddLink` | src/lib/db-adapter.ts:112-120 | the inserted row is the input with the id and without `categoryName`; the table stays free of `categoryName` |
| `PostgresBackend.PostgresAdapter.UpdateLink` | src/lib/db-adapter.ts:122-139 | as for categories; a patch that defines `categoryName` is rejected, since `links` has no such column |
| `PostgresBackend.PostgresAdapter.DeleteLink` | src/lib/db-adapter.ts:141-144 | without a pool nothing changes; otherwise every row with the id is removed, and a missing id is no error |
| `SetClause.BuildSetClauses` | src/lib/db-adapter.ts:90-100 | `values[0]` is the id, there is one more value than clauses, and the k-th clause is `"key" = $(k+2)` for the k-th entry with a defined value, whose value is `values[k+1]` |
| `SetClause.DefinedEmpty` | src/lib/db-adapter.ts:94-95 | the `SET` list is empty exactly when every value of the patch is `undefined` |
| `SetClause.ClauseQuotesColumn` | src/lib/db-adapter.ts:96 | the clause names the column quoted, exactly as the patch's key is written |
| `SetClause.JoinWith` | src/lib/db-adapter.ts:102 | `join(', ')` of non-empty parts is empty exactly when there are no parts |
| `SetClause.EmptySetListIff` | src/lib/db-adapter.ts:102 | with non-empty clauses, the statement has nothing between `SET` and `WHERE` exactly when there are no clauses |
| `SetClause.EmptyStatementExactlyWhenUndefined` | src/lib/db-adapter.ts:94-102 | the statement built from the loop's clauses has an empty `SET` list exactly when every value of the patch is `undefined` |
| `SetClause.ClausePlaceholder` | src/lib/db-adapter.ts:96 | a clause ends in `$` and digits that read back as its parameter number |
| `SqlNames.Resolve` | src/lib/db-adapter.ts:72-74 | a quoted identifier names the column as written; an unquoted one names its lower-case form |
| `SqlNames.JoinAsWrittenRejected` | src/lib/db-adapter.ts:72-74 | the join as written names `l.categoryId` unquoted, which denotes `categoryid`, not a column of `links`; PostgreSQL rejects the query whatever the tables hold |
| `SqlNames.NotALinkColumn` | src/lib/db-adapter.ts:115 | the folded join key is none of the columns the `INSERT` creates |
| `SqlNames.JoinCorrectedAccepted` | src/lib/db-adapter.ts:72-74 | with the join key quoted the query yields the join |
| `Patches.Lookup` | src/lib/db-adapter.ts:94-95 | the value a patch gives a key is the value of one of its entries with that key; `undefined` entries give none |
| `Patches.MergeCategory` | src/lib/db-adapter.ts:206-210 | `$set` with a patch whose values are all `undefined` leaves the category as it was |
| `Patches.MergeLink` | src/lib/db-adapter.ts:229-233 | `$set` with a patch whose values are all `undefined` leaves the link as it was |
| `Patches.MergeCategoryFields` | src/lib/db-adapter.ts:206-210 | after `$set: patch` every field the patch defines has the patch's value and every other field keeps its value |
| `Patches.MergeLinkFields` | src/lib/db-adapter.ts:229-233 | the same for links |
| `Patches.MergeCategoryIdempotent` | src/lib/db-adapter.ts:206-210 | setting the same patch again changes nothing |
| `Patches.MergeLinkIdempotent` | src/lib/db-adapter.ts:229-233 | setting the same patch again changes nothing |
| `Patches.ExecuteCategorySetIsMerge` | src/lib/db-adapter.ts:94-103 | executing the generated `SET` assignments in order on a row has the effect of merging the patch |
| `Patches.ExecuteLinkSetIsMerge` | src/lib/db-adapter.ts:128-137 | the same for links whose patch leaves `categoryName` undefined |
| `Tables.JoinOneRows` | src/lib/db-adapter.ts:71-75 | a link contributes one row per category with its id, in table order, each carrying that category's name |
| `Tables.JoinOneMembers` | src/lib/db-adapter.ts:176-193 | the rows of one link are exactly the link joined with each matching category |
| `Tables.JoinLinksMembers` | src/lib/db-adapter.ts:174-195 | a record is in the join exactly when it is some link joined with some category whose id is the link's `categoryId` |
| `Tables.JoinLinksAppend` | src/lib/db-adapter.ts:71-75 | the join of two lists of links is the concatenation of their joins |
| `Tables.ResolvesIff` | src/lib/db-adapter.ts:74 | a link refers to an existing category exactly when it has matching categories |
| `Tables.JoinOneDangling` | src/lib/db-adapter.ts:186 | a link whose `categoryId` matches no category contributes no row (`$unwind` drops it) |
| `Tables.JoinIgnoresDangling` | src/lib/db-adapter.ts:176-193 | the join equals the join of only the links whose category exists |
| `Tables.CategoriesOfUnique` | src/lib/db-adapter.ts:176-186 | with unique category ids a link has one matching category if it resolves and none otherwise |
| `Tables.JoinCountUnique` | src/lib/db-adapter.ts:69-77 | with unique category ids the join has exactly one row per resolving link |
| `Tables.FirstIndexOf` | src/lib/db-adapter.ts:206-207 | the position of the first record with the id, or none when no record has it |
| `Tables.RemoveAllSpec` | src/lib/db-adapter.ts:109 | after the delete no row has the id and every other row remains, in order |
| `Tables.RemoveAllUnchangedIff` | src/lib/db-adapter.ts:109 | the delete leaves the table as it was exactly when no row has the id |
| `Tables.RemoveFirstSpec` | src/lib/db-adapter.ts:217 | `deleteOne` removes one record, the first with the id, or nothing when none has it |
| `Tables.RemoveFirstIsRemoveAll` | src/lib/db-adapter.ts:215-218 | with unique ids `deleteOne` removes exactly what the SQL delete removes |
| `Tables.RemoveAllAroundOnly` | src/lib/db-adapter.ts:109 | when only one position holds the id, the delete removes just that row and keeps the rest in order |
| `Tables.UpdateWhere` | src/lib/db-adapter.ts:102-103 | every record with the id is replaced by its update; every other record is unchanged |
| `Tables.UpdateWhereUnique` | src/lib/db-adapter.ts:204-213 | with unique ids updating every record with the id is updating the first one, and nothing changes without one |
| `PostgresBackend.FirstUpdated` | src/lib/db-adapter.ts:104 | `rows[0]` of `RETURNING *`: nothing exactly when no row has the id, else the update of the first row with it |
| `PostgresBackend.InsertedLink` | src/lib/db-adapter.ts:114-119 | the inserted row has the database's id, the eight columns the `INSERT` lists, and no `categoryName` |
| `MongoBackend.TimestampId` | src/lib/db-adapter.ts:199 | the id is a non-empty string of decimal digits |
| `Text.NatToString` | src/lib/db-adapter.ts:199 | `getTime().toString()` is non-empty, all digits, without a leading zero |
| `Text.ParseNatToString` | src/lib/db-adapter.ts:199 | the id reads back as the clock value it was made from |
| `Text.NatToStringInjective` | src/lib/db-adapter.ts:222 | different clock readings give different ids |
| `MongoBackend.MongoAdapter.constructor` | src/lib/db-adapter.ts:147-149 | a new adapter has neither client nor database handle |
| `MongoBackend.MongoAdapter.Connect` | src/lib/db-adapter.ts:151-161 | an unset or empty URL fails with "MongoDB URL is not configured." and changes nothing; otherwise the client is set, and the database handle is opened only when the server answers |
| `MongoBackend.MongoAdapter.Disconnect` | src/lib/db-adapter.ts:163-167 | afterwards neither handle is set |
| `MongoBackend.MongoAdapter.GetCategories` | src/lib/db-adapter.ts:169-172 | without a database, "Database not connected"; otherwise every document |
| `MongoBackend.MongoAdapter.GetLinks` | src/lib/db-adapter.ts:174-195 | without a database, "Database not connected"; otherwise the join of links and categories |
| `MongoBackend.MongoAdapter.AddCategory` | src/lib/db-adapter.ts:197-202 | the stored document and the returned one are both the input with the timestamp id, appended |
| `MongoBackend.MongoAdapter.UpdateCategory` | src/lib/db-adapter.ts:204-213 | the first document with the id gets the patch merged in and is returned; every other document is unchanged; no match fails with "Category not found" and changes nothing |
| `MongoBackend.MongoAdapter.DeleteCategory` | src/lib/db-adapter.ts:215-218 | the first document with the id is removed; a missing id is no error |
| `MongoBackend.MongoAdapter.AddLink` | src/lib/db-adapter.ts:220-225 | the stored document and the returned one are both the input with the timestamp id, appended |
| `MongoBackend.MongoAdapter.UpdateLink` | src/lib/db-adapter.ts:227-236 | as for categories, failing with "Link not found" |
| `MongoBackend.MongoAdapter.DeleteLink` | src/lib/db-adapter.ts:238-241 | the first document with the id is removed; a missing id is no error |
| `AdapterFactory.SelectDatabaseType` | src/lib/db-adapter.ts:245-255 | a failure is `UnsupportedDatabaseType` of the tag as written (the setting, or `postgresql` when unset or empty), whose message is "Unsupported database type: " followed by that tag |
| `AdapterFactory.DefaultIsPostgres` | src/lib/db-adapter.ts:246 | an unset or empty setting selects PostgreSQL |
| `AdapterFactory.SelectionIgnoresCase` | src/lib/db-adapter.ts:248-254 | a tag selects a backend exactly when it spells `postgresql` or `mongodb` in any mix of case, and fails exactly when it spells neither |
| `AdapterFactory.CreateDatabaseAdapter` | src/lib/db-adapter.ts:245-255 | the adapter returned is new, of the selected kind, and not connected; an unknown tag is the failure |
| `Text.ToLower` | src/lib/db-adapter.ts:248 | `toLowerCase` keeps the length and lower-cases each letter |
| `Text.Includes` | src/app/navigation/page.tsx:64 | a string includes only strings no longer than itself |
| `Text.IncludesAt` | src/app/navigation/page.tsx:64 | `s.includes(t)` holds exactly when `t` occurs in `s` at some offset |
| `Entities.OrDefault` | src/app/api/categories/route.ts:36 | `value \|\| fallback`: the value when set and non-empty, else the fallback (`''` here, `'navigation'` for the Mongo database name at src/lib/db-adapter.ts:159, `'postgresql'` for the database type at :246) |
| `Seqs.Filter` | src/app/navigation/page.tsx:62 | `filter` keeps exactly the elements the test accepts, in order |
| `Text.ToLowerMatches` | src/lib/db-adapter.ts:248 | lower-casing yields a lower-case word exactly when the input spells it with any letters in upper case |
| `Http.FetchResponse` | src/app/api/categories/route.ts:5-17 | status 200 with what the read yielded exactly when the database and the read succeed, else status 500 with the handler's message; `CategoriesRoute.GetCategories` passes "获取分类列表失败" and `LinksRoute.GetLinks` (src/app/api/links/route.ts:5-17) "获取链接列表失败" |
| `CategoriesRoute.CategoryRecord` | src/app/api/categories/route.ts:32-37 | `name` and `slug` copied, `createdDate` the server time, `icon` the request's when non-empty and `''` otherwise |
| `CategoriesRoute.PostCategory` | src/app/api/categories/route.ts:19-48 | 400 "名称和标识符是必填项" exactly when `name` or `slug` is missing or empty; 201 with exactly what `addCategory` returned when it succeeds; 500 "创建分类失败" otherwise |
| `CategoriesRoute.RejectedWithoutStoring` | src/app/api/categories/route.ts:25-30 | a request missing a required field gets 400 whatever `addCategory` would do: it is never called |
| `CategoriesRoute.OtherFieldsDropped` | src/app/api/categories/route.ts:32-37 | a caller's `id` or `createdDate` does not reach the stored record |
| `LinksRoute.Defaulted` | src/app/api/links/route.ts:37-40 | `value \|\| ''`: the value when non-empty, else the empty string |
| `LinksRoute.LinkRecord` | src/app/api/links/route.ts:32-41 | `title`, `url`, `categoryId` copied, `createdDate` the server time, no `categoryName`, and the four optional fields the request's when non-empty and `''` otherwise |
| `LinksRoute.PostLink` | src/app/api/links/route.ts:19-52 | 400 "标题、URL和分类ID是必填项" exactly when `title`, `url` or `categoryId` is missing or empty; 201 with what `addLink` returned when it succeeds; 500 "创建链接失败" otherwise |
| `LinksRoute.RejectedWithoutStoring` | src/app/api/links/route.ts:25-30 | a request missing a required field gets 400 whatever `addLink` would do: it is never called |
| `LinksRoute.OtherFieldsDropped` | src/app/api/links/route.ts:32-41 | a caller's `id`, `categoryName` or `createdDate` does not reach the stored record |
| `NavigationPage.FilteredLinks` | src/app/navigation/page.tsx:62-70 | a link is shown exactly when it is in the list and passes both the search and the category test |
| `NavigationPage.ShowsEverythingUnfiltered` | src/app/navigation/page.tsx:62-70 | with an empty term and no selected category every link is shown, in order |
| `NavigationPage.ShownInOrder` | src/app/navigation/page.tsx:62 | the links shown are an order-preserving subsequence of all links |
| `NavigationPage.SearchFindsOccurrence` | src/app/navigation/page.tsx:63-65 | a link passes the search exactly when the term is empty or the lower-cased term occurs in the lower-cased title or description |
| `NavigationPage.SearchIgnoresCase` | src/app/navigation/page.tsx:63-65 | the case of the term's letters does not change what is shown |
| `NavigationPage.ClearingSearchKeepsLinks` | src/app/navigation/page.tsx:63-69 | clearing the search term never hides a link |
| `NavigationPage.ClearingCategoryKeepsLinks` | src/app/navigation/page.tsx:67-69 | clearing the selected category never hides a link |
| `AdminCategories.Renamer` | src/app/admin/categories/page.tsx:68-70 | `{ ...category, name: newName }` sets the name and changes nothing else |
| `AdminCategories.RemoveAt` | src/app/admin/categories/page.tsx:97 | `splice(startIndex, 1)` drops the element at the index and shifts the later ones down |
| `AdminCategories.InsertAt` | src/app/admin/categories/page.tsx:98 | `splice(endIndex, 0, removed)` puts the element at the index and shifts the later ones up |
| `AdminCategories.InsertPosition` | src/app/admin/categories/page.tsx:98 | `splice` inserts at the given index, or at the end when the index is past it |
| `AdminCategories.Moved` | src/app/admin/categories/page.tsx:96-98 | the moved element lands at its target and the length is kept |
| `AdminCategories.Renumbered` | src/app/admin/categories/page.tsx:101-104 | each entry's `order` is its index and its category is unchanged |
| `AdminCategories.SpliceIsMove` | src/app/admin/categories/page.tsx:96-98 | the two splices move the element at `startIndex` to its target and shift the ones between by one |
| `AdminCategories.MovePermutes` | src/app/admin/categories/page.tsx:96-98 | the reordered list is a permutation of the old one |
| `AdminCategories.MoveKeepsOthersInOrder` | src/app/admin/categories/page.tsx:96-98 | without the moved element the new list is the old list without it: the others keep their relative order |
| `AdminCategories.ReorderNumbersPositions` | src/app/admin/categories/page.tsx:95-104 | the list sent has the old categories rearranged, the moved one at its target, and `order` equal to each position |
| `AdminCategories.AdminCategoriesPage.constructor` | src/app/admin/categories/page.tsx:37 | the page starts with the given list |
| `AdminCategories.AdminCategoriesPage.HandleEdit` | src/app/admin/categories/page.tsx:57-76 | after a successful PUT every entry with the id is renamed; after a failed one the list is unchanged |
| `AdminCategories.AdminCategoriesPage.HandleDelete` | src/app/admin/categories/page.tsx:78-93 | only a confirmed, successful delete removes the entries with the id; otherwise the list is unchanged |
| `AdminCategories.AdminCategoriesPage.HandleReorder` | src/app/admin/categories/page.tsx:95-123 | the list sent is the moved and renumbered list; it replaces the page's list on success, and the list is unchanged on failure |
| `AdminCategories.RenameTouchesOnlyName` | src/app/admin/categories/page.tsx:68-70 | a rename changes only the `name` of the entries with the id; other fields and entries are untouched |
| `AdminCategories.RenameIdempotent` | src/app/admin/categories/page.tsx:68-70 | renaming twice to the same name is renaming once |
| `AdminLinks.AfterDelete` | src/app/admin/links/page.tsx:77-92 | without confirmation or on a failed request the list is unchanged |
| `AdminLinks.DeleteRemovesExactlyTheId` | src/app/admin/links/page.tsx:85 | after a delete no link has the id, the others remain in order, and nothing changes when none had it |
| `AdminLinks.UrlDisplay` | src/app/admin/links/page.tsx:135 | a URL of at most 30 characters is shown as is; a longer one is shown in exactly 33; never more than 33 |
| `AdminLinks.LongUrlShowsPrefix` | src/app/admin/links/page.tsx:135 | a long URL is shown as its first 30 characters and `...` |
| `AdminLinks.CategoryDisplay` | src/app/admin/links/page.tsx:139 | the category name when non-empty, else `N/A` |
| `AdminNavigation.NavigationManager.constructor` | src/app/admin/navigation/page.tsx:33-41 | both lists and both forms start empty |
| `AdminNavigation.NavigationManager.LoadData` | src/app/admin/navigation/page.tsx:47-63 | a successful load replaces both lists; a failed one changes nothing |
| `AdminNavigation.NavigationManager.HandleAddCategory` | src/app/admin/navigation/page.tsx:65-92 | the request body is the form plus `createdDate`; on success the returned category is appended and the form cleared; on failure nothing changes |
| `AdminNavigation.NavigationManager.HandleAddLink` | src/app/admin/navigation/page.tsx:94-126 | the request body is the form plus `createdDate`; on success the returned link is appended and all four fields cleared; on failure nothing changes |
| `AdminNavigation.NavigationManager.HandleDeleteCategory` | src/app/admin/navigation/page.tsx:128-148 | on success every category with the id is dropped; on failure nothing changes |
| `AdminNavigation.NavigationManager.HandleDeleteLink` | src/app/admin/navigation/page.tsx:150-170 | on success every link with the id is dropped; on failure nothing changes |
| `AdminNavigation.DeleteUndoesAdd` | src/app/admin/navigation/page.tsx:136 | deleting the id of an entry just appended, when no other entry had it, restores the list |
| `AdminNavigation.DeleteKeepsOthersInOrder` | src/app/admin/navigation/page.tsx:158 | a delete keeps every other entry, as many times as it occurred, in order, and leaves none with the id |

## Left out

- The `pg` pool and the MongoDB client are reduced to the values they are opened with; the SQL and aggregation text is not modelled except the `SET` list and the join key's quoting. SSL options and `console` logging are left out.
- Row order: `SELECT` without `ORDER BY`, and `RETURNING *` of an `UPDATE`, have no defined order; the model returns rows in table order, so `PostgresBackend.FirstUpdated` takes the first updated row in table order as `rows[0]`.
- MongoBackend.MongoAdapter.GetLinks: the joined documents also carry `_id` and the embedded `category` document that `$unwind` leaves in place (there is no `$project`); records here have no such fields.
- MongoBackend.MongoAdapter.GetCategories: the documents' `_id` field is not modelled.
- MongoBackend.MongoAdapter.AddCategory: `insertOne` adds `_id` to the very object that is then returned; records here have no such field. The same holds for `MongoBackend.MongoAdapter.AddLink`.
- PostgresBackend.PostgresAdapter.GetLinks: models the join with the key quoted (`l."categoryId"`), as evidently intended; the statement as written, with `l.categoryId` unquoted, is rejected on every connected call, which `SqlNames.JoinAsWrittenRejected` shows.
- MongoBackend.MongoAdapter.UpdateCategory: an `undefined` value in the patch is treated as absent; the driver's serialization of `undefined` (stored as `null` unless `ignoreUndefined` is set) is not modelled. The same holds for `MongoBackend.MongoAdapter.UpdateLink`.
- PostgresBackend.PostgresAdapter.Disconnect: when `pool.end()` rejects, the source skips clearing the pool; the model always clears it, since shutdown errors are not modelled.
- MongoBackend.MongoAdapter.Connect: the handshake is reduced to `reachable`; errors of `client.close()` in `Disconnect` are not modelled.
- PostgresBackend.PostgresAdapter.AddCategory: database-assigned values other than the id (column defaults, type conversions) are not modelled; the id is the parameter `assignedId`.
- PostgresBackend.PostgresAdapter.DeleteCategory: foreign-key behaviour of `links.categoryId` (rejecting or cascading the delete, rejecting an insert with an unknown category) depends on a schema that is not part of this model.
- PostgresBackend.PostgresAdapter.UpdateLink: the rejection of a defined `categoryName` rests on the columns the `INSERT` statement names; the table definition is not part of this model.
- Identifier case folding is modelled for the join key only; every other identifier in the statements is quoted or already lower case.
- Text.ToLower: `toLowerCase` is restricted to ASCII letters; other Unicode case mappings are not modelled.
- AdminLinks.UrlDisplay: JavaScript counts string length in UTF-16 code units; the model counts characters.
- Request bodies carry strings or nothing: JSON numbers, objects or `null` in a field are not modelled; an unparseable body is `None`.
- `getDatabase` from `@/lib/database` is not part of this model; its outcome is `dbReady`.
- AdminCategories.AdminCategoriesPage.HandleReorder: requires `startIndex` in range; `splice` with an out-of-range start inserts `undefined`, and negative indices count from the end, neither of which is modelled. The page's Reorder button passes its click event as `startIndex` (line 134), which is not modelled either.
- AdminCategories.AdminCategoriesPage.HandleEdit: the page's Edit button passes no new name (line 167); a rename to `undefined` is not modelled.
- The admin pages' initial fetch effects, router navigation, alerts and toasts are not modelled; the fetch effects also call setters the files do not define (`setError`, and `setCategories` on the links page).
- The navigation manager's form `onChange` handlers are not modelled; the link form's `description` has no input field, so it stays `''`.
- The public page's `loadData` (connect, `Promise.all`, disconnect from the browser) is not modelled; its list state is the input of `NavigationPage.FilteredLinks`.
- Async interleaving: every handler and adapter call is atomic and sequential.
- `test-db.js` and the `/api/navigation` routes are thin connection glue and are not part of this model.

## Findings

| source | as written | input that shows it | evidently intended | confidence | as-written member | corrected member |
|---|---|---|---|---|---|---|
| src/lib/db-adapter.ts:72-74 | the join names `l.categoryId` unquoted; PostgreSQL folds it to `categoryid`, while the `INSERT` at line 115 uses the quoted, mixed-case column `"categoryId"` | any `getLinks` on a connected PostgreSQL adapter whose `links` table has the columns its `INSERT` names | join on `l."categoryId"` | not executed; assumes the table was created with the quoted column names the `INSERT` uses | `SqlNames.JoinAsWrittenRejected` | `SqlNames.JoinCorrectedAccepted` |
