/** Shared record shapes of the link directory and the failures the storage
    layer and its callers raise. */
module Entities {

  datatype Option<+T> = None | Some(value: T)

  datatype Result<+R, +E> = Success(value: R) | Failure(error: E)

  /** A category as stored; `icon` is optional. */
  datatype Category = Category(
    id: string,
    name: string,
    slug: string,
    createdDate: string,
    icon: Option<string>)

  /** A link as stored or read; `categoryName` is filled in by the join on read. */
  datatype LinkItem = LinkItem(
    id: string,
    title: string,
    url: string,
    categoryId: string,
    categoryName: Option<string>,
    createdDate: string,
    imageUrl: Option<string>,
    aiHint: Option<string>,
    description: Option<string>,
    faviconUrl: Option<string>)

  /** `Omit<Category, 'id'>`: what a caller hands to `addCategory`. */
  datatype NewCategory = NewCategory(
    name: string,
    slug: string,
    createdDate: string,
    icon: Option<string>)

  /** `Omit<LinkItem, 'id'>`: what a caller hands to `addLink`. */
  datatype NewLink = NewLink(
    title: string,
    url: string,
    categoryId: string,
    categoryName: Option<string>,
    createdDate: string,
    imageUrl: Option<string>,
    aiHint: Option<string>,
    description: Option<string>,
    faviconUrl: Option<string>)

  function CategoryWithId(c: NewCategory, id: string): (r: Category)
    ensures r.id == id && r.name == c.name && r.slug == c.slug
    ensures r.createdDate == c.createdDate && r.icon == c.icon
  {
    Category(id, c.name, c.slug, c.createdDate, c.icon)
  }

  function LinkWithId(l: NewLink, id: string): (r: LinkItem)
    ensures r.id == id && r.title == l.title && r.url == l.url
    ensures r.categoryId == l.categoryId && r.categoryName == l.categoryName
    ensures r.createdDate == l.createdDate && r.imageUrl == l.imageUrl
    ensures r.aiHint == l.aiHint && r.description == l.description
    ensures r.faviconUrl == l.faviconUrl
  {
    LinkItem(id, l.title, l.url, l.categoryId, l.categoryName, l.createdDate,
             l.imageUrl, l.aiHint, l.description, l.faviconUrl)
  }

  /** The property names a `Partial<Category>` may carry. */
  datatype CategoryKey = IdKey | NameKey | SlugKey | CreatedDateKey | IconKey

  /** The property names a `Partial<LinkItem>` may carry. */
  datatype LinkKey =
    | LinkIdKey | TitleKey | UrlKey | CategoryIdKey | CategoryNameKey
    | LinkCreatedDateKey | ImageUrlKey | AiHintKey | DescriptionKey | FaviconUrlKey

  /** The property name as JavaScript spells it, which is also the column name. */
  function CategoryKeyName(k: CategoryKey): string
  {
    match k
    case IdKey => "id"
    case NameKey => "name"
    case SlugKey => "slug"
    case CreatedDateKey => "createdDate"
    case IconKey => "icon"
  }

  function LinkKeyName(k: LinkKey): string
  {
    match k
    case LinkIdKey => "id"
    case TitleKey => "title"
    case UrlKey => "url"
    case CategoryIdKey => "categoryId"
    case CategoryNameKey => "categoryName"
    case LinkCreatedDateKey => "createdDate"
    case ImageUrlKey => "imageUrl"
    case AiHintKey => "aiHint"
    case DescriptionKey => "description"
    case FaviconUrlKey => "faviconUrl"
  }

  /** One `[key, value]` pair of `Object.entries(patch)`; `None` is `undefined`. */
  datatype Entry<K> = Entry(key: K, value: Option<string>)

  /** A `Partial<Category>` or `Partial<LinkItem>` as the list of its entries,
      in the order `Object.entries` yields them. */
  type Patch<K> = seq<Entry<K>>

  /** The keys of an object are distinct. */
  predicate DistinctKeys<K(==)>(p: Patch<K>)
  {
    forall i, j :: 0 <= i < j < |p| ==> p[i].key != p[j].key
  }

  /** JavaScript truthiness of an optional string: `undefined` and `''` are falsy. */
  predicate Truthy(s: Option<string>)
  {
    s.Some? && s.value != ""
  }

  /** `s || fallback` */
  function OrDefault(s: Option<string>, fallback: string): (r: string)
    ensures Truthy(s) ==> r == s.value
    ensures !Truthy(s) ==> r == fallback
  {
    if Truthy(s) then s.value else fallback
  }

  /** The errors thrown by the storage layer. */
  datatype Error =
    | NotConnected
    | PostgresUrlNotConfigured
    | MongoUrlNotConfigured
    | ConnectionRefused      // the MongoDB driver could not reach the server
    | CategoryNotFound
    | LinkNotFound
    | UnsupportedDatabaseType(dbType: string)
    | StatementRejected      // PostgreSQL refused the UPDATE statement

  /** Raised by the adapter code itself, as opposed to by a driver or engine. */
  predicate RaisedByAdapter(f: Error)
  {
    !f.ConnectionRefused? && !f.StatementRejected?
  }

  /** The message of each `Error` the adapter code throws. */
  function Message(f: Error): string
    requires RaisedByAdapter(f)
  {
    match f
    case NotConnected => "Database not connected"
    case PostgresUrlNotConfigured => "PostgreSQL Database URL is not configured."
    case MongoUrlNotConfigured => "MongoDB URL is not configured."
    case CategoryNotFound => "Category not found"
    case LinkNotFound => "Link not found"
    case UnsupportedDatabaseType(t) => "Unsupported database type: " + t
  }
}
