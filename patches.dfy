/** Partial updates. A patch (`Partial<Category>`, `Partial<LinkItem>`) is
    merged field by field into a stored record: MongoDB's `$set` merges the
    patch object, and PostgreSQL executes the assignments of the generated
    `SET` list one column at a time. Both are defined here, and shown to agree. */
module Patches {
  import opened Entities
  import opened Seqs

  /** The value the patch gives `key`; an `undefined` value gives none. */
  function Lookup<K(==)>(p: Patch<K>, key: K): (r: Option<string>)
    ensures r.Some? ==> exists i :: 0 <= i < |p| && p[i] == Entry(key, r)
    ensures r.None? ==> forall i :: 0 <= i < |p| && p[i].key == key ==> p[i].value.None?
  {
    if p == [] then None
    else if p[0].key == key && p[0].value.Some? then p[0].value
    else Lookup(p[1..], key)
  }

  /** With distinct keys, the value an entry carries is the value of its key. */
  lemma LookupEntry<K>(p: Patch<K>, i: int)
    requires DistinctKeys(p) && 0 <= i < |p| && p[i].value.Some?
    ensures Lookup(p, p[i].key) == p[i].value
  {
  }

  function Override(current: string, v: Option<string>): string
  {
    if v.Some? then v.value else current
  }

  function OverrideOptional(current: Option<string>, v: Option<string>): Option<string>
  {
    if v.Some? then v else current
  }

  /** The fields of a category by name; `icon` may be absent. */
  function CategoryField(c: Category, k: CategoryKey): Option<string>
  {
    match k
    case IdKey => Some(c.id)
    case NameKey => Some(c.name)
    case SlugKey => Some(c.slug)
    case CreatedDateKey => Some(c.createdDate)
    case IconKey => c.icon
  }

  /** The fields of a link by name; the optional ones may be absent. */
  function LinkField(l: LinkItem, k: LinkKey): Option<string>
  {
    match k
    case LinkIdKey => Some(l.id)
    case TitleKey => Some(l.title)
    case UrlKey => Some(l.url)
    case CategoryIdKey => Some(l.categoryId)
    case CategoryNameKey => l.categoryName
    case LinkCreatedDateKey => Some(l.createdDate)
    case ImageUrlKey => l.imageUrl
    case AiHintKey => l.aiHint
    case DescriptionKey => l.description
    case FaviconUrlKey => l.faviconUrl
  }

  /** `$set: patch` applied to a stored category. */
  function MergeCategory(c: Category, p: Patch<CategoryKey>): (r: Category)
    ensures (forall i :: 0 <= i < |p| ==> p[i].value.None?) ==> r == c
  {
    Category(
      Override(c.id, Lookup(p, IdKey)),
      Override(c.name, Lookup(p, NameKey)),
      Override(c.slug, Lookup(p, SlugKey)),
      Override(c.createdDate, Lookup(p, CreatedDateKey)),
      OverrideOptional(c.icon, Lookup(p, IconKey)))
  }

  /** `$set: patch` applied to a stored link. */
  function MergeLink(l: LinkItem, p: Patch<LinkKey>): (r: LinkItem)
    ensures (forall i :: 0 <= i < |p| ==> p[i].value.None?) ==> r == l
  {
    LinkItem(
      Override(l.id, Lookup(p, LinkIdKey)),
      Override(l.title, Lookup(p, TitleKey)),
      Override(l.url, Lookup(p, UrlKey)),
      Override(l.categoryId, Lookup(p, CategoryIdKey)),
      OverrideOptional(l.categoryName, Lookup(p, CategoryNameKey)),
      Override(l.createdDate, Lookup(p, LinkCreatedDateKey)),
      OverrideOptional(l.imageUrl, Lookup(p, ImageUrlKey)),
      OverrideOptional(l.aiHint, Lookup(p, AiHintKey)),
      OverrideOptional(l.description, Lookup(p, DescriptionKey)),
      OverrideOptional(l.faviconUrl, Lookup(p, FaviconUrlKey)))
  }

  /** A merged category: every field the patch defines takes the patch's value,
      every other field keeps the stored value. */
  lemma MergeCategoryFields(c: Category, p: Patch<CategoryKey>, k: CategoryKey)
    requires DistinctKeys(p)
    ensures forall i :: 0 <= i < |p| && p[i].key == k && p[i].value.Some? ==>
      CategoryField(MergeCategory(c, p), k) == p[i].value
    ensures (forall i :: 0 <= i < |p| && p[i].key == k ==> p[i].value.None?) ==>
      CategoryField(MergeCategory(c, p), k) == CategoryField(c, k)
  {
    forall i | 0 <= i < |p| && p[i].key == k && p[i].value.Some?
      ensures CategoryField(MergeCategory(c, p), k) == p[i].value
    {
      LookupEntry(p, i);
    }
  }

  /** A merged link: every field the patch defines takes the patch's value,
      every other field keeps the stored value. */
  lemma MergeLinkFields(l: LinkItem, p: Patch<LinkKey>, k: LinkKey)
    requires DistinctKeys(p)
    ensures forall i :: 0 <= i < |p| && p[i].key == k && p[i].value.Some? ==>
      LinkField(MergeLink(l, p), k) == p[i].value
    ensures (forall i :: 0 <= i < |p| && p[i].key == k ==> p[i].value.None?) ==>
      LinkField(MergeLink(l, p), k) == LinkField(l, k)
  {
    forall i | 0 <= i < |p| && p[i].key == k && p[i].value.Some?
      ensures LinkField(MergeLink(l, p), k) == p[i].value
    {
      LookupEntry(p, i);
    }
  }

  /** Merging the same patch again changes nothing. */
  lemma MergeCategoryIdempotent(c: Category, p: Patch<CategoryKey>)
    ensures MergeCategory(MergeCategory(c, p), p) == MergeCategory(c, p)
  {
  }

  lemma MergeLinkIdempotent(l: LinkItem, p: Patch<LinkKey>)
    ensures MergeLink(MergeLink(l, p), p) == MergeLink(l, p)
  {
  }

  // ---------------------------------------------------------------------------
  // The PostgreSQL side: the SET list assigns the defined entries in key order.

  predicate IsDefined<K>(e: Entry<K>)
  {
    e.value.Some?
  }

  /** The entries the SET-clause builder keeps: those whose value is not `undefined`. */
  function Defined<K>(p: Patch<K>): seq<Entry<K>>
  {
    Filter(p, IsDefined)
  }

  /** Whether a link property is a column of the `links` table: the columns are
      those of its INSERT statement and `id`; `categoryName` is computed by
      the join and is not one. */
  predicate IsLinkColumn(k: LinkKey)
  {
    !k.CategoryNameKey?
  }

  /** One `"column" = value` assignment executed on a category row. */
  function SetCategoryColumn(c: Category, column: CategoryKey, v: string): Category
  {
    match column
    case IdKey => c.(id := v)
    case NameKey => c.(name := v)
    case SlugKey => c.(slug := v)
    case CreatedDateKey => c.(createdDate := v)
    case IconKey => c.(icon := Some(v))
  }

  /** One `"column" = value` assignment executed on a link row. */
  function SetLinkColumn(l: LinkItem, column: LinkKey, v: string): LinkItem
    requires IsLinkColumn(column)
  {
    match column
    case LinkIdKey => l.(id := v)
    case TitleKey => l.(title := v)
    case UrlKey => l.(url := v)
    case CategoryIdKey => l.(categoryId := v)
    case LinkCreatedDateKey => l.(createdDate := v)
    case ImageUrlKey => l.(imageUrl := Some(v))
    case AiHintKey => l.(aiHint := Some(v))
    case DescriptionKey => l.(description := Some(v))
    case FaviconUrlKey => l.(faviconUrl := Some(v))
  }

  predicate AllDefined<K>(d: seq<Entry<K>>)
  {
    forall k :: 0 <= k < |d| ==> d[k].value.Some?
  }

  /** The assignments of a SET list executed in order on a category row. */
  function ExecuteCategorySet(c: Category, d: seq<Entry<CategoryKey>>): Category
    requires AllDefined(d)
    decreases |d|
  {
    if d == [] then c
    else ExecuteCategorySet(SetCategoryColumn(c, d[0].key, d[0].value.value), d[1..])
  }

  /** The assignments of a SET list executed in order on a link row. */
  function ExecuteLinkSet(l: LinkItem, d: seq<Entry<LinkKey>>): LinkItem
    requires AllDefined(d) && forall k :: 0 <= k < |d| ==> IsLinkColumn(d[k].key)
    decreases |d|
  {
    if d == [] then l
    else ExecuteLinkSet(SetLinkColumn(l, d[0].key, d[0].value.value), d[1..])
  }

  lemma {:induction false} LookupAfterFirst<K>(p: Patch<K>, key: K)
    requires p != [] && (p[0].key != key || p[0].value.None?)
    ensures Lookup(p, key) == Lookup(p[1..], key)
  {
  }

  /** Executing the SET list built from a patch has the effect of `$set` with
      that patch: the two backends update a category alike. */
  lemma {:induction false} ExecuteCategorySetIsMerge(c: Category, p: Patch<CategoryKey>)
    requires DistinctKeys(p)
    ensures AllDefined(Defined(p))
    ensures ExecuteCategorySet(c, Defined(p)) == MergeCategory(c, p)
    decreases |p|
  {
    if p != [] {
      var e, rest := p[0], p[1..];
      if e.value.Some? {
        var c' := SetCategoryColumn(c, e.key, e.value.value);
        ExecuteCategorySetIsMerge(c', rest);
        assert Defined(p) == [e] + Defined(rest);
        assert Lookup(rest, e.key) == None;
        forall k | k != e.key ensures Lookup(p, k) == Lookup(rest, k) {
          LookupAfterFirst(p, k);
        }
      } else {
        ExecuteCategorySetIsMerge(c, rest);
        forall k ensures Lookup(p, k) == Lookup(rest, k) {
          LookupAfterFirst(p, k);
        }
      }
    }
  }

  /** The first defined entry of a link patch can be executed on its own. */
  lemma MergeLinkFirst(l: LinkItem, p: Patch<LinkKey>)
    requires DistinctKeys(p) && p != [] && p[0].value.Some? && IsLinkColumn(p[0].key)
    ensures MergeLink(l, p) == MergeLink(SetLinkColumn(l, p[0].key, p[0].value.value), p[1..])
  {
    var e, rest := p[0], p[1..];
    assert Lookup(rest, e.key) == None;
    forall k | k != e.key ensures Lookup(p, k) == Lookup(rest, k) {
      LookupAfterFirst(p, k);
    }
    match e.key
    case LinkIdKey =>
    case TitleKey =>
    case UrlKey =>
    case CategoryIdKey =>
    case LinkCreatedDateKey =>
    case ImageUrlKey =>
    case AiHintKey =>
    case DescriptionKey =>
    case FaviconUrlKey =>
  }

  /** An undefined first entry of a link patch contributes nothing. */
  lemma MergeLinkSkip(l: LinkItem, p: Patch<LinkKey>)
    requires p != [] && p[0].value.None?
    ensures MergeLink(l, p) == MergeLink(l, p[1..])
  {
    forall k ensures Lookup(p, k) == Lookup(p[1..], k) {
      LookupAfterFirst(p, k);
    }
  }

  /** Executing the SET list built from a link patch that leaves `categoryName`
      undefined has the effect of `$set` with that patch. */
  lemma {:induction false} ExecuteLinkSetIsMerge(l: LinkItem, p: Patch<LinkKey>)
    requires DistinctKeys(p)
    requires forall i :: 0 <= i < |p| && p[i].value.Some? ==> IsLinkColumn(p[i].key)
    ensures AllDefined(Defined(p)) && forall k :: 0 <= k < |Defined(p)| ==> IsLinkColumn(Defined(p)[k].key)
    ensures ExecuteLinkSet(l, Defined(p)) == MergeLink(l, p)
    decreases |p|
  {
    if p != [] {
      var e, rest := p[0], p[1..];
      if e.value.Some? {
        var l' := SetLinkColumn(l, e.key, e.value.value);
        ExecuteLinkSetIsMerge(l', rest);
        assert Defined(p) == [e] + Defined(rest);
        MergeLinkFirst(l, p);
      } else {
        ExecuteLinkSetIsMerge(l, rest);
        MergeLinkSkip(l, p);
      }
    }
  }
}
