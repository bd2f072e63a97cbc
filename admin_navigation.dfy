/** The navigation manager page: the loaded categories and links, the two
    "add" forms, and the handlers that change them. Each handler's request
    outcome is an input: `None` for a failed request (a network error, a
    status that is not ok, or a body that does not parse), in which case the
    page only shows a toast. */
module AdminNavigation {
  import opened Entities
  import opened Seqs
  import opened Tables

  /** The state of the "add category" form. */
  datatype CategoryForm = CategoryForm(name: string, slug: string, icon: string)

  /** The state of the "add link" form. */
  datatype LinkForm = LinkForm(title: string, url: string, categoryId: string, description: string)

  const EmptyCategoryForm := CategoryForm("", "", "")
  const EmptyLinkForm := LinkForm("", "", "", "")

  /** `{ ...newCategory, createdDate }`: the body of the POST. */
  datatype CategoryPost = CategoryPost(name: string, slug: string, icon: string, createdDate: string)

  /** `{ ...newLink, createdDate }`: the body of the POST. */
  datatype LinkPost = LinkPost(title: string, url: string, categoryId: string, description: string,
                               createdDate: string)

  /** What `GET /api/navigation` answers. */
  datatype NavigationData = NavigationData(categories: seq<Category>, links: seq<LinkItem>)

  class NavigationManager {
    var categories: seq<Category>
    var links: seq<LinkItem>
    var newCategory: CategoryForm
    var newLink: LinkForm

    /** The initial state: empty lists and empty forms. */
    constructor ()
      ensures categories == [] && links == []
      ensures newCategory == EmptyCategoryForm && newLink == EmptyLinkForm
    {
      categories, links := [], [];
      newCategory, newLink := EmptyCategoryForm, EmptyLinkForm;
    }

    /** A successful load replaces both lists; a failed one changes nothing. */
    method LoadData(response: Option<NavigationData>)
      modifies this`categories, this`links
      ensures response.Some? ==>
        categories == response.value.categories && links == response.value.links
      ensures response.None? ==> categories == old(categories) && links == old(links)
    {
      if response.Some? {
        categories := response.value.categories;
        links := response.value.links;
      }
    }

    /** Sends the form with the current time; on success appends the category
        the server returned and clears the form. */
    method HandleAddCategory(now: string, response: Option<Category>) returns (body: CategoryPost)
      modifies this`categories, this`newCategory
      ensures body == CategoryPost(old(newCategory).name, old(newCategory).slug, old(newCategory).icon, now)
      ensures response.Some? ==>
        categories == old(categories) + [response.value] && newCategory == EmptyCategoryForm
      ensures response.None? ==> categories == old(categories) && newCategory == old(newCategory)
    {
      body := CategoryPost(newCategory.name, newCategory.slug, newCategory.icon, now);
      if response.Some? {
        categories := categories + [response.value];
        newCategory := EmptyCategoryForm;
      }
    }

    /** Sends the form with the current time; on success appends the link the
        server returned and clears all four fields. */
    method HandleAddLink(now: string, response: Option<LinkItem>) returns (body: LinkPost)
      modifies this`links, this`newLink
      ensures body == LinkPost(old(newLink).title, old(newLink).url, old(newLink).categoryId,
                               old(newLink).description, now)
      ensures response.Some? ==> links == old(links) + [response.value] && newLink == EmptyLinkForm
      ensures response.None? ==> links == old(links) && newLink == old(newLink)
    {
      body := LinkPost(newLink.title, newLink.url, newLink.categoryId, newLink.description, now);
      if response.Some? {
        links := links + [response.value];
        newLink := EmptyLinkForm;
      }
    }

    /** On success drops every category with the id; otherwise changes nothing. */
    method HandleDeleteCategory(id: string, ok: bool)
      modifies this`categories
      ensures ok ==> categories == RemoveAllWithId(old(categories), CategoryId, id)
      ensures !ok ==> categories == old(categories)
    {
      if ok {
        categories := RemoveAllWithId(categories, CategoryId, id);
      }
    }

    /** On success drops every link with the id; otherwise changes nothing. */
    method HandleDeleteLink(id: string, ok: bool)
      modifies this`links
      ensures ok ==> links == RemoveAllWithId(old(links), LinkId, id)
      ensures !ok ==> links == old(links)
    {
      if ok {
        links := RemoveAllWithId(links, LinkId, id);
      }
    }
  }

  /** Deleting what was just added undoes the add, when the new entry's id was
      not in the list before; the list of categories or links alike. */
  lemma {:induction false} DeleteUndoesAdd<T>(rows: seq<T>, idOf: T -> string, added: T)
    requires forall k :: 0 <= k < |rows| ==> idOf(rows[k]) != idOf(added)
    ensures RemoveAllWithId(rows + [added], idOf, idOf(added)) == rows
  {
    var id := idOf(added);
    FilterAppend(rows, [added], Other(idOf, id));
    FilterKeepsAll(rows, Other(idOf, id));
  }

  /** Deleting an id drops every entry with it and keeps the others in order,
      whether the list holds categories or links. */
  lemma DeleteKeepsOthersInOrder<T>(rows: seq<T>, idOf: T -> string, id: string)
    ensures var r := RemoveAllWithId(rows, idOf, id);
      && IsSubsequence(r, rows)
      && (forall k :: 0 <= k < |r| ==> idOf(r[k]) != id)
      && (forall x :: multiset(r)[x] == if idOf(x) != id then multiset(rows)[x] else 0)
  {
    RemoveAllSpec(rows, idOf, id);
    forall x ensures multiset(RemoveAllWithId(rows, idOf, id))[x] ==
      if idOf(x) != id then multiset(rows)[x] else 0
    {
      FilterMultiplicity(rows, Other(idOf, id), x);
    }
  }
}
