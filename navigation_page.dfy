/** The public navigation page's `filteredLinks`: a link is shown when it
    matches the search term (case-insensitively, in its title or description)
    and belongs to the selected category, if one is selected. */
module NavigationPage {
  import opened Entities
  import opened Seqs
  import opened Text

  /** `searchTerm === '' || title includes term || description?.includes(term)`,
      both sides lower-cased. */
  predicate MatchesSearch(l: LinkItem, term: string)
  {
    || term == ""
    || Includes(ToLower(l.title), ToLower(term))
    || (l.description.Some? && Includes(ToLower(l.description.value), ToLower(term)))
  }

  /** `!selectedCategory || link.categoryId === selectedCategory` */
  predicate MatchesCategory(l: LinkItem, selected: Option<string>)
  {
    !Truthy(selected) || l.categoryId == selected.value
  }

  function Shown(term: string, selected: Option<string>): LinkItem -> bool
  {
    l => MatchesSearch(l, term) && MatchesCategory(l, selected)
  }

  /** `links.filter(...)` */
  function FilteredLinks(links: seq<LinkItem>, term: string, selected: Option<string>): (r: seq<LinkItem>)
    ensures forall l :: l in r <==> l in links && MatchesSearch(l, term) && MatchesCategory(l, selected)
  {
    Filter(links, Shown(term, selected))
  }

  /** With no search term and no selected category every link is shown, in order. */
  lemma ShowsEverythingUnfiltered(links: seq<LinkItem>, selected: Option<string>)
    requires !Truthy(selected)
    ensures FilteredLinks(links, "", selected) == links
  {
    FilterKeepsAll(links, Shown("", selected));
  }

  /** The links shown keep the order they have in `links`. */
  lemma ShownInOrder(links: seq<LinkItem>, term: string, selected: Option<string>)
    ensures IsSubsequence(FilteredLinks(links, term, selected), links)
  {
    FilterIsSubsequence(links, Shown(term, selected));
  }

  /** `t` occurs in `s` at some offset. */
  ghost predicate OccursIn(s: string, t: string)
  {
    exists i :: OccursAt(s, t, i)
  }

  /** The search test spelled out: the term is empty, or it occurs at some
      offset of the lower-cased title or of the lower-cased description. */
  lemma SearchFindsOccurrence(l: LinkItem, term: string)
    ensures MatchesSearch(l, term) <==>
      (|| term == ""
       || OccursIn(ToLower(l.title), ToLower(term))
       || (l.description.Some? && OccursIn(ToLower(l.description.value), ToLower(term))))
  {
    IncludesAt(ToLower(l.title), ToLower(term));
    if l.description.Some? {
      IncludesAt(ToLower(l.description.value), ToLower(term));
    }
  }

  /** The case of the term's letters does not matter. */
  lemma SearchIgnoresCase(l: LinkItem, term: string)
    ensures MatchesSearch(l, term) <==> MatchesSearch(l, ToLower(term))
  {
    ToLowerIdempotent(term);
  }

  /** Clearing the search term never hides a link: what a term shows is an
      ordered part of what the empty term shows. */
  lemma ClearingSearchKeepsLinks(links: seq<LinkItem>, term: string, selected: Option<string>)
    ensures IsSubsequence(FilteredLinks(links, term, selected), FilteredLinks(links, "", selected))
  {
    FilterMonotonic(links, Shown(term, selected), Shown("", selected));
  }

  /** Clearing the selected category never hides a link. */
  lemma ClearingCategoryKeepsLinks(links: seq<LinkItem>, term: string, selected: Option<string>)
    ensures IsSubsequence(FilteredLinks(links, term, selected), FilteredLinks(links, term, None))
  {
    FilterMonotonic(links, Shown(term, selected), Shown(term, None));
  }
}
