/** The admin links page: deleting a link from the listed links, and how a
    row shows its URL and category. The server's answer to the DELETE request
    and the user's answer to the confirmation dialog are inputs. */
module AdminLinks {
  import opened Entities
  import opened Seqs
  import opened Tables

  /** The listed links after `handleDelete(linkId)`: only when the user
      confirms and the request succeeds are the links with the id dropped. */
  function AfterDelete(links: seq<LinkItem>, linkId: string, confirmed: bool, ok: bool): (r: seq<LinkItem>)
    ensures !(confirmed && ok) ==> r == links
  {
    if confirmed && ok then RemoveAllWithId(links, LinkId, linkId) else links
  }

  /** A confirmed, successful delete leaves no link with the id, keeps every
      other link in its order, and changes nothing when no link had the id. */
  lemma DeleteRemovesExactlyTheId(links: seq<LinkItem>, linkId: string)
    ensures var r := AfterDelete(links, linkId, true, true);
      && (forall k :: 0 <= k < |r| ==> r[k].id != linkId)
      && (forall k :: 0 <= k < |links| && links[k].id != linkId ==> links[k] in r)
      && IsSubsequence(r, links)
      && ((forall k :: 0 <= k < |links| ==> links[k].id != linkId) <==> r == links)
  {
    RemoveAllSpec(links, LinkId, linkId);
    RemoveAllUnchangedIff(links, LinkId, linkId);
  }

  const MaxUrlShown := 30

  /** `url.length > 30 ? `${url.substring(0, 30)}...` : url` */
  function UrlDisplay(url: string): (shown: string)
    ensures |shown| <= MaxUrlShown + 3
    ensures |url| <= MaxUrlShown ==> shown == url
    ensures |url| > MaxUrlShown ==> |shown| == MaxUrlShown + 3
  {
    if |url| > MaxUrlShown then url[..MaxUrlShown] + "..." else url
  }

  /** A shortened URL is its first 30 characters followed by an ellipsis. */
  lemma LongUrlShowsPrefix(url: string)
    requires |url| > MaxUrlShown
    ensures UrlDisplay(url)[..MaxUrlShown] == url[..MaxUrlShown]
    ensures UrlDisplay(url)[MaxUrlShown..] == "..."
  {
  }

  /** `link.categoryName || 'N/A'` */
  function CategoryDisplay(link: LinkItem): (shown: string)
    ensures shown != ""
    ensures Truthy(link.categoryName) ==> shown == link.categoryName.value
    ensures !Truthy(link.categoryName) ==> shown == "N/A"
  {
    if Truthy(link.categoryName) then link.categoryName.value else "N/A"
  }
}
