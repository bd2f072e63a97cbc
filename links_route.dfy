/** `GET` and `POST` of `/api/links`. The storage call is a parameter:
    `fetched` is what `getLinks` yielded, `add` is `addLink`. `dbReady` says
    whether obtaining the database succeeded, and `now` is the server's ISO
    timestamp. */
module LinksRoute {
  import opened Entities
  import opened Http

  const FetchFailed := "获取链接列表失败"
  const MissingFields := "标题、URL和分类ID是必填项"
  const CreateFailed := "创建链接失败"

  /** The JSON body of a POST, as the strings it carries; `None` is a missing
      property. `id`, `categoryName` and `createdDate` stand for what a caller
      may send beyond the fields the handler reads. */
  datatype LinkRequest = LinkRequest(
    title: Option<string>,
    url: Option<string>,
    categoryId: Option<string>,
    imageUrl: Option<string>,
    aiHint: Option<string>,
    description: Option<string>,
    faviconUrl: Option<string>,
    id: Option<string>,
    categoryName: Option<string>,
    createdDate: Option<string>)

  /** `!data.title || !data.url || !data.categoryId` fails. */
  predicate HasRequiredFields(data: LinkRequest)
  {
    Truthy(data.title) && Truthy(data.url) && Truthy(data.categoryId)
  }

  /** `value || ''` kept as a present string. */
  function Defaulted(s: Option<string>): (r: Option<string>)
    ensures Truthy(s) ==> r == s
    ensures !Truthy(s) ==> r == Some("")
  {
    Some(OrDefault(s, ""))
  }

  /** The record handed to `addLink`. */
  function LinkRecord(data: LinkRequest, now: string): (r: NewLink)
    requires HasRequiredFields(data)
    ensures r.title == data.title.value && r.url == data.url.value
    ensures r.categoryId == data.categoryId.value && r.createdDate == now
    ensures r.categoryName.None?
    ensures r.imageUrl.Some? && r.aiHint.Some? && r.description.Some? && r.faviconUrl.Some?
    ensures Truthy(data.imageUrl) ==> r.imageUrl == data.imageUrl
    ensures Truthy(data.aiHint) ==> r.aiHint == data.aiHint
    ensures Truthy(data.description) ==> r.description == data.description
    ensures Truthy(data.faviconUrl) ==> r.faviconUrl == data.faviconUrl
    ensures !Truthy(data.imageUrl) ==> r.imageUrl == Some("")
    ensures !Truthy(data.aiHint) ==> r.aiHint == Some("")
    ensures !Truthy(data.description) ==> r.description == Some("")
    ensures !Truthy(data.faviconUrl) ==> r.faviconUrl == Some("")
  {
    NewLink(data.title.value, data.url.value, data.categoryId.value, None, now,
            Defaulted(data.imageUrl), Defaulted(data.aiHint),
            Defaulted(data.description), Defaulted(data.faviconUrl))
  }

  /** `GET`: the joined links with status 200, or status 500 when anything throws. */
  function GetLinks(dbReady: bool, fetched: Result<seq<LinkItem>, Error>): Response<seq<LinkItem>>
  {
    FetchResponse(dbReady, fetched, FetchFailed)
  }

  /** `POST`: the body is parsed and the database obtained before the fields
      are checked, so an unparseable body or an unavailable database is a 500
      even when fields are missing. */
  function PostLink(data: Option<LinkRequest>, dbReady: bool, now: string,
                    add: NewLink -> Result<LinkItem, Error>): (r: Response<LinkItem>)
    ensures r.status in {201, 400, 500}
    ensures r.status == 400 <==> data.Some? && dbReady && !HasRequiredFields(data.value)
    ensures r.status == 400 ==> r.body == ErrorBody(MissingFields)
    ensures r.status == 201 <==>
      data.Some? && dbReady && HasRequiredFields(data.value) &&
      add(LinkRecord(data.value, now)).Success?
    ensures r.status == 201 ==> r.body == Data(add(LinkRecord(data.value, now)).value)
    ensures r.status == 500 ==> r.body == ErrorBody(CreateFailed)
  {
    if data.None? || !dbReady then Response(500, ErrorBody(CreateFailed))
    else if !HasRequiredFields(data.value) then Response(400, ErrorBody(MissingFields))
    else match add(LinkRecord(data.value, now))
      case Success(created) => Response(201, Data(created))
      case Failure(_) => Response(500, ErrorBody(CreateFailed))
  }

  /** A request missing `title`, `url` or `categoryId` never reaches
      `addLink`: the response is the same whatever the storage would have done. */
  lemma RejectedWithoutStoring(data: LinkRequest, now: string,
                               add1: NewLink -> Result<LinkItem, Error>,
                               add2: NewLink -> Result<LinkItem, Error>)
    requires !HasRequiredFields(data)
    ensures PostLink(Some(data), true, now, add1) == PostLink(Some(data), true, now, add2)
    ensures PostLink(Some(data), true, now, add1).status == 400
  {
  }

  /** A caller's `id`, `categoryName` or `createdDate` never reaches the
      stored record. */
  lemma OtherFieldsDropped(data: LinkRequest, now: string,
                           id: Option<string>, categoryName: Option<string>, createdDate: Option<string>)
    requires HasRequiredFields(data)
    ensures LinkRecord(data.(id := id, categoryName := categoryName, createdDate := createdDate), now)
      == LinkRecord(data, now)
  {
  }
}
