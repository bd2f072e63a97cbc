/** `GET` and `POST` of `/api/categories`. The storage call is a parameter:
    `fetched` is what `getCategories` yielded, `add` is `addCategory`.
    `dbReady` says whether obtaining the database succeeded, and `now` is the
    server's ISO timestamp. */
module CategoriesRoute {
  import opened Entities
  import opened Http

  const FetchFailed := "获取分类列表失败"
  const MissingFields := "名称和标识符是必填项"
  const CreateFailed := "创建分类失败"

  /** The JSON body of a POST, as the strings it carries; `None` is a missing
      property. `id` and `createdDate` stand for what a caller may send beyond
      the fields the handler reads. */
  datatype CategoryRequest = CategoryRequest(
    name: Option<string>,
    slug: Option<string>,
    icon: Option<string>,
    id: Option<string>,
    createdDate: Option<string>)

  /** `!data.name || !data.slug` fails. */
  predicate HasRequiredFields(data: CategoryRequest)
  {
    Truthy(data.name) && Truthy(data.slug)
  }

  /** The record handed to `addCategory`. */
  function CategoryRecord(data: CategoryRequest, now: string): (r: NewCategory)
    requires HasRequiredFields(data)
    ensures r.name == data.name.value && r.slug == data.slug.value && r.createdDate == now
    ensures Truthy(data.icon) ==> r.icon == data.icon
    ensures !Truthy(data.icon) ==> r.icon == Some("")
  {
    NewCategory(data.name.value, data.slug.value, now, Some(OrDefault(data.icon, "")))
  }

  /** `GET`: the categories with status 200, or status 500 when anything throws. */
  function GetCategories(dbReady: bool, fetched: Result<seq<Category>, Error>): Response<seq<Category>>
  {
    FetchResponse(dbReady, fetched, FetchFailed)
  }

  /** `POST`: the body is parsed and the database obtained before the fields
      are checked, so an unparseable body or an unavailable database is a 500
      even when fields are missing. */
  function PostCategory(data: Option<CategoryRequest>, dbReady: bool, now: string,
                        add: NewCategory -> Result<Category, Error>): (r: Response<Category>)
    ensures r.status in {201, 400, 500}
    ensures r.status == 400 <==> data.Some? && dbReady && !HasRequiredFields(data.value)
    ensures r.status == 400 ==> r.body == ErrorBody(MissingFields)
    ensures r.status == 201 <==>
      data.Some? && dbReady && HasRequiredFields(data.value) &&
      add(CategoryRecord(data.value, now)).Success?
    ensures r.status == 201 ==> r.body == Data(add(CategoryRecord(data.value, now)).value)
    ensures r.status == 500 ==> r.body == ErrorBody(CreateFailed)
  {
    if data.None? || !dbReady then Response(500, ErrorBody(CreateFailed))
    else if !HasRequiredFields(data.value) then Response(400, ErrorBody(MissingFields))
    else match add(CategoryRecord(data.value, now))
      case Success(created) => Response(201, Data(created))
      case Failure(_) => Response(500, ErrorBody(CreateFailed))
  }

  /** A request missing `name` or `slug` never reaches `addCategory`: the
      response is the same whatever the storage would have done. */
  lemma RejectedWithoutStoring(data: CategoryRequest, now: string,
                               add1: NewCategory -> Result<Category, Error>,
                               add2: NewCategory -> Result<Category, Error>)
    requires !HasRequiredFields(data)
    ensures PostCategory(Some(data), true, now, add1) == PostCategory(Some(data), true, now, add2)
    ensures PostCategory(Some(data), true, now, add1).status == 400
  {
  }

  /** Only `name`, `slug` and `icon` are read from the request: a caller's
      `id` or `createdDate` never reaches the stored record. */
  lemma OtherFieldsDropped(data: CategoryRequest, now: string, id: Option<string>, createdDate: Option<string>)
    requires HasRequiredFields(data)
    ensures CategoryRecord(data.(id := id, createdDate := createdDate), now) == CategoryRecord(data, now)
  {
  }
}
