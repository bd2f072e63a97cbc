/** The JSON responses of the API route handlers. */
module Http {
  import opened Entities

  /** A response body: the payload, or `{ error: message }`. */
  datatype Body<+T> = Data(payload: T) | ErrorBody(error: string)

  /** `NextResponse.json(body, { status })` */
  datatype Response<+T> = Response(status: nat, body: Body<T>)

  /** A `GET` handler: what the storage read yielded with status 200, or
      status 500 with `message` when obtaining the database or the read throws. */
  function FetchResponse<T, E>(dbReady: bool, fetched: Result<T, E>, message: string): (r: Response<T>)
    ensures r.status == 200 <==> dbReady && fetched.Success?
    ensures r.status == 200 ==> r.body == Data(fetched.value)
    ensures r.status != 200 ==> r == Response(500, ErrorBody(message))
  {
    if dbReady && fetched.Success? then Response(200, Data(fetched.value))
    else Response(500, ErrorBody(message))
  }
}
