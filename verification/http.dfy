/** The part of the `requests` library the modelled code relies on: a
    response as its status code and decoded JSON body, and
    `raise_for_status`. */
module Http {
  import opened Results
  import opened Json

  datatype Response = Response(statusCode: int, body: Json)

  /** `response.raise_for_status()`: client and server error codes raise. */
  function RaiseForStatus(statusCode: int): (r: Result<()>)
    ensures r.Err? <==> 400 <= statusCode < 600
    ensures r.Err? ==> r.error == HTTPError(statusCode)
  {
    if 400 <= statusCode < 600 then Err(HTTPError(statusCode)) else Ok(())
  }
}
