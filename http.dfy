/** The HTTP requests the client's API modules hand to axios: the method, the
    path, and either a JSON body or the optional `project_id` query parameter. */
module Http {
  import opened JsValues

  datatype Request<B> =
    | Get(path: string, projectIdParam: Option<int>)
    | Post(path: string, body: B)
    | Put(path: string, body: B)
    | Delete(path: string)
}
