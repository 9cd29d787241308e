/** The requests the F5 client sends to the management API, rooted at
    `https://{host}/mgmt/tm/`. Sending one is a parameter of the model: the
    transport maps a request to the JSON object the server answers with. */
module Http {
  import opened PyValues
  import opened Dicts

  datatype Verb = GET | POST | PATCH | DELETE

  /** One `_http_request` call. `path` is the URL suffix as its '/'-separated
      segments (a trailing '/' is a final empty segment); `params` are the query
      parameters (none and `{}` alike are `[]`); `json` is the `json_data`
      argument, `None` when the call passes none. */
  datatype Request = Request(verb: Verb, path: seq<Value>, params: Body, json: Option<Body>)

  /** The server: what it answers to each request. Transport errors are not modelled. */
  type Transport = Request -> Item

  /** `asm/policies/{md5}` */
  function PolicyPath(md5: string): seq<Value> {
    [Str("asm"), Str("policies"), Str(md5)]
  }

  /** `asm/policies/{md5}/{collection}/{id}`: the target of a request on one sub-resource. */
  function SubResourcePath(md5: string, collection: string, id: Value): seq<Value> {
    PolicyPath(md5) + [Str(collection), id]
  }
}
