/** The endpoint descriptor (Sources/SCApi/Endpoint.swift). */
module Endpoints {

  import opened Wrappers

  /** A query parameter as the dictionary iteration yields it: (key, value). */
  type QueryParam = (string, string)

  /** `Endpoint`. `queryParams` is a Swift dictionary; the model fixes its
      iteration order by storing the entries as a sequence. */
  datatype Endpoint = Endpoint(
    scheme: string,
    host: string,
    path: string,
    version: string,
    queryParams: Option<seq<QueryParam>>)

  /** The scheme the protocol extension supplies when a conforming type does not
      declare its own. */
  const DefaultScheme: string := "https"

  /** An endpoint that relies on the protocol extension for its scheme. */
  function WithDefaultScheme(host: string, path: string, version: string,
                             queryParams: Option<seq<QueryParam>>): (e: Endpoint)
    ensures e.scheme == "https"
    ensures e.host == host && e.path == path && e.version == version
    ensures e.queryParams == queryParams
  {
    Endpoint(DefaultScheme, host, path, version, queryParams)
  }
}
