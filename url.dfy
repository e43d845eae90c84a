/**
 * The parts of a parsed URL that the modelled code looks at. Parsing itself
 * (Go's url.Parse) is a library call and is given to the model as an oracle
 * of type `string -> Option<URL>`, where None stands for a parse error.
 */
module Urls {

  datatype URL = URL(scheme: string, host: string, path: string, rawQuery: string)

  /** The same URL with its query replaced, as Go does with `u.RawQuery = q`. */
  function WithRawQuery(u: URL, q: string): (r: URL)
    ensures r.rawQuery == q
    ensures r.scheme == u.scheme && r.host == u.host && r.path == u.path
  {
    u.(rawQuery := q)
  }
}
