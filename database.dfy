/**
  The collection reader `getDatabase`: it queries the collection named by the
  `NOTION_DATABASE_ID` setting, or the empty id when that setting is unset or empty.
  The setting and the query are parameters; the query's network call is not modelled.
 */
module Database {
  import opened Options

  /**
    `process.env.NOTION_DATABASE_ID || ""`: the setting when it is set to a non-empty
    string (`||` falls back on any falsy value), the empty id otherwise.
   */
  function DatabaseId(configured: Option<string>): (id: string)
    ensures id == configured.GetOr("")
    ensures id == "" <==> configured.None? || configured.value == ""
  {
    if configured.Some? && configured.value != "" then configured.value else ""
  }

  /** `getDatabase()`: the results of querying the configured collection. */
  function GetDatabase<Entry>(query: string -> seq<Entry>, configured: Option<string>): (posts: seq<Entry>)
    ensures configured.Some? ==> posts == query(configured.value)
    ensures configured.None? ==> posts == query("")
  {
    query(DatabaseId(configured))
  }
}
