/**
 * The pure parts of VercelApi.ts: the request each call sends (method, URL, bearer token,
 * upsert body), how each response is classified, and the connection string. Each URL
 * comes with a parser, and the round-trip lemmas show that a URL names exactly the
 * store, item and team it was built from.
 */
module VercelApi {
  import opened Wrappers
  import opened Json

  const VERCEL_API_URL := "https://api.vercel.com/v1"
  const VERCEL_EDGE_CONFIG := "https://edge-config.vercel.com"

  const COULD_NOT_READ := "Could not read Edge Config"
  const UNEXPECTED_RESPONSE := "Received unexpected response code "
  const SYNC_FAILED := "Failed to synchronize Vercel"

  /** A request as `fetch` receives it. `items` is the JSON body of an upsert. */
  datatype Request = Request(
    httpMethod: string,
    url: string,
    authorization: string,
    contentType: Option<string>,
    items: Option<seq<UpsertItem>>)

  /** One entry of an upsert body; a `None` value is dropped by `JSON.stringify`. */
  datatype UpsertItem = UpsertItem(operation: string, key: string, value: Option<Dataset>)

  /** A response to the read request: its status and, for 200, the body's `value` field. */
  datatype FetchResponse = FetchResponse(status: nat, value: Dataset)

  /** How the upsert's `fetch` settled: with a response, or rejected (network failure). */
  datatype UpsertResponse = Responded(status: nat) | Rejected

  /** `response.ok` */
  predicate IsOk(status: nat) {
    200 <= status <= 299
  }

  // ---------------------------------------------------------------------------------
  // Strings

  /** `s` split at the first occurrence of `c`, or None when `c` does not occur. */
  function SplitAt(s: string, c: char): Option<(string, string)> {
    if s == [] then None
    else if s[0] == c then Some(([], s[1..]))
    else match SplitAt(s[1..], c)
      case None => None
      case Some(parts) => Some(([s[0]] + parts.0, parts.1))
  }

  lemma {:induction false} SplitAtJoin(a: string, c: char, b: string)
    requires c !in a
    ensures SplitAt(a + [c] + b, c) == Some((a, b))
  {
    if a != [] {
      assert (a + [c] + b)[1..] == a[1..] + [c] + b;
      SplitAtJoin(a[1..], c, b);
      assert [a[0]] + a[1..] == a;
    }
  }

  lemma {:induction false} SplitAtAbsent(s: string, c: char)
    requires c !in s
    ensures SplitAt(s, c) == None
  {
    if s != [] {
      SplitAtAbsent(s[1..], c);
    }
  }

  /** `s` without its leading `prefix`, or None when it does not start with it. */
  function StripPrefix(prefix: string, s: string): Option<string> {
    if prefix <= s then Some(s[|prefix|..]) else None
  }

  lemma StripPrefixJoin(prefix: string, s: string)
    ensures StripPrefix(prefix, prefix + s) == Some(s)
  {
    assert (prefix + s)[..|prefix|] == prefix;
  }

  /** The decimal digits of `n`, as template strings print a status code. */
  function DecimalString(n: nat): string {
    var digit := "0123456789"[n % 10];
    if n < 10 then [digit] else DecimalString(n / 10) + [digit]
  }

  // ---------------------------------------------------------------------------------
  // Query string and URLs

  /** `teamId ? `?teamId=${teamId}` : ''` */
  function TeamIdQuery(teamId: string): string {
    if teamId != "" then "?teamId=" + teamId else ""
  }

  /** Reads a team id back from what follows the path of a URL. */
  function ParseTeamIdQuery(suffix: string): Option<string> {
    if suffix == "" then Some("")
    else match StripPrefix("?teamId=", suffix)
      case Some(t) => if t != "" then Some(t) else None
      case None => None
  }

  /** The query suffix is empty exactly when no team id is given, and names that team id. */
  lemma TeamIdQueryRoundTrip(teamId: string)
    ensures (TeamIdQuery(teamId) == "") <==> (teamId == "")
    ensures ParseTeamIdQuery(TeamIdQuery(teamId)) == Some(teamId)
  {
    if teamId != "" {
      StripPrefixJoin("?teamId=", teamId);
    }
  }

  /** `${VERCEL_API_URL}/edge-config/${edgeConfigId}/item/${edgeConfigKey}${teamIdQuery}` */
  function ItemUrl(edgeConfigId: string, edgeConfigKey: string, teamId: string): string {
    VERCEL_API_URL + "/edge-config/" + edgeConfigId + "/item/" + edgeConfigKey + TeamIdQuery(teamId)
  }

  /** Reads (store id, item key, team id) back from an item URL. */
  function ParseItemUrl(url: string): Option<(string, string, string)> {
    match StripPrefix(VERCEL_API_URL + "/edge-config/", url)
    case None => None
    case Some(rest) =>
      match SplitAt(rest, '/')
      case None => None
      case Some(idAndRest) =>
        match StripPrefix("item/", idAndRest.1)
        case None => None
        case Some(keyAndQuery) =>
          match ParseKeyAndQuery(keyAndQuery)
          case None => None
          case Some(keyAndTeam) => Some((idAndRest.0, keyAndTeam.0, keyAndTeam.1))
  }

  /** Reads (item key, team id) back from the end of an item URL. */
  function ParseKeyAndQuery(s: string): Option<(string, string)> {
    match SplitAt(s, '?')
    case None => Some((s, ""))
    case Some(parts) =>
      match ParseTeamIdQuery("?" + parts.1)
      case None => None
      case Some(teamId) => Some((parts.0, teamId))
  }

  lemma KeyAndQueryRoundTrip(edgeConfigKey: string, teamId: string)
    requires '?' !in edgeConfigKey
    ensures ParseKeyAndQuery(edgeConfigKey + TeamIdQuery(teamId)) == Some((edgeConfigKey, teamId))
  {
    TeamIdQueryRoundTrip(teamId);
    if teamId == "" {
      assert edgeConfigKey + TeamIdQuery(teamId) == edgeConfigKey;
      SplitAtAbsent(edgeConfigKey, '?');
    } else {
      var tail := "teamId=" + teamId;
      assert edgeConfigKey + TeamIdQuery(teamId) == edgeConfigKey + ['?'] + tail;
      SplitAtJoin(edgeConfigKey, '?', tail);
      assert "?" + tail == TeamIdQuery(teamId);
    }
  }

  /** `${VERCEL_API_URL}/edge-config/${edgeConfigId}/items${teamIdQuery}` */
  function ItemsUrl(edgeConfigId: string, teamId: string): string {
    VERCEL_API_URL + "/edge-config/" + edgeConfigId + "/items" + TeamIdQuery(teamId)
  }

  /** Reads (store id, team id) back from an items URL. */
  function ParseItemsUrl(url: string): Option<(string, string)> {
    match StripPrefix(VERCEL_API_URL + "/edge-config/", url)
    case None => None
    case Some(rest) =>
      match SplitAt(rest, '/')
      case None => None
      case Some(idAndRest) =>
        match StripPrefix("items", idAndRest.1)
        case None => None
        case Some(query) =>
          match ParseTeamIdQuery(query)
          case None => None
          case Some(teamId) => Some((idAndRest.0, teamId))
  }

  /** `${VERCEL_EDGE_CONFIG}/${edgeConfigId}?token=${token}` */
  function ConnectionString(edgeConfigId: string, token: string): (r: string)
    ensures '?' !in edgeConfigId ==> ParseConnectionString(r) == Some((edgeConfigId, token))
  {
    var r := VERCEL_EDGE_CONFIG + "/" + edgeConfigId + "?token=" + token;
    if '?' !in edgeConfigId then
      assert r == (VERCEL_EDGE_CONFIG + "/") + (edgeConfigId + ['?'] + ("token=" + token));
      StripPrefixJoin(VERCEL_EDGE_CONFIG + "/", edgeConfigId + ['?'] + ("token=" + token));
      SplitAtJoin(edgeConfigId, '?', "token=" + token);
      StripPrefixJoin("token=", token);
      r
    else
      r
  }

  /** Reads (store id, token) back from a connection string. */
  function ParseConnectionString(s: string): Option<(string, string)> {
    match StripPrefix(VERCEL_EDGE_CONFIG + "/", s)
    case None => None
    case Some(rest) =>
      match SplitAt(rest, '?')
      case None => None
      case Some(parts) =>
        match StripPrefix("token=", parts.1)
        case None => None
        case Some(token) => Some((parts.0, token))
  }

  // ---------------------------------------------------------------------------------
  // Requests

  /**
   * The read request of `fetchEdgeConfig`: a GET of the item URL with the bearer token
   * and no body; the URL names exactly the store, the item key and the team.
   */
  function FetchRequest(edgeConfigId: string, edgeConfigKey: string, teamId: string, token: string): (r: Request)
    ensures r.httpMethod == "GET" && r.items == None && r.authorization == "Bearer " + token
    ensures r.contentType == None
    ensures '/' !in edgeConfigId && '?' !in edgeConfigKey ==>
      ParseItemUrl(r.url) == Some((edgeConfigId, edgeConfigKey, teamId))
  {
    var url := ItemUrl(edgeConfigId, edgeConfigKey, teamId);
    if '/' !in edgeConfigId && '?' !in edgeConfigKey then
      ItemUrlRoundTrip(edgeConfigId, edgeConfigKey, teamId);
      Request("GET", url, "Bearer " + token, None, None)
    else
      Request("GET", url, "Bearer " + token, None, None)
  }

  lemma ItemUrlRoundTrip(edgeConfigId: string, edgeConfigKey: string, teamId: string)
    requires '/' !in edgeConfigId && '?' !in edgeConfigKey
    ensures ParseItemUrl(ItemUrl(edgeConfigId, edgeConfigKey, teamId)) == Some((edgeConfigId, edgeConfigKey, teamId))
  {
    var base := VERCEL_API_URL + "/edge-config/";
    var keyAndQuery := edgeConfigKey + TeamIdQuery(teamId);
    var afterId := "item/" + keyAndQuery;
    var rest := edgeConfigId + ['/'] + afterId;
    assert ItemUrl(edgeConfigId, edgeConfigKey, teamId) == base + rest;
    StripPrefixJoin(base, rest);
    SplitAtJoin(edgeConfigId, '/', afterId);
    StripPrefixJoin("item/", keyAndQuery);
    KeyAndQueryRoundTrip(edgeConfigKey, teamId);
  }

  /**
   * The request of `upsertEdgeConfig`: a JSON PATCH of the items URL whose body holds
   * exactly one item, the upsert of the whole dataset under the item key.
   */
  function UpsertRequest(edgeConfigId: string, edgeConfigKey: string, teamId: string, token: string,
                         data: Option<Dataset>): (r: Request)
    ensures r.httpMethod == "PATCH" && r.authorization == "Bearer " + token
    ensures r.contentType == Some("application/json")
    ensures r.items.Some? && |r.items.value| == 1
    ensures r.items.value[0].operation == "upsert"
    ensures r.items.value[0].key == edgeConfigKey && r.items.value[0].value == data
    ensures '/' !in edgeConfigId ==> ParseItemsUrl(r.url) == Some((edgeConfigId, teamId))
  {
    var url := ItemsUrl(edgeConfigId, teamId);
    var items := [UpsertItem("upsert", edgeConfigKey, data)];
    if '/' !in edgeConfigId then
      ItemsUrlRoundTrip(edgeConfigId, teamId);
      Request("PATCH", url, "Bearer " + token, Some("application/json"), Some(items))
    else
      Request("PATCH", url, "Bearer " + token, Some("application/json"), Some(items))
  }

  lemma ItemsUrlRoundTrip(edgeConfigId: string, teamId: string)
    requires '/' !in edgeConfigId
    ensures ParseItemsUrl(ItemsUrl(edgeConfigId, teamId)) == Some((edgeConfigId, teamId))
  {
    var base := VERCEL_API_URL + "/edge-config/";
    var q := TeamIdQuery(teamId);
    var afterId := "items" + q;
    var rest := edgeConfigId + ['/'] + afterId;
    assert ItemsUrl(edgeConfigId, teamId) == base + rest;
    StripPrefixJoin(base, rest);
    SplitAtJoin(edgeConfigId, '/', afterId);
    StripPrefixJoin("items", q);
    TeamIdQueryRoundTrip(teamId);
  }

  // ---------------------------------------------------------------------------------
  // Responses

  /**
   * What `fetchEdgeConfig` resolves with: a non-ok status fails with "Could not read Edge
   * Config"; 200 gives the body's value; 204 gives `{}`; any other ok status fails naming
   * the status.
   */
  function ReadResult(response: FetchResponse): (r: Result<Dataset>)
    ensures r.Success? <==> response.status == 200 || response.status == 204
    ensures response.status == 200 ==> r == Success(response.value)
    ensures response.status == 204 ==> r == Success(Empty)
    ensures !IsOk(response.status) ==> r == Failure(COULD_NOT_READ)
    ensures IsOk(response.status) && response.status != 200 && response.status != 204 ==>
      r == Failure(UNEXPECTED_RESPONSE + DecimalString(response.status))
  {
    if !IsOk(response.status) then Failure(COULD_NOT_READ)
    else if response.status == 200 then Success(response.value)
    else if response.status == 204 then Success(Empty)
    else Failure(UNEXPECTED_RESPONSE + DecimalString(response.status))
  }

  /**
   * How the promise of `upsertEdgeConfig` settles: a non-ok response rejects with "Failed
   * to synchronize Vercel"; an ok response resolves; a rejected `fetch` is only logged,
   * so the promise resolves as well.
   */
  function UpsertResult(response: UpsertResponse): (r: Outcome)
    ensures r.Fail? <==> response.Responded? && !IsOk(response.status)
    ensures r.Fail? ==> r.error == SYNC_FAILED
  {
    match response
    case Responded(status) => if IsOk(status) then Pass else Fail(SYNC_FAILED)
    case Rejected => Pass
  }
}
