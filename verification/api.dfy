/**
 * The front end's API client: how a request's headers are assembled (JSON
 * content type, the caller's headers, then the bearer token), how a reply is
 * read (the error message of a failed call, 204 as no content, a missing body
 * as an empty object), the two tokens kept in local storage, and the
 * endpoints and list unwrapping of the list calls.
 */
module Api {
  import opened Common

  // ---------------------------------------------------------------------------
  // Headers
  // ---------------------------------------------------------------------------

  /** A plain header record: names in insertion order, as a JS object keeps them. */
  type Headers = seq<(string, string)>

  const ContentType: string := "Content-Type"
  const Authorization: string := "Authorization"
  const JsonType: string := "application/json"

  /** `{ 'Content-Type': 'application/json' }`, where every request starts. */
  function JsonHeaders(): Headers {
    [(ContentType, JsonType)]
  }

  /** `headers[name]`: the value under the first entry with that name. */
  function Lookup(h: Headers, name: string): Option<string> {
    if h == [] then None
    else if h[0].0 == name then Some(h[0].1)
    else Lookup(h[1..], name)
  }

  /** The header names, in order. */
  function Names(h: Headers): (names: seq<string>)
    ensures |names| == |h|
    ensures forall i :: 0 <= i < |h| ==> names[i] == h[i].0
  {
    if h == [] then [] else [h[0].0] + Names(h[1..])
  }

  /** No name appears twice. */
  predicate DistinctNames(h: Headers) {
    forall i, j :: 0 <= i < j < |h| ==> h[i].0 != h[j].0
  }

  /**
   * `headers[name] = value`: an existing entry takes the value where it
   * stands; a new name is added at the end.
   */
  function SetHeader(h: Headers, name: string, value: string): (r: Headers)
    ensures Lookup(r, name) == Some(value)
    ensures forall other :: other != name ==> Lookup(r, other) == Lookup(h, other)
    ensures Names(r) == if name in Names(h) then Names(h) else Names(h) + [name]
  {
    if h == [] then [(name, value)]
    else if h[0].0 == name then [(name, value)] + h[1..]
    else
      var rest := SetHeader(h[1..], name, value);
      assert ([h[0]] + rest)[1..] == rest;
      [h[0]] + rest
  }

  /** Setting a header keeps every name distinct. */
  lemma {:induction false} SetHeaderKeepsNamesDistinct(h: Headers, name: string, value: string)
    requires DistinctNames(h)
    ensures DistinctNames(SetHeader(h, name, value))
  {
    var r := SetHeader(h, name, value);
    forall i, j | 0 <= i < j < |r|
      ensures r[i].0 != r[j].0
    {
      assert Names(r)[i] == r[i].0 && Names(r)[j] == r[j].0;
      if name in Names(h) {
        assert Names(h)[i] == h[i].0 && Names(h)[j] == h[j].0;
      } else {
        if j < |h| {
          assert Names(h)[i] == h[i].0 && Names(h)[j] == h[j].0;
        } else {
          assert Names(r)[j] == name;
          assert Names(h)[i] == h[i].0;
        }
      }
    }
  }

  /** The caller's `options.headers`, as its `forEach` or own keys yield them. */
  datatype CallerHeaders =
    | NoHeaders
    | HeadersInstance(entries: Headers)
    | HeaderPairs(pairs: seq<(string, string)>)
    | HeaderRecord(fields: Headers)

  /** The entries the merge writes, in the order it writes them. */
  function CallerEntries(caller: CallerHeaders): Headers {
    match caller
    case NoHeaders => []
    case HeadersInstance(entries) => entries
    case HeaderPairs(pairs) => pairs
    case HeaderRecord(fields) => fields
  }

  /** Writing the entries one after another over `h`. */
  function Merge(h: Headers, entries: Headers): Headers {
    if entries == [] then h
    else
      var last := entries[|entries| - 1];
      SetHeader(Merge(h, entries[..|entries| - 1]), last.0, last.1)
  }

  /** The value of the last entry with this name, the one a merge leaves behind. */
  function LastValue(entries: Headers, name: string): Option<string> {
    if entries == [] then None
    else if entries[|entries| - 1].0 == name then Some(entries[|entries| - 1].1)
    else LastValue(entries[..|entries| - 1], name)
  }

  /** After a merge, a name the entries set has their last value; any other name keeps its old value. */
  lemma {:induction false} MergeLaterOverrides(h: Headers, entries: Headers, name: string)
    ensures Lookup(Merge(h, entries), name) == if LastValue(entries, name).Some? then LastValue(entries, name) else Lookup(h, name)
  {
    if entries != [] {
      MergeLaterOverrides(h, entries[..|entries| - 1], name);
    }
  }

  /** Merging keeps every name distinct. */
  lemma {:induction false} MergeKeepsNamesDistinct(h: Headers, entries: Headers)
    requires DistinctNames(h)
    ensures DistinctNames(Merge(h, entries))
  {
    if entries != [] {
      var last := entries[|entries| - 1];
      MergeKeepsNamesDistinct(h, entries[..|entries| - 1]);
      SetHeaderKeepsNamesDistinct(Merge(h, entries[..|entries| - 1]), last.0, last.1);
    }
  }

  /** `if (token)`: a stored, non-empty access token. */
  predicate TokenTruthy(token: Option<string>) {
    token.Some? && token.value != ""
  }

  /** The headers `request` sends: JSON type, the caller's headers over it, then the bearer token when there is one. */
  function RequestHeaders(token: Option<string>, caller: CallerHeaders): Headers {
    var merged := Merge(JsonHeaders(), CallerEntries(caller));
    if TokenTruthy(token) then SetHeader(merged, Authorization, "Bearer " + token.value) else merged
  }

  /**
   * What the request carries: with a token, `Authorization` is the bearer
   * value whatever the caller sent; without one, it is the caller's, if any.
   * `Content-Type` is the caller's last value, else JSON; every other name
   * has the caller's last value, and no name appears twice.
   */
  lemma RequestHeadersContent(token: Option<string>, caller: CallerHeaders, name: string)
    ensures var h := RequestHeaders(token, caller);
      var entries := CallerEntries(caller);
      DistinctNames(h) &&
      (name == Authorization ==>
        Lookup(h, name) == if TokenTruthy(token) then Some("Bearer " + token.value) else LastValue(entries, name)) &&
      (name == ContentType ==>
        Lookup(h, name) == if LastValue(entries, name).Some? then LastValue(entries, name) else Some(JsonType)) &&
      (name != Authorization && name != ContentType ==> Lookup(h, name) == LastValue(entries, name))
  {
    var merged := Merge(JsonHeaders(), CallerEntries(caller));
    MergeLaterOverrides(JsonHeaders(), CallerEntries(caller), name);
    MergeKeepsNamesDistinct(JsonHeaders(), CallerEntries(caller));
    if TokenTruthy(token) {
      SetHeaderKeepsNamesDistinct(merged, Authorization, "Bearer " + token.value);
    }
  }

  /** The header-building steps of `request`, one write at a time. */
  method BuildHeaders(token: Option<string>, caller: CallerHeaders) returns (headers: Headers)
    ensures headers == RequestHeaders(token, caller)
  {
    headers := JsonHeaders();
    var entries := CallerEntries(caller);
    var i := 0;
    while i < |entries|
      invariant 0 <= i <= |entries|
      invariant headers == Merge(JsonHeaders(), entries[..i])
    {
      assert entries[..i + 1][..i] == entries[..i];
      headers := SetHeader(headers, entries[i].0, entries[i].1);
      i := i + 1;
    }
    assert entries[..i] == entries;
    if TokenTruthy(token) {
      headers := SetHeader(headers, Authorization, "Bearer " + token.value);
    }
  }

  // ---------------------------------------------------------------------------
  // Replies
  // ---------------------------------------------------------------------------

  /** A field of a JSON error body. */
  datatype JsonValue = JStr(s: string) | JNum(n: int) | JBool(b: bool) | JNull | JList(items: seq<string>)

  /** A JSON object body: its fields in order. */
  type JsonObject = seq<(string, JsonValue)>

  /** `data.key`: the first field with that name. */
  function Property(body: JsonObject, key: string): Option<JsonValue> {
    if body == [] then None
    else if body[0].0 == key then Some(body[0].1)
    else Property(body[1..], key)
  }

  /** JS truthiness of a field; an array is truthy even when empty. */
  predicate ValueTruthy(v: Option<JsonValue>) {
    v.Some? &&
    match v.value
    case JStr(s) => s != ""
    case JNum(n) => n != 0
    case JBool(b) => b
    case JNull => false
    case JList(_) => true
  }

  /** `String(v)`, which `new Error(v)` uses as the message. */
  function ValueText(v: JsonValue): string {
    match v
    case JStr(s) => s
    case JNum(n) => IntToString(n)
    case JBool(b) => if b then "true" else "false"
    case JNull => "null"
    case JList(items) => Join(items, ",")
  }

  /** `Object.values(data).flat()`: list fields spread into their items. */
  function Flatten(body: JsonObject): seq<JsonValue> {
    if body == [] then []
    else
      var v := body[0].1;
      (if v.JList? then MapSeq(v.items, (s: string) => JStr(s)) else [v]) + Flatten(body[1..])
  }

  /** How `join` writes an element: null as nothing, anything else through `String`. */
  function JoinText(v: JsonValue): string {
    if v.JNull? then "" else ValueText(v)
  }

  /** `Object.values(data).flat().join(', ')`. */
  function JoinedValues(body: JsonObject): string {
    Join(MapSeq(Flatten(body), JoinText), ", ")
  }

  /** The `||` chain stops at a list: a truthy `error` that is a list, or a falsy `error` and a list `detail`. */
  predicate StopsAtList(body: JsonObject) {
    var error := Property(body, "error");
    var detail := Property(body, "detail");
    (ValueTruthy(error) && error.value.JList?) ||
    (!ValueTruthy(error) && ValueTruthy(detail) && detail.value.JList?)
  }

  const DefaultErrorMessage: string := "An error occurred"

  /**
   * The thrown error's message, `String(fallback || 'An error occurred')`. The
   * chain is taken on the values: a truthy `error`, else a truthy `detail`,
   * is kept as it is, even a list that prints as nothing; only a falsy chain
   * (no JSON, or joined values that are empty) gives the generic message.
   * So the message is empty only when the chain stops at a list.
   */
  function ErrorMessage(hasJson: bool, body: JsonObject): (r: string)
    ensures !hasJson ==> r == DefaultErrorMessage
    ensures r == "" ==> hasJson && StopsAtList(body)
  {
    var error := Property(body, "error");
    var detail := Property(body, "detail");
    if !hasJson then DefaultErrorMessage
    else if ValueTruthy(error) then
      ValueTextOfTruthy(error.value);
      ValueText(error.value)
    else if ValueTruthy(detail) then
      ValueTextOfTruthy(detail.value);
      ValueText(detail.value)
    else if JoinedValues(body) == "" then DefaultErrorMessage
    else JoinedValues(body)
  }

  /**
   * With JSON, a truthy `error` is the message, else a truthy `detail`, else
   * the joined values; and when neither field is truthy, the generic message
   * comes from empty joined values exactly when the flattened values are
   * none or a single empty one.
   */
  lemma ErrorMessageFallsBack(hasJson: bool, body: JsonObject)
    requires hasJson
    ensures ValueTruthy(Property(body, "error")) ==>
      ErrorMessage(hasJson, body) == ValueText(Property(body, "error").value)
    ensures !ValueTruthy(Property(body, "error")) && ValueTruthy(Property(body, "detail")) ==>
      ErrorMessage(hasJson, body) == ValueText(Property(body, "detail").value)
    ensures !ValueTruthy(Property(body, "error")) && !ValueTruthy(Property(body, "detail")) ==>
      ErrorMessage(hasJson, body) == (if JoinedValues(body) == "" then DefaultErrorMessage else JoinedValues(body))
    ensures !ValueTruthy(Property(body, "error")) && !ValueTruthy(Property(body, "detail")) ==>
      (ErrorMessage(hasJson, body) == DefaultErrorMessage && JoinedValues(body) == "" <==>
       |Flatten(body)| == 0 || (|Flatten(body)| == 1 && JoinText(Flatten(body)[0]) == ""))
  {
    JoinEmpty(MapSeq(Flatten(body), JoinText), ", ");
  }

  /**
   * When the chain stops at a list, `String` prints its items joined with
   * commas and the generic message is not used, so an empty list or a list
   * of one empty string gives an error with an empty message.
   */
  lemma ErrorMessageOfList(body: JsonObject)
    requires StopsAtList(body)
    ensures var error := Property(body, "error");
      var items := if ValueTruthy(error) then error.value.items else Property(body, "detail").value.items;
      ErrorMessage(true, body) == Join(items, ",") &&
      (ErrorMessage(true, body) == "" <==> |items| == 0 || (|items| == 1 && items[0] == ""))
  {
    var error := Property(body, "error");
    var items := if ValueTruthy(error) then error.value.items else Property(body, "detail").value.items;
    JoinEmpty(items, ",");
  }

  /** A failed JSON reply `{"error": []}` throws an error whose message is empty. */
  lemma EmptyErrorListGivesEmptyMessage()
    ensures ErrorMessage(true, [("error", JList([]))]) == ""
  {
    ErrorMessageOfList([("error", JList([]))]);
  }

  /** A truthy value other than a list never prints as the empty string. */
  lemma ValueTextOfTruthy(v: JsonValue)
    requires ValueTruthy(Some(v))
    ensures !v.JList? ==> ValueText(v) != ""
  {
    if v.JNum? {
      if v.n < 0 {
        assert IntToString(v.n)[0] == '-';
      } else {
        NatToStringNonEmpty(v.n);
      }
    }
  }

  /** `String(n)` for a natural number has at least one digit. */
  lemma NatToStringNonEmpty(n: nat)
    ensures IntToString(n) != ""
  {
    NumberOfIntToString(n);
  }

  /** `response.headers.get('content-type') || ''` includes `application/json`. */
  predicate HasJson(contentType: Option<string>) {
    contentType.Some? && Includes(contentType.value, JsonType)
  }

  /** `s.includes(part)`. */
  predicate Includes(s: string, part: string) {
    part <= s || (s != [] && Includes(s[1..], part))
  }

  /** What the server sent: status, content type and, for JSON, the parsed body (`None` for JSON `null`). */
  datatype HttpResponse = HttpResponse(ok: bool, status: int, contentType: Option<string>, body: Option<JsonObject>)

  /** How `request` ends: it throws with a message, returns undefined, or returns an object. */
  datatype Reply = Threw(message: string) | NoContent | Data(data: JsonObject)

  /** `request` after the response arrives. */
  function Interpret(response: HttpResponse): (r: Reply)
    ensures !response.ok ==>
      r == Threw(ErrorMessage(HasJson(response.contentType),
                              if HasJson(response.contentType) && response.body.Some? then response.body.value else []))
    ensures !response.ok && r.message == "" ==>
      HasJson(response.contentType) && response.body.Some? && StopsAtList(response.body.value)
    ensures response.ok ==> !r.Threw?
    ensures response.ok && response.status == 204 ==> r.NoContent?
    ensures response.ok && response.status != 204 && HasJson(response.contentType) ==>
      r == Data(if response.body.Some? then response.body.value else [])
    ensures response.ok && response.status != 204 && !HasJson(response.contentType) ==> r == Data([])
  {
    var hasJson := HasJson(response.contentType);
    var data := if hasJson then response.body else None;
    if !response.ok then Threw(ErrorMessage(hasJson, if data.Some? then data.value else []))
    else if response.status == 204 then NoContent
    else Data(if data.Some? then data.value else [])
  }

  /** A paginated list reply; `results` may be missing. */
  datatype Page<T> = Page(results: Option<seq<T>>)

  /** `response?.results ?? []`: the list, or empty for no content or no results. */
  function Results<T>(reply: Option<Page<T>>): (r: seq<T>)
    ensures reply.Some? && reply.value.results.Some? ==> r == reply.value.results.value
    ensures reply.None? || reply.value.results.None? ==> r == []
  {
    if reply.Some? && reply.value.results.Some? then reply.value.results.value else []
  }

  /**
   * A list endpoint after `request`: a thrown error is passed on as a failed
   * fetch; otherwise `response?.results ?? []`, with `page` reading the page
   * from the body and undefined (204) giving the empty list.
   */
  function ListOf<T>(reply: Reply, page: JsonObject -> Page<T>): (r: Fetched<seq<T>>)
    ensures reply.Threw? <==> r.FetchFailed?
    ensures reply.Threw? ==> r.message == reply.message
    ensures reply.NoContent? ==> r == Fetched([])
    ensures reply.Data? ==> r == Fetched(Results(Some(page(reply.data))))
  {
    match reply
    case Threw(message) => FetchFailed(message)
    case NoContent => Fetched(Results<T>(None))
    case Data(data) => Fetched(Results(Some(page(data))))
  }

  /**
   * A list call fails exactly when the response is not ok, with the error
   * message of its body; a 204 lists nothing, and a reply without JSON lists
   * what the page reads from `{}`.
   */
  lemma ListOfResponse<T>(response: HttpResponse, page: JsonObject -> Page<T>)
    ensures ListOf(Interpret(response), page).FetchFailed? <==> !response.ok
    ensures !response.ok ==>
      ListOf(Interpret(response), page).message ==
      ErrorMessage(HasJson(response.contentType),
                   if HasJson(response.contentType) && response.body.Some? then response.body.value else [])
    ensures response.ok && response.status == 204 ==> ListOf(Interpret(response), page) == Fetched([])
    ensures response.ok && response.status != 204 && !HasJson(response.contentType) ==>
      ListOf(Interpret(response), page) == Fetched(Results(Some(page([]))))
  {
  }

  // ---------------------------------------------------------------------------
  // Endpoints
  // ---------------------------------------------------------------------------

  /** `id ? `?name=${id}` : ''` appended to the path. */
  function ListEndpoint(path: string, name: string, id: Option<int>): string {
    if IdTruthy(id) then path + "?" + name + "=" + IntToString(id.value) else path
  }

  function SessionsEndpoint(campaignId: Option<int>): string {
    ListEndpoint("/accounts/sessions/", "campaign", campaignId)
  }

  function NotesEndpoint(sessionId: Option<int>): string {
    ListEndpoint("/accounts/dm-notes/", "session", sessionId)
  }

  /**
   * A list endpoint keeps its path; a query follows exactly when the id is
   * truthy, and its value reads back as that id.
   */
  lemma ListEndpointFilters(path: string, name: string, id: Option<int>)
    ensures var e := ListEndpoint(path, name, id);
      var q := "?" + name + "=";
      e[..|path|] == path &&
      (!IdTruthy(id) ==> e == path) &&
      (IdTruthy(id) ==>
        |e| > |path| + |q| && e[|path|..|path| + |q|] == q && ParseNumber(e[|path| + |q|..]) == Num(id.value))
  {
    var e := ListEndpoint(path, name, id);
    if IdTruthy(id) {
      var q := "?" + name + "=";
      assert e == path + q + IntToString(id.value);
      assert e[|path| + |q|..] == IntToString(id.value);
      NumberOfIntToString(id.value);
    }
  }

  /** The two list calls filter by the truthy id they are given. */
  lemma SessionAndNoteEndpoints(campaignId: Option<int>, sessionId: Option<int>)
    ensures !IdTruthy(campaignId) <==> SessionsEndpoint(campaignId) == "/accounts/sessions/"
    ensures !IdTruthy(sessionId) <==> NotesEndpoint(sessionId) == "/accounts/dm-notes/"
  {
    ListEndpointFilters("/accounts/sessions/", "campaign", campaignId);
    ListEndpointFilters("/accounts/dm-notes/", "session", sessionId);
  }

  // ---------------------------------------------------------------------------
  // Tokens
  // ---------------------------------------------------------------------------

  const AccessKey: string := "access_token"
  const RefreshKey: string := "refresh_token"

  datatype Tokens = Tokens(access: string, refresh: string)

  /** A login or register reply; `tokens` may be absent. */
  datatype AuthResponse = AuthResponse(userId: int, username: string, tokens: Option<Tokens>)

  class ApiService {
    /** The browser's local storage. */
    var storage: map<string, string>

    constructor (stored: map<string, string>)
      ensures storage == stored
    {
      storage := stored;
    }

    /** `localStorage.getItem('access_token')`. */
    function AccessToken(): Option<string>
      reads this
    {
      if AccessKey in storage then Some(storage[AccessKey]) else None
    }

    /** `!!getAuthToken()`: a stored access token that is not empty. */
    predicate IsAuthenticated()
      reads this
    {
      TokenTruthy(AccessToken())
    }

    /**
     * `request` up to the reply: the headers sent carry the stored access
     * token, and the reply is read from the response; storage is not touched.
     */
    method Request(caller: CallerHeaders, response: HttpResponse) returns (sent: Headers, reply: Reply)
      ensures sent == RequestHeaders(AccessToken(), caller)
      ensures reply == Interpret(response)
    {
      sent := BuildHeaders(AccessToken(), caller);
      reply := Interpret(response);
    }

    /** After `register` and `login`: both tokens are stored when the reply has them. */
    method StoreTokens(response: AuthResponse)
      modifies this
      ensures response.tokens.None? ==> storage == old(storage)
      ensures response.tokens.Some? ==>
        storage == old(storage)[AccessKey := response.tokens.value.access][RefreshKey := response.tokens.value.refresh]
      ensures response.tokens.Some? ==> (IsAuthenticated() <==> response.tokens.value.access != "")
    {
      if response.tokens.Some? {
        storage := storage[AccessKey := response.tokens.value.access];
        storage := storage[RefreshKey := response.tokens.value.refresh];
      }
    }

    /** `logout`: both tokens are removed, nothing else is. */
    method Logout()
      modifies this
      ensures storage == old(storage) - {AccessKey, RefreshKey}
      ensures !IsAuthenticated()
      ensures forall k :: k in old(storage) && k != AccessKey && k != RefreshKey ==> k in storage && storage[k] == old(storage)[k]
    {
      storage := storage - {AccessKey, RefreshKey};
    }
  }
}
