/** The push-channel helpers of ever-greater-client/src/api/globalTicket.ts: the WebSocket URL
    derived from the API base, and the routing of a parsed server frame to the two callbacks. */
module GlobalTicket {
  import opened Wrappers

  const DefaultApiBase := "http://localhost:4000"

  /** `process.env.REACT_APP_API_BASE || DEFAULT_API_BASE`: an unset or empty variable falls
      back to the default. */
  function ApiBase(env: Option<string>): string {
    if env.Some? && env.value != "" then env.value else DefaultApiBase
  }

  // ---------------------------------------------------------------------------
  // String helpers with JavaScript's meaning

  /** `s.startsWith(p)`. */
  predicate StartsWith(s: string, p: string) {
    |p| <= |s| && s[..|p|] == p
  }

  predicate OccursAt(s: string, p: string, i: nat) {
    i + |p| <= |s| && s[i..i + |p|] == p
  }

  /** The first position at or after k where p occurs in s, if any. */
  function FindFrom(s: string, p: string, k: nat): (r: Option<nat>)
    ensures r.Some? ==> k <= r.value && OccursAt(s, p, r.value)
    ensures r.Some? ==> forall j :: k <= j < r.value ==> !OccursAt(s, p, j)
    ensures r.None? ==> forall j :: k <= j ==> !OccursAt(s, p, j)
    decreases |s| - k
  {
    if k + |p| > |s| then None
    else if s[k..k + |p|] == p then Some(k)
    else FindFrom(s, p, k + 1)
  }

  /** `s.indexOf(p)`, with `None` for -1. */
  function IndexOf(s: string, p: string): Option<nat> {
    FindFrom(s, p, 0)
  }

  /** `s.replace(p, r)` with a string pattern: only the first occurrence is replaced. */
  function ReplaceFirst(s: string, p: string, r: string): string {
    match IndexOf(s, p)
    case None => s
    case Some(i) => s[..i] + r + s[i + |p|..]
  }

  /** `getWsUrl()` for a given API base. */
  function WsUrl(base: string): string {
    if StartsWith(base, "https://") then "wss://" + ReplaceFirst(base, "https://", "") + "/ws"
    else "ws://" + ReplaceFirst(base, "http://", "") + "/ws"
  }

  // ---------------------------------------------------------------------------
  // getWsUrl properties

  /** A prefix is the first occurrence, so replacing it removes exactly the prefix. */
  lemma ReplacePrefix(s: string, p: string)
    requires StartsWith(s, p)
    ensures ReplaceFirst(s, p, "") == s[|p|..]
  {
    assert OccursAt(s, p, 0);
    assert s[..0] + "" + s[|p|..] == s[|p|..];
  }

  /** A secure base maps to "wss://" + the base without "https://" + "/ws". */
  lemma WsUrlSecure(base: string)
    requires StartsWith(base, "https://")
    ensures WsUrl(base) == "wss://" + base[8..] + "/ws"
  {
    ReplacePrefix(base, "https://");
  }

  /** Any other base maps to "ws://" + the base with its first "http://" cut out + "/ws". */
  lemma WsUrlPlain(base: string, i: nat)
    requires !StartsWith(base, "https://")
    requires OccursAt(base, "http://", i)
    requires forall j: nat :: j < i ==> !OccursAt(base, "http://", j)
    ensures WsUrl(base) == "ws://" + base[..i] + base[i + 7..] + "/ws"
  {
    assert IndexOf(base, "http://") == Some(i);
  }

  /** A base that is neither secure nor contains "http://" is kept whole. */
  lemma WsUrlOther(base: string)
    requires !StartsWith(base, "https://")
    requires forall j: nat :: !OccursAt(base, "http://", j)
    ensures WsUrl(base) == "ws://" + base + "/ws"
  {
  }

  /** Every URL getWsUrl builds has a WebSocket scheme and ends in "/ws". */
  lemma WsUrlShape(base: string)
    ensures var u := WsUrl(base);
      (StartsWith(u, "ws://") || StartsWith(u, "wss://")) && |u| >= 3 && u[|u| - 3..] == "/ws"
  {
  }

  /** Without REACT_APP_API_BASE the socket goes to "ws://localhost:4000/ws". */
  lemma DefaultWsUrl(env: Option<string>)
    requires env.None? || env.value == ""
    ensures WsUrl(ApiBase(env)) == "ws://" + "localhost:4000" + "/ws"
  {
    DefaultBaseIsPlain();
    ReplacePrefix(DefaultApiBase, "http://");
  }

  /** The default base is an "http://" base, not an "https://" one. */
  lemma DefaultBaseIsPlain()
    ensures !StartsWith(DefaultApiBase, "https://")
    ensures StartsWith(DefaultApiBase, "http://")
    ensures DefaultApiBase[7..] == "localhost:4000"
  {
    assert DefaultApiBase[4] == ':';
  }

  // ---------------------------------------------------------------------------
  // Routing of server frames

  /** A parsed JSON value. */
  datatype Json =
    | Null
    | Bool(b: bool)
    | Number(n: int)
    | Str(s: string)
    | Array(items: seq<Json>)
    | Object(fields: map<string, Json>)

  /** JavaScript truthiness of a JSON value. */
  predicate Truthy(j: Json) {
    match j
    case Null => false
    case Bool(b) => b
    case Number(n) => n != 0
    case Str(s) => s != ""
    case Array(_) => true
    case Object(_) => true
  }

  /** A callback invocation the socket's message listener makes. */
  datatype Callback = OnCount(count: int) | OnUserUpdate(update: Json)

  /** The message listener on one frame: `frame` is None when `JSON.parse` throws (the frame
      is ignored); `hasOnUserUpdate` says whether the optional callback was supplied. */
  function Route(frame: Option<Json>, hasOnUserUpdate: bool): (calls: seq<Callback>)
    ensures |calls| <= 2
    ensures forall n :: OnCount(n) in calls <==>
      frame.Some? && frame.value.Object? && "count" in frame.value.fields
      && frame.value.fields["count"] == Number(n)
    ensures forall u :: OnUserUpdate(u) in calls <==>
      hasOnUserUpdate && frame.Some? && frame.value.Object? && "user_update" in frame.value.fields
      && frame.value.fields["user_update"] == u && Truthy(u)
    ensures |calls| == 2 ==> calls[0].OnCount? && calls[1].OnUserUpdate?
  {
    match frame
    case Some(Object(fields)) =>
      var countCalls :=
        if "count" in fields && fields["count"].Number? then [OnCount(fields["count"].n)] else [];
      var updateCalls :=
        if "user_update" in fields && Truthy(fields["user_update"]) && hasOnUserUpdate
        then [OnUserUpdate(fields["user_update"])] else [];
      countCalls + updateCalls
    case _ => []
  }

  /** One frame can carry both the shared count and a user update, and then both callbacks fire
      in that order. */
  lemma RouteBoth(n: int, u: Json)
    requires Truthy(u)
    ensures Route(Some(Object(map["count" := Number(n), "user_update" := u])), true)
         == [OnCount(n), OnUserUpdate(u)]
  {
  }
}
