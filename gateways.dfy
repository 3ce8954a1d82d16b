/**
 * The gateways of internal/haproxy (transactions.go, configuration.go, acl.go,
 * frontend.go, maps.go): the request each client method builds, and how it turns the
 * outcome of `sendRequest` into its result. URLs are plain concatenations, kept exactly
 * as written, including the query strings that lack a '?' or a '='.
 *
 * `http.NewRequest` fails only on a URL it cannot parse; its error is returned unchanged,
 * just like a transport error, so it is folded into `Transport.TransportError`.
 */
module Gateways {
  import opened Wrappers
  import opened Text
  import opened JsonValue
  import opened Models
  import opened Transport

  datatype Method = Get | Post | Put | Delete

  /**
   * A request as `sendRequest` receives it: the headers the gateway set (at most a
   * Content-Type), the JSON body, and whether a non-nil out-parameter is passed.
   */
  datatype Request = Request(verb: Method, url: string, headers: map<string, string>, body: Option<Json>, hasTarget: bool)

  const JsonContent: map<string, string> := map["Content-Type" := "application/json"]

  const NoHeaders: map<string, string> := map[]

  /*
   * transactions.go
   */

  const TransactionPath := "/services/haproxy/transaction"

  function CreateTransactionRequest(c: Client, version: int): (r: Request)
    ensures r.verb == Post && r.body == None && r.headers == NoHeaders && r.hasTarget
    ensures r.url == c.baseUrl + TransactionPath + "?version=" + Itoa(version)
  {
    Request(Post, c.baseUrl + TransactionPath + "?version=" + Itoa(version), NoHeaders, None, true)
  }

  /** The version the transaction is opened at is what the query carries, in decimal. */
  lemma CreateTransactionVersionParses(c: Client, version: int)
    ensures var url := CreateTransactionRequest(c, version).url;
      var n := |c.baseUrl + TransactionPath + "?version="|;
      n <= |url| && ParseDecimal(url[n..]) == Some(version)
  {
    var url := CreateTransactionRequest(c, version).url;
    var n := |c.baseUrl + TransactionPath + "?version="|;
    assert url[n..] == Itoa(version);
    ItoaRoundTrip(version);
  }

  /** Distinct versions give distinct requests. */
  lemma CreateTransactionInjective(c: Client, v1: int, v2: int)
    requires CreateTransactionRequest(c, v1) == CreateTransactionRequest(c, v2)
    ensures v1 == v2
  {
    CreateTransactionVersionParses(c, v1);
    CreateTransactionVersionParses(c, v2);
  }

  function CommitTransactionRequest(c: Client, id: string): (r: Request)
    ensures r.verb == Put && r.body == None && r.headers == NoHeaders && r.hasTarget
    ensures HasPrefix(r.url, c.baseUrl + TransactionPath + "/")
    ensures r.url[|c.baseUrl + TransactionPath + "/"|..] == id
  {
    var p := c.baseUrl + TransactionPath + "/";
    var url := p + id;
    assert url[..|p|] == p && url[|p|..] == id;
    Request(Put, url, NoHeaders, None, true)
  }

  /** Distinct transaction ids give distinct commit requests. */
  lemma CommitTransactionInjective(c: Client, id1: string, id2: string)
    requires CommitTransactionRequest(c, id1) == CommitTransactionRequest(c, id2)
    ensures id1 == id2
  {
  }

  /*
   * configuration.go
   */

  const RawConfigurationPath := "/services/haproxy/configuration/raw"

  /** The query lacks the '=': it reads "?transaction_id" followed directly by the id. */
  function GetConfigurationRequest(c: Client, id: string): (r: Request)
    ensures r.verb == Get && r.body == None && r.headers == NoHeaders && r.hasTarget
    ensures r.url == c.baseUrl + RawConfigurationPath + "?transaction_id" + id
  {
    Request(Get, c.baseUrl + RawConfigurationPath + "?transaction_id" + id, NoHeaders, None, true)
  }

  /** The query of a URL: what follows its first '?', or nothing. */
  function Query(url: string): (q: string)
    ensures '?' in url ==> |q| < |url|
    decreases |url|
  {
    if url == [] then []
    else if url[0] == '?' then url[1..]
    else Query(url[1..])
  }

  lemma {:induction false} QueryAfter(prefix: string, q: string)
    requires '?' !in prefix
    ensures Query(prefix + "?" + q) == q
    decreases |prefix|
  {
    if prefix == [] {
      assert prefix + "?" + q == ['?'] + q;
    } else {
      assert (prefix + "?" + q)[1..] == prefix[1..] + "?" + q;
      QueryAfter(prefix[1..], q);
    }
  }

  /** '=' occurs in "transaction_id" + id only where it occurs in the id. */
  lemma AssignmentOnlyInId(id: string)
    ensures '=' in "transaction_id" + id <==> '=' in id
  {
    var q := "transaction_id" + id;
    assert '=' !in "transaction_id";
    assert q == "transaction_id" + id;
  }

  /**
   * Because of the missing '=', a query-string reader finds no assignment in the
   * configuration query unless the id itself holds one: the id is not sent as the value
   * of `transaction_id`.
   */
  lemma GetConfigurationQueryHasNoAssignment(c: Client, id: string)
    requires '?' !in c.baseUrl
    ensures var q := Query(GetConfigurationRequest(c, id).url);
      q == "transaction_id" + id && ('=' in q <==> '=' in id)
  {
    var prefix := c.baseUrl + RawConfigurationPath;
    assert '?' !in RawConfigurationPath;
    assert GetConfigurationRequest(c, id).url == prefix + "?" + ("transaction_id" + id);
    QueryAfter(prefix, "transaction_id" + id);
    AssignmentOnlyInId(id);
  }

  /*
   * acl.go
   */

  const AclsPath := "/services/haproxy/configuration/acls"

  /** The query every ACL request carries; `&parent_type` has no '=' before the type. */
  function AclQuery(id: string, p: Parent): string
  {
    "?parent_name=" + p.name + "&transaction_id=" + id + "&parent_type" + p.kind
  }

  /** The last '&'-separated field of the ACL query is "parent_type" followed by the type, with no '='. */
  lemma AclQueryLastField(id: string, p: Parent)
    ensures HasSuffix(AclQuery(id, p), "&parent_type" + p.kind)
  {
    var q := AclQuery(id, p);
    assert q[|q| - |"&parent_type" + p.kind|..] == "&parent_type" + p.kind;
  }

  /** The URL of one ACL: its index in decimal as the last path segment. */
  function AclUrl(c: Client, id: string, acl: Acl, p: Parent): string
  {
    c.baseUrl + AclsPath + "/" + Itoa(acl.index) + AclQuery(id, p)
  }

  function GetAclRequest(c: Client, id: string, acl: Acl, p: Parent): (r: Request)
    ensures r.verb == Get && r.body == None && r.headers == NoHeaders && r.hasTarget
    ensures r.url == AclUrl(c, id, acl, p)
  {
    Request(Get, AclUrl(c, id, acl, p), NoHeaders, None, true)
  }

  /** Creation has no index segment. */
  function CreateAclRequest(c: Client, id: string, acl: Acl, p: Parent): (r: Request)
    ensures r.verb == Post && r.body == Some(AclJson(acl)) && r.headers == JsonContent && r.hasTarget
    ensures r.url == c.baseUrl + AclsPath + AclQuery(id, p)
  {
    Request(Post, c.baseUrl + AclsPath + AclQuery(id, p), JsonContent, Some(AclJson(acl)), true)
  }

  function UpdateAclRequest(c: Client, id: string, acl: Acl, p: Parent): (r: Request)
    ensures r.verb == Put && r.body == Some(AclJson(acl)) && r.headers == JsonContent && r.hasTarget
    ensures r.url == AclUrl(c, id, acl, p)
  {
    Request(Put, AclUrl(c, id, acl, p), JsonContent, Some(AclJson(acl)), true)
  }

  /** Delete sends the ACL as its body, but without a Content-Type and with a nil out-parameter. */
  function DeleteAclRequest(c: Client, id: string, acl: Acl, p: Parent): (r: Request)
    ensures r.verb == Delete && r.body == Some(AclJson(acl)) && r.headers == NoHeaders && !r.hasTarget
    ensures r.url == AclUrl(c, id, acl, p)
  {
    Request(Delete, AclUrl(c, id, acl, p), NoHeaders, Some(AclJson(acl)), false)
  }

  /** The index is what the path carries: it reads back from the URL. */
  lemma AclUrlIndexParses(c: Client, id: string, acl: Acl, p: Parent)
    ensures var url := AclUrl(c, id, acl, p);
      var n := |c.baseUrl + AclsPath + "/"|;
      var m := |Itoa(acl.index)|;
      n + m <= |url| && ParseDecimal(url[n..n + m]) == Some(acl.index)
  {
    var url := AclUrl(c, id, acl, p);
    var n := |c.baseUrl + AclsPath + "/"|;
    assert url[n..n + |Itoa(acl.index)|] == Itoa(acl.index);
    ItoaRoundTrip(acl.index);
  }

  /** The bodies Create and Update send serialise all four members and read back as the ACL. */
  lemma AclBodyRoundTrip(c: Client, id: string, acl: Acl, p: Parent)
    ensures var b := CreateAclRequest(c, id, acl, p).body.value;
      && b == UpdateAclRequest(c, id, acl, p).body.value
      && b.members.Keys == {"acl_name", "criterion", "index", "value"}
      && AclFromJson(b.members) == acl
  {
    AclRoundTrip(acl);
  }

  /*
   * frontend.go
   */

  const FrontendsPath := "/services/haproxy/configuration/frontends"

  /** The URL of one frontend: the name, then "&transaction_id=" with no '?' before it. */
  function FrontendUrl(c: Client, id: string, name: string): string
  {
    c.baseUrl + FrontendsPath + "/" + name + "&transaction_id=" + id
  }

  function GetFrontendRequest(c: Client, id: string, f: Frontend): (r: Request)
    ensures r.verb == Get && r.body == None && r.headers == NoHeaders && r.hasTarget
    ensures r.url == FrontendUrl(c, id, f.name)
  {
    Request(Get, FrontendUrl(c, id, f.name), NoHeaders, None, true)
  }

  function CreateFrontendRequest(c: Client, id: string, f: Frontend): (r: Request)
    ensures r.verb == Post && r.body == Some(FrontendJson(f)) && r.headers == JsonContent && r.hasTarget
    ensures r.url == c.baseUrl + FrontendsPath + "&transaction_id=" + id
  {
    Request(Post, c.baseUrl + FrontendsPath + "&transaction_id=" + id, JsonContent, Some(FrontendJson(f)), true)
  }

  function UpdateFrontendRequest(c: Client, id: string, f: Frontend): (r: Request)
    ensures r.verb == Put && r.body == Some(FrontendJson(f)) && r.headers == JsonContent && r.hasTarget
    ensures r.url == FrontendUrl(c, id, f.name)
  {
    Request(Put, FrontendUrl(c, id, f.name), JsonContent, Some(FrontendJson(f)), true)
  }

  function DeleteFrontendRequest(c: Client, id: string, f: Frontend): (r: Request)
    ensures r.verb == Delete && r.body == None && r.headers == NoHeaders && !r.hasTarget
    ensures r.url == FrontendUrl(c, id, f.name)
  {
    Request(Delete, FrontendUrl(c, id, f.name), NoHeaders, None, false)
  }

  /**
   * With no '?' anywhere in the frontend URLs, the transaction id travels in the path:
   * a query-string reader finds no query unless the base URL, the name or the id has a '?'.
   */
  lemma FrontendUrlsHaveNoQuery(c: Client, id: string, f: Frontend)
    requires '?' !in c.baseUrl && '?' !in f.name && '?' !in id
    ensures '?' !in FrontendUrl(c, id, f.name)
    ensures '?' !in CreateFrontendRequest(c, id, f).url
    ensures Query(FrontendUrl(c, id, f.name)) == [] && Query(CreateFrontendRequest(c, id, f).url) == []
  {
    assert '?' !in FrontendsPath + "/" && '?' !in "&transaction_id=";
    NoQueryWithoutMark(FrontendUrl(c, id, f.name));
    NoQueryWithoutMark(CreateFrontendRequest(c, id, f).url);
  }

  lemma {:induction false} NoQueryWithoutMark(url: string)
    requires '?' !in url
    ensures Query(url) == []
    decreases |url|
  {
    if url != [] {
      assert url[0] != '?';
      assert forall k :: 0 <= k < |url| - 1 ==> url[1..][k] == url[k + 1];
      NoQueryWithoutMark(url[1..]);
    }
  }

  /** Create and Update send the frontend's JSON, which reads back as the frontend. */
  lemma FrontendBodyRoundTrip(c: Client, id: string, f: Frontend)
    ensures FrontendFromJson(CreateFrontendRequest(c, id, f).body.value.members) == f
    ensures UpdateFrontendRequest(c, id, f).body == CreateFrontendRequest(c, id, f).body
  {
    FrontendRoundTrip(f);
  }

  /*
   * maps.go; `escape` stands for `replaceSlashInString`, which is not part of this model.
   */

  const MapsEntriesPath := "/services/haproxy/runtime/maps_entries/"

  function MapEntrieUrl(c: Client, escape: string -> string, key: string, mapName: string): string
  {
    c.baseUrl + MapsEntriesPath + escape(key) + "?map=" + mapName
  }

  function ForceSync(forceSync: bool): string
  {
    "&force_sync=" + FormatBool(forceSync)
  }

  /** The force_sync suffix reads back as the flag. */
  lemma ForceSyncParses(forceSync: bool)
    ensures var s := ForceSync(forceSync); |s| >= 12 && ParseBool(s[12..]) == Some(forceSync)
  {
    var s := ForceSync(forceSync);
    assert s[12..] == FormatBool(forceSync);
    FormatBoolRoundTrip(forceSync);
  }

  /** Get has no force_sync. */
  function GetMapEntrieRequest(c: Client, escape: string -> string, key: string, mapName: string): (r: Request)
    ensures r.verb == Get && r.body == None && r.headers == NoHeaders && r.hasTarget
    ensures r.url == MapEntrieUrl(c, escape, key, mapName)
  {
    Request(Get, MapEntrieUrl(c, escape, key, mapName), NoHeaders, None, true)
  }

  /** Create posts the whole entry to the collection, with no key segment. */
  function CreateMapEntrieRequest(c: Client, e: MapEntrie, mapName: string, forceSync: bool): (r: Request)
    ensures r.verb == Post && r.body == Some(MapEntrieJson(e)) && r.headers == JsonContent && r.hasTarget
    ensures r.url == c.baseUrl + MapsEntriesPath + "?map=" + mapName + ForceSync(forceSync)
  {
    Request(Post, c.baseUrl + MapsEntriesPath + "?map=" + mapName + ForceSync(forceSync),
            JsonContent, Some(MapEntrieJson(e)), true)
  }

  /** The body Update sends: a fresh entry holding only the value. */
  function ValueOnly(e: MapEntrie): MapEntrie
  {
    MapEntrie("", "", e.value)
  }

  function UpdateMapEntrieRequest(c: Client, escape: string -> string, e: MapEntrie, mapName: string, forceSync: bool): (r: Request)
    ensures r.verb == Put && r.body == Some(MapEntrieJson(ValueOnly(e))) && r.headers == JsonContent && r.hasTarget
    ensures r.url == MapEntrieUrl(c, escape, e.key, mapName) + ForceSync(forceSync)
  {
    Request(Put, MapEntrieUrl(c, escape, e.key, mapName) + ForceSync(forceSync),
            JsonContent, Some(MapEntrieJson(ValueOnly(e))), true)
  }

  /** Delete has no body; its out-parameter is a non-nil value, so a success body is decoded. */
  function DeleteMapEntrieRequest(c: Client, escape: string -> string, key: string, mapName: string, forceSync: bool): (r: Request)
    ensures r.verb == Delete && r.body == None && r.headers == NoHeaders && r.hasTarget
    ensures r.url == MapEntrieUrl(c, escape, key, mapName) + ForceSync(forceSync)
  {
    Request(Delete, MapEntrieUrl(c, escape, key, mapName) + ForceSync(forceSync), NoHeaders, None, true)
  }

  /**
   * The Update body is exactly `{"value": ...}`: `id` and `key` are left empty and
   * `omitempty` drops them, while `value` is sent even when empty.
   */
  lemma UpdateMapEntrieBodyIsValueOnly(c: Client, escape: string -> string, e: MapEntrie, mapName: string, forceSync: bool)
    ensures var b := UpdateMapEntrieRequest(c, escape, e, mapName, forceSync).body.value;
      b.members.Keys == {"value"} && MapEntrieFromJson(b.members) == MapEntrie("", "", e.value)
  {
    MapEntrieMembers(ValueOnly(e));
    MapEntrieRoundTrip(ValueOnly(e));
  }

  /** Create's body reads back as the entry, and carries `key` exactly when the key is non-empty. */
  lemma CreateMapEntrieBodyRoundTrip(c: Client, e: MapEntrie, mapName: string, forceSync: bool)
    ensures var b := CreateMapEntrieRequest(c, e, mapName, forceSync).body.value;
      && MapEntrieFromJson(b.members) == e
      && "value" in b.members
      && ("key" in b.members <==> e.key != "")
  {
    MapEntrieMembers(e);
    MapEntrieRoundTrip(e);
  }

  /** Update, Delete and Get address the same entry: the URL up to force_sync is Get's. */
  lemma MapEntrieUrlsAgree(c: Client, escape: string -> string, e: MapEntrie, mapName: string, forceSync: bool)
    ensures var get := GetMapEntrieRequest(c, escape, e.key, mapName).url;
      && HasPrefix(UpdateMapEntrieRequest(c, escape, e, mapName, forceSync).url, get)
      && HasPrefix(DeleteMapEntrieRequest(c, escape, e.key, mapName, forceSync).url, get)
      && UpdateMapEntrieRequest(c, escape, e, mapName, forceSync).url[|get|..] == ForceSync(forceSync)
  {
    var get := GetMapEntrieRequest(c, escape, e.key, mapName).url;
    var upd := UpdateMapEntrieRequest(c, escape, e, mapName, forceSync).url;
    assert upd[..|get|] == get && upd[|get|..] == ForceSync(forceSync);
  }

  /*
   * Results
   */

  /**
   * What a gateway returning a record makes of `sendRequest`'s outcome: its error, or the
   * record, which is the decoded body when one was decoded and the zero record otherwise
   * (a 204, or a nil out-parameter).
   */
  function Finish<T>(o: SendOutcome, decoded: T, zero: T): (r: Result<T>)
    ensures r.Err? <==> o.SendFailed?
    ensures r.Err? ==> r.message == o.message
    ensures o == Delivered(true) ==> r == Ok(decoded)
    ensures o == Delivered(false) ==> r == Ok(zero)
  {
    match o
    case SendFailed(m) => Err(m)
    case Delivered(d) => if d then Ok(decoded) else Ok(zero)
  }

  /** What a gateway returning only an error makes of it. */
  function FinishError(o: SendOutcome): (r: Option<string>)
    ensures r.Some? <==> o.SendFailed?
    ensures r.Some? ==> r.value == o.message
  {
    match o
    case SendFailed(m) => Some(m)
    case Delivered(_) => None
  }

  const ZeroTransaction := Transaction("", 0, "")

  const ZeroConfiguration := Configuration(0, "")

  const ZeroAcl := Acl("", "", 0, "")

  const ZeroMapEntrie := MapEntrie("", "", "")

  /** `GetAcl` decodes a wrapper and returns its `Data` member. */
  function GetAclResult(o: SendOutcome, decoded: AclEnvelope): (r: Result<Acl>)
    ensures r.Err? <==> o.SendFailed?
    ensures o == Delivered(true) ==> r == Ok(decoded.data)
  {
    match Finish(o, decoded, AclEnvelope(ZeroAcl))
    case Err(m) => Err(m)
    case Ok(env) => Ok(env.data)
  }

  /**
   * Whatever the server does, a gateway with an out-parameter yields an error exactly
   * when `sendRequest` reports one, and never a decoded value on an error status.
   */
  lemma FinishAfterSend<T>(x: Exchange, decoded: T, zero: T)
    ensures var r := Finish(SendRequest(x, true), decoded, zero);
      && (x.Received? && x.response.status >= 300 ==> r == Err(StatusError(x.response)))
      && (x.Received? && x.response.status == StatusNoContent ==> r == Ok(zero))
      && (r == Ok(decoded) && decoded != zero ==>
            x.Received? && x.response.status < 300 && x.response.decoding == Decodes)
  {
  }

  /** A Delete with a nil out-parameter fails exactly on a transport error or an error status. */
  lemma NilTargetDeleteFails(x: Exchange)
    ensures FinishError(SendRequest(x, false)).Some? <==> x.TransportError? || x.response.status >= 300
  {
  }
}
