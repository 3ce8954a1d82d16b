/**
 * The records the gateways exchange with the Dataplane API and the JSON key mapping their
 * Go struct tags define (internal/haproxy/models, internal/haproxy/maps.go,
 * internal/haproxy/configuration.go). Each encoder has a decoder that reads the members
 * back the way `json.Unmarshal` does, and the round trips are proved.
 */
module Models {
  import opened JsonValue

  /** `models.ACL`; all four members are always serialised. */
  datatype Acl = Acl(name: string, criterion: string, index: int, value: string)

  /** The scope an ACL lives in: `parent_name` and `parent_type` ("frontend" or "backend"). */
  datatype Parent = Parent(name: string, kind: string)

  function AclJson(a: Acl): (j: Json)
    ensures j.JObject? && j.members.Keys == {"acl_name", "criterion", "index", "value"}
  {
    JObject(map["acl_name" := JString(a.name), "criterion" := JString(a.criterion),
                "index" := JInt(a.index), "value" := JString(a.value)])
  }

  function AclFromJson(m: map<string, Json>): Acl
  {
    Acl(StringAt(m, "acl_name"), StringAt(m, "criterion"), IntAt(m, "index"), StringAt(m, "value"))
  }

  lemma AclRoundTrip(a: Acl)
    ensures AclFromJson(AclJson(a).members) == a
  {
  }

  /** The wrapper `GetAcl` decodes into; only its `Data` member is used. */
  datatype AclEnvelope = AclEnvelope(data: Acl)

  /** `haproxy.MapEntrie`: `id` and `key` are `omitempty`, `value` is not. */
  datatype MapEntrie = MapEntrie(id: string, key: string, value: string)

  function MapEntrieJson(e: MapEntrie): Json
  {
    JObject(OmitEmpty(map["id" := JString(e.id), "key" := JString(e.key)])["value" := JString(e.value)])
  }

  function MapEntrieFromJson(m: map<string, Json>): MapEntrie
  {
    MapEntrie(StringAt(m, "id"), StringAt(m, "key"), StringAt(m, "value"))
  }

  /** `value` is always emitted, `id` and `key` only when non-empty, and nothing else. */
  lemma MapEntrieMembers(e: MapEntrie)
    ensures var m := MapEntrieJson(e).members;
      && "value" in m
      && ("id" in m <==> e.id != "")
      && ("key" in m <==> e.key != "")
      && m.Keys <= {"id", "key", "value"}
  {
  }

  lemma MapEntrieRoundTrip(e: MapEntrie)
    ensures MapEntrieFromJson(MapEntrieJson(e).members) == e
  {
  }

  /** `haproxy.Configuration`: `Version` is keyed `_version`, `Data` is keyed `data`. */
  datatype Configuration = Configuration(version: int, data: string)

  function ConfigurationJson(c: Configuration): (j: Json)
    ensures j.JObject? && j.members.Keys == {"_version", "data"}
  {
    JObject(map["_version" := JInt(c.version), "data" := JString(c.data)])
  }

  function ConfigurationFromJson(m: map<string, Json>): Configuration
  {
    Configuration(IntAt(m, "_version"), StringAt(m, "data"))
  }

  lemma ConfigurationRoundTrip(c: Configuration)
    ensures ConfigurationFromJson(ConfigurationJson(c).members) == c
  {
  }

  /** A transaction as the Dataplane API reports it: its id, base version and status. */
  datatype Transaction = Transaction(id: string, version: int, status: string)

  /** `models.Forwardfor`: `enabled` is always emitted. */
  datatype Forwardfor = Forwardfor(enabled: string, except: string, header: string, ifnone: bool)

  const ZeroForwardfor := Forwardfor("", "", "", false)

  function ForwardforJson(f: Forwardfor): Json
  {
    JObject(OmitEmpty(map["except" := JString(f.except), "header" := JString(f.header),
                          "ifnone" := JBool(f.ifnone)])["enabled" := JString(f.enabled)])
  }

  function ForwardforFromJson(m: map<string, Json>): Forwardfor
  {
    Forwardfor(StringAt(m, "enabled"), StringAt(m, "except"), StringAt(m, "header"), BoolAt(m, "ifnone"))
  }

  lemma ForwardforMembers(f: Forwardfor)
    ensures var m := ForwardforJson(f).members;
      && "enabled" in m
      && ("except" in m <==> f.except != "")
      && ("header" in m <==> f.header != "")
      && ("ifnone" in m <==> f.ifnone)
      && ForwardforFromJson(m) == f
  {
  }

  /** `models.MonitorFail`: both members are always emitted. */
  datatype MonitorFail = MonitorFail(cond: string, condTest: string)

  const ZeroMonitorFail := MonitorFail("", "")

  function MonitorFailJson(f: MonitorFail): Json
  {
    JObject(map["cond" := JString(f.cond), "cond_test" := JString(f.condTest)])
  }

  function MonitorFailFromJson(m: map<string, Json>): MonitorFail
  {
    MonitorFail(StringAt(m, "cond"), StringAt(m, "cond_test"))
  }

  lemma MonitorFailMembers(f: MonitorFail)
    ensures var m := MonitorFailJson(f).members;
      && m.Keys == {"cond", "cond_test"}
      && MonitorFailFromJson(m) == f
  {
  }

  /** `models.StatsOptions`: every member is `omitempty`; `StatsUrilPrefix` is keyed `stats_uri_prefix`. */
  datatype StatsOptions = StatsOptions(
    statsEnable: bool,
    statsHideVersion: bool,
    statsMaxconn: int,
    statsRefreshDelay: int,
    statsShowDesc: string,
    statsShowLegends: bool,
    statsShowNodeName: string,
    statsUrilPrefix: string)

  const ZeroStatsOptions := StatsOptions(false, false, 0, 0, "", false, "", "")

  const StatsOptionsKeys: set<string> := {"stats_enable", "stats_hide_version", "stats_maxconn",
    "stats_refresh_delay", "stats_show_desc", "stats_show_legends", "stats_show_node_name", "stats_uri_prefix"}

  /** The members `models.StatsOptions` declares, before `omitempty` drops the zero ones. */
  function StatsOptionsFields(f: StatsOptions): map<string, Json>
  {
    map[
        "stats_enable" := JBool(f.statsEnable),
        "stats_hide_version" := JBool(f.statsHideVersion),
        "stats_maxconn" := JInt(f.statsMaxconn),
        "stats_refresh_delay" := JInt(f.statsRefreshDelay),
        "stats_show_desc" := JString(f.statsShowDesc),
        "stats_show_legends" := JBool(f.statsShowLegends),
        "stats_show_node_name" := JString(f.statsShowNodeName),
        "stats_uri_prefix" := JString(f.statsUrilPrefix)
      ]
  }

  function StatsOptionsJson(f: StatsOptions): Json
  {
    JObject(OmitEmpty(StatsOptionsFields(f)))
  }

  function StatsOptionsFromJson(m: map<string, Json>): StatsOptions
  {
    StatsOptions(BoolAt(m, "stats_enable"), BoolAt(m, "stats_hide_version"), IntAt(m, "stats_maxconn"),
                 IntAt(m, "stats_refresh_delay"), StringAt(m, "stats_show_desc"), BoolAt(m, "stats_show_legends"),
                 StringAt(m, "stats_show_node_name"), StringAt(m, "stats_uri_prefix"))
  }

  /* Each member reads back as its field and is present exactly when the field is non-zero. */

  lemma StatsOptionsMember_statsEnable(f: StatsOptions)
    ensures var m := StatsOptionsJson(f).members; BoolAt(m, "stats_enable") == f.statsEnable && ("stats_enable" in m <==> f.statsEnable)
  {
    BoolKept(StatsOptionsFields(f), "stats_enable", f.statsEnable);
  }

  lemma StatsOptionsMember_statsHideVersion(f: StatsOptions)
    ensures var m := StatsOptionsJson(f).members; BoolAt(m, "stats_hide_version") == f.statsHideVersion && ("stats_hide_version" in m <==> f.statsHideVersion)
  {
    BoolKept(StatsOptionsFields(f), "stats_hide_version", f.statsHideVersion);
  }

  lemma StatsOptionsMember_statsMaxconn(f: StatsOptions)
    ensures var m := StatsOptionsJson(f).members; IntAt(m, "stats_maxconn") == f.statsMaxconn && ("stats_maxconn" in m <==> f.statsMaxconn != 0)
  {
    IntKept(StatsOptionsFields(f), "stats_maxconn", f.statsMaxconn);
  }

  lemma StatsOptionsMember_statsRefreshDelay(f: StatsOptions)
    ensures var m := StatsOptionsJson(f).members; IntAt(m, "stats_refresh_delay") == f.statsRefreshDelay && ("stats_refresh_delay" in m <==> f.statsRefreshDelay != 0)
  {
    IntKept(StatsOptionsFields(f), "stats_refresh_delay", f.statsRefreshDelay);
  }

  lemma StatsOptionsMember_statsShowDesc(f: StatsOptions)
    ensures var m := StatsOptionsJson(f).members; StringAt(m, "stats_show_desc") == f.statsShowDesc && ("stats_show_desc" in m <==> f.statsShowDesc != "")
  {
    StringKept(StatsOptionsFields(f), "stats_show_desc", f.statsShowDesc);
  }

  lemma StatsOptionsMember_statsShowLegends(f: StatsOptions)
    ensures var m := StatsOptionsJson(f).members; BoolAt(m, "stats_show_legends") == f.statsShowLegends && ("stats_show_legends" in m <==> f.statsShowLegends)
  {
    BoolKept(StatsOptionsFields(f), "stats_show_legends", f.statsShowLegends);
  }

  lemma StatsOptionsMember_statsShowNodeName(f: StatsOptions)
    ensures var m := StatsOptionsJson(f).members; StringAt(m, "stats_show_node_name") == f.statsShowNodeName && ("stats_show_node_name" in m <==> f.statsShowNodeName != "")
  {
    StringKept(StatsOptionsFields(f), "stats_show_node_name", f.statsShowNodeName);
  }

  lemma StatsOptionsMember_statsUrilPrefix(f: StatsOptions)
    ensures var m := StatsOptionsJson(f).members; StringAt(m, "stats_uri_prefix") == f.statsUrilPrefix && ("stats_uri_prefix" in m <==> f.statsUrilPrefix != "")
  {
    StringKept(StatsOptionsFields(f), "stats_uri_prefix", f.statsUrilPrefix);
  }

  lemma StatsOptionsFieldsKeys(f: StatsOptions)
    ensures StatsOptionsFields(f).Keys == StatsOptionsKeys
  {
  }

  /** Only the declared keys appear, and every member round-trips. */
  lemma StatsOptionsMembers(f: StatsOptions)
    ensures var m := StatsOptionsJson(f).members;
      && m.Keys <= StatsOptionsKeys
      && StatsOptionsFromJson(m) == f
  {
    OmitEmptyKeys(StatsOptionsFields(f));
    StatsOptionsFieldsKeys(f);
    StatsOptionsMember_statsEnable(f);
    StatsOptionsMember_statsHideVersion(f);
    StatsOptionsMember_statsMaxconn(f);
    StatsOptionsMember_statsRefreshDelay(f);
    StatsOptionsMember_statsShowDesc(f);
    StatsOptionsMember_statsShowLegends(f);
    StatsOptionsMember_statsShowNodeName(f);
    StatsOptionsMember_statsUrilPrefix(f);
  }

  /** `models.Frontend`. */
  datatype Frontend = Frontend(
    bindProcess: string,
    clflog: bool,
    clientTimeout: int,
    clitcpka: string,
    contstats: string,
    defaultBackend: string,
    dontlognull: string,
    forwardfor: Forwardfor,
    httpBufferRequest: string,
    httpUseHtx: string,
    httpConnectionMode: string,
    httpKeepAliveTimeout: int,
    httpRequestTimeout: int,
    httpLog: bool,
    logFormat: string,
    logFormatSd: string,
    logSeparateErrors: string,
    logTag: string,
    logasap: string,
    maxConn: int,
    mode: string,
    monitorFail: MonitorFail,
    monitorUri: string,
    name: string,
    statsOptions: StatsOptions,
    tcpLog: bool,
    uniqueIdFormat: string,
    uniqueIdHeader: string)

  /** What `&models.Frontend{}` holds before any field is set. */
  const ZeroFrontend: Frontend := Frontend("", false, 0, "", "", "", "", ZeroForwardfor, "", "", "", 0, 0, false, "", "", "", "", "", 0, "", ZeroMonitorFail, "", "", ZeroStatsOptions, false, "", "")

  /** The keys of every `models.Frontend` member but `name`, which has no `omitempty`. */
  const FrontendOmittableKeys: set<string> := {"bind_process", "clflog", "client_timeout", "clitcpka", "contstats", "default_backend", "dontlognull", "forwardfor", "http-buffer-request", "http-use-htx", "http_connection_mode", "http_keep_alive_timeout", "http_request_timeout", "httplog", "log_format", "log_format_sd", "log_separate_errors", "log_tag", "logasap", "maxconn", "mode", "monitor_fail", "monitor_uri", "stats_options", "tcplog", "unique_id_format", "unique_id_header"}

  /** The members `models.Frontend` declares but `name`, before `omitempty` drops the zero ones. */
  function FrontendFields(f: Frontend): map<string, Json>
  {
    map[
      "bind_process" := JString(f.bindProcess),
      "clflog" := JBool(f.clflog),
      "client_timeout" := JInt(f.clientTimeout),
      "clitcpka" := JString(f.clitcpka),
      "contstats" := JString(f.contstats),
      "default_backend" := JString(f.defaultBackend),
      "dontlognull" := JString(f.dontlognull),
      "forwardfor" := ForwardforJson(f.forwardfor),
      "http-buffer-request" := JString(f.httpBufferRequest),
      "http-use-htx" := JString(f.httpUseHtx),
      "http_connection_mode" := JString(f.httpConnectionMode),
      "http_keep_alive_timeout" := JInt(f.httpKeepAliveTimeout),
      "http_request_timeout" := JInt(f.httpRequestTimeout),
      "httplog" := JBool(f.httpLog),
      "log_format" := JString(f.logFormat),
      "log_format_sd" := JString(f.logFormatSd),
      "log_separate_errors" := JString(f.logSeparateErrors),
      "log_tag" := JString(f.logTag),
      "logasap" := JString(f.logasap),
      "maxconn" := JInt(f.maxConn),
      "mode" := JString(f.mode),
      "monitor_fail" := MonitorFailJson(f.monitorFail),
      "monitor_uri" := JString(f.monitorUri),
      "stats_options" := StatsOptionsJson(f.statsOptions),
      "tcplog" := JBool(f.tcpLog),
      "unique_id_format" := JString(f.uniqueIdFormat),
      "unique_id_header" := JString(f.uniqueIdHeader)
    ]
  }

  function FrontendJson(f: Frontend): Json
  {
    JObject(OmitEmpty(FrontendFields(f))["name" := JString(f.name)])
  }

  function FrontendFromJson(m: map<string, Json>): Frontend
  {
    Frontend(
      StringAt(m, "bind_process"),
      BoolAt(m, "clflog"),
      IntAt(m, "client_timeout"),
      StringAt(m, "clitcpka"),
      StringAt(m, "contstats"),
      StringAt(m, "default_backend"),
      StringAt(m, "dontlognull"),
      ForwardforFromJson(ObjectAt(m, "forwardfor")),
      StringAt(m, "http-buffer-request"),
      StringAt(m, "http-use-htx"),
      StringAt(m, "http_connection_mode"),
      IntAt(m, "http_keep_alive_timeout"),
      IntAt(m, "http_request_timeout"),
      BoolAt(m, "httplog"),
      StringAt(m, "log_format"),
      StringAt(m, "log_format_sd"),
      StringAt(m, "log_separate_errors"),
      StringAt(m, "log_tag"),
      StringAt(m, "logasap"),
      IntAt(m, "maxconn"),
      StringAt(m, "mode"),
      MonitorFailFromJson(ObjectAt(m, "monitor_fail")),
      StringAt(m, "monitor_uri"),
      StringAt(m, "name"),
      StatsOptionsFromJson(ObjectAt(m, "stats_options")),
      BoolAt(m, "tcplog"),
      StringAt(m, "unique_id_format"),
      StringAt(m, "unique_id_header"))
  }

  lemma FrontendField_bindProcess(f: Frontend)
    ensures "bind_process" in FrontendFields(f) && FrontendFields(f)["bind_process"] == JString(f.bindProcess)
  {
  }

  lemma FrontendField_clflog(f: Frontend)
    ensures "clflog" in FrontendFields(f) && FrontendFields(f)["clflog"] == JBool(f.clflog)
  {
  }

  lemma FrontendField_clientTimeout(f: Frontend)
    ensures "client_timeout" in FrontendFields(f) && FrontendFields(f)["client_timeout"] == JInt(f.clientTimeout)
  {
  }

  lemma FrontendField_clitcpka(f: Frontend)
    ensures "clitcpka" in FrontendFields(f) && FrontendFields(f)["clitcpka"] == JString(f.clitcpka)
  {
  }

  lemma FrontendField_contstats(f: Frontend)
    ensures "contstats" in FrontendFields(f) && FrontendFields(f)["contstats"] == JString(f.contstats)
  {
  }

  lemma FrontendField_defaultBackend(f: Frontend)
    ensures "default_backend" in FrontendFields(f) && FrontendFields(f)["default_backend"] == JString(f.defaultBackend)
  {
  }

  lemma FrontendField_dontlognull(f: Frontend)
    ensures "dontlognull" in FrontendFields(f) && FrontendFields(f)["dontlognull"] == JString(f.dontlognull)
  {
  }

  lemma FrontendField_httpBufferRequest(f: Frontend)
    ensures "http-buffer-request" in FrontendFields(f) && FrontendFields(f)["http-buffer-request"] == JString(f.httpBufferRequest)
  {
  }

  lemma FrontendField_httpUseHtx(f: Frontend)
    ensures "http-use-htx" in FrontendFields(f) && FrontendFields(f)["http-use-htx"] == JString(f.httpUseHtx)
  {
  }

  lemma FrontendField_httpConnectionMode(f: Frontend)
    ensures "http_connection_mode" in FrontendFields(f) && FrontendFields(f)["http_connection_mode"] == JString(f.httpConnectionMode)
  {
  }

  lemma FrontendField_httpKeepAliveTimeout(f: Frontend)
    ensures "http_keep_alive_timeout" in FrontendFields(f) && FrontendFields(f)["http_keep_alive_timeout"] == JInt(f.httpKeepAliveTimeout)
  {
  }

  lemma FrontendField_httpRequestTimeout(f: Frontend)
    ensures "http_request_timeout" in FrontendFields(f) && FrontendFields(f)["http_request_timeout"] == JInt(f.httpRequestTimeout)
  {
  }

  lemma FrontendField_httpLog(f: Frontend)
    ensures "httplog" in FrontendFields(f) && FrontendFields(f)["httplog"] == JBool(f.httpLog)
  {
  }

  lemma FrontendField_logFormat(f: Frontend)
    ensures "log_format" in FrontendFields(f) && FrontendFields(f)["log_format"] == JString(f.logFormat)
  {
  }

  lemma FrontendField_logFormatSd(f: Frontend)
    ensures "log_format_sd" in FrontendFields(f) && FrontendFields(f)["log_format_sd"] == JString(f.logFormatSd)
  {
  }

  lemma FrontendField_logSeparateErrors(f: Frontend)
    ensures "log_separate_errors" in FrontendFields(f) && FrontendFields(f)["log_separate_errors"] == JString(f.logSeparateErrors)
  {
  }

  lemma FrontendField_logTag(f: Frontend)
    ensures "log_tag" in FrontendFields(f) && FrontendFields(f)["log_tag"] == JString(f.logTag)
  {
  }

  lemma FrontendField_logasap(f: Frontend)
    ensures "logasap" in FrontendFields(f) && FrontendFields(f)["logasap"] == JString(f.logasap)
  {
  }

  lemma FrontendField_maxConn(f: Frontend)
    ensures "maxconn" in FrontendFields(f) && FrontendFields(f)["maxconn"] == JInt(f.maxConn)
  {
  }

  lemma FrontendField_mode(f: Frontend)
    ensures "mode" in FrontendFields(f) && FrontendFields(f)["mode"] == JString(f.mode)
  {
  }

  lemma FrontendField_monitorUri(f: Frontend)
    ensures "monitor_uri" in FrontendFields(f) && FrontendFields(f)["monitor_uri"] == JString(f.monitorUri)
  {
  }

  lemma FrontendField_tcpLog(f: Frontend)
    ensures "tcplog" in FrontendFields(f) && FrontendFields(f)["tcplog"] == JBool(f.tcpLog)
  {
  }

  lemma FrontendField_uniqueIdFormat(f: Frontend)
    ensures "unique_id_format" in FrontendFields(f) && FrontendFields(f)["unique_id_format"] == JString(f.uniqueIdFormat)
  {
  }

  lemma FrontendField_uniqueIdHeader(f: Frontend)
    ensures "unique_id_header" in FrontendFields(f) && FrontendFields(f)["unique_id_header"] == JString(f.uniqueIdHeader)
  {
  }

  lemma FrontendField_forwardfor(f: Frontend)
    ensures "forwardfor" in FrontendFields(f) && FrontendFields(f)["forwardfor"] == ForwardforJson(f.forwardfor)
  {
  }

  lemma FrontendField_monitorFail(f: Frontend)
    ensures "monitor_fail" in FrontendFields(f) && FrontendFields(f)["monitor_fail"] == MonitorFailJson(f.monitorFail)
  {
  }

  lemma FrontendField_statsOptions(f: Frontend)
    ensures "stats_options" in FrontendFields(f) && FrontendFields(f)["stats_options"] == StatsOptionsJson(f.statsOptions)
  {
  }

  /* Each member but `name` reads back as its field and is present exactly when the field is non-zero. */

  lemma FrontendMember_bindProcess(f: Frontend)
    ensures var m := FrontendJson(f).members; StringAt(m, "bind_process") == f.bindProcess && ("bind_process" in m <==> f.bindProcess != "")
  {
    FrontendField_bindProcess(f);
    StringKept(FrontendFields(f), "bind_process", f.bindProcess);
    OtherMember(OmitEmpty(FrontendFields(f)), "name", JString(f.name), "bind_process");
  }

  lemma FrontendMember_clflog(f: Frontend)
    ensures var m := FrontendJson(f).members; BoolAt(m, "clflog") == f.clflog && ("clflog" in m <==> f.clflog)
  {
    FrontendField_clflog(f);
    BoolKept(FrontendFields(f), "clflog", f.clflog);
    OtherMember(OmitEmpty(FrontendFields(f)), "name", JString(f.name), "clflog");
  }

  lemma FrontendMember_clientTimeout(f: Frontend)
    ensures var m := FrontendJson(f).members; IntAt(m, "client_timeout") == f.clientTimeout && ("client_timeout" in m <==> f.clientTimeout != 0)
  {
    FrontendField_clientTimeout(f);
    IntKept(FrontendFields(f), "client_timeout", f.clientTimeout);
    OtherMember(OmitEmpty(FrontendFields(f)), "name", JString(f.name), "client_timeout");
  }

  lemma FrontendMember_clitcpka(f: Frontend)
    ensures var m := FrontendJson(f).members; StringAt(m, "clitcpka") == f.clitcpka && ("clitcpka" in m <==> f.clitcpka != "")
  {
    FrontendField_clitcpka(f);
    StringKept(FrontendFields(f), "clitcpka", f.clitcpka);
    OtherMember(OmitEmpty(FrontendFields(f)), "name", JString(f.name), "clitcpka");
  }

  lemma FrontendMember_contstats(f: Frontend)
    ensures var m := FrontendJson(f).members; StringAt(m, "contstats") == f.contstats && ("contstats" in m <==> f.contstats != "")
  {
    FrontendField_contstats(f);
    StringKept(FrontendFields(f), "contstats", f.contstats);
    OtherMember(OmitEmpty(FrontendFields(f)), "name", JString(f.name), "contstats");
  }

  lemma FrontendMember_defaultBackend(f: Frontend)
    ensures var m := FrontendJson(f).members; StringAt(m, "default_backend") == f.defaultBackend && ("default_backend" in m <==> f.defaultBackend != "")
  {
    FrontendField_defaultBackend(f);
    StringKept(FrontendFields(f), "default_backend", f.defaultBackend);
    OtherMember(OmitEmpty(FrontendFields(f)), "name", JString(f.name), "default_backend");
  }

  lemma FrontendMember_dontlognull(f: Frontend)
    ensures var m := FrontendJson(f).members; StringAt(m, "dontlognull") == f.dontlognull && ("dontlognull" in m <==> f.dontlognull != "")
  {
    FrontendField_dontlognull(f);
    StringKept(FrontendFields(f), "dontlognull", f.dontlognull);
    OtherMember(OmitEmpty(FrontendFields(f)), "name", JString(f.name), "dontlognull");
  }

  lemma FrontendMember_httpBufferRequest(f: Frontend)
    ensures var m := FrontendJson(f).members; StringAt(m, "http-buffer-request") == f.httpBufferRequest && ("http-buffer-request" in m <==> f.httpBufferRequest != "")
  {
    FrontendField_httpBufferRequest(f);
    StringKept(FrontendFields(f), "http-buffer-request", f.httpBufferRequest);
    OtherMember(OmitEmpty(FrontendFields(f)), "name", JString(f.name), "http-buffer-request");
  }

  lemma FrontendMember_httpUseHtx(f: Frontend)
    ensures var m := FrontendJson(f).members; StringAt(m, "http-use-htx") == f.httpUseHtx && ("http-use-htx" in m <==> f.httpUseHtx != "")
  {
    FrontendField_httpUseHtx(f);
    StringKept(FrontendFields(f), "http-use-htx", f.httpUseHtx);
    OtherMember(OmitEmpty(FrontendFields(f)), "name", JString(f.name), "http-use-htx");
  }

  lemma FrontendMember_httpConnectionMode(f: Frontend)
    ensures var m := FrontendJson(f).members; StringAt(m, "http_connection_mode") == f.httpConnectionMode && ("http_connection_mode" in m <==> f.httpConnectionMode != "")
  {
    FrontendField_httpConnectionMode(f);
    StringKept(FrontendFields(f), "http_connection_mode", f.httpConnectionMode);
    OtherMember(OmitEmpty(FrontendFields(f)), "name", JString(f.name), "http_connection_mode");
  }

  lemma FrontendMember_httpKeepAliveTimeout(f: Frontend)
    ensures var m := FrontendJson(f).members; IntAt(m, "http_keep_alive_timeout") == f.httpKeepAliveTimeout && ("http_keep_alive_timeout" in m <==> f.httpKeepAliveTimeout != 0)
  {
    FrontendField_httpKeepAliveTimeout(f);
    IntKept(FrontendFields(f), "http_keep_alive_timeout", f.httpKeepAliveTimeout);
    OtherMember(OmitEmpty(FrontendFields(f)), "name", JString(f.name), "http_keep_alive_timeout");
  }

  lemma FrontendMember_httpRequestTimeout(f: Frontend)
    ensures var m := FrontendJson(f).members; IntAt(m, "http_request_timeout") == f.httpRequestTimeout && ("http_request_timeout" in m <==> f.httpRequestTimeout != 0)
  {
    FrontendField_httpRequestTimeout(f);
    IntKept(FrontendFields(f), "http_request_timeout", f.httpRequestTimeout);
    OtherMember(OmitEmpty(FrontendFields(f)), "name", JString(f.name), "http_request_timeout");
  }

  lemma FrontendMember_httpLog(f: Frontend)
    ensures var m := FrontendJson(f).members; BoolAt(m, "httplog") == f.httpLog && ("httplog" in m <==> f.httpLog)
  {
    FrontendField_httpLog(f);
    BoolKept(FrontendFields(f), "httplog", f.httpLog);
    OtherMember(OmitEmpty(FrontendFields(f)), "name", JString(f.name), "httplog");
  }

  lemma FrontendMember_logFormat(f: Frontend)
    ensures var m := FrontendJson(f).members; StringAt(m, "log_format") == f.logFormat && ("log_format" in m <==> f.logFormat != "")
  {
    FrontendField_logFormat(f);
    StringKept(FrontendFields(f), "log_format", f.logFormat);
    OtherMember(OmitEmpty(FrontendFields(f)), "name", JString(f.name), "log_format");
  }

  lemma FrontendMember_logFormatSd(f: Frontend)
    ensures var m := FrontendJson(f).members; StringAt(m, "log_format_sd") == f.logFormatSd && ("log_format_sd" in m <==> f.logFormatSd != "")
  {
    FrontendField_logFormatSd(f);
    StringKept(FrontendFields(f), "log_format_sd", f.logFormatSd);
    OtherMember(OmitEmpty(FrontendFields(f)), "name", JString(f.name), "log_format_sd");
  }

  lemma FrontendMember_logSeparateErrors(f: Frontend)
    ensures var m := FrontendJson(f).members; StringAt(m, "log_separate_errors") == f.logSeparateErrors && ("log_separate_errors" in m <==> f.logSeparateErrors != "")
  {
    FrontendField_logSeparateErrors(f);
    StringKept(FrontendFields(f), "log_separate_errors", f.logSeparateErrors);
    OtherMember(OmitEmpty(FrontendFields(f)), "name", JString(f.name), "log_separate_errors");
  }

  lemma FrontendMember_logTag(f: Frontend)
    ensures var m := FrontendJson(f).members; StringAt(m, "log_tag") == f.logTag && ("log_tag" in m <==> f.logTag != "")
  {
    FrontendField_logTag(f);
    StringKept(FrontendFields(f), "log_tag", f.logTag);
    OtherMember(OmitEmpty(FrontendFields(f)), "name", JString(f.name), "log_tag");
  }

  lemma FrontendMember_logasap(f: Frontend)
    ensures var m := FrontendJson(f).members; StringAt(m, "logasap") == f.logasap && ("logasap" in m <==> f.logasap != "")
  {
    FrontendField_logasap(f);
    StringKept(FrontendFields(f), "logasap", f.logasap);
    OtherMember(OmitEmpty(FrontendFields(f)), "name", JString(f.name), "logasap");
  }

  lemma FrontendMember_maxConn(f: Frontend)
    ensures var m := FrontendJson(f).members; IntAt(m, "maxconn") == f.maxConn && ("maxconn" in m <==> f.maxConn != 0)
  {
    FrontendField_maxConn(f);
    IntKept(FrontendFields(f), "maxconn", f.maxConn);
    OtherMember(OmitEmpty(FrontendFields(f)), "name", JString(f.name), "maxconn");
  }

  lemma FrontendMember_mode(f: Frontend)
    ensures var m := FrontendJson(f).members; StringAt(m, "mode") == f.mode && ("mode" in m <==> f.mode != "")
  {
    FrontendField_mode(f);
    StringKept(FrontendFields(f), "mode", f.mode);
    OtherMember(OmitEmpty(FrontendFields(f)), "name", JString(f.name), "mode");
  }

  lemma FrontendMember_monitorUri(f: Frontend)
    ensures var m := FrontendJson(f).members; StringAt(m, "monitor_uri") == f.monitorUri && ("monitor_uri" in m <==> f.monitorUri != "")
  {
    FrontendField_monitorUri(f);
    StringKept(FrontendFields(f), "monitor_uri", f.monitorUri);
    OtherMember(OmitEmpty(FrontendFields(f)), "name", JString(f.name), "monitor_uri");
  }

  lemma FrontendMember_tcpLog(f: Frontend)
    ensures var m := FrontendJson(f).members; BoolAt(m, "tcplog") == f.tcpLog && ("tcplog" in m <==> f.tcpLog)
  {
    FrontendField_tcpLog(f);
    BoolKept(FrontendFields(f), "tcplog", f.tcpLog);
    OtherMember(OmitEmpty(FrontendFields(f)), "name", JString(f.name), "tcplog");
  }

  lemma FrontendMember_uniqueIdFormat(f: Frontend)
    ensures var m := FrontendJson(f).members; StringAt(m, "unique_id_format") == f.uniqueIdFormat && ("unique_id_format" in m <==> f.uniqueIdFormat != "")
  {
    FrontendField_uniqueIdFormat(f);
    StringKept(FrontendFields(f), "unique_id_format", f.uniqueIdFormat);
    OtherMember(OmitEmpty(FrontendFields(f)), "name", JString(f.name), "unique_id_format");
  }

  lemma FrontendMember_uniqueIdHeader(f: Frontend)
    ensures var m := FrontendJson(f).members; StringAt(m, "unique_id_header") == f.uniqueIdHeader && ("unique_id_header" in m <==> f.uniqueIdHeader != "")
  {
    FrontendField_uniqueIdHeader(f);
    StringKept(FrontendFields(f), "unique_id_header", f.uniqueIdHeader);
    OtherMember(OmitEmpty(FrontendFields(f)), "name", JString(f.name), "unique_id_header");
  }

  /** A nested group is a struct, never empty, so it is always emitted. */
  lemma FrontendMember_forwardfor(f: Frontend)
    ensures var m := FrontendJson(f).members; ForwardforFromJson(ObjectAt(m, "forwardfor")) == f.forwardfor && "forwardfor" in m
  {
    FrontendField_forwardfor(f);
    ForwardforMembers(f.forwardfor);
    ObjectKept(FrontendFields(f), "forwardfor", ForwardforJson(f.forwardfor).members);
    OtherMember(OmitEmpty(FrontendFields(f)), "name", JString(f.name), "forwardfor");
  }

  /** A nested group is a struct, never empty, so it is always emitted. */
  lemma FrontendMember_monitorFail(f: Frontend)
    ensures var m := FrontendJson(f).members; MonitorFailFromJson(ObjectAt(m, "monitor_fail")) == f.monitorFail && "monitor_fail" in m
  {
    FrontendField_monitorFail(f);
    MonitorFailMembers(f.monitorFail);
    ObjectKept(FrontendFields(f), "monitor_fail", MonitorFailJson(f.monitorFail).members);
    OtherMember(OmitEmpty(FrontendFields(f)), "name", JString(f.name), "monitor_fail");
  }

  /** A nested group is a struct, never empty, so it is always emitted. */
  lemma FrontendMember_statsOptions(f: Frontend)
    ensures var m := FrontendJson(f).members; StatsOptionsFromJson(ObjectAt(m, "stats_options")) == f.statsOptions && "stats_options" in m
  {
    FrontendField_statsOptions(f);
    StatsOptionsMembers(f.statsOptions);
    ObjectKept(FrontendFields(f), "stats_options", StatsOptionsJson(f.statsOptions).members);
    OtherMember(OmitEmpty(FrontendFields(f)), "name", JString(f.name), "stats_options");
  }

  /** The key mapping loses nothing: decoding the serialised frontend gives it back. */
  lemma FrontendRoundTrip(f: Frontend)
    ensures FrontendFromJson(FrontendJson(f).members) == f
  {
    FrontendMember_bindProcess(f);
    FrontendMember_clflog(f);
    FrontendMember_clientTimeout(f);
    FrontendMember_clitcpka(f);
    FrontendMember_contstats(f);
    FrontendMember_defaultBackend(f);
    FrontendMember_dontlognull(f);
    FrontendMember_httpBufferRequest(f);
    FrontendMember_httpUseHtx(f);
    FrontendMember_httpConnectionMode(f);
    FrontendMember_httpKeepAliveTimeout(f);
    FrontendMember_httpRequestTimeout(f);
    FrontendMember_httpLog(f);
    FrontendMember_logFormat(f);
    FrontendMember_logFormatSd(f);
    FrontendMember_logSeparateErrors(f);
    FrontendMember_logTag(f);
    FrontendMember_logasap(f);
    FrontendMember_maxConn(f);
    FrontendMember_mode(f);
    FrontendMember_monitorUri(f);
    FrontendMember_tcpLog(f);
    FrontendMember_uniqueIdFormat(f);
    FrontendMember_uniqueIdHeader(f);
    FrontendMember_forwardfor(f);
    FrontendMember_monitorFail(f);
    FrontendMember_statsOptions(f);
  }

  /** `name` is always emitted, and no key outside the declared ones ever appears. */
  lemma FrontendFieldsKeys(f: Frontend)
    ensures FrontendFields(f).Keys == FrontendOmittableKeys
  {
  }

  lemma FrontendKeys(f: Frontend)
    ensures var m := FrontendJson(f).members;
      && "name" in m && StringAt(m, "name") == f.name
      && m.Keys <= FrontendOmittableKeys + {"name"}
  {
    OmitEmptyKeys(FrontendFields(f));
    FrontendFieldsKeys(f);
  }

  /**
   * `HTTPBufferRequest` and `HTTPUseHtx` are the two members whose keys are hyphenated;
   * the underscore spellings never appear on the wire.
   */
  lemma UnderscoreSpellingsUndeclared()
    ensures "http_buffer_request" !in FrontendOmittableKeys && "http_use_htx" !in FrontendOmittableKeys
  {
  }

  lemma FrontendHyphenatedKeys(f: Frontend)
    ensures var m := FrontendJson(f).members;
      && "http_buffer_request" !in m && "http_use_htx" !in m
      && StringAt(m, "http-buffer-request") == f.httpBufferRequest
      && StringAt(m, "http-use-htx") == f.httpUseHtx
  {
    FrontendKeys(f);
    UnderscoreSpellingsUndeclared();
    FrontendMember_httpBufferRequest(f);
    FrontendMember_httpUseHtx(f);
  }
}
