/**
 * The `haproxy_frontend` resource of internal/provider/resource_frontend.go: how the
 * frontend is built from the resource data, how Read writes a fetched frontend back, and
 * the retried transaction envelopes of Create, Update and Delete, each of which stages
 * exactly one frontend operation between opening the transaction and committing it.
 */
module FrontendResource {
  import opened Wrappers
  import opened Models
  import opened Dataplane
  import opened Retrying
  import opened Terraform
  import opened Envelope

  /** The attributes the resource's schema declares. */
  const SchemaKeys: set<string> := {"bind_process", "clflog", "client_timeout", "clitcpka", "contstats", "default_backend", "dontlognull", "forwardfor", "http_buffer_request", "http_use_htx", "http_connection_mode", "http_keep_alive_timeout", "http_request_timeout", "httplog", "log_format", "log_format_sd", "log_separate_errors", "log_tag", "logasap", "maxconn", "mode", "monitor_fail", "monitor_uri", "name", "stats_options", "tcplog", "unique_id_format", "unique_id_header"}

  /*
   * buildFrontendFromResourceParameters
   */

  /** `v.(string)`, `v.(bool)` and `v.(int)` on a value of the attribute's schema type. */
  function TextOf(v: Value): string
  {
    if v.Text? then v.text else ""
  }

  function FlagOf(v: Value): bool
  {
    v.Flag? && v.flag
  }

  function NumberOf(v: Value): int
  {
    if v.Number? then v.number else 0
  }

  /**
   * The frontend the attributes describe: every scalar field from its attribute, the
   * zero value where `GetOk` reports nothing, and the three nested groups zero.
   */
  function FrontendOf(attrs: map<string, Value>): Frontend
  {
    Frontend(
      GetString(attrs, "bind_process"),
      GetBool(attrs, "clflog"),
      GetInt(attrs, "client_timeout"),
      GetString(attrs, "clitcpka"),
      GetString(attrs, "contstats"),
      GetString(attrs, "default_backend"),
      GetString(attrs, "dontlognull"),
      ZeroForwardfor,
      GetString(attrs, "http_buffer_request"),
      GetString(attrs, "http_use_htx"),
      GetString(attrs, "http_connection_mode"),
      GetInt(attrs, "http_keep_alive_timeout"),
      GetInt(attrs, "http_request_timeout"),
      GetBool(attrs, "httplog"),
      GetString(attrs, "log_format"),
      GetString(attrs, "log_format_sd"),
      GetString(attrs, "log_separate_errors"),
      GetString(attrs, "log_tag"),
      GetString(attrs, "logasap"),
      GetInt(attrs, "maxconn"),
      GetString(attrs, "mode"),
      ZeroMonitorFail,
      GetString(attrs, "monitor_uri"),
      GetString(attrs, "name"),
      ZeroStatsOptions,
      GetBool(attrs, "tcplog"),
      GetString(attrs, "unique_id_format"),
      GetString(attrs, "unique_id_header"))
  }

  /** What `v.(map[string]interface{})` does to the `*schema.Set` a set-typed attribute holds. */
  const SetConversionPanic := "interface conversion: interface {} is *schema.Set, not map[string]interface {}"

  /**
   * The outcome of building: a panic when any of the group attributes it converts is
   * set, the frontend of the attributes otherwise.
   */
  function Built(attrs: map<string, Value>): Result<Frontend>
  {
    if GetOk(attrs, "forwardFor").Some? || GetOk(attrs, "monitor_fail").Some? || GetOk(attrs, "stats_options").Some?
    then Err(SetConversionPanic)
    else Ok(FrontendOf(attrs))
  }

  /** A frontend whose every field is the one its attribute gives is the frontend of the attributes. */
  lemma FieldsMakeFrontend(attrs: map<string, Value>, f: Frontend)
    requires f.bindProcess == GetString(attrs, "bind_process")
    requires f.clflog == GetBool(attrs, "clflog")
    requires f.clientTimeout == GetInt(attrs, "client_timeout")
    requires f.clitcpka == GetString(attrs, "clitcpka")
    requires f.contstats == GetString(attrs, "contstats")
    requires f.defaultBackend == GetString(attrs, "default_backend")
    requires f.dontlognull == GetString(attrs, "dontlognull")
    requires f.forwardfor == ZeroForwardfor
    requires f.httpBufferRequest == GetString(attrs, "http_buffer_request")
    requires f.httpUseHtx == GetString(attrs, "http_use_htx")
    requires f.httpConnectionMode == GetString(attrs, "http_connection_mode")
    requires f.httpKeepAliveTimeout == GetInt(attrs, "http_keep_alive_timeout")
    requires f.httpRequestTimeout == GetInt(attrs, "http_request_timeout")
    requires f.httpLog == GetBool(attrs, "httplog")
    requires f.logFormat == GetString(attrs, "log_format")
    requires f.logFormatSd == GetString(attrs, "log_format_sd")
    requires f.logSeparateErrors == GetString(attrs, "log_separate_errors")
    requires f.logTag == GetString(attrs, "log_tag")
    requires f.logasap == GetString(attrs, "logasap")
    requires f.maxConn == GetInt(attrs, "maxconn")
    requires f.mode == GetString(attrs, "mode")
    requires f.monitorFail == ZeroMonitorFail
    requires f.monitorUri == GetString(attrs, "monitor_uri")
    requires f.name == GetString(attrs, "name")
    requires f.statsOptions == ZeroStatsOptions
    requires f.tcpLog == GetBool(attrs, "tcplog")
    requires f.uniqueIdFormat == GetString(attrs, "unique_id_format")
    requires f.uniqueIdHeader == GetString(attrs, "unique_id_header")
    ensures f == FrontendOf(attrs)
  {
  }

  /** `if v, ok := d.GetOk(key); ok { field = v.(string) }` on a field that starts out "". */
  method TextField(attrs: map<string, Value>, key: string) returns (v: string)
    ensures v == GetString(attrs, key)
  {
    v := "";
    var x := GetOk(attrs, key);
    if x.Some? {
      v := TextOf(x.value);
    }
  }

  /** The same for a boolean field, which starts out false. */
  method FlagField(attrs: map<string, Value>, key: string) returns (v: bool)
    ensures v == GetBool(attrs, key)
  {
    v := false;
    var x := GetOk(attrs, key);
    if x.Some? {
      v := FlagOf(x.value);
    }
  }

  /** The same for an integer field, which starts out 0. */
  method NumberField(attrs: map<string, Value>, key: string) returns (v: int)
    ensures v == GetInt(attrs, key)
  {
    v := 0;
    var x := GetOk(attrs, key);
    if x.Some? {
      v := NumberOf(x.value);
    }
  }

  /**
   * `buildFrontendFromResourceParameters`: each field of a zero frontend is filled from its
   * attribute when `GetOk` reports one, in the order of the fields; `Err` stands for the panic.
   */
  method BuildFrontend(d: ResourceData) returns (r: Result<Frontend>)
    ensures r == Built(d.attrs)
  {
    var attrs := d.attrs;
    var bindProcess := TextField(attrs, "bind_process");
    var clflog := FlagField(attrs, "clflog");
    var clientTimeout := NumberField(attrs, "client_timeout");
    var clitcpka := TextField(attrs, "clitcpka");
    var contstats := TextField(attrs, "contstats");
    var defaultBackend := TextField(attrs, "default_backend");
    var dontlognull := TextField(attrs, "dontlognull");
    if GetOk(attrs, "forwardFor").Some? {
      return Err(SetConversionPanic);
    }
    var httpBufferRequest := TextField(attrs, "http_buffer_request");
    var httpUseHtx := TextField(attrs, "http_use_htx");
    var httpConnectionMode := TextField(attrs, "http_connection_mode");
    var httpKeepAliveTimeout := NumberField(attrs, "http_keep_alive_timeout");
    var httpRequestTimeout := NumberField(attrs, "http_request_timeout");
    var httpLog := FlagField(attrs, "httplog");
    var logFormat := TextField(attrs, "log_format");
    var logFormatSd := TextField(attrs, "log_format_sd");
    var logSeparateErrors := TextField(attrs, "log_separate_errors");
    var logTag := TextField(attrs, "log_tag");
    var logasap := TextField(attrs, "logasap");
    var maxConn := NumberField(attrs, "maxconn");
    var mode := TextField(attrs, "mode");
    if GetOk(attrs, "monitor_fail").Some? {
      return Err(SetConversionPanic);
    }
    var monitorUri := TextField(attrs, "monitor_uri");
    var name := TextField(attrs, "name");
    if GetOk(attrs, "stats_options").Some? {
      return Err(SetConversionPanic);
    }
    var tcpLog := FlagField(attrs, "tcplog");
    var uniqueIdFormat := TextField(attrs, "unique_id_format");
    var uniqueIdHeader := TextField(attrs, "unique_id_header");
    var frontend := Frontend(bindProcess, clflog, clientTimeout, clitcpka, contstats, defaultBackend, dontlognull, ZeroForwardfor, httpBufferRequest, httpUseHtx, httpConnectionMode, httpKeepAliveTimeout, httpRequestTimeout, httpLog, logFormat, logFormatSd, logSeparateErrors, logTag, logasap, maxConn, mode, ZeroMonitorFail, monitorUri, name, ZeroStatsOptions, tcpLog, uniqueIdFormat, uniqueIdHeader);
    FieldsMakeFrontend(attrs, frontend);
    return Ok(frontend);
  }


  /*
   * resourceFrontendRead
   */

  /** The attributes Read writes for a fetched frontend, each with its value as handed to `Set`. */
  function ReadAttrs(f: Frontend): map<string, Value>
  {
    map[
      "name" := Text(f.name),
      "bind_process" := Text(f.bindProcess),
      "clflog" := Flag(f.clflog),
      "client_timeout" := Number(f.clientTimeout),
      "clitcpka" := Text(f.clitcpka),
      "contstats" := Text(f.contstats),
      "default_backend" := Text(f.defaultBackend),
      "dontlognull" := Text(f.dontlognull),
      "forwardfor" := Forwarded(f.forwardfor),
      "http_buffer_request" := Text(f.httpBufferRequest),
      "http_use_htx" := Text(f.httpUseHtx),
      "http_connection_mode" := Text(f.httpConnectionMode),
      "http_keep_alive_timeout" := Number(f.httpKeepAliveTimeout),
      "http_request_timeout" := Number(f.httpRequestTimeout),
      "httplog" := Flag(f.httpLog),
      "log_format" := Text(f.logFormat),
      "log_format_sd" := Text(f.logFormatSd),
      "log_separate_errors" := Text(f.logSeparateErrors),
      "log_tag" := Text(f.logTag),
      "logasap" := Text(f.logasap),
      "maxconn" := Number(f.maxConn),
      "mode" := Text(f.mode),
      "monitor_fail" := Monitored(f.monitorFail),
      "monitor_uri" := Text(f.monitorUri)
    ]
  }

  /**
   * `resourceFrontendRead`: fetch the frontend named by the id; on an error report it and
   * write nothing, otherwise write its attributes.
   */
  method Read(server: Server, d: ResourceData) returns (diags: seq<Diagnostic>)
    modifies server, d
    ensures var (t, r) := GetFrontendStep(old(server.Snapshot()), old(d.id));
      && server.Snapshot() == t
      && d.id == old(d.id) && d.changed == old(d.changed)
      && (r.Err? ==> diags == [ErrorDiagnostic(r.message)] && d.attrs == old(d.attrs))
      && (r.Ok? ==> diags == [] && d.attrs == old(d.attrs) + ReadAttrs(r.value))
  {
    var result := server.GetFrontend(d.id);
    if result.Err? {
      return [ErrorDiagnostic(result.message)];
    }
    var f := result.value;
    ghost var m0 := d.attrs;
    d.Set("name", Text(f.name));
    d.Set("bind_process", Text(f.bindProcess));
    d.Set("clflog", Flag(f.clflog));
    d.Set("client_timeout", Number(f.clientTimeout));
    d.Set("clitcpka", Text(f.clitcpka));
    d.Set("contstats", Text(f.contstats));
    d.Set("default_backend", Text(f.defaultBackend));
    d.Set("dontlognull", Text(f.dontlognull));
    d.Set("forwardfor", Forwarded(f.forwardfor));
    d.Set("http_buffer_request", Text(f.httpBufferRequest));
    d.Set("http_use_htx", Text(f.httpUseHtx));
    d.Set("http_connection_mode", Text(f.httpConnectionMode));
    d.Set("http_keep_alive_timeout", Number(f.httpKeepAliveTimeout));
    d.Set("http_request_timeout", Number(f.httpRequestTimeout));
    d.Set("httplog", Flag(f.httpLog));
    d.Set("log_format", Text(f.logFormat));
    d.Set("log_format_sd", Text(f.logFormatSd));
    d.Set("log_separate_errors", Text(f.logSeparateErrors));
    d.Set("log_tag", Text(f.logTag));
    d.Set("logasap", Text(f.logasap));
    d.Set("maxconn", Number(f.maxConn));
    d.Set("mode", Text(f.mode));
    d.Set("monitor_fail", Monitored(f.monitorFail));
    d.Set("monitor_uri", Text(f.monitorUri));
    WritesMakeReadAttrs(m0, f);
    return [];
  }

  /*
   * The transaction envelopes of Create, Update and Delete
   */

  /** The frontend operation an envelope stages. */
  datatype Operation = CreateOp | UpdateOp | DeleteOp

  /** The staging call of the operation. */
  function StageCall(op: Operation, txn: string, fe: Frontend): Call
  {
    match op
    case CreateOp => CreateFrontendCall(txn, fe)
    case UpdateOp => UpdateFrontendCall(txn, fe)
    case DeleteOp => DeleteFrontendCall(txn, fe)
  }

  /** What the operation changes once committed. */
  function ChangeOf(op: Operation, fe: Frontend): Change
  {
    match op
    case CreateOp => AddFrontend(fe)
    case UpdateOp => ReplaceFrontend(fe)
    case DeleteOp => RemoveFrontend(fe.name)
  }

  /** A create needs the name free, an update or a delete needs it taken. */
  predicate Admits(op: Operation, fe: Frontend, c: Config)
  {
    if op.CreateOp? then fe.name !in c.frontends else fe.name in c.frontends
  }

  /** The staging call and its error. */
  function StageFrontend(s: State, op: Operation, txn: string, fe: Frontend): (State, Option<string>)
  {
    match op
    case CreateOp => var (t, r) := CreateFrontendStep(s, txn, fe); (t, ErrorOf(r))
    case UpdateOp => var (t, r) := UpdateFrontendStep(s, txn, fe); (t, ErrorOf(r))
    case DeleteOp => var (t, r) := DeleteFrontendStep(s, txn, fe); (t, ErrorOf(r))
  }

  /** One attempt: open a transaction, stage the operation, commit. */
  function FrontendAttempt(s: State, op: Operation, fe: Frontend): (Option<string>, State)
  {
    var (s2, t) := OpenTransaction(s);
    if t.Err? then (Some(t.message), s2) else
    var (s3, e) := StageFrontend(s2, op, t.value, fe);
    if e.Some? then (e, s3) else
    var (s4, m) := CommitTransactionStep(s3, t.value);
    (ErrorOf(m), s4)
  }

  method Stage(server: Server, op: Operation, txn: string, fe: Frontend) returns (err: Option<string>)
    modifies server
    ensures (server.Snapshot(), err) == StageFrontend(old(server.Snapshot()), op, txn, fe)
  {
    match op {
      case CreateOp =>
        var r := server.CreateFrontend(txn, fe);
        err := ErrorOf(r);
      case UpdateOp =>
        var r := server.UpdateFrontend(txn, fe);
        err := ErrorOf(r);
      case DeleteOp =>
        var r := server.DeleteFrontend(txn, fe);
        err := ErrorOf(r);
    }
  }

  method Attempt(server: Server, op: Operation, fe: Frontend) returns (err: Option<string>)
    modifies server
    ensures (err, server.Snapshot()) == FrontendAttempt(old(server.Snapshot()), op, fe)
  {
    var t := Open(server);
    if t.Err? { return Some(t.message); }
    var e := Stage(server, op, t.value, fe);
    if e.Some? { return e; }
    var m := server.CommitTransaction(t.value);
    if m.Err? { return Some(m.message); }
    return None;
  }

  function AttemptOf(op: Operation, fe: Frontend): State -> (Option<string>, State)
  {
    (s: State) => FrontendAttempt(s, op, fe)
  }

  /** `retry.Do` around the attempt: at most `attempts` tries, stopping at the first success. */
  method Run(server: Server, op: Operation, fe: Frontend, attempts: nat) returns (o: Outcome)
    modifies server
    ensures (o, server.Snapshot()) == Retry(AttemptOf(op, fe), old(server.Snapshot()), attempts)
  {
    ghost var goal := Retry(AttemptOf(op, fe), server.Snapshot(), attempts);
    var errors: seq<string> := [];
    var left := attempts;
    while left > 0
      invariant RetryFrom(AttemptOf(op, fe), server.Snapshot(), left, errors) == goal
    {
      RetryFromStep(AttemptOf(op, fe), server.Snapshot(), left, errors);
      var err := Attempt(server, op, fe);
      if err.None? {
        return Succeeded(|errors| + 1);
      }
      errors := errors + [err.value];
      left := left - 1;
    }
    return AllFailed(errors);
  }

  /**
   * `resourceFrontendCreate`: build the frontend (a panic before any call when a group
   * attribute is set), retry the envelope, and take the frontend's name as the id only
   * when an attempt committed.
   */
  method Create(server: Server, d: ResourceData, attempts: nat) returns (c: Completion)
    modifies server, d
    ensures d.attrs == old(d.attrs) && d.changed == old(d.changed)
    ensures Built(old(d.attrs)).Err? ==>
      c == Panicked(SetConversionPanic) && server.Snapshot() == old(server.Snapshot()) && d.id == old(d.id)
    ensures Built(old(d.attrs)).Ok? ==>
      var fe := Built(old(d.attrs)).value;
      var (o, t) := Retry(AttemptOf(CreateOp, fe), old(server.Snapshot()), attempts);
      && server.Snapshot() == t
      && (o.Succeeded? ==> d.id == fe.name && c == Returned([]))
      && (o.AllFailed? ==> d.id == old(d.id) && c == Returned([RetryDiagnostic(o.errors)]))
  {
    var b := BuildFrontend(d);
    if b.Err? {
      return Panicked(b.message);
    }
    var o := Run(server, CreateOp, b.value, attempts);
    if o.AllFailed? {
      return Returned([RetryDiagnostic(o.errors)]);
    }
    d.SetId(b.value.name);
    return Returned([]);
  }

  /** `resourceFrontendUpdate`: build, retry the envelope; the id is never touched. */
  method Update(server: Server, d: ResourceData, attempts: nat) returns (c: Completion)
    modifies server
    ensures Built(d.attrs).Err? ==> c == Panicked(SetConversionPanic) && server.Snapshot() == old(server.Snapshot())
    ensures Built(d.attrs).Ok? ==>
      var (o, t) := Retry(AttemptOf(UpdateOp, Built(d.attrs).value), old(server.Snapshot()), attempts);
      && server.Snapshot() == t
      && (o.Succeeded? ==> c == Returned([]))
      && (o.AllFailed? ==> c == Returned([RetryDiagnostic(o.errors)]))
  {
    var b := BuildFrontend(d);
    if b.Err? {
      return Panicked(b.message);
    }
    var o := Run(server, UpdateOp, b.value, attempts);
    if o.AllFailed? {
      return Returned([RetryDiagnostic(o.errors)]);
    }
    return Returned([]);
  }

  /** `resourceFrontendDelete`: build, retry the envelope; the id is cleared only when an attempt committed. */
  method Delete(server: Server, d: ResourceData, attempts: nat) returns (c: Completion)
    modifies server, d
    ensures d.attrs == old(d.attrs) && d.changed == old(d.changed)
    ensures Built(old(d.attrs)).Err? ==>
      c == Panicked(SetConversionPanic) && server.Snapshot() == old(server.Snapshot()) && d.id == old(d.id)
    ensures Built(old(d.attrs)).Ok? ==>
      var (o, t) := Retry(AttemptOf(DeleteOp, Built(old(d.attrs)).value), old(server.Snapshot()), attempts);
      && server.Snapshot() == t
      && (o.Succeeded? ==> d.id == "" && c == Returned([]))
      && (o.AllFailed? ==> d.id == old(d.id) && c == Returned([RetryDiagnostic(o.errors)]))
  {
    var b := BuildFrontend(d);
    if b.Err? {
      return Panicked(b.message);
    }
    var o := Run(server, DeleteOp, b.value, attempts);
    if o.AllFailed? {
      return Returned([RetryDiagnostic(o.errors)]);
    }
    d.SetId("");
    return Returned([]);
  }

  /*
   * Properties of one attempt
   */

  /** The calls of a complete attempt. */
  function FrontendProtocol(version: int, txn: string, op: Operation, fe: Frontend): seq<Call>
  {
    [GetConfigurationCall, CreateTransactionCall(version), StageCall(op, txn, fe), CommitTransactionCall(txn)]
  }

  /** The staging call logs itself and leaves the committed objects alone. */
  lemma StageFrontendLogs(s: State, op: Operation, txn: string, fe: Frontend)
    ensures var (t, e) := StageFrontend(s, op, txn, fe);
      Logged(s, t, StageCall(op, txn, fe), e) && t.config == s.config && t.version >= s.version
  {
    match op
    case CreateOp =>
      StageLogs(s, CreateFrontendCall(txn, fe), txn, AddFrontend(fe), (c: Config) => fe.name !in c.frontends, FrontendExists, fe);
    case UpdateOp =>
      StageLogs(s, UpdateFrontendCall(txn, fe), txn, ReplaceFrontend(fe), (c: Config) => fe.name in c.frontends, FrontendNotFound, fe);
    case DeleteOp =>
      StageLogs(s, DeleteFrontendCall(txn, fe), txn, RemoveFrontend(fe.name), (c: Config) => fe.name in c.frontends, FrontendNotFound, ());
  }

  /** A staging call that succeeds was admitted by the transaction's view, and adds its change to it. */
  lemma StageFrontendInView(s: State, op: Operation, txn: string, fe: Frontend)
    requires StageFrontend(s, op, txn, fe).1.None?
    ensures var t := StageFrontend(s, op, txn, fe).0;
      && txn in Begin(s).1.open && Admits(op, fe, View(Begin(s).1, txn))
      && txn in t.open && t.open[txn].base == s.open[txn].base
      && View(t, txn) == Apply(View(Begin(s).1, txn), ChangeOf(op, fe))
      && t.config == s.config && t.version == Begin(s).1.version
  {
    match op
    case CreateOp =>
      StagedChangeInView(s, CreateFrontendCall(txn, fe), txn, AddFrontend(fe), (c: Config) => fe.name !in c.frontends, FrontendExists, fe);
    case UpdateOp =>
      StagedChangeInView(s, UpdateFrontendCall(txn, fe), txn, ReplaceFrontend(fe), (c: Config) => fe.name in c.frontends, FrontendNotFound, fe);
    case DeleteOp =>
      StagedChangeInView(s, DeleteFrontendCall(txn, fe), txn, RemoveFrontend(fe.name), (c: Config) => fe.name in c.frontends, FrontendNotFound, ());
  }

  /**
   * An attempt only appends to the log, and what it appends is a non-empty prefix of the
   * protocol, on the version it read and the transaction it opened; the commit is called
   * exactly when the staging call succeeded.
   */
  lemma AttemptFollowsProtocol(s: State, op: Operation, fe: Frontend)
    ensures var t := FrontendAttempt(s, op, fe).1; var v := ReadVersion(s); var id := OpenedId(s);
      && Follows(s, t, FrontendProtocol(v, id, op, fe)) && |s.log| < |t.log|
      && (|t.log| == |s.log| + 4 <==> |s.log| + 2 < |t.log| && t.log[|s.log| + 2].error.None?)
  {
    var v, id := ReadVersion(s), OpenedId(s);
    var opening := [GetConfigurationCall, CreateTransactionCall(v)];
    var tail := [StageCall(op, id, fe), CommitTransactionCall(id)];
    assert FrontendProtocol(v, id, op, fe) == opening + tail;
    OpenTransactionFollows(s);
    var (s2, t) := OpenTransaction(s);
    if t.Err? {
      FollowsLonger(s, s2, opening, tail);
    } else {
      var (s3, e) := StageFrontend(s2, op, id, fe);
      StageFrontendLogs(s2, op, id, fe);
      LoggedFollows(s2, s3, StageCall(op, id, fe), e);
      if e.Some? {
        FollowsLonger(s2, s3, [StageCall(op, id, fe)], [CommitTransactionCall(id)]);
      } else {
        var (s4, m) := CommitTransactionStep(s3, id);
        CommitLogs(s3, id);
        LoggedFollows(s3, s4, CommitTransactionCall(id), ErrorOf(m));
        FollowsThen(s2, s3, s4, [StageCall(op, id, fe)], [CommitTransactionCall(id)]);
      }
      FollowsThen(s, s2, FrontendAttempt(s, op, fe).1, opening, tail);
    }
  }

  /** An attempt stops at the first call that fails, and its error is that call's. */
  lemma AttemptStops(s: State, op: Operation, fe: Frontend)
    ensures var (e, t) := FrontendAttempt(s, op, fe); StopsAtFirstError(s, t, e)
  {
    OpenTransactionStops(s);
    var (s2, t) := OpenTransaction(s);
    if t.Ok? {
      var (s3, e) := StageFrontend(s2, op, t.value, fe);
      StageFrontendLogs(s2, op, t.value, fe);
      LoggedStops(s2, s3, StageCall(op, t.value, fe), e);
      StopsThen(s, s2, s3, e);
      if e.None? {
        var (s4, m) := CommitTransactionStep(s3, t.value);
        CommitLogs(s3, t.value);
        LoggedStops(s3, s4, CommitTransactionCall(t.value), ErrorOf(m));
        StopsThen(s, s3, s4, ErrorOf(m));
      }
    }
  }

  /** A committed attempt was admitted by the committed objects and applied its change to them. */
  lemma AttemptCommits(s: State, op: Operation, fe: Frontend)
    requires FrontendAttempt(s, op, fe).0.None?
    ensures var t := FrontendAttempt(s, op, fe).1;
      && Admits(op, fe, s.config)
      && t.config == Apply(s.config, ChangeOf(op, fe))
      && t.version > s.version
  {
    OpenTransactionFollows(s);
    var (s2, t) := OpenTransaction(s);
    var id := t.value;
    StageFrontendInView(s2, op, id, fe);
    var (s3, e) := StageFrontend(s2, op, id, fe);
    CommitInstallsView(s3, id);
  }

  /** An attempt that fails leaves every committed object as it found it. */
  lemma FailedAttemptCommitsNothing(s: State, op: Operation, fe: Frontend)
    requires FrontendAttempt(s, op, fe).0.Some?
    ensures FrontendAttempt(s, op, fe).1.config == s.config
  {
    OpenTransactionFollows(s);
    var (s2, t) := OpenTransaction(s);
    if t.Ok? {
      StageFrontendLogs(s2, op, t.value, fe);
      var (s3, e) := StageFrontend(s2, op, t.value, fe);
      if e.None? {
        CommitLogs(s3, t.value);
      }
    }
  }

  /*
   * Properties of the retried envelopes
   */

  /**
   * However many attempts run, the operation is either committed once, on committed
   * objects that admitted it, or not at all.
   */
  lemma OperationCommitsOnce(s: State, op: Operation, fe: Frontend, attempts: nat)
    ensures var (o, t) := Retry(AttemptOf(op, fe), s, attempts);
      && (o.Succeeded? ==> Admits(op, fe, s.config) && t.config == Apply(s.config, ChangeOf(op, fe)))
      && (o.AllFailed? ==> t.config == s.config)
  {
    var inv := (x: State) => x.config == s.config;
    var post := (x: State) => Admits(op, fe, s.config) && x.config == Apply(s.config, ChangeOf(op, fe));
    forall x | inv(x) && AttemptOf(op, fe)(x).0.Some?
      ensures inv(AttemptOf(op, fe)(x).1)
    {
      FailedAttemptCommitsNothing(x, op, fe);
    }
    forall x | inv(x) && AttemptOf(op, fe)(x).0.None?
      ensures post(AttemptOf(op, fe)(x).1)
    {
      AttemptCommits(x, op, fe);
    }
    RetryEstablishes(AttemptOf(op, fe), inv, post, s, attempts);
  }

  /**
   * Creating a name that is already committed, or updating or deleting one that is not,
   * fails on every attempt, with one error per attempt and nothing committed.
   */
  lemma RefusedNeverCommits(s: State, op: Operation, fe: Frontend, attempts: nat)
    requires !Admits(op, fe, s.config)
    ensures var (o, t) := Retry(AttemptOf(op, fe), s, attempts);
      o.AllFailed? && |o.errors| == attempts && t.config == s.config
  {
    OperationCommitsOnce(s, op, fe, attempts);
    RetryBounds(AttemptOf(op, fe), s, attempts);
  }

  /** The 24 writes of Read, one after the other, lay `ReadAttrs` over the attributes. */
  lemma WritesMakeReadAttrs(m: map<string, Value>, f: Frontend)
    ensures m
      ["name" := Text(f.name)]
      ["bind_process" := Text(f.bindProcess)]
      ["clflog" := Flag(f.clflog)]
      ["client_timeout" := Number(f.clientTimeout)]
      ["clitcpka" := Text(f.clitcpka)]
      ["contstats" := Text(f.contstats)]
      ["default_backend" := Text(f.defaultBackend)]
      ["dontlognull" := Text(f.dontlognull)]
      ["forwardfor" := Forwarded(f.forwardfor)]
      ["http_buffer_request" := Text(f.httpBufferRequest)]
      ["http_use_htx" := Text(f.httpUseHtx)]
      ["http_connection_mode" := Text(f.httpConnectionMode)]
      ["http_keep_alive_timeout" := Number(f.httpKeepAliveTimeout)]
      ["http_request_timeout" := Number(f.httpRequestTimeout)]
      ["httplog" := Flag(f.httpLog)]
      ["log_format" := Text(f.logFormat)]
      ["log_format_sd" := Text(f.logFormatSd)]
      ["log_separate_errors" := Text(f.logSeparateErrors)]
      ["log_tag" := Text(f.logTag)]
      ["logasap" := Text(f.logasap)]
      ["maxconn" := Number(f.maxConn)]
      ["mode" := Text(f.mode)]
      ["monitor_fail" := Monitored(f.monitorFail)]
      ["monitor_uri" := Text(f.monitorUri)]
      == m + ReadAttrs(f)
  {
  }

  /*
   * Read followed by a build
   */

  /**
   * A build from the attributes Read wrote gives back every scalar field of the fetched
   * frontend except the three Read does not write, which keep what the attributes held;
   * the groups come back zero.
   */
  lemma ReadThenBuild(m: map<string, Value>, f: Frontend)
    ensures FrontendOf(m + ReadAttrs(f)) == f.(
      forwardfor := ZeroForwardfor, monitorFail := ZeroMonitorFail, statsOptions := ZeroStatsOptions,
      tcpLog := GetBool(m, "tcplog"), uniqueIdFormat := GetString(m, "unique_id_format"),
      uniqueIdHeader := GetString(m, "unique_id_header"))
  {
    ReadAttrsAt1(f);
    ReadAttrsAt2(f);
    ReadAttrsAt3(f);
    ReadAttrsAt4(f);
    ReadAttrsAt5(f);
    ReadAttrsAt6(f);
    ReadAttrsAt7(f);
    ReadAttrsAt8(f);
    ReadAttrsSkipsUniqueId(f);
    ReadAttrsSkipsTcpLog(f);
    BuildFromLookups(m, ReadAttrs(f), f);
  }

  /** The frontend of attributes overlaid with a frontend's scalar fields under Read's keys, the three keys Read skips excepted. */
  lemma BuildFromLookups(m: map<string, Value>, r: map<string, Value>, f: Frontend)
    requires "name" in r && r["name"] == Text(f.name)
    requires "bind_process" in r && r["bind_process"] == Text(f.bindProcess)
    requires "clflog" in r && r["clflog"] == Flag(f.clflog)
    requires "client_timeout" in r && r["client_timeout"] == Number(f.clientTimeout)
    requires "clitcpka" in r && r["clitcpka"] == Text(f.clitcpka)
    requires "contstats" in r && r["contstats"] == Text(f.contstats)
    requires "default_backend" in r && r["default_backend"] == Text(f.defaultBackend)
    requires "dontlognull" in r && r["dontlognull"] == Text(f.dontlognull)
    requires "forwardfor" in r && r["forwardfor"] == Forwarded(f.forwardfor)
    requires "http_buffer_request" in r && r["http_buffer_request"] == Text(f.httpBufferRequest)
    requires "http_use_htx" in r && r["http_use_htx"] == Text(f.httpUseHtx)
    requires "http_connection_mode" in r && r["http_connection_mode"] == Text(f.httpConnectionMode)
    requires "http_keep_alive_timeout" in r && r["http_keep_alive_timeout"] == Number(f.httpKeepAliveTimeout)
    requires "http_request_timeout" in r && r["http_request_timeout"] == Number(f.httpRequestTimeout)
    requires "httplog" in r && r["httplog"] == Flag(f.httpLog)
    requires "log_format" in r && r["log_format"] == Text(f.logFormat)
    requires "log_format_sd" in r && r["log_format_sd"] == Text(f.logFormatSd)
    requires "log_separate_errors" in r && r["log_separate_errors"] == Text(f.logSeparateErrors)
    requires "log_tag" in r && r["log_tag"] == Text(f.logTag)
    requires "logasap" in r && r["logasap"] == Text(f.logasap)
    requires "maxconn" in r && r["maxconn"] == Number(f.maxConn)
    requires "mode" in r && r["mode"] == Text(f.mode)
    requires "monitor_fail" in r && r["monitor_fail"] == Monitored(f.monitorFail)
    requires "monitor_uri" in r && r["monitor_uri"] == Text(f.monitorUri)
    requires "tcplog" !in r && "unique_id_format" !in r && "unique_id_header" !in r
    ensures FrontendOf(m + r) == f.(
      forwardfor := ZeroForwardfor, monitorFail := ZeroMonitorFail, statsOptions := ZeroStatsOptions,
      tcpLog := GetBool(m, "tcplog"), uniqueIdFormat := GetString(m, "unique_id_format"),
      uniqueIdHeader := GetString(m, "unique_id_header"))
  {
    OverlayText(m, r, "name", f.name);
    OverlayText(m, r, "bind_process", f.bindProcess);
    OverlayText(m, r, "clitcpka", f.clitcpka);
    OverlayText(m, r, "contstats", f.contstats);
    OverlayText(m, r, "default_backend", f.defaultBackend);
    OverlayText(m, r, "dontlognull", f.dontlognull);
    OverlayText(m, r, "http_buffer_request", f.httpBufferRequest);
    OverlayText(m, r, "http_use_htx", f.httpUseHtx);
    OverlayText(m, r, "http_connection_mode", f.httpConnectionMode);
    OverlayText(m, r, "log_format", f.logFormat);
    OverlayText(m, r, "log_format_sd", f.logFormatSd);
    OverlayText(m, r, "log_separate_errors", f.logSeparateErrors);
    OverlayText(m, r, "log_tag", f.logTag);
    OverlayText(m, r, "logasap", f.logasap);
    OverlayText(m, r, "mode", f.mode);
    OverlayText(m, r, "monitor_uri", f.monitorUri);
    OverlayFlag(m, r, "clflog", f.clflog);
    OverlayFlag(m, r, "httplog", f.httpLog);
    OverlayNumber(m, r, "client_timeout", f.clientTimeout);
    OverlayNumber(m, r, "http_keep_alive_timeout", f.httpKeepAliveTimeout);
    OverlayNumber(m, r, "http_request_timeout", f.httpRequestTimeout);
    OverlayNumber(m, r, "maxconn", f.maxConn);
    OverlaySkipped(m, r, "tcplog");
    OverlaySkipped(m, r, "unique_id_format");
    OverlaySkipped(m, r, "unique_id_header");
    FieldsMakeFrontend(m + r, f.(
      forwardfor := ZeroForwardfor, monitorFail := ZeroMonitorFail, statsOptions := ZeroStatsOptions,
      tcpLog := GetBool(m, "tcplog"), uniqueIdFormat := GetString(m, "unique_id_format"),
      uniqueIdHeader := GetString(m, "unique_id_header")));
  }

  /* How a lookup sees attributes overlaid with `r`: the value of `r` where it has the key, the old one elsewhere. */

  lemma OverlayText(m: map<string, Value>, r: map<string, Value>, key: string, v: string)
    requires key in r && r[key] == Text(v)
    ensures GetString(m + r, key) == v
  {
  }

  lemma OverlayFlag(m: map<string, Value>, r: map<string, Value>, key: string, v: bool)
    requires key in r && r[key] == Flag(v)
    ensures GetBool(m + r, key) == v
  {
  }

  lemma OverlayNumber(m: map<string, Value>, r: map<string, Value>, key: string, v: int)
    requires key in r && r[key] == Number(v)
    ensures GetInt(m + r, key) == v
  {
  }

  lemma OverlaySkipped(m: map<string, Value>, r: map<string, Value>, key: string)
    requires key !in r
    ensures GetString(m + r, key) == GetString(m, key) && GetBool(m + r, key) == GetBool(m, key)
  {
  }

  /* Where Read's attributes land, three keys at a time: each written key holds its field's value. */

  lemma ReadAttrsAt1(f: Frontend)
    ensures "name" in ReadAttrs(f) && ReadAttrs(f)["name"] == Text(f.name)
    ensures "bind_process" in ReadAttrs(f) && ReadAttrs(f)["bind_process"] == Text(f.bindProcess)
    ensures "clflog" in ReadAttrs(f) && ReadAttrs(f)["clflog"] == Flag(f.clflog)
  {
  }

  lemma ReadAttrsAt2(f: Frontend)
    ensures "client_timeout" in ReadAttrs(f) && ReadAttrs(f)["client_timeout"] == Number(f.clientTimeout)
    ensures "clitcpka" in ReadAttrs(f) && ReadAttrs(f)["clitcpka"] == Text(f.clitcpka)
    ensures "contstats" in ReadAttrs(f) && ReadAttrs(f)["contstats"] == Text(f.contstats)
  {
  }

  lemma ReadAttrsAt3(f: Frontend)
    ensures "default_backend" in ReadAttrs(f) && ReadAttrs(f)["default_backend"] == Text(f.defaultBackend)
    ensures "dontlognull" in ReadAttrs(f) && ReadAttrs(f)["dontlognull"] == Text(f.dontlognull)
    ensures "forwardfor" in ReadAttrs(f) && ReadAttrs(f)["forwardfor"] == Forwarded(f.forwardfor)
  {
  }

  lemma ReadAttrsAt4(f: Frontend)
    ensures "http_buffer_request" in ReadAttrs(f) && ReadAttrs(f)["http_buffer_request"] == Text(f.httpBufferRequest)
    ensures "http_use_htx" in ReadAttrs(f) && ReadAttrs(f)["http_use_htx"] == Text(f.httpUseHtx)
    ensures "http_connection_mode" in ReadAttrs(f) && ReadAttrs(f)["http_connection_mode"] == Text(f.httpConnectionMode)
  {
  }

  lemma ReadAttrsAt5(f: Frontend)
    ensures "http_keep_alive_timeout" in ReadAttrs(f) && ReadAttrs(f)["http_keep_alive_timeout"] == Number(f.httpKeepAliveTimeout)
    ensures "http_request_timeout" in ReadAttrs(f) && ReadAttrs(f)["http_request_timeout"] == Number(f.httpRequestTimeout)
    ensures "httplog" in ReadAttrs(f) && ReadAttrs(f)["httplog"] == Flag(f.httpLog)
  {
  }

  lemma ReadAttrsAt6(f: Frontend)
    ensures "log_format" in ReadAttrs(f) && ReadAttrs(f)["log_format"] == Text(f.logFormat)
    ensures "log_format_sd" in ReadAttrs(f) && ReadAttrs(f)["log_format_sd"] == Text(f.logFormatSd)
    ensures "log_separate_errors" in ReadAttrs(f) && ReadAttrs(f)["log_separate_errors"] == Text(f.logSeparateErrors)
  {
  }

  lemma ReadAttrsAt7(f: Frontend)
    ensures "log_tag" in ReadAttrs(f) && ReadAttrs(f)["log_tag"] == Text(f.logTag)
    ensures "logasap" in ReadAttrs(f) && ReadAttrs(f)["logasap"] == Text(f.logasap)
    ensures "maxconn" in ReadAttrs(f) && ReadAttrs(f)["maxconn"] == Number(f.maxConn)
  {
  }

  lemma ReadAttrsAt8(f: Frontend)
    ensures "mode" in ReadAttrs(f) && ReadAttrs(f)["mode"] == Text(f.mode)
    ensures "monitor_fail" in ReadAttrs(f) && ReadAttrs(f)["monitor_fail"] == Monitored(f.monitorFail)
    ensures "monitor_uri" in ReadAttrs(f) && ReadAttrs(f)["monitor_uri"] == Text(f.monitorUri)
  {
  }

  /* The four schema attributes Read leaves alone. */

  lemma ReadAttrsSkipsUniqueId(f: Frontend)
    ensures "unique_id_format" !in ReadAttrs(f) && "unique_id_header" !in ReadAttrs(f)
  {
  }

  lemma ReadAttrsSkipsTcpLog(f: Frontend)
    ensures "tcplog" !in ReadAttrs(f) && "stats_options" !in ReadAttrs(f)
  {
  }

  /**
   * The build looks `forwardFor` up under a key the schema does not declare, so for
   * attributes within the schema it never panics on it, and the frontend's forwardfor
   * group is never taken from the attributes.
   */
  lemma ForwardForNeverRead(attrs: map<string, Value>)
    requires attrs.Keys <= SchemaKeys
    ensures GetOk(attrs, "forwardFor").None?
    ensures Built(attrs).Ok? ==> Built(attrs).value.forwardfor == ZeroForwardfor
    ensures Built(attrs).Ok? <==> GetOk(attrs, "monitor_fail").None? && GetOk(attrs, "stats_options").None?
  {
  }
}
