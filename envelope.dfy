/**
 * The opening every retried attempt of the ACL and frontend resources shares: read the
 * configuration version, then open a transaction at that version, stopping at the
 * first error (internal/provider/resource_acl.go and internal/provider/resource_frontend.go).
 */
module Envelope {
  import opened Wrappers
  import opened Dataplane

  /** The transaction id, or the error of the first call that failed. */
  function OpenTransaction(s: State): (State, Result<string>)
  {
    var (s1, c) := GetConfigurationStep(s);
    if c.Err? then (s1, Err(c.message)) else
    var (s2, t) := CreateTransactionStep(s1, c.value.version);
    if t.Err? then (s2, Err(t.message)) else (s2, Ok(t.value.id))
  }

  method Open(server: Server) returns (r: Result<string>)
    modifies server
    ensures (server.Snapshot(), r) == OpenTransaction(old(server.Snapshot()))
  {
    var c := server.GetConfiguration();
    if c.Err? { return Err(c.message); }
    var t := server.CreateTransaction(c.value.version);
    if t.Err? { return Err(t.message); }
    return Ok(t.value.id);
  }

  /** The version the first call returns (0 when it fails). */
  function ReadVersion(s: State): int
  {
    var c := GetConfigurationStep(s).1;
    if c.Ok? then c.value.version else 0
  }

  /** The id the second call returns ("" when it fails or is not made). */
  function OpenedId(s: State): string
  {
    var t := CreateTransactionStep(GetConfigurationStep(s).0, ReadVersion(s)).1;
    if t.Ok? then t.value.id else ""
  }

  /**
   * The opening calls GetConfiguration, then CreateTransaction with the version just read
   * (`OpenTransactionStops` states where it stops); on success the transaction is open at that version and
   * sees exactly the committed objects, which the opening leaves alone.
   */
  lemma OpenTransactionFollows(s: State)
    ensures var (t, r) := OpenTransaction(s);
      && Follows(s, t, [GetConfigurationCall, CreateTransactionCall(ReadVersion(s))]) && |s.log| < |t.log|
      && t.config == s.config && t.version >= s.version
      && (r.Ok? ==> && |t.log| == |s.log| + 2 && r.value == OpenedId(s)
                    && r.value in t.open && View(t, r.value) == s.config && t.open[r.value].base == ReadVersion(s))
  {
    var v := ReadVersion(s);
    var c0, c1 := GetConfigurationCall, CreateTransactionCall(v);
    var (s1, c) := GetConfigurationStep(s);
    GetConfigurationLogs(s);
    LoggedFollows(s, s1, c0, ErrorOf(c));
    if c.Err? {
      FollowsLonger(s, s1, [c0], [c1]);
    } else {
      var (s2, t) := CreateTransactionStep(s1, v);
      CreateTransactionLogs(s1, v);
      LoggedFollows(s1, s2, c1, ErrorOf(t));
      FollowsThen(s, s1, s2, [c0], [c1]);
      if t.Ok? {
        FreshTransactionView(s1, v);
      }
    }
  }

  /** The opening stops at the first error, and its error is that call's. */
  lemma OpenTransactionStops(s: State)
    ensures var (t, r) := OpenTransaction(s); StopsAtFirstError(s, t, ErrorOf(r))
  {
    var (s1, c) := GetConfigurationStep(s);
    GetConfigurationLogs(s);
    LoggedStops(s, s1, GetConfigurationCall, ErrorOf(c));
    if c.Ok? {
      var (s2, t) := CreateTransactionStep(s1, c.value.version);
      CreateTransactionLogs(s1, c.value.version);
      LoggedStops(s1, s2, CreateTransactionCall(c.value.version), ErrorOf(t));
      StopsThen(s, s1, s2, ErrorOf(t));
    }
  }
}
