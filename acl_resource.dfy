/**
 * The `haproxy_acl` resource of internal/provider/resource_acl.go. Create runs, under
 * `retry.Do`, one attempt of the transaction protocol: read the configuration version,
 * open a transaction at that version, list the parent's ACLs inside it, refuse a name
 * that is already there, stage the ACL and commit. Read, Update and Delete do nothing.
 */
module AclResource {
  import opened Wrappers
  import opened Models
  import opened Dataplane
  import opened Retrying
  import opened Terraform
  import opened Envelope

  /** The ACL and its parent, as Create reads them from the resource data. */
  function AclOf(attrs: map<string, Value>): Acl
  {
    Acl(GetString(attrs, "name"), GetString(attrs, "criterion"), GetInt(attrs, "index"), GetString(attrs, "value"))
  }

  function ParentOf(attrs: map<string, Value>): Parent
  {
    Parent(GetString(attrs, "parent_name"), GetString(attrs, "parent_type"))
  }

  predicate HasName(acls: seq<Acl>, name: string)
  {
    exists i :: 0 <= i < |acls| && acls[i].name == name
  }

  function DuplicateMessage(acl: Acl, p: Parent): string
  {
    "Cannot insert " + acl.name + " which already exist in " + p.name + " " + p.kind + "."
  }

  /** The loop over the listed ACLs, stopping at the first with the new ACL's name. */
  method FindDuplicate(acls: seq<Acl>, name: string) returns (found: bool)
    ensures found <==> HasName(acls, name)
  {
    for i := 0 to |acls|
      invariant forall j :: 0 <= j < i ==> acls[j].name != name
    {
      if acls[i].name == name {
        return true;
      }
    }
    return false;
  }

  /** The first phase of an attempt: read the version, open a transaction at it, list the parent's ACLs in it. */
  function OpenAndList(s: State, p: Parent): (State, Result<(string, seq<Acl>)>)
  {
    var (s2, t) := OpenTransaction(s);
    if t.Err? then (s2, Err(t.message)) else
    var (s3, l) := GetAclsStep(s2, t.value, p);
    if l.Err? then (s3, Err(l.message)) else (s3, Ok((t.value, l.value)))
  }

  /** The last phase: stage the ACL in the transaction and commit it. */
  function StageAndCommit(s: State, txn: string, p: Parent, acl: Acl): (Option<string>, State)
  {
    var (s4, a) := CreateAclStep(s, txn, p, acl);
    if a.Err? then (Some(a.message), s4) else
    var (s5, m) := CommitTransactionStep(s4, txn);
    (ErrorOf(m), s5)
  }

  /** One attempt: its error (None when it committed) and the server state it leaves. */
  function AclAttempt(s: State, p: Parent, acl: Acl): (Option<string>, State)
  {
    var (s3, r) := OpenAndList(s, p);
    if r.Err? then (Some(r.message), s3)
    else if HasName(r.value.1, acl.name) then (Some(DuplicateMessage(acl, p)), s3)
    else StageAndCommit(s3, r.value.0, p, acl)
  }

  method Attempt(server: Server, p: Parent, acl: Acl) returns (err: Option<string>)
    modifies server
    ensures (err, server.Snapshot()) == AclAttempt(old(server.Snapshot()), p, acl)
  {
    var t := Open(server);
    if t.Err? { return Some(t.message); }
    var l := server.GetAcls(t.value, p);
    if l.Err? { return Some(l.message); }
    var duplicate := FindDuplicate(l.value, acl.name);
    if duplicate { return Some(DuplicateMessage(acl, p)); }
    var a := server.CreateAcl(t.value, p, acl);
    if a.Err? { return Some(a.message); }
    var m := server.CommitTransaction(t.value);
    if m.Err? { return Some(m.message); }
    return None;
  }

  function AttemptOf(p: Parent, acl: Acl): State -> (Option<string>, State)
  {
    (s: State) => AclAttempt(s, p, acl)
  }

  /** `retry.Do` around the attempt: at most `attempts` tries, stopping at the first success. */
  method Run(server: Server, p: Parent, acl: Acl, attempts: nat) returns (o: Outcome)
    modifies server
    ensures (o, server.Snapshot()) == Retry(AttemptOf(p, acl), old(server.Snapshot()), attempts)
  {
    ghost var goal := Retry(AttemptOf(p, acl), server.Snapshot(), attempts);
    var errors: seq<string> := [];
    var left := attempts;
    while left > 0
      invariant RetryFrom(AttemptOf(p, acl), server.Snapshot(), left, errors) == goal
    {
      RetryFromStep(AttemptOf(p, acl), server.Snapshot(), left, errors);
      var err := Attempt(server, p, acl);
      if err.None? {
        return Succeeded(|errors| + 1);
      }
      errors := errors + [err.value];
      left := left - 1;
    }
    return AllFailed(errors);
  }

  /** `resourceAclCreate` with `attempts` tries; the id is set only when an attempt committed. */
  method Create(server: Server, d: ResourceData, attempts: nat) returns (diags: seq<Diagnostic>)
    modifies server, d
    ensures var (o, t) := Retry(AttemptOf(ParentOf(old(d.attrs)), AclOf(old(d.attrs))), old(server.Snapshot()), attempts);
      && server.Snapshot() == t
      && d.attrs == old(d.attrs) && d.changed == old(d.changed)
      && (o.Succeeded? ==> d.id == AclOf(old(d.attrs)).name && diags == [])
      && (o.AllFailed? ==> d.id == old(d.id) && diags == [RetryDiagnostic(o.errors)])
  {
    var acl := AclOf(d.attrs);
    var o := Run(server, ParentOf(d.attrs), acl, attempts);
    if o.AllFailed? {
      return [RetryDiagnostic(o.errors)];
    }
    d.SetId(acl.name);
    return [];
  }

  /** `resourceAclRead`, `resourceAclUpdate` and `resourceAclDelete` report nothing and change nothing. */
  method Read(server: Server, d: ResourceData) returns (diags: seq<Diagnostic>)
    ensures diags == []
  {
    return [];
  }

  method Update(server: Server, d: ResourceData) returns (diags: seq<Diagnostic>)
    ensures diags == []
  {
    return [];
  }

  method Delete(server: Server, d: ResourceData) returns (diags: seq<Diagnostic>)
    ensures diags == []
  {
    return [];
  }

  /*
   * Properties of one attempt
   */

  /** The calls of the first phase, with the version read and the transaction opened. */
  function ListProtocol(version: int, txn: string, p: Parent): seq<Call>
  {
    [GetConfigurationCall, CreateTransactionCall(version), GetAclsCall(txn, p)]
  }

  /** The calls of a complete attempt. */
  function AclProtocol(version: int, txn: string, p: Parent, acl: Acl): seq<Call>
  {
    ListProtocol(version, txn, p) + [CreateAclCall(txn, p, acl), CommitTransactionCall(txn)]
  }

  /** The first phase makes its three calls in order and lists the committed ACLs (`OpenAndListStops` states where it stops). */
  lemma OpenAndListFollows(s: State, p: Parent)
    ensures var (t, r) := OpenAndList(s, p); var v := ReadVersion(s); var id := OpenedId(s);
      && Follows(s, t, ListProtocol(v, id, p)) && |s.log| < |t.log|
      && t.config == s.config
      && (r.Ok? ==> |t.log| == |s.log| + 3 && r.value == (id, AclsOf(s.config, p)))
  {
    var v, id := ReadVersion(s), OpenedId(s);
    var (s2, t) := OpenTransaction(s);
    OpenTransactionFollows(s);
    if t.Err? {
      FollowsLonger(s, s2, [GetConfigurationCall, CreateTransactionCall(v)], [GetAclsCall(id, p)]);
    } else {
      var (s3, l) := GetAclsStep(s2, id, p);
      GetAclsLogs(s2, id, p);
      LoggedFollows(s2, s3, GetAclsCall(id, p), ErrorOf(l));
      FollowsThen(s, s2, s3, [GetConfigurationCall, CreateTransactionCall(v)], [GetAclsCall(id, p)]);
    }
  }

  /** The last phase stages, then commits only when staging succeeded. */
  lemma StageAndCommitFollows(s: State, txn: string, p: Parent, acl: Acl)
    ensures var (e, t) := StageAndCommit(s, txn, p, acl);
      && Follows(s, t, [CreateAclCall(txn, p, acl), CommitTransactionCall(txn)]) && |s.log| < |t.log|
      && (|t.log| == |s.log| + 2 <==> t.log[|s.log|].error.None?)
  {
    var (s4, a) := CreateAclStep(s, txn, p, acl);
    StageLogs(s, CreateAclCall(txn, p, acl), txn, AddAcl(p, acl), (c: Config) => true, "", acl);
    LoggedFollows(s, s4, CreateAclCall(txn, p, acl), ErrorOf(a));
    if a.Err? {
      FollowsLonger(s, s4, [CreateAclCall(txn, p, acl)], [CommitTransactionCall(txn)]);
    } else {
      var (s5, m) := CommitTransactionStep(s4, txn);
      CommitLogs(s4, txn);
      LoggedFollows(s4, s5, CommitTransactionCall(txn), ErrorOf(m));
      FollowsThen(s, s4, s5, [CreateAclCall(txn, p, acl)], [CommitTransactionCall(txn)]);
    }
  }

  /**
   * An attempt only appends to the log, and what it appends is a non-empty prefix of the
   * protocol, all on the version it read and the transaction it opened; the commit is
   * called exactly when staging the ACL succeeded.
   */
  lemma AttemptFollowsProtocol(s: State, p: Parent, acl: Acl)
    ensures var t := AclAttempt(s, p, acl).1; var v := ReadVersion(s); var id := OpenedId(s);
      && Follows(s, t, AclProtocol(v, id, p, acl)) && |s.log| < |t.log|
      && (|t.log| == |s.log| + 5 <==> |s.log| + 3 < |t.log| && t.log[|s.log| + 3].error.None?)
  {
    var v, id := ReadVersion(s), OpenedId(s);
    var tail := [CreateAclCall(id, p, acl), CommitTransactionCall(id)];
    OpenAndListFollows(s, p);
    var (s3, r) := OpenAndList(s, p);
    if r.Err? || HasName(r.value.1, acl.name) {
      FollowsLonger(s, s3, ListProtocol(v, id, p), tail);
    } else {
      StageAndCommitFollows(s3, id, p, acl);
      FollowsThen(s, s3, AclAttempt(s, p, acl).1, ListProtocol(v, id, p), tail);

    }
  }

  /** The first phase stops at the first error, and its error is that call's. */
  lemma OpenAndListStops(s: State, p: Parent)
    ensures var (t, r) := OpenAndList(s, p); StopsAtFirstError(s, t, ErrorOf(r))
  {
    OpenTransactionStops(s);
    var (s2, t) := OpenTransaction(s);
    if t.Ok? {
      var (s3, l) := GetAclsStep(s2, t.value, p);
      GetAclsLogs(s2, t.value, p);
      LoggedStops(s2, s3, GetAclsCall(t.value, p), ErrorOf(l));
      StopsThen(s, s2, s3, ErrorOf(l));
    }
  }

  /** The last phase stops at the first error, and its error is that call's. */
  lemma StageAndCommitStops(s: State, txn: string, p: Parent, acl: Acl)
    ensures var (e, t) := StageAndCommit(s, txn, p, acl); StopsAtFirstError(s, t, e)
  {
    var (s4, a) := CreateAclStep(s, txn, p, acl);
    StageLogs(s, CreateAclCall(txn, p, acl), txn, AddAcl(p, acl), (c: Config) => true, "", acl);
    LoggedStops(s, s4, CreateAclCall(txn, p, acl), ErrorOf(a));
    if a.Ok? {
      var (s5, m) := CommitTransactionStep(s4, txn);
      CommitLogs(s4, txn);
      LoggedStops(s4, s5, CommitTransactionCall(txn), ErrorOf(m));
      StopsThen(s, s4, s5, ErrorOf(m));
    }
  }

  /**
   * An attempt stops at the first call that fails: every call before the last one
   * succeeded, and the attempt's error is the last call's, or the duplicate message when
   * the listing was the last call and succeeded.
   */
  lemma AttemptStops(s: State, p: Parent, acl: Acl)
    ensures var (e, t) := AclAttempt(s, p, acl);
      && |s.log| < |t.log|
      && StopsAtFirstError(s, t, t.log[|t.log| - 1].error)
      && (e == t.log[|t.log| - 1].error || (e == Some(DuplicateMessage(acl, p)) && t.log[|t.log| - 1].error.None?))
  {
    OpenAndListStops(s, p);
    var (s3, r) := OpenAndList(s, p);
    if r.Ok? && !HasName(r.value.1, acl.name) {
      StageAndCommitStops(s3, r.value.0, p, acl);
      StopsThen(s, s3, AclAttempt(s, p, acl).1, AclAttempt(s, p, acl).0);
    }
  }

  /**
   * Once the listing succeeds it shows the parent's committed ACLs. When they hold the
   * name, the attempt stops right there with the duplicate message; otherwise its next
   * call stages the ACL.
   */
  lemma DuplicateStopsAttempt(s: State, p: Parent, acl: Acl)
    requires OpenAndList(s, p).1.Ok?
    ensures var (s3, r) := OpenAndList(s, p); var (e, t) := AclAttempt(s, p, acl);
      && r.value.1 == AclsOf(s.config, p)
      && (HasName(AclsOf(s.config, p), acl.name) ==> e == Some(DuplicateMessage(acl, p)) && t == s3 && t.config == s.config)
      && (!HasName(AclsOf(s.config, p), acl.name) ==>
            |s3.log| < |t.log| && t.log[|s3.log|].call == CreateAclCall(r.value.0, p, acl))
  {
    OpenAndListFollows(s, p);
    var (s3, r) := OpenAndList(s, p);
    StageAndCommitFollows(s3, r.value.0, p, acl);
  }

  /** A committed attempt appended the ACL to its parent's committed list, which did not hold the name. */
  lemma AttemptCommits(s: State, p: Parent, acl: Acl)
    requires AclAttempt(s, p, acl).0.None?
    ensures var t := AclAttempt(s, p, acl).1;
      && !HasName(AclsOf(s.config, p), acl.name)
      && t.config == Apply(s.config, AddAcl(p, acl))
      && t.version > s.version
  {
    OpenAndListFollows(s, p);
    var (s3, r) := OpenAndList(s, p);
    var id := r.value.0;
    assert id in s3.open && View(s3, id) == s.config && s3.version >= s.version by {
      var (s1, c) := GetConfigurationStep(s);
      var (s2, tx) := CreateTransactionStep(s1, c.value.version);
      FreshTransactionView(s1, c.value.version);
    }
    var (s4, a) := CreateAclStep(s3, id, p, acl);
    StagedChangeInView(s3, CreateAclCall(id, p, acl), id, AddAcl(p, acl), (x: Config) => true, "", acl);
    CommitInstallsView(s4, id);
  }

  /** An attempt that fails leaves every committed object as it found it. */
  lemma FailedAttemptCommitsNothing(s: State, p: Parent, acl: Acl)
    requires AclAttempt(s, p, acl).0.Some?
    ensures AclAttempt(s, p, acl).1.config == s.config
  {
    OpenAndListFollows(s, p);
    var (s3, r) := OpenAndList(s, p);
    if r.Ok? && !HasName(r.value.1, acl.name) {
      var (s4, a) := CreateAclStep(s3, r.value.0, p, acl);
      StageLogs(s3, CreateAclCall(r.value.0, p, acl), r.value.0, AddAcl(p, acl), (c: Config) => true, "", acl);
      if a.Ok? {
        CommitLogs(s4, r.value.0);
      }
    }
  }

  /*
   * Properties of Create
   */

  /**
   * Create either commits the ACL once, appended to its parent's list, or leaves the
   * committed objects as they were; it never commits when the name is already taken.
   */
  lemma CreateCommitsOnce(s: State, p: Parent, acl: Acl, attempts: nat)
    ensures var (o, t) := Retry(AttemptOf(p, acl), s, attempts);
      && (o.Succeeded? ==> !HasName(AclsOf(s.config, p), acl.name) && t.config == Apply(s.config, AddAcl(p, acl)))
      && (o.AllFailed? ==> t.config == s.config)
  {
    var inv := (x: State) => x.config == s.config;
    var post := (x: State) => !HasName(AclsOf(s.config, p), acl.name) && x.config == Apply(s.config, AddAcl(p, acl));
    forall x | inv(x) && AttemptOf(p, acl)(x).0.Some?
      ensures inv(AttemptOf(p, acl)(x).1)
    {
      FailedAttemptCommitsNothing(x, p, acl);
    }
    forall x | inv(x) && AttemptOf(p, acl)(x).0.None?
      ensures post(AttemptOf(p, acl)(x).1)
    {
      AttemptCommits(x, p, acl);
    }
    RetryEstablishes(AttemptOf(p, acl), inv, post, s, attempts);
  }

  /** A name already committed under the parent makes every attempt fail, so Create reports one error per attempt. */
  lemma DuplicateNeverCommits(s: State, p: Parent, acl: Acl, attempts: nat)
    requires HasName(AclsOf(s.config, p), acl.name)
    ensures var (o, t) := Retry(AttemptOf(p, acl), s, attempts);
      o.AllFailed? && |o.errors| == attempts && t.config == s.config
  {
    CreateCommitsOnce(s, p, acl, attempts);
    RetryBounds(AttemptOf(p, acl), s, attempts);
  }

  /** Every ACL staged in the log after `s` is `acl` under `p`. */
  predicate StagesOnly(s: State, t: State, p: Parent, acl: Acl)
  {
    && |s.log| <= |t.log| && t.log[..|s.log|] == s.log
    && forall i :: |s.log| <= i < |t.log| && t.log[i].call.CreateAclCall? ==> t.log[i].call.parent == p && t.log[i].call.acl == acl
  }

  /** However many attempts run, every ACL they stage is the one Create read, under the parent it read. */
  lemma RetriesStageTheSameAcl(s: State, p: Parent, acl: Acl, attempts: nat)
    ensures StagesOnly(s, Retry(AttemptOf(p, acl), s, attempts).1, p, acl)
  {
    var inv := (x: State) => StagesOnly(s, x, p, acl);
    forall x | inv(x)
      ensures inv(AttemptOf(p, acl)(x).1)
    {
      AttemptStagesOnly(s, x, p, acl);
    }
    RetryEstablishes(AttemptOf(p, acl), inv, inv, s, attempts);
  }

  /** One more attempt stages only `acl` under `p`, so what held since `s` still holds. */
  lemma AttemptStagesOnly(s: State, x: State, p: Parent, acl: Acl)
    requires StagesOnly(s, x, p, acl)
    ensures StagesOnly(s, AclAttempt(x, p, acl).1, p, acl)
  {
    var t := AclAttempt(x, p, acl).1;
    AttemptFollowsProtocol(x, p, acl);
    var proto := AclProtocol(ReadVersion(x), OpenedId(x), p, acl);
    assert t.log[..|s.log|] == t.log[..|x.log|][..|s.log|];
    forall i | |s.log| <= i < |t.log| && t.log[i].call.CreateAclCall?
      ensures t.log[i].call.parent == p && t.log[i].call.acl == acl
    {
      if i < |x.log| {
        assert t.log[i] == t.log[..|x.log|][i] == x.log[i];
      } else {
        assert t.log[i].call == proto[i - |x.log|];
      }
    }
  }
}
