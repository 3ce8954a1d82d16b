/**
 * The Dataplane API server the gateways talk to. Its behaviour is not part of the
 * repository, so everything here is an ASSUMPTION, kept as small as the properties need:
 *
 *  - the configuration carries a version that every successful commit increments;
 *  - a transaction is opened at the version the client names and gets a fresh id
 *    (the decimal rendering of a counter);
 *  - staging a change needs an open transaction, and listing ACLs inside a transaction
 *    shows the committed ACLs followed by those staged in it;
 *  - a frontend can be created only when its name is free in the transaction's view,
 *    updated or deleted only when it is there;
 *  - a commit fails and discards the transaction when its base version is no longer
 *    the current version; otherwise it applies the staged changes in order;
 *  - map entries live outside transactions and change at once.
 *
 * Everything the server might do besides is a `Fault` taken from `script`, one per call:
 * refusing the call with some message (a transport error, an error status, a server
 * rejection), or letting another writer commit first (the version moves on) before
 * serving it. Properties proved for every script hold for every such server.
 *
 * The server is a pure state machine (`State` and one step function per call) and a
 * class `Server` whose fields are that state and whose methods are proved to take
 * exactly those steps.
 */
module Dataplane {
  import opened Wrappers
  import opened Text
  import opened Models

  datatype Fault = Serve | Refuse(message: string) | ConcurrentCommit

  /** A change staged in a transaction. */
  datatype Change =
    | AddAcl(parent: Parent, acl: Acl)
    | AddFrontend(frontend: Frontend)
    | ReplaceFrontend(frontend: Frontend)
    | RemoveFrontend(name: string)

  /** An open transaction: the version it was opened at and its staged changes. */
  datatype Pending = Pending(base: int, changes: seq<Change>)

  /** The committed configuration objects: ACLs per parent and frontends by name. */
  datatype Config = Config(acls: map<Parent, seq<Acl>>, frontends: map<string, Frontend>)

  /** The client calls the core makes, one constructor per gateway method. */
  datatype Call =
    | GetConfigurationCall
    | CreateTransactionCall(version: int)
    | CommitTransactionCall(txn: string)
    | GetAclsCall(txn: string, parent: Parent)
    | CreateAclCall(txn: string, parent: Parent, acl: Acl)
    | GetFrontendCall(name: string)
    | CreateFrontendCall(txn: string, frontend: Frontend)
    | UpdateFrontendCall(txn: string, frontend: Frontend)
    | DeleteFrontendCall(txn: string, frontend: Frontend)
    | GetMapEntrieCall(key: string, mapName: string)
    | CreateMapEntrieCall(entrie: MapEntrie, mapName: string, forceSync: bool)
    | UpdateMapEntrieCall(entrie: MapEntrie, mapName: string, forceSync: bool)
    | DeleteMapEntrieCall(key: string, mapName: string, forceSync: bool)

  /** One served call and the error it ended with, if any. */
  datatype Event = Event(call: Call, error: Option<string>)

  datatype State = State(
    version: int,
    nextTxn: nat,
    open: map<string, Pending>,
    config: Config,
    entries: map<string, map<string, string>>,
    log: seq<Event>,
    script: seq<Fault>)

  /*
   * The configuration objects
   */

  function AclsOf(c: Config, p: Parent): seq<Acl>
  {
    if p in c.acls then c.acls[p] else []
  }

  function Apply(c: Config, ch: Change): Config
  {
    match ch
    case AddAcl(p, a) => c.(acls := c.acls[p := AclsOf(c, p) + [a]])
    case AddFrontend(f) => c.(frontends := c.frontends[f.name := f])
    case ReplaceFrontend(f) => c.(frontends := c.frontends[f.name := f])
    case RemoveFrontend(n) => c.(frontends := c.frontends - {n})
  }

  function ApplyAll(c: Config, changes: seq<Change>): Config
    decreases |changes|
  {
    if changes == [] then c else ApplyAll(Apply(c, changes[0]), changes[1..])
  }

  lemma {:induction false} ApplyAllAppend(c: Config, changes: seq<Change>, ch: Change)
    ensures ApplyAll(c, changes + [ch]) == Apply(ApplyAll(c, changes), ch)
    decreases |changes|
  {
    if changes != [] {
      assert (changes + [ch])[1..] == changes[1..] + [ch];
      ApplyAllAppend(Apply(c, changes[0]), changes[1..], ch);
    }
  }

  /** What a transaction sees: the committed objects with its staged changes applied. */
  function View(s: State, txn: string): Config
    requires txn in s.open
  {
    ApplyAll(s.config, s.open[txn].changes)
  }

  /*
   * Faults and the log
   */

  /** The fault the next call meets (`Serve` once the script is exhausted) and the script left. */
  function NextFault(s: State): (Fault, seq<Fault>)
  {
    if s.script == [] then (Serve, []) else (s.script[0], s.script[1..])
  }

  /** Takes the next fault off the script and lets a concurrent writer commit if it says so. */
  function Begin(s: State): (r: (Fault, State))
    ensures r.1.script == NextFault(s).1 && r.0 == NextFault(s).0
    ensures r.1.version == if r.0 == ConcurrentCommit then s.version + 1 else s.version
    ensures r.1 == s.(script := r.1.script, version := r.1.version)
  {
    var (f, rest) := NextFault(s);
    (f, s.(script := rest, version := if f == ConcurrentCommit then s.version + 1 else s.version))
  }

  function Record(s: State, call: Call, error: Option<string>): State
  {
    s.(log := s.log + [Event(call, error)])
  }

  function ErrorOf<T>(r: Result<T>): Option<string>
  {
    if r.Err? then Some(r.message) else None
  }

  /*
   * One step per call; each returns the new state and the call's result.
   */

  function GetConfigurationStep(s: State): (State, Result<Configuration>)
  {
    var (f, t) := Begin(s);
    var r := if f.Refuse? then Err(f.message) else Ok(Configuration(t.version, ""));
    (Record(t, GetConfigurationCall, ErrorOf(r)), r)
  }

  function CreateTransactionStep(s: State, version: int): (State, Result<Transaction>)
  {
    var (f, t) := Begin(s);
    if f.Refuse? then (Record(t, CreateTransactionCall(version), Some(f.message)), Err(f.message))
    else
      var id := Itoa(t.nextTxn);
      var r := Ok(Transaction(id, version, "in_progress"));
      (Record(t.(nextTxn := t.nextTxn + 1, open := t.open[id := Pending(version, [])]), CreateTransactionCall(version), ErrorOf(r)), r)
  }

  const TransactionNotFound := "transaction not found"

  const VersionMismatch := "version mismatch"

  function CommitTransactionStep(s: State, txn: string): (State, Result<Transaction>)
  {
    var (f, t) := Begin(s);
    var call := CommitTransactionCall(txn);
    if f.Refuse? then (Record(t, call, Some(f.message)), Err(f.message))
    else if txn !in t.open then (Record(t, call, Some(TransactionNotFound)), Err(TransactionNotFound))
    else if t.open[txn].base != t.version then
      (Record(t.(open := t.open - {txn}), call, Some(VersionMismatch)), Err(VersionMismatch))
    else
      var r := Ok(Transaction(txn, t.open[txn].base, "success"));
      (Record(t.(open := t.open - {txn}, config := View(t, txn), version := t.version + 1), call, ErrorOf(r)), r)
  }

  function GetAclsStep(s: State, txn: string, p: Parent): (State, Result<seq<Acl>>)
  {
    var (f, t) := Begin(s);
    var r := if f.Refuse? then Err(f.message)
      else if txn !in t.open then Err(TransactionNotFound)
      else Ok(AclsOf(View(t, txn), p));
    (Record(t, GetAclsCall(txn, p), ErrorOf(r)), r)
  }

  /** Stages `ch` in `txn` when `allowed` says the transaction's view admits it. */
  function StageStep<T>(s: State, call: Call, txn: string, ch: Change, admits: Config -> bool, refusal: string, value: T): (State, Result<T>)
  {
    var (f, t) := Begin(s);
    if f.Refuse? then (Record(t, call, Some(f.message)), Err(f.message))
    else if txn !in t.open then (Record(t, call, Some(TransactionNotFound)), Err(TransactionNotFound))
    else if !admits(View(t, txn)) then (Record(t, call, Some(refusal)), Err(refusal))
    else
      var pending := t.open[txn].(changes := t.open[txn].changes + [ch]);
      (Record(t.(open := t.open[txn := pending]), call, None), Ok(value))
  }

  function CreateAclStep(s: State, txn: string, p: Parent, acl: Acl): (State, Result<Acl>)
  {
    StageStep(s, CreateAclCall(txn, p, acl), txn, AddAcl(p, acl), (c: Config) => true, "", acl)
  }

  const FrontendExists := "frontend already exists"

  const FrontendNotFound := "frontend not found"

  function CreateFrontendStep(s: State, txn: string, fe: Frontend): (State, Result<Frontend>)
  {
    StageStep(s, CreateFrontendCall(txn, fe), txn, AddFrontend(fe),
              (c: Config) => fe.name !in c.frontends, FrontendExists, fe)
  }

  function UpdateFrontendStep(s: State, txn: string, fe: Frontend): (State, Result<Frontend>)
  {
    StageStep(s, UpdateFrontendCall(txn, fe), txn, ReplaceFrontend(fe),
              (c: Config) => fe.name in c.frontends, FrontendNotFound, fe)
  }

  function DeleteFrontendStep(s: State, txn: string, fe: Frontend): (State, Result<()>)
  {
    StageStep(s, DeleteFrontendCall(txn, fe), txn, RemoveFrontend(fe.name),
              (c: Config) => fe.name in c.frontends, FrontendNotFound, ())
  }

  /** The resource reads a frontend without a transaction id, so it sees the committed one. */
  function GetFrontendStep(s: State, name: string): (State, Result<Frontend>)
  {
    var (f, t) := Begin(s);
    var r := if f.Refuse? then Err(f.message)
      else if name !in t.config.frontends then Err(FrontendNotFound)
      else Ok(t.config.frontends[name]);
    (Record(t, GetFrontendCall(name), ErrorOf(r)), r)
  }

  const EntrieNotFound := "map entry not found"

  function EntryOf(s: State, key: string, mapName: string): Option<string>
  {
    if mapName in s.entries && key in s.entries[mapName] then Some(s.entries[mapName][key]) else None
  }

  function WithEntry(s: State, mapName: string, key: string, value: string): State
  {
    var m := if mapName in s.entries then s.entries[mapName] else map[];
    s.(entries := s.entries[mapName := m[key := value]])
  }

  function GetMapEntrieStep(s: State, key: string, mapName: string): (State, Result<MapEntrie>)
  {
    var (f, t) := Begin(s);
    var r := if f.Refuse? then Err(f.message)
      else if EntryOf(t, key, mapName).None? then Err(EntrieNotFound)
      else Ok(MapEntrie(key, key, EntryOf(t, key, mapName).value));
    (Record(t, GetMapEntrieCall(key, mapName), ErrorOf(r)), r)
  }

  function CreateMapEntrieStep(s: State, e: MapEntrie, mapName: string, forceSync: bool): (State, Result<MapEntrie>)
  {
    var (f, t) := Begin(s);
    var call := CreateMapEntrieCall(e, mapName, forceSync);
    if f.Refuse? then (Record(t, call, Some(f.message)), Err(f.message))
    else
      var r := Ok(MapEntrie(e.key, e.key, e.value));
      (Record(WithEntry(t, mapName, e.key, e.value), call, ErrorOf(r)), r)
  }

  function UpdateMapEntrieStep(s: State, e: MapEntrie, mapName: string, forceSync: bool): (State, Result<MapEntrie>)
  {
    var (f, t) := Begin(s);
    var call := UpdateMapEntrieCall(e, mapName, forceSync);
    if f.Refuse? then (Record(t, call, Some(f.message)), Err(f.message))
    else if EntryOf(t, e.key, mapName).None? then (Record(t, call, Some(EntrieNotFound)), Err(EntrieNotFound))
    else
      var r := Ok(MapEntrie(e.key, e.key, e.value));
      (Record(WithEntry(t, mapName, e.key, e.value), call, ErrorOf(r)), r)
  }

  function DeleteMapEntrieStep(s: State, key: string, mapName: string, forceSync: bool): (State, Result<()>)
  {
    var (f, t) := Begin(s);
    var call := DeleteMapEntrieCall(key, mapName, forceSync);
    if f.Refuse? then (Record(t, call, Some(f.message)), Err(f.message))
    else if EntryOf(t, key, mapName).None? then (Record(t, call, Some(EntrieNotFound)), Err(EntrieNotFound))
    else
      var t' := t.(entries := t.entries[mapName := t.entries[mapName] - {key}]);
      (Record(t', call, None), Ok(()))
  }

  /*
   * What every step keeps
   */

  /** A step appends exactly one event, for its own call, and consumes one fault. */
  predicate Logged(s: State, t: State, call: Call, error: Option<string>)
  {
    t.log == s.log + [Event(call, error)] && t.script == NextFault(s).1
  }

  lemma GetConfigurationLogs(s: State)
    ensures var (t, r) := GetConfigurationStep(s);
      Logged(s, t, GetConfigurationCall, ErrorOf(r)) && t.config == s.config && t.version >= s.version
  {
  }

  lemma CreateTransactionLogs(s: State, version: int)
    ensures var (t, r) := CreateTransactionStep(s, version);
      Logged(s, t, CreateTransactionCall(version), ErrorOf(r)) && t.config == s.config && t.version >= s.version
  {
  }

  lemma GetAclsLogs(s: State, txn: string, p: Parent)
    ensures var (t, r) := GetAclsStep(s, txn, p);
      Logged(s, t, GetAclsCall(txn, p), ErrorOf(r)) && t.config == s.config && t.version >= s.version
  {
  }

  lemma GetFrontendLogs(s: State, name: string)
    ensures var (t, r) := GetFrontendStep(s, name);
      Logged(s, t, GetFrontendCall(name), ErrorOf(r)) && t.config == s.config && t.version >= s.version
  {
  }

  /** A staging call logs itself and leaves the committed objects alone. */
  lemma StageLogs<T>(s: State, call: Call, txn: string, ch: Change, admits: Config -> bool, refusal: string, value: T)
    ensures var (t, r) := StageStep(s, call, txn, ch, admits, refusal, value);
      Logged(s, t, call, ErrorOf(r)) && t.config == s.config && t.version >= s.version
  {
  }

  /** A commit logs itself; a failed one leaves the committed objects and the version where the fault left them. */
  lemma CommitLogs(s: State, txn: string)
    ensures var (t, r) := CommitTransactionStep(s, txn); Logged(s, t, CommitTransactionCall(txn), ErrorOf(r))
    ensures var (t, r) := CommitTransactionStep(s, txn); r.Err? ==> t.config == s.config && t.version == Begin(s).1.version
  {
  }

  /**
   * From `s` to `t` the log only grew, by events whose calls are, in order, the first
   * ones of `calls`.
   */
  predicate Follows(s: State, t: State, calls: seq<Call>)
  {
    && |s.log| <= |t.log| <= |s.log| + |calls|
    && t.log[..|s.log|] == s.log
    && forall i :: |s.log| <= i < |t.log| ==> t.log[i].call == calls[i - |s.log|]
  }

  lemma LoggedFollows(s: State, t: State, call: Call, error: Option<string>)
    requires Logged(s, t, call, error)
    ensures Follows(s, t, [call]) && |t.log| == |s.log| + 1
  {
    assert t.log[..|s.log|] == s.log;
  }

  /** Two stretches of calls, the first complete, make one stretch. */
  lemma FollowsThen(s: State, m: State, t: State, c1: seq<Call>, c2: seq<Call>)
    requires Follows(s, m, c1) && |m.log| == |s.log| + |c1|
    requires Follows(m, t, c2)
    ensures Follows(s, t, c1 + c2)
  {
    assert t.log[..|s.log|] == t.log[..|m.log|][..|s.log|];
    forall i | |s.log| <= i < |t.log|
      ensures t.log[i].call == (c1 + c2)[i - |s.log|]
    {
      if i < |m.log| {
        assert t.log[i] == t.log[..|m.log|][i] == m.log[i];
      }
    }
  }

  lemma FollowsLonger(s: State, t: State, c1: seq<Call>, c2: seq<Call>)
    requires Follows(s, t, c1)
    ensures Follows(s, t, c1 + c2)
  {
  }

  /**
   * The calls from `s` to `t` stopped at the first error: at least one was made, every
   * one before the last succeeded, and the last ended with `last`.
   */
  predicate StopsAtFirstError(s: State, t: State, last: Option<string>)
  {
    && |s.log| < |t.log| && t.log[..|s.log|] == s.log
    && (forall i :: |s.log| <= i < |t.log| - 1 ==> t.log[i].error.None?)
    && t.log[|t.log| - 1].error == last
  }

  lemma LoggedStops(s: State, t: State, call: Call, error: Option<string>)
    requires Logged(s, t, call, error)
    ensures StopsAtFirstError(s, t, error)
  {
    assert t.log[..|s.log|] == s.log;
  }

  /** Calls that all succeeded, followed by calls that stopped at the first error, stopped there too. */
  lemma StopsThen(s: State, m: State, t: State, last: Option<string>)
    requires StopsAtFirstError(s, m, None) && StopsAtFirstError(m, t, last)
    ensures StopsAtFirstError(s, t, last)
  {
    assert t.log[..|s.log|] == t.log[..|m.log|][..|s.log|];
    forall i | |s.log| <= i < |t.log| - 1 ensures t.log[i].error.None? {
      if i < |m.log| {
        assert t.log[i] == t.log[..|m.log|][i];
      }
    }
  }

  /** Every open transaction id is the rendering of a counter value already handed out. */
  ghost predicate IssuedIds(s: State)
  {
    forall id :: id in s.open ==> exists k :: 0 <= k < s.nextTxn && id == Itoa(k)
  }

  /** CreateTransaction hands out an id that no open transaction has, and keeps the ids issued. */
  lemma CreateTransactionFresh(s: State, version: int)
    requires IssuedIds(s)
    ensures var (t, r) := CreateTransactionStep(s, version);
      && IssuedIds(t)
      && (r.Ok? ==> r.value.id !in s.open && t.open == s.open[r.value.id := Pending(version, [])])
      && (r.Err? ==> t.open == s.open)
  {
    var (f, b) := Begin(s);
    if !f.Refuse? {
      var id := Itoa(b.nextTxn);
      if id in s.open {
        var k :| 0 <= k < s.nextTxn && id == Itoa(k);
        ItoaInjective(k, b.nextTxn);
      }
    }
  }

  /** Staging and committing only change or close transactions that are already open. */
  lemma StageKeepsIssuedIds<T>(s: State, call: Call, txn: string, ch: Change, admits: Config -> bool, refusal: string, value: T)
    requires IssuedIds(s)
    ensures IssuedIds(StageStep(s, call, txn, ch, admits, refusal, value).0)
  {
    var t := StageStep(s, call, txn, ch, admits, refusal, value).0;
    forall id | id in t.open ensures exists k :: 0 <= k < t.nextTxn && id == Itoa(k) {
      assert id in s.open;
    }
  }

  lemma CommitKeepsIssuedIds(s: State, txn: string)
    requires IssuedIds(s)
    ensures IssuedIds(CommitTransactionStep(s, txn).0)
  {
  }

  /** A transaction just opened sees exactly the committed objects. */
  lemma FreshTransactionView(s: State, version: int)
    requires CreateTransactionStep(s, version).1.Ok?
    ensures var (t, r) := CreateTransactionStep(s, version);
      r.value.id in t.open && View(t, r.value.id) == t.config && t.open[r.value.id].base == version
  {
  }

  /** Staging appends the change to the transaction's view and leaves the committed objects alone. */
  lemma StagedChangeInView<T>(s: State, call: Call, txn: string, ch: Change, admits: Config -> bool, refusal: string, value: T)
    requires StageStep(s, call, txn, ch, admits, refusal, value).1.Ok?
    ensures var t := StageStep(s, call, txn, ch, admits, refusal, value).0;
      && txn in Begin(s).1.open && admits(View(Begin(s).1, txn))
      && txn in t.open && t.open[txn].base == s.open[txn].base
      && View(t, txn) == Apply(View(Begin(s).1, txn), ch)
      && t.config == s.config && t.version == Begin(s).1.version
  {
    var b := Begin(s).1;
    ApplyAllAppend(b.config, b.open[txn].changes, ch);
  }

  /** A commit succeeds exactly when its transaction is open at the current version, and then installs its view. */
  lemma CommitInstallsView(s: State, txn: string)
    ensures var (t, r) := CommitTransactionStep(s, txn); var b := Begin(s);
      && (r.Ok? <==> !b.0.Refuse? && txn in b.1.open && b.1.open[txn].base == b.1.version)
      && (r.Ok? ==> t.config == View(b.1, txn) && t.version == b.1.version + 1 && txn !in t.open)
  {
  }

  /*
   * The server object
   */

  class Server {
    var version: int
    var nextTxn: nat
    var open: map<string, Pending>
    var config: Config
    var entries: map<string, map<string, string>>
    var log: seq<Event>
    var script: seq<Fault>

    function Snapshot(): State
      reads this
    {
      State(version, nextTxn, open, config, entries, log, script)
    }

    constructor(s: State)
      ensures Snapshot() == s
    {
      version, nextTxn, open, config, entries, log, script :=
        s.version, s.nextTxn, s.open, s.config, s.entries, s.log, s.script;
    }

    /** Takes the next fault off the script, moving the version on if it is a concurrent commit. */
    method TakeFault() returns (f: Fault)
      modifies this
      ensures (f, Snapshot()) == Begin(old(Snapshot()))
    {
      if script == [] {
        f := Serve;
      } else {
        f := script[0];
        script := script[1..];
      }
      if f == ConcurrentCommit {
        version := version + 1;
      }
    }

    method Append<T>(call: Call, r: Result<T>)
      modifies this
      ensures Snapshot() == Record(old(Snapshot()), call, ErrorOf(r))
    {
      log := log + [Event(call, if r.Err? then Some(r.message) else None)];
    }

    method GetConfiguration() returns (r: Result<Configuration>)
      modifies this
      ensures (Snapshot(), r) == GetConfigurationStep(old(Snapshot()))
    {
      var f := TakeFault();
      r := if f.Refuse? then Err(f.message) else Ok(Configuration(version, ""));
      Append(GetConfigurationCall, r);
    }

    method CreateTransaction(v: int) returns (r: Result<Transaction>)
      modifies this
      ensures (Snapshot(), r) == CreateTransactionStep(old(Snapshot()), v)
    {
      var f := TakeFault();
      if f.Refuse? {
        r := Err(f.message);
      } else {
        var id := Itoa(nextTxn);
        nextTxn := nextTxn + 1;
        open := open[id := Pending(v, [])];
        r := Ok(Transaction(id, v, "in_progress"));
      }
      Append(CreateTransactionCall(v), r);
    }

    method CommitTransaction(txn: string) returns (r: Result<Transaction>)
      modifies this
      ensures (Snapshot(), r) == CommitTransactionStep(old(Snapshot()), txn)
    {
      var f := TakeFault();
      if f.Refuse? {
        r := Err(f.message);
      } else if txn !in open {
        r := Err(TransactionNotFound);
      } else if open[txn].base != version {
        open := open - {txn};
        r := Err(VersionMismatch);
      } else {
        r := Ok(Transaction(txn, open[txn].base, "success"));
        config := ApplyAll(config, open[txn].changes);
        open := open - {txn};
        version := version + 1;
      }
      Append(CommitTransactionCall(txn), r);
    }

    method GetAcls(txn: string, p: Parent) returns (r: Result<seq<Acl>>)
      modifies this
      ensures (Snapshot(), r) == GetAclsStep(old(Snapshot()), txn, p)
    {
      var f := TakeFault();
      if f.Refuse? {
        r := Err(f.message);
      } else if txn !in open {
        r := Err(TransactionNotFound);
      } else {
        r := Ok(AclsOf(ApplyAll(config, open[txn].changes), p));
      }
      Append(GetAclsCall(txn, p), r);
    }

    /** The staging calls share one shape: check the transaction, check the view, append the change. */
    method Stage<T>(call: Call, txn: string, ch: Change, admits: Config -> bool, refusal: string, value: T) returns (r: Result<T>)
      modifies this
      ensures (Snapshot(), r) == StageStep(old(Snapshot()), call, txn, ch, admits, refusal, value)
    {
      var f := TakeFault();
      if f.Refuse? {
        r := Err(f.message);
      } else if txn !in open {
        r := Err(TransactionNotFound);
      } else if !admits(ApplyAll(config, open[txn].changes)) {
        r := Err(refusal);
      } else {
        open := open[txn := open[txn].(changes := open[txn].changes + [ch])];
        r := Ok(value);
      }
      Append(call, r);
    }

    method CreateAcl(txn: string, p: Parent, acl: Acl) returns (r: Result<Acl>)
      modifies this
      ensures (Snapshot(), r) == CreateAclStep(old(Snapshot()), txn, p, acl)
    {
      r := Stage(CreateAclCall(txn, p, acl), txn, AddAcl(p, acl), (c: Config) => true, "", acl);
    }

    method CreateFrontend(txn: string, fe: Frontend) returns (r: Result<Frontend>)
      modifies this
      ensures (Snapshot(), r) == CreateFrontendStep(old(Snapshot()), txn, fe)
    {
      r := Stage(CreateFrontendCall(txn, fe), txn, AddFrontend(fe),
                 (c: Config) => fe.name !in c.frontends, FrontendExists, fe);
    }

    method UpdateFrontend(txn: string, fe: Frontend) returns (r: Result<Frontend>)
      modifies this
      ensures (Snapshot(), r) == UpdateFrontendStep(old(Snapshot()), txn, fe)
    {
      r := Stage(UpdateFrontendCall(txn, fe), txn, ReplaceFrontend(fe),
                 (c: Config) => fe.name in c.frontends, FrontendNotFound, fe);
    }

    method DeleteFrontend(txn: string, fe: Frontend) returns (r: Result<()>)
      modifies this
      ensures (Snapshot(), r) == DeleteFrontendStep(old(Snapshot()), txn, fe)
    {
      r := Stage(DeleteFrontendCall(txn, fe), txn, RemoveFrontend(fe.name),
                 (c: Config) => fe.name in c.frontends, FrontendNotFound, ());
    }

    method GetFrontend(name: string) returns (r: Result<Frontend>)
      modifies this
      ensures (Snapshot(), r) == GetFrontendStep(old(Snapshot()), name)
    {
      var f := TakeFault();
      if f.Refuse? {
        r := Err(f.message);
      } else if name !in config.frontends {
        r := Err(FrontendNotFound);
      } else {
        r := Ok(config.frontends[name]);
      }
      Append(GetFrontendCall(name), r);
    }

    method GetMapEntrie(key: string, mapName: string) returns (r: Result<MapEntrie>)
      modifies this
      ensures (Snapshot(), r) == GetMapEntrieStep(old(Snapshot()), key, mapName)
    {
      var f := TakeFault();
      if f.Refuse? {
        r := Err(f.message);
      } else if mapName in entries && key in entries[mapName] {
        r := Ok(MapEntrie(key, key, entries[mapName][key]));
      } else {
        r := Err(EntrieNotFound);
      }
      Append(GetMapEntrieCall(key, mapName), r);
    }

    method PutEntry(mapName: string, key: string, value: string)
      modifies this
      ensures Snapshot() == WithEntry(old(Snapshot()), mapName, key, value)
    {
      var m := if mapName in entries then entries[mapName] else map[];
      entries := entries[mapName := m[key := value]];
    }

    method CreateMapEntrie(e: MapEntrie, mapName: string, forceSync: bool) returns (r: Result<MapEntrie>)
      modifies this
      ensures (Snapshot(), r) == CreateMapEntrieStep(old(Snapshot()), e, mapName, forceSync)
    {
      var f := TakeFault();
      if f.Refuse? {
        r := Err(f.message);
      } else {
        PutEntry(mapName, e.key, e.value);
        r := Ok(MapEntrie(e.key, e.key, e.value));
      }
      Append(CreateMapEntrieCall(e, mapName, forceSync), r);
    }

    method UpdateMapEntrie(e: MapEntrie, mapName: string, forceSync: bool) returns (r: Result<MapEntrie>)
      modifies this
      ensures (Snapshot(), r) == UpdateMapEntrieStep(old(Snapshot()), e, mapName, forceSync)
    {
      var f := TakeFault();
      if f.Refuse? {
        r := Err(f.message);
      } else if !(mapName in entries && e.key in entries[mapName]) {
        r := Err(EntrieNotFound);
      } else {
        PutEntry(mapName, e.key, e.value);
        r := Ok(MapEntrie(e.key, e.key, e.value));
      }
      Append(UpdateMapEntrieCall(e, mapName, forceSync), r);
    }

    method DeleteMapEntrie(key: string, mapName: string, forceSync: bool) returns (r: Result<()>)
      modifies this
      ensures (Snapshot(), r) == DeleteMapEntrieStep(old(Snapshot()), key, mapName, forceSync)
    {
      var f := TakeFault();
      if f.Refuse? {
        r := Err(f.message);
      } else if !(mapName in entries && key in entries[mapName]) {
        r := Err(EntrieNotFound);
      } else {
        entries := entries[mapName := entries[mapName] - {key}];
        r := Ok(());
      }
      Append(DeleteMapEntrieCall(key, mapName, forceSync), r);
    }
  }
}
