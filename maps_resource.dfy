/**
 * The `haproxy_maps` resource of internal/provider/resource_maps.go: one entry of a
 * runtime map, managed through the map gateway with no transaction. Every flow is a
 * pure function from the server state, the resource id and the attributes to a `Flow`,
 * and each method is proved to do exactly what its flow says.
 *
 * The attributes are the planned ones, so the schema defaults ("defaultValue" for
 * `value`, true for `force_sync`) are already in them.
 */
module MapsResource {
  import opened Wrappers
  import opened Models
  import opened Dataplane
  import opened Terraform
  import opened Utils
  import opened Text

  /** Where a flow ends: the server state, how the function ended, the id and the attributes. */
  datatype Flow = Flow(server: State, completion: Completion, id: string, attrs: map<string, Value>)

  /** What Go reports when the code reads a field through the nil result of a failed get. */
  const NilDereference := "runtime error: invalid memory address or nil pointer dereference"

  function ImportFormatError(id: string): string
  {
    "invalid format: expected map/<mapName>/entrie/<entrieName>, e.g. map/test/entrie/my-key, actual id is " + id
  }

  function ImportReadError(message: string): string
  {
    "error on getting map entrie during import: " + message
  }

  function InsertError(key: string): string
  {
    "Cannot insert " + key + ". Space is not allowed."
  }

  /** Whether the calls from `s` to `t` left every entry but `key` of `mapName` alone. */
  ghost predicate OnlyEntryChanged(s: State, t: State, mapName: string, key: string)
  {
    forall m, k :: (m, k) != (mapName, key) ==> EntryOf(t, k, m) == EntryOf(s, k, m)
  }

  /*
   * resourceMapEntrieImport
   */

  /**
   * A well-formed id names the map and the entry; the importer takes them as the id and
   * the `map` attribute before it checks that the entry exists.
   */
  function ImportFlow(s: State, id: string, attrs: map<string, Value>): Flow
  {
    if !MatchesImportFormat(id) then Flow(s, Returned([ErrorDiagnostic(ImportFormatError(id))]), id, attrs)
    else ImportNamed(s, ExtractMapName(id), ExtractEntrieName(id), attrs)
  }

  /** The importer once the names are extracted: take them, then fetch the entry. */
  function ImportNamed(s: State, mapName: string, key: string, attrs: map<string, Value>): Flow
  {
    var (t, r) := GetMapEntrieStep(s, key, mapName);
    var diags := if r.Err? then [ErrorDiagnostic(ImportReadError(r.message))] else [];
    Flow(t, Returned(diags), key, attrs["map" := Text(mapName)])
  }

  /** The importer with the corrected entry name of `Utils.IntendedEntrieName`. */
  function IntendedImportFlow(s: State, id: string, attrs: map<string, Value>): Flow
  {
    if !MatchesImportFormat(id) then Flow(s, Returned([ErrorDiagnostic(ImportFormatError(id))]), id, attrs)
    else ImportNamed(s, ExtractMapName(id), IntendedEntrieName(id), attrs)
  }

  method Import(server: Server, d: ResourceData) returns (c: Completion)
    modifies server, d
    ensures Flow(server.Snapshot(), c, d.id, d.attrs) == ImportFlow(old(server.Snapshot()), old(d.id), old(d.attrs))
    ensures d.changed == old(d.changed)
  {
    var id := d.id;
    var matches := MatchesImportFormat(id);
    if !matches {
      return Returned([ErrorDiagnostic(ImportFormatError(id))]);
    }
    var mapName := ExtractMapName(id);
    var key := ExtractEntrieName(id);
    d.SetId(key);
    d.Set("map", Text(mapName));
    var r := server.GetMapEntrie(key, mapName);
    if r.Err? {
      return Returned([ErrorDiagnostic(ImportReadError(r.message))]);
    }
    return Returned([]);
  }

  /*
   * resourceMapsRead
   */

  /** The attributes Read writes for a fetched entry; `map` and `force_sync` are written back unchanged. */
  function ReadBack(attrs: map<string, Value>, e: MapEntrie): map<string, Value>
  {
    attrs["key" := Text(e.key)]["value" := Text(e.value)]
      ["map" := Text(GetString(attrs, "map"))]["force_sync" := Flag(GetBool(attrs, "force_sync"))]
  }

  /** Read ignores a failed get and then reads through its nil result. */
  function ReadFlow(s: State, id: string, attrs: map<string, Value>): Flow
  {
    var (t, r) := GetMapEntrieStep(s, id, GetString(attrs, "map"));
    if r.Err? then Flow(t, Panicked(NilDereference), id, attrs)
    else Flow(t, Returned([]), id, ReadBack(attrs, r.value))
  }

  method Read(server: Server, d: ResourceData) returns (c: Completion)
    modifies server, d
    ensures Flow(server.Snapshot(), c, d.id, d.attrs) == ReadFlow(old(server.Snapshot()), old(d.id), old(d.attrs))
    ensures d.changed == old(d.changed)
  {
    var r := server.GetMapEntrie(d.id, GetString(d.attrs, "map"));
    if r.Err? {
      return Panicked(NilDereference);
    }
    ghost var attrs := d.attrs;
    d.Set("key", Text(r.value.key));
    d.Set("value", Text(r.value.value));
    d.Set("map", Text(GetString(d.attrs, "map")));
    d.Set("force_sync", Flag(GetBool(d.attrs, "force_sync")));
    assert d.attrs == ReadBack(attrs, r.value);
    return Returned([]);
  }

  /*
   * resourceMapsCreate
   */

  /** The entry Create sends: no id, the planned key and value. */
  function NewEntrie(attrs: map<string, Value>): MapEntrie
  {
    MapEntrie("", GetString(attrs, "key"), GetString(attrs, "value"))
  }

  /**
   * Create the entry, read it back (a failure there is reported as a key with a space in
   * it), take the key as the id, and end with Read.
   */
  function CreateFlow(s: State, id: string, attrs: map<string, Value>): Flow
  {
    var mapName, e := GetString(attrs, "map"), NewEntrie(attrs);
    var (s1, r) := CreateMapEntrieStep(s, e, mapName, GetBool(attrs, "force_sync"));
    if r.Err? then Flow(s1, Returned([ErrorDiagnostic(r.message)]), id, attrs) else
    var (s2, g) := GetMapEntrieStep(s1, e.key, mapName);
    if g.Err? then Flow(s2, Returned([ErrorDiagnostic(InsertError(e.key))]), id, attrs)
    else ReadFlow(s2, e.key, attrs)
  }

  method Create(server: Server, d: ResourceData) returns (c: Completion)
    modifies server, d
    ensures Flow(server.Snapshot(), c, d.id, d.attrs) == CreateFlow(old(server.Snapshot()), old(d.id), old(d.attrs))
    ensures d.changed == old(d.changed)
  {
    var mapName := GetString(d.attrs, "map");
    var e := MapEntrie("", GetString(d.attrs, "key"), GetString(d.attrs, "value"));
    var forceSync := GetBool(d.attrs, "force_sync");
    var r := server.CreateMapEntrie(e, mapName, forceSync);
    if r.Err? {
      return Returned([ErrorDiagnostic(r.message)]);
    }
    var g := server.GetMapEntrie(e.key, mapName);
    if g.Err? {
      return Returned([ErrorDiagnostic(InsertError(e.key))]);
    }
    d.SetId(e.key);
    c := Read(server, d);
  }

  /*
   * resourceMapsUpdate
   */

  /**
   * Nothing happens unless `value` changed. Then the entry is fetched (a failed get is
   * ignored and its nil result dereferenced) and sent back with only its value replaced.
   */
  function UpdateFlow(s: State, id: string, attrs: map<string, Value>, changed: set<string>): Flow
  {
    if "value" !in changed then Flow(s, Returned([]), id, attrs) else
    var mapName := GetString(attrs, "map");
    var (s1, g) := GetMapEntrieStep(s, GetString(attrs, "key"), mapName);
    if g.Err? then Flow(s1, Panicked(NilDereference), id, attrs) else
    var (s2, u) := UpdateMapEntrieStep(s1, g.value.(value := GetString(attrs, "value")), mapName, GetBool(attrs, "force_sync"));
    Flow(s2, Returned(if u.Err? then [ErrorDiagnostic(u.message)] else []), id, attrs)
  }

  method Update(server: Server, d: ResourceData) returns (c: Completion)
    modifies server
    ensures Flow(server.Snapshot(), c, d.id, d.attrs) == UpdateFlow(old(server.Snapshot()), d.id, d.attrs, d.changed)
  {
    if "value" in d.changed {
      var mapName := GetString(d.attrs, "map");
      var g := server.GetMapEntrie(GetString(d.attrs, "key"), mapName);
      if g.Err? {
        return Panicked(NilDereference);
      }
      var entrie := g.value.(value := GetString(d.attrs, "value"));
      var u := server.UpdateMapEntrie(entrie, mapName, GetBool(d.attrs, "force_sync"));
      if u.Err? {
        return Returned([ErrorDiagnostic(u.message)]);
      }
    }
    return Returned([]);
  }

  /*
   * resourceMapsDelete
   */

  /** Delete the entry named by the id; the id is cleared only when that succeeded. */
  function DeleteFlow(s: State, id: string, attrs: map<string, Value>): Flow
  {
    var (t, r) := DeleteMapEntrieStep(s, id, GetString(attrs, "map"), GetBool(attrs, "force_sync"));
    if r.Err? then Flow(t, Returned([ErrorDiagnostic(r.message)]), id, attrs)
    else Flow(t, Returned([]), "", attrs)
  }

  method Delete(server: Server, d: ResourceData) returns (c: Completion)
    modifies server, d
    ensures Flow(server.Snapshot(), c, d.id, d.attrs) == DeleteFlow(old(server.Snapshot()), old(d.id), old(d.attrs))
    ensures d.changed == old(d.changed)
  {
    var r := server.DeleteMapEntrie(d.id, GetString(d.attrs, "map"), GetBool(d.attrs, "force_sync"));
    if r.Err? {
      return Returned([ErrorDiagnostic(r.message)]);
    }
    d.SetId("");
    return Returned([]);
  }

  /*
   * Properties of the flows
   */

  /** A malformed id is rejected before any call, with everything left as it was. */
  lemma ImportRejectsMalformed(s: State, id: string, attrs: map<string, Value>)
    requires !MatchesImportFormat(id)
    ensures var f := ImportFlow(s, id, attrs);
      f.server == s && f.id == id && f.attrs == attrs
      && f.completion == Returned([ErrorDiagnostic(ImportFormatError(id))])
  {
  }

  /**
   * Once the names are taken, the importer sets them, makes its one call, the get of that
   * entry, and succeeds exactly when the server holds the entry and serves the call.
   */
  lemma ImportNamedFetches(s: State, mapName: string, key: string, attrs: map<string, Value>)
    ensures var f := ImportNamed(s, mapName, key, attrs);
      && f.id == key && f.attrs == attrs["map" := Text(mapName)]
      && |f.server.log| == |s.log| + 1 && f.server.log[..|s.log|] == s.log
      && f.server.log[|s.log|].call == GetMapEntrieCall(key, mapName)
      && f.server.entries == s.entries
      && (f.completion == Returned([]) <==> !NextFault(s).0.Refuse? && EntryOf(s, key, mapName).Some?)
  {
    var (t, r) := GetMapEntrieStep(s, key, mapName);
    assert t.log == s.log + [Event(GetMapEntrieCall(key, mapName), ErrorOf(r))];
  }

  /**
   * The id `map/<m>/entrie/<k>` imports entry `k` of map `m`, whatever the names hold
   * besides '/' in `m` and newlines, as long as `m` does not end in "entrie": the id and
   * `map` are taken from it, the one call is the get of that entry, and the import
   * succeeds exactly when the server holds the entry and serves the call.
   */
  lemma ImportOfImportId(s: State, mapName: string, key: string, attrs: map<string, Value>)
    requires WellFormedNames(mapName, key) && !HasSuffix(mapName, "entrie")
    ensures var f := ImportFlow(s, ImportId(mapName, key), attrs);
      && f.id == key && f.attrs == attrs["map" := Text(mapName)]
      && |f.server.log| == |s.log| + 1 && f.server.log[..|s.log|] == s.log
      && f.server.log[|s.log|].call == GetMapEntrieCall(key, mapName)
      && f.server.entries == s.entries
      && (f.completion == Returned([]) <==> !NextFault(s).0.Refuse? && EntryOf(s, key, mapName).Some?)
  {
    ImportIdRoundTrip(mapName, key);
    ImportNamedFetches(s, mapName, key, attrs);
  }

  /**
   * When the map name ends in "entrie", the importer takes "entrie/" + key for the id and
   * asks the server for that entry instead of `key`.
   */
  lemma ImportAfterEntrieSuffix(s: State, mapName: string, key: string, attrs: map<string, Value>)
    requires WellFormedNames(mapName, key) && HasSuffix(mapName, "entrie")
    ensures var f := ImportFlow(s, ImportId(mapName, key), attrs);
      && f.id == "entrie/" + key && f.attrs == attrs["map" := Text(mapName)]
      && |f.server.log| == |s.log| + 1
      && f.server.log[|s.log|].call == GetMapEntrieCall("entrie/" + key, mapName)
  {
    ExtractEntrieNameAfterEntrieSuffix(mapName, key);
    ImportNamedFetches(s, mapName, "entrie/" + key, attrs);
  }

  /** The smallest instance: importing `map/xentrie/entrie/k` takes the id "entrie/k", where "k" is meant. */
  lemma ImportCounterexample(s: State, attrs: map<string, Value>)
    ensures ImportFlow(s, ImportId("xentrie", "k"), attrs).id == "entrie/k"
    ensures IntendedImportFlow(s, ImportId("xentrie", "k"), attrs).id == "k"
  {
    ExtractEntrieNameCounterexample();
  }

  /** With the corrected entry name, every well-formed id imports its own entry. */
  lemma IntendedImportOfImportId(s: State, mapName: string, key: string, attrs: map<string, Value>)
    requires WellFormedNames(mapName, key)
    ensures var f := IntendedImportFlow(s, ImportId(mapName, key), attrs);
      && f.id == key && f.attrs == attrs["map" := Text(mapName)]
      && |f.server.log| == |s.log| + 1 && f.server.log[..|s.log|] == s.log
      && f.server.log[|s.log|].call == GetMapEntrieCall(key, mapName)
      && f.server.entries == s.entries
      && (f.completion == Returned([]) <==> !NextFault(s).0.Refuse? && EntryOf(s, key, mapName).Some?)
  {
    IntendedImportIdRoundTrip(mapName, key);
    ImportNamedFetches(s, mapName, key, attrs);
  }

  /**
   * Read succeeds exactly when the server holds the entry and serves the call; it then
   * writes the entry's key and value and keeps `map` and `force_sync`. It changes no entry.
   */
  lemma ReadWritesEntry(s: State, id: string, attrs: map<string, Value>)
    ensures var f := ReadFlow(s, id, attrs); var mapName := GetString(attrs, "map");
      && f.server.entries == s.entries && f.id == id
      && (f.completion.Returned? <==> !NextFault(s).0.Refuse? && EntryOf(s, id, mapName).Some?)
      && (f.completion.Returned? ==>
            && f.completion == Returned([])
            && f.attrs["key"] == Text(id) && f.attrs["value"] == Text(EntryOf(s, id, mapName).value)
            && GetString(f.attrs, "map") == mapName && GetBool(f.attrs, "force_sync") == GetBool(attrs, "force_sync"))
      && (f.completion.Panicked? ==> f.attrs == attrs)
  {
  }

  /**
   * Create sets the id only when the entry was created and read back; a create error and
   * a failed read-back both leave the id and the attributes as they were.
   */
  lemma CreateSetsIdLast(s: State, id: string, attrs: map<string, Value>)
    ensures var f := CreateFlow(s, id, attrs); f.id != id ==> f.id == NewEntrie(attrs).key
    ensures var f := CreateFlow(s, id, attrs);
      f.completion.Returned? && f.completion.diags != [] ==> f.id == id && f.attrs == attrs
  {
  }

  /**
   * When Create ends without diagnostics the server holds the planned value under the
   * planned key, the id is that key, the attributes show that value, and no other entry
   * changed.
   */
  lemma CreateStoresEntry(s: State, id: string, attrs: map<string, Value>)
    requires CreateFlow(s, id, attrs).completion == Returned([])
    ensures var f := CreateFlow(s, id, attrs); var mapName, e := GetString(attrs, "map"), NewEntrie(attrs);
      && f.id == e.key
      && EntryOf(f.server, e.key, mapName) == Some(e.value)
      && "value" in f.attrs && f.attrs["value"] == Text(e.value)
      && OnlyEntryChanged(s, f.server, mapName, e.key)
  {
    var mapName, e, fs := GetString(attrs, "map"), NewEntrie(attrs), GetBool(attrs, "force_sync");
    var (s1, r) := CreateMapEntrieStep(s, e, mapName, fs);
    CreateEntryStored(s, e, mapName, fs);
    var (s2, g) := GetMapEntrieStep(s1, e.key, mapName);
    var f := ReadFlow(s2, e.key, attrs);
    assert f == CreateFlow(s, id, attrs);
    ReadWritesEntry(s2, e.key, attrs);
    SameEntriesKeepChange(s, s1, f.server, mapName, e.key);
  }

  /** A successful create holds the entry's value under its key and changes no other entry. */
  lemma CreateEntryStored(s: State, e: MapEntrie, mapName: string, forceSync: bool)
    requires CreateMapEntrieStep(s, e, mapName, forceSync).1.Ok?
    ensures var t := CreateMapEntrieStep(s, e, mapName, forceSync).0;
      EntryOf(t, e.key, mapName) == Some(e.value) && OnlyEntryChanged(s, t, mapName, e.key)
  {
  }

  /** Calls that change no entry keep what earlier calls changed. */
  lemma SameEntriesKeepChange(s: State, t: State, u: State, mapName: string, key: string)
    requires OnlyEntryChanged(s, t, mapName, key) && u.entries == t.entries
    ensures OnlyEntryChanged(s, u, mapName, key) && EntryOf(u, key, mapName) == EntryOf(t, key, mapName)
  {
  }

  /** The read-back failing after the create succeeded is reported as a key with a space in it. */
  lemma FailedReadBackBlamesSpace(s: State, id: string, attrs: map<string, Value>)
    requires CreateMapEntrieStep(s, NewEntrie(attrs), GetString(attrs, "map"), GetBool(attrs, "force_sync")).1.Ok?
    requires NextFault(CreateMapEntrieStep(s, NewEntrie(attrs), GetString(attrs, "map"), GetBool(attrs, "force_sync")).0).0.Refuse?
    ensures var f := CreateFlow(s, id, attrs);
      f.completion == Returned([ErrorDiagnostic(InsertError(GetString(attrs, "key")))]) && f.id == id
  {
  }

  /**
   * Update makes no call unless `value` changed. When it did and Update ends without
   * diagnostics, the entry holds the planned value and no other entry changed; the
   * update call carried the fetched key with only the value replaced. The id and the
   * attributes are never touched.
   */
  lemma UpdateSetsValue(s: State, id: string, attrs: map<string, Value>, changed: set<string>)
    ensures var f := UpdateFlow(s, id, attrs, changed); var mapName, key := GetString(attrs, "map"), GetString(attrs, "key");
      && f.id == id && f.attrs == attrs
      && ("value" !in changed ==> f.server == s && f.completion == Returned([]))
      && ("value" in changed && f.completion == Returned([]) ==>
            && EntryOf(f.server, key, mapName) == Some(GetString(attrs, "value"))
            && OnlyEntryChanged(s, f.server, mapName, key)
            && f.server.log[|s.log| + 1].call
               == UpdateMapEntrieCall(MapEntrie(key, key, GetString(attrs, "value")), mapName, GetBool(attrs, "force_sync")))
  {
  }

  /**
   * Delete clears the id exactly when the server removed the entry, which it held;
   * otherwise the id stays and no entry changed.
   */
  lemma DeleteClearsId(s: State, id: string, attrs: map<string, Value>)
    ensures var f := DeleteFlow(s, id, attrs); var mapName := GetString(attrs, "map");
      && f.attrs == attrs
      && (f.completion == Returned([]) <==> !NextFault(s).0.Refuse? && EntryOf(s, id, mapName).Some?)
      && (f.completion == Returned([]) ==>
            f.id == "" && EntryOf(f.server, id, mapName).None? && OnlyEntryChanged(s, f.server, mapName, id))
      && (f.completion != Returned([]) ==> f.id == id && f.server.entries == s.entries)
  {
  }
}
