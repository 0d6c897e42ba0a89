/** The four writers of the provider table, in place, and what holds over any sequence of them. */
module Providers {
  import opened Text
  import opened ProviderRows
  import opened ModelRoles
  import opened LocalScan

  /** `scan_env_providers`: the rows, and the settings of the providers it removes. */
  function EnvScannedStore(s: Store, env: seq<EnvEntry>): Store {
    var es := Usable(env);
    var merged := Unclaimed(UpsertedAll(s.rows, es), EnvNames(es));
    Store(EnvScanned(s.rows, env), ClearedAll(s.settings, StaleIds(merged.all, EnvNames(es))))
  }

  function DeletedFrom(s: Store, id: nat): Store {
    if Deleted(s.rows, id).1.Done? then Store(Deleted(s.rows, id).0, Cleared(s.settings, id)) else s
  }

  /** A scan of the environment blanks exactly the model settings that name a provider it removes. */
  lemma EnvScanBlanksExactly(s: Store, env: seq<EnvEntry>, k: string)
    requires Sound(s.rows) && k in s.settings
    ensures k in EnvScannedStore(s, env).settings
    ensures EnvScannedStore(s, env).settings[k] ==
            if k in ["llm_model", "task_processing_model", "transcription_model"]
               && exists p :: p in s.rows.all && p.source == Env && p.name !in EnvNames(Usable(env))
                              && PointsAt(s.settings[k], p.id)
            then Dict(None, "", "") else s.settings[k]
  {
    hide Sound, Distinct, Usable, UpsertedAll, Unclaimed, StaleIds, ClearedAll, EnvScanned;
    var es := Usable(env);
    var ids := StaleIds(Unclaimed(UpsertedAll(s.rows, es), EnvNames(es)).all, EnvNames(es));
    SoundIsDistinct(s.rows);
    ClearsExactly(s.settings, ids);
    if s.settings[k].Dict? && s.settings[k].provider.Some? {
      StaleWereThere(s.rows, es, s.settings[k].provider.value);
    }
  }

  /** A delete blanks exactly the model settings that name the row it takes away, and a refused one none. */
  lemma DeletionBlanksExactly(s: Store, id: nat, k: string)
    requires Sound(s.rows) && k in s.settings
    ensures k in DeletedFrom(s, id).settings
    ensures DeletedFrom(s, id).settings[k] ==
            if k in ["llm_model", "task_processing_model", "transcription_model"]
               && s.settings[k].Dict? && s.settings[k].provider == Some(id)
               && exists p :: p in s.rows.all && p.id == id && p.source != Env && !p.isDefault
            then Dict(None, "", "") else s.settings[k]
    ensures forall p :: p in DeletedFrom(s, id).rows.all <==>
                        p in s.rows.all && (p.id != id || p.source == Env || p.isDefault)
  {
    hide Sound, Filter;
    DeleteOutcome(s.rows, id);
    SoundIsDistinct(s.rows);
  }

  // ---------- The code that does it, in place ----------

  class ProviderStore {
    var rows: seq<Provider>
    var nextId: nat
    var settings: Settings

    ghost function View(): Store
      reads this
    {
      Store(Rows(rows, nextId), settings)
    }

    constructor ()
      ensures View() == Store(Rows([], 0), map[])
    {
      rows, nextId, settings := [], 0, map[];
    }

    method Insert(name: string, baseUrl: string, key: string, ptype: string, isDefault: bool, source: Source)
      modifies `rows, `nextId
      ensures Rows(rows, nextId) == Inserted(old(Rows(rows, nextId)), name, baseUrl, key, ptype, isDefault, source)
    {
      rows := rows + [Provider(nextId, name, baseUrl, key, ptype, isDefault, source)];
      nextId := nextId + 1;
    }

    /** `_clear_model_settings_for_provider`. */
    method ClearSettings(id: nat)
      modifies `settings
      ensures settings == Cleared(old(settings), id)
    {
      for i := 0 to |CLEARED_SETTINGS|
        invariant settings.Keys == old(settings).Keys
        invariant forall k :: k in settings ==>
                    settings[k] == if k in CLEARED_SETTINGS[..i] && PointsAt(old(settings)[k], id) then BLANK else old(settings)[k]
      {
        var key := CLEARED_SETTINGS[i];
        assert CLEARED_SETTINGS[..i + 1] == CLEARED_SETTINGS[..i] + [key];
        if key in settings && settings[key].Dict? && settings[key].provider == Some(id) {
          settings := settings[key := BLANK];
        }
      }
      assert CLEARED_SETTINGS[..|CLEARED_SETTINGS|] == CLEARED_SETTINGS;
    }

    method Create(b: CreateBody, ptype: string) returns (o: Outcome)
      modifies `rows, `nextId
      ensures (Rows(rows, nextId), o) == Created(old(Rows(rows, nextId)), b, ptype)
    {
      var name, baseUrl := b.name, b.baseUrl;
      if b.catalogId {
        if b.catalog.None? {
          return Invalid;
        }
        if b.catalog.value.requiresBaseUrl {
          if baseUrl == "" {
            return Invalid;
          }
        } else {
          baseUrl := b.catalog.value.baseUrl;
        }
        name := if name != "" then name else b.catalog.value.displayName;
      }
      if name == "" || baseUrl == "" {
        return Invalid;
      }
      if Named(rows, name).Some? {
        return Conflict;
      }
      o := Done(nextId);
      Insert(name, baseUrl, b.key, ptype, rows == [], Database);
    }

    method Update(id: nat, b: UpdateBody, probed: string) returns (o: Outcome)
      modifies `rows
      ensures (Rows(rows, nextId), o) == Updated(old(Rows(rows, nextId)), id, b, probed)
    {
      var found := ById(rows, id);
      if found.None? {
        return NotFound;
      }
      var p := found.value;
      if p.source == Env || (p.source == Detected && b.baseUrl.Some? && b.baseUrl.value != p.baseUrl) {
        return Forbidden;
      }
      var urlChanged := false;
      if b.name.Some? {
        if TakenByAnother(rows, b.name.value, id) {
          return Conflict;
        }
        p := p.(name := b.name.value);
      }
      if b.baseUrl.Some? {
        urlChanged := b.baseUrl.value != p.baseUrl;
        p := p.(baseUrl := b.baseUrl.value);
      }
      if b.key.Some? && b.key.value != "" {
        p := p.(key := b.key.value);
      }
      if urlChanged {
        p := p.(ptype := probed);
      }
      rows := Written(rows, p);
      return Done(id);
    }

    method Delete(id: nat) returns (o: Outcome)
      modifies `rows, `settings
      ensures View() == DeletedFrom(old(View()), id) && o == Deleted(old(Rows(rows, nextId)), id).1
    {
      var found := ById(rows, id);
      if found.None? {
        return NotFound;
      }
      if found.value.source == Env {
        return Forbidden;
      }
      if found.value.isDefault {
        return Conflict;
      }
      ClearSettings(id);
      rows := Dropped(rows, id);
      return Done(id);
    }

    method SetDefault(id: nat) returns (o: Outcome)
      modifies `rows
      ensures (Rows(rows, nextId), o) == Defaulted(old(Rows(rows, nextId)), id)
    {
      if ById(rows, id).None? {
        return NotFound;
      }
      for i := 0 to |rows|
        invariant |rows| == old(|rows|)
        invariant forall j :: 0 <= j < |rows| ==> rows[j] == if j < i then old(rows)[j].(isDefault := false) else old(rows)[j]
      {
        rows := rows[i := rows[i].(isDefault := false)];
      }
      for i := 0 to |rows|
        invariant |rows| == old(|rows|)
        invariant forall j :: 0 <= j < |rows| ==>
                    rows[j] == old(rows)[j].(isDefault := j < i && old(rows)[j].id == id)
      {
        if rows[i].id == id {
          rows := rows[i := rows[i].(isDefault := true)];
        }
      }
      assert rows == Defaulted(old(Rows(rows, nextId)), id).0.all;
      return Done(id);
    }

    method Upsert(e: EnvEntry, first: bool)
      modifies `rows, `nextId
      ensures Rows(rows, nextId) == Upserted(old(Rows(rows, nextId)), e, first)
    {
      var existing := Named(rows, e.name);
      if existing.Some? {
        var p := existing.value;
        p := p.(baseUrl := e.baseUrl, key := e.key, ptype := e.probed, isDefault := first, source := Env);
        rows := Written(rows, p);
      } else {
        Insert(e.name, e.baseUrl, e.key, e.probed, first, Env);
      }
    }

    method UpsertEnvironment(env: seq<EnvEntry>) returns (names: set<string>)
      modifies `rows, `nextId
      ensures names == EnvNames(Usable(env))
      ensures Rows(rows, nextId) == UpsertedAll(old(Rows(rows, nextId)), Usable(env))
    {
      hide Usable, EnvNames, UpsertedAll, Upserted;
      names := {};
      var index := 0;
      ghost var es := Usable(env);
      NoUpserts(Rows(rows, nextId), es);
      UsablePrefix(env, 0);
      while index < |env| && Complete(env[index])
        invariant index <= |es| && (index < |env| && Complete(env[index]) <==> index < |es|)
        invariant names == EnvNames(es[..index])
        invariant Rows(rows, nextId) == UpsertedAll(old(Rows(rows, nextId)), es[..index])
      {
        UsablePrefix(env, index);
        UsablePrefix(env, index + 1);
        OneMoreUpsert(old(Rows(rows, nextId)), es, index);
        Upsert(env[index], index == 0);
        names := names + {env[index].name};
        index := index + 1;
      }
      assert es[..index] == es;
    }

    method UnclaimDefault(names: set<string>)
      modifies `rows
      ensures Rows(rows, nextId) == Unclaimed(old(Rows(rows, nextId)), names)
    {
      if names == {} {
        return;
      }
      for i := 0 to |rows|
        invariant |rows| == old(|rows|)
        invariant forall j :: 0 <= j < |rows| ==>
                    rows[j] == if j < i && old(rows)[j].isDefault && Foreign(old(rows)[j], names)
                               then old(rows)[j].(isDefault := false) else old(rows)[j]
      {
        if rows[i].isDefault && (rows[i].source != Env || rows[i].name !in names) {
          rows := rows[i := rows[i].(isDefault := false)];
        }
      }
      assert rows == Unclaimed(old(Rows(rows, nextId)), names).all;
    }

    method RemoveStaleEnv(names: set<string>)
      modifies `rows, `settings
      ensures rows == Current(old(rows), names)
      ensures settings == ClearedAll(old(settings), StaleIds(old(rows), names))
    {
      hide Cleared;
      var kept: seq<Provider> := [];
      for i := 0 to |rows|
        invariant rows == old(rows)
        invariant kept == Current(rows[..i], names)
        invariant settings == ClearedAll(old(settings), StaleIds(rows[..i], names))
      {
        assert rows[..i + 1][..i] == rows[..i];
        assert StaleIds(rows[..i], names) + [] == StaleIds(rows[..i], names);
        if rows[i].source == Env && rows[i].name !in names {
          ClearedOneMore(old(settings), StaleIds(rows[..i], names), rows[i].id);
          ClearSettings(rows[i].id);
        } else {
          kept := kept + [rows[i]];
        }
      }
      assert rows[..|rows|] == rows;
      rows := kept;
    }

    /** `scan_env_providers`. */
    method ScanEnvironment(env: seq<EnvEntry>)
      modifies this
      ensures View() == EnvScannedStore(old(View()), env)
    {
      hide Usable, UpsertedAll, Unclaimed, Filter;
      var names := UpsertEnvironment(env);
      UnclaimDefault(names);
      RemoveStaleEnv(names);
    }

    // ---------- The local scan ----------

    /** One detected row per endpoint, the oldest first. */
    method DetectedRows() returns (byUrl: map<string, Provider>)
      ensures forall url :: if url in byUrl then DetectedAt(rows, url) == Some(byUrl[url]) else DetectedAt(rows, url).None?
    {
      hide DetectedAt, Canonical;
      byUrl := map[];
      NoneDetected();
      for i := 0 to |rows|
        invariant forall url :: if url in byUrl then DetectedAt(rows[..i], url) == Some(byUrl[url])
                                else DetectedAt(rows[..i], url).None?
      {
        assert rows[..i + 1] == rows[..i] + [rows[i]];
        forall url ensures DetectedAt(rows[..i + 1], url) ==
                           if DetectedAt(rows[..i], url).Some? then DetectedAt(rows[..i], url)
                           else if IsAt(rows[i], url) then Some(rows[i]) else None {
          DetectedOneMore(rows[..i], rows[i], url);
        }
        var url := Canonical(rows[i].baseUrl);
        if rows[i].source == Detected && url !in byUrl {
          byUrl := byUrl[url := rows[i]];
        }
      }
      assert rows[..|rows|] == rows;
    }

    method ProbePorts(h: Host, byUrl: map<string, Provider>)
      returns (present: set<string>, needsKey: seq<string>, found: seq<Info>)
      requires forall url :: if url in byUrl then DetectedAt(rows, url) == Some(byUrl[url]) else DetectedAt(rows, url).None?
      ensures present == Present(rows, h, PORTS) && needsKey == NeedsKey(rows, h, PORTS) && found == Found(rows, h, PORTS)
    {
      hide DetectedAt, Canonical, Endpoint, IdentifyRuntime, ConfiguredUrl, ResolvedType, ProbeOf, Present, NeedsKey, Found;
      NoProbes(rows, h);
      present, needsKey, found := {}, [], [];
      var ports := CandidatePorts();
      for i := 0 to |ports|
        invariant present == Present(rows, h, ports[..i])
        invariant needsKey == NeedsKey(rows, h, ports[..i])
        invariant found == Found(rows, h, ports[..i])
      {
        OneMoreProbe(rows, h, ports, i);
        var url := Endpoint(h.gateway, ports[i]);
        var key := if url in byUrl then byUrl[url].key else DETECTED_API_KEY;
        assert key == ProbeKey(rows, url);
        var answer := ProbeOf(h, ports[i], key);
        if answer.NoAnswer? {
          continue;
        }
        present := present + {url};
        if answer.Error? {
          continue;
        }
        if answer.Unauthorized? {
          if !ConfiguredUrl(rows, url) {
            needsKey := needsKey + [url];
          }
          continue;
        }
        found := found + [Info(IdentifyRuntime(answer.owners, ports[i]), url, ResolvedType(h, url, key), ports[i])];
      }
      assert ports[..|ports|] == ports;
    }

    method RegisterFound(byUrl: map<string, Provider>, found: seq<Info>) returns (registered: seq<LocalScan.Entry>)
      requires forall url :: if url in byUrl then DetectedAt(rows, url) == Some(byUrl[url]) else DetectedAt(rows, url).None?
      modifies `rows, `nextId
      ensures var r := RegisterAll(Registering(old(Rows(rows, nextId)), old(rows) == [], []), old(rows), found);
              Rows(rows, nextId) == r.rows && registered == r.done
    {
      hide DetectedAt, RegisterOne;
      registered := [];
      var claim := rows == [];
      for i := 0 to |found|
        invariant Registering(Rows(rows, nextId), claim, registered) ==
                  RegisterAll(Registering(old(Rows(rows, nextId)), old(rows) == [], []), old(rows), found[..i])
      {
        assert found[..i + 1][..i] == found[..i];
        claim, registered := RegisterInfo(old(rows), byUrl, found[i], claim, registered);
      }
      assert found[..|found|] == found;
    }

    method RegisterInfo(ghost before: seq<Provider>, byUrl: map<string, Provider>, info: Info, mayClaim: bool,
                        done: seq<LocalScan.Entry>)
      returns (claim: bool, registered: seq<LocalScan.Entry>)
      requires forall url :: if url in byUrl then DetectedAt(before, url) == Some(byUrl[url]) else DetectedAt(before, url).None?
      modifies `rows, `nextId
      ensures Registering(Rows(rows, nextId), claim, registered) ==
              RegisterOne(Registering(old(Rows(rows, nextId)), mayClaim, done), before, info)
    {
      hide DetectedAt, AvailableName;
      if info.baseUrl in byUrl {
        var existing := byUrl[info.baseUrl];
        rows := Retyped(rows, existing.id, info.ptype);
        return mayClaim, done + [LocalScan.Entry(info.baseUrl, existing.name)];
      }
      var name := AvailableName(rows, info.name, info.port);
      if name.None? {
        return mayClaim, done;
      }
      Insert(name.value, info.baseUrl, DETECTED_API_KEY, info.ptype, mayClaim, Detected);
      return false, done + [LocalScan.Entry(info.baseUrl, name.value)];
    }

    method RemoveDeparted(present: set<string>)
      modifies `rows, `settings
      ensures rows == Remaining(old(rows), present)
      ensures settings == ClearedAll(old(settings), DepartedIds(old(rows), present))
    {
      hide Cleared, Canonical;
      var kept: seq<Provider> := [];
      for i := 0 to |rows|
        invariant rows == old(rows)
        invariant kept == Remaining(rows[..i], present)
        invariant settings == ClearedAll(old(settings), DepartedIds(rows[..i], present))
      {
        assert rows[..i + 1][..i] == rows[..i];
        assert DepartedIds(rows[..i], present) + [] == DepartedIds(rows[..i], present);
        if rows[i].source == Detected && Canonical(rows[i].baseUrl) !in present {
          ClearedOneMore(old(settings), DepartedIds(rows[..i], present), rows[i].id);
          ClearSettings(rows[i].id);
        } else {
          kept := kept + [rows[i]];
        }
      }
      assert rows[..|rows|] == rows;
      rows := kept;
    }

    /** `establish_model_settings_if_unset`. */
    method EstablishIfUnset(p: Provider, ls: Listings) returns (model: Option<string>)
      modifies `settings
      ensures (settings, model) == Established(old(settings), p, ls)
    {
      hide AnyRole;
      var state := SelectionState(settings, rows, ls);
      if state.anyRole {
        return None;
      }
      var models := ListingOf(p, ls);
      if models.None? || |models.value| != 1 {
        return None;
      }
      var again := SelectionState(settings, rows, ls);
      if again.anyRole {
        return None;
      }
      for i := 0 to |MODEL_ROLE_SETTINGS|
        invariant i == 0 ==> settings == old(settings)
        invariant i == 1 ==> settings == old(settings)["llm_model" := Dict(Some(p.id), models.value[0], "")]
        invariant i == 2 ==> settings == Selected(old(settings), p.id, models.value[0])
      {
        settings := settings[MODEL_ROLE_SETTINGS[i] := Dict(Some(p.id), models.value[0], "")];
      }
      return Some(models.value[0]);
    }

    /** `scan_local_ai`. */
    method ScanLocal(h: Host) returns (r: Result)
      modifies this
      ensures (View(), r) == Scanned(old(View()), h)
    {
      hide Present, NeedsKey, Found, RegisterAll, Filter, DepartedIds, ClearedAll, AnyRole, DetectedAt, Canonical, Established;
      if !h.available {
        return Result(false, [], [], None, None);
      }
      var state := SelectionState(settings, rows, h.listings);
      var byUrl := DetectedRows();
      var present, needsKey, found := ProbePorts(h, byUrl);
      var registered := RegisterFound(byUrl, found);
      RemoveDeparted(present);
      var provider: Option<Provider> := None;
      if registered != [] {
        provider := DetectedAt(rows, Canonical(registered[0].baseUrl));
      }
      assert View() == Reconciled(old(View()), h);
      assert provider == RegisteredProvider(old(View()), h);
      var model: Option<string> := None;
      if provider.Some? && !state.anyRole {
        model := EstablishIfUnset(provider.value, h.listings);
      }
      return Result(true, registered, needsKey, if provider.Some? then Some(provider.value.id) else None, model);
    }

    /** `adopt_local_runtime`. */
    method Adopt(h: Host, url: string, key: string, name: string) returns (o: Adoption)
      modifies `rows, `nextId
      ensures (View(), o) == AdoptedBy(old(View()), h, url, key, name)
    {
      hide Canonical, IdentifyRuntime, ResolvedType, Named;
      var base := Canonical(url);
      if base !in AdoptableUrls(h, PORTS) {
        return Adoption.Refused;
      }
      if ConfiguredUrl(rows, base) {
        return AlreadyConfigured;
      }
      var port := PortOf(h, base, PORTS);
      var answer := ProbeOf(h, port, key);
      if answer.NoAnswer? || answer.Error? {
        return Unreachable;
      }
      if answer.Unauthorized? {
        return KeyRejected;
      }
      var chosen := if name != "" then name else IdentifyRuntime(answer.owners, port);
      if Named(rows, chosen).Some? {
        return NameConflict;
      }
      o := Adopted(nextId);
      Insert(chosen, base, key, ResolvedType(h, base, key), rows == [], Detected);
    }
  }

  lemma ClearedOneMore(s: Settings, ids: seq<nat>, id: nat)
    ensures ClearedAll(s, ids + [id]) == Cleared(ClearedAll(s, ids), id)
  {
    hide Cleared;
    assert (ids + [id])[..|ids|] == ids;
  }

  lemma NoneDetected()
    ensures forall url :: DetectedAt([], url).None?
  {
  }

  lemma {:induction false} DetectedOneMore(ps: seq<Provider>, p: Provider, url: string)
    ensures DetectedAt(ps + [p], url) ==
            if DetectedAt(ps, url).Some? then DetectedAt(ps, url) else if IsAt(p, url) then Some(p) else None
  {
    hide IsAt;
    if ps == [] {
      assert (ps + [p])[1..] == [];
    } else {
      assert (ps + [p])[1..] == ps[1..] + [p];
      DetectedOneMore(ps[1..], p, url);
    }
  }

  lemma {:induction false} UsablePrefix(env: seq<EnvEntry>, n: nat)
    requires n <= |Usable(env)|
    ensures n < |env| && Complete(env[n]) <==> n < |Usable(env)|
    ensures n < |Usable(env)| ==> env[n] == Usable(env)[n]
  {
    if n > 0 {
      UsablePrefix(env[1..], n - 1);
    }
  }

  lemma NoUpserts(t: Rows, es: seq<EnvEntry>)
    ensures UpsertedAll(t, es[..0]) == t && EnvNames(es[..0]) == {}
  {
  }

  lemma OneMoreUpsert(t: Rows, es: seq<EnvEntry>, i: nat)
    requires i < |es|
    ensures UpsertedAll(t, es[..i + 1]) == Upserted(UpsertedAll(t, es[..i]), es[i], i == 0)
    ensures EnvNames(es[..i + 1]) == EnvNames(es[..i]) + {es[i].name}
  {
    hide Upserted;
    assert es[..i + 1][..i] == es[..i];
  }

  lemma NoProbes(ps: seq<Provider>, h: Host)
    ensures Present(ps, h, []) == {} && NeedsKey(ps, h, []) == [] && Found(ps, h, []) == []
  {
  }

  lemma OneMoreProbe(ps: seq<Provider>, h: Host, ports: seq<nat>, i: nat)
    requires i < |ports|
    ensures var url, answer := Endpoint(h.gateway, ports[i]), ProbeAt(ps, h, ports[i]);
            && Present(ps, h, ports[..i + 1]) == Present(ps, h, ports[..i]) + (if answer.NoAnswer? then {} else {url})
            && NeedsKey(ps, h, ports[..i + 1]) ==
               NeedsKey(ps, h, ports[..i]) + (if answer.Unauthorized? && !ConfiguredUrl(ps, url) then [url] else [])
            && Found(ps, h, ports[..i + 1]) ==
               Found(ps, h, ports[..i]) + (if answer.Answered? then [InfoAt(ps, h, ports[i])] else [])
  {
    hide Endpoint, ProbeAt, ConfiguredUrl, InfoAt;
    assert ports[..i + 1][..i] == ports[..i];
  }

  // ---------- What holds over any sequence of operations ----------

  datatype Op =
    | EnvScan(env: seq<EnvEntry>)
    | Scan(host: Host)
    | AdoptAt(host: Host, url: string, key: string, name: string)
    | CreateBy(body: CreateBody, ptype: string)
    | UpdateBy(id: nat, update: UpdateBody, probed: string)
    | DeleteBy(id: nat)
    | DefaultTo(id: nat)

  function Apply(s: Store, op: Op): Store {
    match op
    case EnvScan(env) => EnvScannedStore(s, env)
    case Scan(h) => Scanned(s, h).0
    case AdoptAt(h, url, key, name) => AdoptedBy(s, h, url, key, name).0
    case CreateBy(b, ptype) => s.(rows := Created(s.rows, b, ptype).0)
    case UpdateBy(id, b, probed) => s.(rows := Updated(s.rows, id, b, probed).0)
    case DeleteBy(id) => DeletedFrom(s, id)
    case DefaultTo(id) => s.(rows := Defaulted(s.rows, id).0)
  }

  function Run(s: Store, ops: seq<Op>): Store {
    if ops == [] then s else Apply(Run(s, ops[..|ops| - 1]), ops[|ops| - 1])
  }

  const EMPTY := Store(Rows([], 0), map[])

  lemma StepKeepsSound(s: Store, op: Op)
    requires Sound(s.rows)
    ensures Sound(Apply(s, op).rows)
  {
    hide Sound, EnvScanned, Scanned, AdoptedBy, Created, Updated, Defaulted, Cleared, ClearedAll, StaleIds;
    match op
    case EnvScan(env) => EnvScanKeepsSound(s.rows, env);
    case Scan(h) => ScanKeepsSound(s, h);
    case AdoptAt(h, url, key, name) => AdoptionKeepsSound(s, h, url, key, name);
    case CreateBy(b, ptype) => CreateKeepsSound(s.rows, b, ptype);
    case UpdateBy(id, b, probed) => UpdateKeepsSound(s.rows, id, b, probed);
    case DeleteBy(id) => DeleteKeepsSound(s.rows, id);
    case DefaultTo(id) => DefaultKeepsSound(s.rows, id);
  }

  lemma {:induction false} RunKeepsSound(s: Store, ops: seq<Op>)
    requires Sound(s.rows)
    ensures Sound(Run(s, ops).rows)
  {
    hide Sound, Apply;
    if ops != [] {
      RunKeepsSound(s, ops[..|ops| - 1]);
      StepKeepsSound(Run(s, ops[..|ops| - 1]), ops[|ops| - 1]);
    }
  }

  /** Over any sequence of operations, at most one provider is the default and all names are distinct. */
  lemma OneDefaultDistinctNames(ops: seq<Op>)
    ensures var ps := Run(EMPTY, ops).rows.all;
            forall i, j :: 0 <= i < j < |ps| ==> ps[i].name != ps[j].name && !(ps[i].isDefault && ps[j].isDefault)
  {
    hide Run;
    RunKeepsSound(EMPTY, ops);
    var ps := Run(EMPTY, ops).rows.all;
    forall i, j | 0 <= i < j < |ps| ensures ps[i].name != ps[j].name && !(ps[i].isDefault && ps[j].isDefault) {
      assert DistinctAt(ps, i, j);
    }
  }

  // ---------- One detected provider per endpoint ----------

  predicate SameEndpoint(p: Provider, q: Provider) {
    p.source == Detected && q.source == Detected && Canonical(p.baseUrl) == Canonical(q.baseUrl)
  }

  /** Detected providers at the same canonical endpoint are the same row. */
  ghost predicate OnePerEndpoint(ps: seq<Provider>) {
    forall p, q :: p in ps && q in ps && SameEndpoint(p, q) ==> p.id == q.id
  }

  /** Every detected row of `after` was one before, at the same endpoint. */
  ghost predicate NoneDetectedAnew(after: seq<Provider>, before: seq<Provider>) {
    forall q :: q in after && q.source == Detected ==>
                  exists p :: p in before && p.source == Detected && p.id == q.id && p.baseUrl == q.baseUrl
  }

  lemma NothingNewKeepsOne(after: seq<Provider>, before: seq<Provider>)
    requires OnePerEndpoint(before) && NoneDetectedAnew(after, before)
    ensures OnePerEndpoint(after)
  {
    hide Canonical;
  }

  lemma WrittenIsOld(ps: seq<Provider>, old': Provider, p: Provider)
    requires old' in ps && p.id == old'.id && (p.source == Detected ==> old'.source == Detected && p.baseUrl == old'.baseUrl)
    ensures NoneDetectedAnew(Written(ps, p), ps)
  {
    hide Written;
    var after := Written(ps, p);
    forall q | q in after && q.source == Detected
      ensures exists o :: o in ps && o.source == Detected && o.id == q.id && o.baseUrl == q.baseUrl {
      var i :| 0 <= i < |after| && after[i] == q;
      assert ps[i] in ps;
    }
  }

  lemma {:induction false} UpsertsDetectNothing(t: Rows, es: seq<EnvEntry>)
    requires Distinct(t)
    ensures NoneDetectedAnew(UpsertedAll(t, es).all, t.all)
  {
    hide Distinct, UpsertedAll, FirstStands;
    UpsertsKeepDistinct(t, es);
  }

  lemma EnvScanDetectsNothing(t: Rows, env: seq<EnvEntry>)
    requires Sound(t)
    ensures NoneDetectedAnew(EnvScanned(t, env).all, t.all)
  {
    hide Sound, Distinct, UpsertedAll, Usable, Filter;
    var es := Usable(env);
    var up := UpsertedAll(t, es);
    var merged := Unclaimed(up, EnvNames(es));
    SoundIsDistinct(t);
    UpsertsDetectNothing(t, es);
    FilterMembers(merged.all, (p: Provider) => !StaleEnv(p, EnvNames(es)));
    forall q | q in merged.all && q.source == Detected
      ensures exists o :: o in t.all && o.source == Detected && o.id == q.id && o.baseUrl == q.baseUrl {
      var i :| 0 <= i < |merged.all| && merged.all[i] == q;
      assert up.all[i] in up.all;
    }
  }

  lemma RoutesDetectNothing(s: Store, op: Op)
    requires Sound(s.rows) && !op.Scan? && !op.AdoptAt?
    ensures NoneDetectedAnew(Apply(s, op).rows.all, s.rows.all)
  {
    hide Sound, EnvScanned, Named, ById, Written, Filter, Cleared, ClearedAll;
    match op
    case EnvScan(env) => EnvScanDetectsNothing(s.rows, env);
    case CreateBy(b, ptype) =>
    case UpdateBy(id, b, probed) =>
      if Updated(s.rows, id, b, probed).1.Done? {
        var p := ById(s.rows.all, id).value;
        WrittenIsOld(s.rows.all, p, Edited(p, b, probed));
      }
    case DeleteBy(id) => FilterMembers(s.rows.all, (p: Provider) => p.id != id);
    case DefaultTo(id) =>
      var after := Defaulted(s.rows, id).0.all;
      forall q | q in after && q.source == Detected
        ensures exists o :: o in s.rows.all && o.source == Detected && o.id == q.id && o.baseUrl == q.baseUrl {
        var i :| 0 <= i < |after| && after[i] == q;
        assert s.rows.all[i] in s.rows.all;
      }
  }

  lemma CanonicalTwice(url: string)
    ensures Canonical(Canonical(url)) == Canonical(url)
  {
  }

  lemma AdoptionKeepsOne(s: Store, h: Host, url: string, key: string, name: string)
    requires OnePerEndpoint(s.rows.all)
    ensures OnePerEndpoint(AdoptedBy(s, h, url, key, name).0.rows.all)
  {
    hide Canonical, Named, AdoptableUrls, IdentifyRuntime, ResolvedType, ProbeOf;
    CanonicalTwice(url);
  }

  lemma {:induction false} RegistrationKeepsOne(r: Registering, before: seq<Provider>, infos: seq<Info>)
    requires OnePerEndpoint(r.rows.all) && r.rows.all == before
    requires forall i, j :: 0 <= i < j < |infos| ==> infos[i].baseUrl != infos[j].baseUrl
    requires forall info :: info in infos ==> Canonical(info.baseUrl) == info.baseUrl
    ensures OnePerEndpoint(RegisterAll(r, before, infos).rows.all)
  {
    hide DetectedAt, AvailableName, Canonical, RegisterAll, OnePerEndpoint;
    if infos == [] {
      assert RegisterAll(r, before, infos) == r by { NothingRegistered(r, before); }
    } else {
      var init, info := infos[..|infos| - 1], infos[|infos| - 1];
      assert infos == init + [info];
      var mid := RegisterAll(r, before, init);
      RegistrationKeepsOne(r, before, init);
      RegistrationGrows(r, before, init);
      RegisteredStep(r, before, infos);
      if DetectedAt(before, info.baseUrl).None? {
        NoneYetAt(r, mid.rows, before, init, info);
      }
      OneMoreKeepsOne(mid, before, info);
    }
  }

  lemma NothingRegistered(r: Registering, before: seq<Provider>)
    ensures RegisterAll(r, before, []) == r
  {
  }

  lemma RegisteredStep(r: Registering, before: seq<Provider>, infos: seq<Info>)
    requires infos != []
    ensures RegisterAll(r, before, infos) ==
            RegisterOne(RegisterAll(r, before, infos[..|infos| - 1]), before, infos[|infos| - 1])
  {
    hide RegisterOne;
  }

  /** An endpoint that had no detected provider has none until its own turn comes. */
  lemma NoneYetAt(r: Registering, mid: Rows, before: seq<Provider>, init: seq<Info>, info: Info)
    requires r.rows.all == before && Grown(r.rows, mid, before, init)
    requires DetectedAt(before, info.baseUrl).None? && Canonical(info.baseUrl) == info.baseUrl
    requires forall i :: i in init ==> i.baseUrl != info.baseUrl && Canonical(i.baseUrl) == i.baseUrl
    ensures forall p :: p in mid.all && p.source == Detected ==> Canonical(p.baseUrl) != info.baseUrl
  {
    hide DetectedAt, Canonical;
    forall p | p in mid.all && p.source == Detected ensures Canonical(p.baseUrl) != info.baseUrl {
      var k :| 0 <= k < |mid.all| && mid.all[k] == p;
      if k < |before| {
        assert before[k] in before && !IsAt(before[k], info.baseUrl);
      } else {
        assert IsNew(mid.all[k], r.rows.nextId, before, init);
      }
    }
  }

  lemma OneMoreKeepsOne(mid: Registering, before: seq<Provider>, info: Info)
    requires OnePerEndpoint(mid.rows.all) && Canonical(info.baseUrl) == info.baseUrl
    requires DetectedAt(before, info.baseUrl).None? ==>
               forall p :: p in mid.rows.all && p.source == Detected ==> Canonical(p.baseUrl) != info.baseUrl
    ensures OnePerEndpoint(RegisterOne(mid, before, info).rows.all)
  {
    hide DetectedAt, AvailableName, Canonical, Retyped;
    var existing := DetectedAt(before, info.baseUrl);
    if existing.Some? {
      var after := Retyped(mid.rows.all, existing.value.id, info.ptype);
      forall q | q in after && q.source == Detected
        ensures exists o :: o in mid.rows.all && o.source == Detected && o.id == q.id && o.baseUrl == q.baseUrl {
        var i :| 0 <= i < |after| && after[i] == q;
        assert mid.rows.all[i] in mid.rows.all;
      }
      NothingNewKeepsOne(after, mid.rows.all);
    }
  }

  lemma ScanKeepsOne(s: Store, h: Host)
    requires OnePerEndpoint(s.rows.all)
    ensures OnePerEndpoint(Scanned(s, h).0.rows.all)
  {
    hide Found, Canonical, RegisterAll, Present, Filter, Established, ClearedAll, RegisteredProvider, OnePerEndpoint;
    if h.available {
      FoundUrls(s.rows.all, h, PORTS);
      FoundArePresent(s.rows.all, h, PORTS);
      RegistrationKeepsOne(Registering(s.rows, s.rows.all == [], []), s.rows.all, Found(s.rows.all, h, PORTS));
      var all, present := Registered(s, h).rows.all, Present(s.rows.all, h, PORTS);
      FilterMembers(all, (p: Provider) => !Departed(p, present));
      assert NoneDetectedAnew(Scanned(s, h).0.rows.all, all);
      NothingNewKeepsOne(Scanned(s, h).0.rows.all, all);
    }
  }

  lemma StepKeepsOne(s: Store, op: Op)
    requires Sound(s.rows) && OnePerEndpoint(s.rows.all)
    ensures OnePerEndpoint(Apply(s, op).rows.all)
  {
    hide *;
    if op.Scan? {
      ScanKeepsOne(s, op.host);
      assert Apply(s, op) == Scanned(s, op.host).0 by { ApplyScan(s, op); }
    } else if op.AdoptAt? {
      AdoptionKeepsOne(s, op.host, op.url, op.key, op.name);
      assert Apply(s, op) == AdoptedBy(s, op.host, op.url, op.key, op.name).0 by { ApplyAdoption(s, op); }
    } else {
      RoutesDetectNothing(s, op);
      NothingNewKeepsOne(Apply(s, op).rows.all, s.rows.all);
    }
  }

  lemma ApplyScan(s: Store, op: Op)
    requires op.Scan?
    ensures Apply(s, op) == Scanned(s, op.host).0
  {
  }

  lemma ApplyAdoption(s: Store, op: Op)
    requires op.AdoptAt?
    ensures Apply(s, op) == AdoptedBy(s, op.host, op.url, op.key, op.name).0
  {
  }

  /** Over any sequence of operations no endpoint has two detected providers. */
  lemma {:induction false} OneDetectedPerEndpoint(ops: seq<Op>)
    ensures Sound(Run(EMPTY, ops).rows) && OnePerEndpoint(Run(EMPTY, ops).rows.all)
  {
    hide Apply, Sound;
    EmptyIsSound();
    if ops != [] {
      OneDetectedPerEndpoint(ops[..|ops| - 1]);
      StepKeepsOne(Run(EMPTY, ops[..|ops| - 1]), ops[|ops| - 1]);
      StepKeepsSound(Run(EMPTY, ops[..|ops| - 1]), ops[|ops| - 1]);
    }
  }

  lemma EmptyIsSound()
    ensures Sound(EMPTY.rows)
  {
  }

  // ---------- An adopted runtime survives ----------

  /** The endpoint answers something to the key stored for it. */
  ghost predicate NeverSilent(p: Provider, h: Host) {
    h.available ==>
      exists port :: port in PORTS && Canonical(p.baseUrl) == Endpoint(h.gateway, port) && !ProbeOf(h, port, p.key).NoAnswer?
  }

  /** The operation is not one by which a user or the environment takes the provider away. */
  ghost predicate Spares(p: Provider, op: Op) {
    match op
    case EnvScan(env) => p.name !in EnvNames(Usable(env))
    case Scan(h) => NeverSilent(p, h)
    case DeleteBy(id) => p.id != id
    case _ => true
  }

  lemma OnlyOneThere(ps: seq<Provider>, t: Rows, p: Provider)
    requires ps == t.all && Sound(t) && OnePerEndpoint(ps) && p in ps && p.source == Detected
    ensures DetectedAt(ps, Canonical(p.baseUrl)) == Some(p)
  {
    hide Canonical, Sound, DetectedAt;
    var found := DetectedAt(ps, Canonical(p.baseUrl));
    assert IsAt(p, Canonical(p.baseUrl));
    if found.Some? {
      assert SameEndpoint(p, found.value);
      OnlyHolder(t, p, found.value);
    }
  }

  lemma ScanSpares(s: Store, h: Host, p: Provider)
    requires Sound(s.rows) && OnePerEndpoint(s.rows.all) && p in s.rows.all && p.source == Detected
    requires NeverSilent(p, h)
    ensures exists q :: q in Scanned(s, h).0.rows.all && q == p.(ptype := q.ptype)
    ensures Canonical(p.baseUrl) !in Scanned(s, h).1.needsKey
  {
    hide Sound, OnePerEndpoint, Canonical, Endpoint, DetectedAt, ProbeOf, Present, NeedsKey, Reconciled, Registered,
         RegisteredProvider, Established, Departed;
    if h.available {
      var port :| port in PORTS && Canonical(p.baseUrl) == Endpoint(h.gateway, port) && !ProbeOf(h, port, p.key).NoAnswer?;
      OnlyOneThere(s.rows.all, s.rows, p);
      assert ProbeAt(s.rows.all, h, port) == ProbeOf(h, port, p.key);
      PresentIff(s.rows.all, h, PORTS, Canonical(p.baseUrl));
      NeedsKeyIff(s.rows.all, h, PORTS, Canonical(p.baseUrl));
      assert ConfiguredUrl(s.rows.all, Canonical(p.baseUrl));
      assert !Departed(p, Present(s.rows.all, h, PORTS)) by { PresentStays(p, Present(s.rows.all, h, PORTS)); }
      ScanDeletesExactly(s, h, p);
    } else {
      assert p == p.(ptype := p.ptype);
    }
  }

  lemma PresentStays(p: Provider, present: set<string>)
    requires Canonical(p.baseUrl) in present
    ensures !Departed(p, present)
  {
  }

  lemma WrittenHas(ps: seq<Provider>, p: Provider, e: Provider, id: nat)
    requires p in ps
    ensures p.id != e.id ==> p in Written(ps, e)
    ensures p.id == e.id ==> e in Written(ps, e)
  {
    hide Written;
    var i :| 0 <= i < |ps| && ps[i] == p;
    assert Written(ps, e)[i] == if p.id == e.id then e else p;
  }

  /** A row that is still what it was: same id, same source, and the same endpoint if that is its identity. */
  predicate Still(q: Provider, p: Provider) {
    q.id == p.id && q.source == p.source && (p.source == Detected ==> q.baseUrl == p.baseUrl)
  }

  lemma UpdateSpares(s: Store, id: nat, b: UpdateBody, probed: string, p: Provider)
    requires Sound(s.rows) && p in s.rows.all
    ensures exists q :: q in Updated(s.rows, id, b, probed).0.all && Still(q, p)
  {
    hide Sound, Written, ById, TakenByAnother;
    if Updated(s.rows, id, b, probed).1.Done? {
      var found := ById(s.rows.all, id).value;
      if found.id == p.id { OnlyHolder(s.rows, p, found); }
      WrittenHas(s.rows.all, p, Edited(found, b, probed), id);
      var q := if found.id == p.id then Edited(found, b, probed) else p;
      assert q in Updated(s.rows, id, b, probed).0.all && Still(q, p);
    } else {
      assert Still(p, p);
    }
  }

  lemma RoutesSpare(s: Store, op: Op, p: Provider)
    requires Sound(s.rows) && p in s.rows.all && p.source != Env && !op.Scan?
    requires op.EnvScan? ==> p.name !in EnvNames(Usable(op.env))
    requires op.DeleteBy? ==> op.id != p.id
    ensures exists q :: q in Apply(s, op).rows.all && Still(q, p)
  {
    hide Sound, Named, ById, Usable, EnvScanned, AdoptedBy, Created, Updated, Filter, ClearedAll, Cleared;
    assert Still(p, p);
    match op
    case EnvScan(env) =>
      EnvScanRemoves(s.rows, env);
      var q :| q in EnvScanned(s.rows, env).all && q == p.(isDefault := q.isDefault);
      assert Still(q, p);
    case AdoptAt(h, url, key, name) => AdoptionAdds(s, h, url, key, name);
    case CreateBy(b, ptype) => CreationAdds(s.rows, b, ptype);
    case UpdateBy(id, b, probed) => UpdateSpares(s, id, b, probed, p);
    case DeleteBy(id) => FilterMembers(s.rows.all, (o: Provider) => o.id != id);
    case DefaultTo(id) =>
      var i :| 0 <= i < |s.rows.all| && s.rows.all[i] == p;
      assert Still(Apply(s, op).rows.all[i], p);
  }

  lemma AdoptionAdds(s: Store, h: Host, url: string, key: string, name: string)
    ensures s.rows.all <= AdoptedBy(s, h, url, key, name).0.rows.all
  {
    hide Canonical, AdoptableUrls, ConfiguredUrl, ProbeOf, IdentifyRuntime, ResolvedType, Named, PortOf, Endpoint;
    var after := AdoptedBy(s, h, url, key, name).0;
    assert after.rows.all == s.rows.all || after.rows.all[..|s.rows.all|] == s.rows.all;
  }

  lemma CreationAdds(t: Rows, b: CreateBody, ptype: string)
    ensures t.all <= Created(t, b, ptype).0.all
  {
    hide Named;
  }

  /** The row an id names, if it is there. */
  function RowOf(s: Store, id: nat): Option<Provider> {
    ById(s.rows.all, id)
  }

  /** No operation of the run takes the provider away, and every scan hears from its endpoint. */
  ghost predicate SparedRun(s: Store, ops: seq<Op>, id: nat) {
    ops != [] ==>
      && SparedRun(s, ops[..|ops| - 1], id)
      && var p := RowOf(Run(s, ops[..|ops| - 1]), id);
         p.Some? ==> Spares(p.value, ops[|ops| - 1])
  }

  lemma RowFound(s: Store, p: Provider)
    requires Sound(s.rows) && p in s.rows.all
    ensures RowOf(s, p.id) == Some(p)
  {
    hide Sound, ById;
    var r := RowOf(s, p.id);
    if r.Some? { OnlyHolder(s.rows, p, r.value); }
  }

  lemma StepSpares(s: Store, op: Op, id: nat)
    requires Sound(s.rows) && OnePerEndpoint(s.rows.all) && RowOf(s, id).Some? && RowOf(s, id).value.source == Detected
    requires Spares(RowOf(s, id).value, op)
    ensures var p, q := RowOf(s, id), RowOf(Apply(s, op), id);
            q.Some? && q.value.source == Detected && q.value.baseUrl == p.value.baseUrl
  {
    hide Sound, OnePerEndpoint, ById, Scanned, NeverSilent, Canonical;
    var p := RowOf(s, id).value;
    StepKeepsSound(s, op);
    if op.Scan? {
      ScanSpares(s, op.host, p);
      var q :| q in Scanned(s, op.host).0.rows.all && q == p.(ptype := q.ptype);
      RowFound(Apply(s, op), q);
    } else {
      RoutesSpare(s, op, p);
      var q :| q in Apply(s, op).rows.all && Still(q, p);
      RowFound(Apply(s, op), q);
    }
  }

  /**
   A detected or adopted runtime stays at its endpoint through any run in which nobody deletes it, the
   environment does not take its name, and no scan finds the endpoint silent to the stored key.
   */
  lemma {:induction false} RuntimeSurvives(s: Store, ops: seq<Op>, id: nat)
    requires Sound(s.rows) && OnePerEndpoint(s.rows.all) && RowOf(s, id).Some? && RowOf(s, id).value.source == Detected
    requires SparedRun(s, ops, id)
    ensures var p, q := RowOf(s, id), RowOf(Run(s, ops), id);
            q.Some? && q.value.source == Detected && q.value.baseUrl == p.value.baseUrl
    ensures Sound(Run(s, ops).rows) && OnePerEndpoint(Run(s, ops).rows.all)
  {
    hide Sound, OnePerEndpoint, RowOf, Apply, Spares;
    if ops != [] {
      var init := ops[..|ops| - 1];
      RuntimeSurvives(s, init, id);
      StepSpares(Run(s, init), ops[|ops| - 1], id);
      StepKeepsSound(Run(s, init), ops[|ops| - 1]);
      StepKeepsOne(Run(s, init), ops[|ops| - 1]);
    }
  }

  /** Nor is its endpoint offered for adoption, or adopted, again. */
  lemma NotOfferedAgain(s: Store, ops: seq<Op>, id: nat, h: Host, key: string, name: string)
    requires Sound(s.rows) && OnePerEndpoint(s.rows.all) && RowOf(s, id).Some? && RowOf(s, id).value.source == Detected
    requires SparedRun(s, ops, id)
    ensures var url := Canonical(RowOf(s, id).value.baseUrl);
            && url !in Scanned(Run(s, ops), h).1.needsKey
            && !AdoptedBy(Run(s, ops), h, url, key, name).1.Adopted?
  {
    hide Sound, OnePerEndpoint, SparedRun, Run, ById, Canonical, NeedsKey, Registered, Reconciled, RegisteredProvider, Established,
         AdoptableUrls, ProbeOf, IdentifyRuntime, ResolvedType, Named;
    RuntimeSurvives(s, ops, id);
    var url := Canonical(RowOf(s, id).value.baseUrl);
    CanonicalTwice(RowOf(s, id).value.baseUrl);
    assert ConfiguredUrl(Run(s, ops).rows.all, url);
    NeedsKeyIff(Run(s, ops).rows.all, h, PORTS, url);
  }

  // ---------- A provider entered by hand survives ----------

  /** Nobody deletes the provider, and no scan of the environment takes its name. */
  ghost predicate LeftToItsOwner(s: Store, ops: seq<Op>, id: nat) {
    ops != [] ==>
      && LeftToItsOwner(s, ops[..|ops| - 1], id)
      && var op := ops[|ops| - 1];
         && (op.DeleteBy? ==> op.id != id)
         && (op.EnvScan? && RowOf(Run(s, ops[..|ops| - 1]), id).Some? ==>
               RowOf(Run(s, ops[..|ops| - 1]), id).value.name !in EnvNames(Usable(op.env)))
  }

  lemma ManualStep(s: Store, op: Op, id: nat)
    requires Sound(s.rows) && RowOf(s, id).Some? && RowOf(s, id).value.source == Database
    requires op.DeleteBy? ==> op.id != id
    requires op.EnvScan? ==> RowOf(s, id).value.name !in EnvNames(Usable(op.env))
    ensures RowOf(Apply(s, op), id).Some? && RowOf(Apply(s, op), id).value.source == Database
    ensures op.Scan? ==> RowOf(Apply(s, op), id) == RowOf(s, id)
  {
    hide Sound, ById, Scanned, Canonical;
    var p := RowOf(s, id).value;
    StepKeepsSound(s, op);
    if op.Scan? {
      if op.host.available {
        ManualStays(s, op.host, p);
      } else {
        SilentScan(s, op.host);
      }
      RowFound(Apply(s, op), p);
    } else {
      RoutesSpare(s, op, p);
      var q :| q in Apply(s, op).rows.all && Still(q, p);
      RowFound(Apply(s, op), q);
    }
  }

  lemma SilentScan(s: Store, h: Host)
    requires !h.available
    ensures Scanned(s, h).0 == s
  {
  }

  /** A provider a person entered stays until somebody deletes it or the environment takes its name; no scan removes it. */
  lemma {:induction false} ManualProviderSurvives(s: Store, ops: seq<Op>, id: nat)
    requires Sound(s.rows) && RowOf(s, id).Some? && RowOf(s, id).value.source == Database && LeftToItsOwner(s, ops, id)
    ensures RowOf(Run(s, ops), id).Some? && RowOf(Run(s, ops), id).value.source == Database && Sound(Run(s, ops).rows)
  {
    hide Sound, RowOf, Apply, EnvNames;
    if ops != [] {
      var init := ops[..|ops| - 1];
      ManualProviderSurvives(s, init, id);
      ManualStep(Run(s, init), ops[|ops| - 1], id);
      StepKeepsSound(Run(s, init), ops[|ops| - 1]);
    }
  }
}
