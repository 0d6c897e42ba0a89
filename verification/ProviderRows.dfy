/** The provider table: creating, updating, deleting and defaulting rows, and the scan of the environment. */
module ProviderRows {
  import opened Text

  datatype Source = Env | Database | Detected

  datatype Provider = Provider(id: nat, name: string, baseUrl: string, key: string, ptype: string, isDefault: bool,
                               source: Source)

  /** Rows in creation order; ids are never reused. */
  datatype Rows = Rows(all: seq<Provider>, nextId: nat)

  // ---------- Looking rows up ----------

  function Named(ps: seq<Provider>, name: string): (r: Option<Provider>)
    ensures r.Some? ==> r.value in ps && r.value.name == name
    ensures r.None? ==> forall p :: p in ps ==> p.name != name
  {
    if ps == [] then None
    else if ps[|ps| - 1].name == name then Some(ps[|ps| - 1])
    else Named(ps[..|ps| - 1], name)
  }

  function ById(ps: seq<Provider>, id: nat): (r: Option<Provider>)
    ensures r.Some? ==> r.value in ps && r.value.id == id
    ensures r.None? ==> forall p :: p in ps ==> p.id != id
  {
    if ps == [] then None
    else if ps[|ps| - 1].id == id then Some(ps[|ps| - 1])
    else ById(ps[..|ps| - 1], id)
  }

  /** Writing one row back. */
  function Written(ps: seq<Provider>, p: Provider): (r: seq<Provider>)
    ensures |r| == |ps|
    ensures forall i :: 0 <= i < |ps| ==> r[i] == if ps[i].id == p.id then p else ps[i]
  {
    seq(|ps|, i requires 0 <= i < |ps| => if ps[i].id == p.id then p else ps[i])
  }

  function Inserted(t: Rows, name: string, baseUrl: string, key: string, ptype: string, isDefault: bool, source: Source): Rows {
    Rows(t.all + [Provider(t.nextId, name, baseUrl, key, ptype, isDefault, source)], t.nextId + 1)
  }

  // ---------- What the table keeps ----------

  predicate DistinctAt(ps: seq<Provider>, i: nat, j: nat)
    requires i < |ps| && j < |ps|
  {
    ps[i].id != ps[j].id && ps[i].name != ps[j].name && !(ps[i].isDefault && ps[j].isDefault)
  }

  /** Ids and names are distinct and at most one row is the default. */
  ghost predicate Sound(t: Rows) {
    && (forall i, j :: 0 <= i < j < |t.all| ==> DistinctAt(t.all, i, j))
    && (forall p :: p in t.all ==> p.id < t.nextId)
  }

  /** The same, but for the default: what holds midway through a scan of the environment. */
  ghost predicate Distinct(t: Rows) {
    && (forall i, j :: 0 <= i < j < |t.all| ==> t.all[i].id != t.all[j].id && t.all[i].name != t.all[j].name)
    && (forall p :: p in t.all ==> p.id < t.nextId)
  }

  lemma SoundIsDistinct(t: Rows)
    requires Sound(t)
    ensures Distinct(t)
  {
    forall i, j | 0 <= i < j < |t.all| ensures t.all[i].id != t.all[j].id && t.all[i].name != t.all[j].name {
      assert DistinctAt(t.all, i, j);
    }
  }

  /** Distinct names and one name for all defaults leave at most one default. */
  lemma OneDefaultName(t: Rows, name: string)
    requires Distinct(t) && forall p :: p in t.all && p.isDefault ==> p.name == name
    ensures Sound(t)
  {
  }

  lemma InsertKeepsSound(t: Rows, name: string, baseUrl: string, key: string, ptype: string, isDefault: bool, source: Source)
    requires Sound(t) && Named(t.all, name).None?
    requires isDefault ==> forall p :: p in t.all ==> !p.isDefault
    ensures Sound(Inserted(t, name, baseUrl, key, ptype, isDefault, source))
  {
    hide Named;
    var t' := Inserted(t, name, baseUrl, key, ptype, isDefault, source);
    forall i, j | 0 <= i < j < |t'.all| ensures DistinctAt(t'.all, i, j) {
      if j < |t.all| {
        assert DistinctAt(t.all, i, j);
      }
    }
  }

  lemma WriteKeepsSound(t: Rows, old': Provider, p: Provider)
    requires Sound(t) && old' in t.all && p.id == old'.id && (p.isDefault ==> old'.isDefault)
    requires p.name == old'.name || Named(t.all, p.name).None?
    ensures Sound(t.(all := Written(t.all, p)))
  {
    hide Named, Written;
    var k :| 0 <= k < |t.all| && t.all[k] == old';
    var ps := Written(t.all, p);
    forall i, j | 0 <= i < j < |ps| ensures DistinctAt(ps, i, j) {
      assert DistinctAt(t.all, i, j);
      if i < k { assert DistinctAt(t.all, i, k); }
      if k < i { assert DistinctAt(t.all, k, i); }
      if j < k { assert DistinctAt(t.all, j, k); }
      if k < j { assert DistinctAt(t.all, k, j); }
    }
  }

  /** The rows that satisfy a condition, in order. */
  function Filter(ps: seq<Provider>, keep: Provider -> bool): seq<Provider> {
    if ps == [] then []
    else Filter(ps[..|ps| - 1], keep) + (if keep(ps[|ps| - 1]) then [ps[|ps| - 1]] else [])
  }

  lemma {:induction false} FilterMembers(ps: seq<Provider>, keep: Provider -> bool)
    ensures forall p :: p in Filter(ps, keep) <==> p in ps && keep(p)
  {
    if ps != [] {
      FilterMembers(ps[..|ps| - 1], keep);
      assert ps == ps[..|ps| - 1] + [ps[|ps| - 1]];
    }
  }

  lemma {:induction false} FilterKeepsSound(t: Rows, keep: Provider -> bool)
    requires Sound(t)
    ensures Sound(t.(all := Filter(t.all, keep)))
    decreases |t.all|
  {
    if t.all != [] {
      var init, last := t.all[..|t.all| - 1], t.all[|t.all| - 1];
      PrefixIsSound(t, |init|);
      FilterKeepsSound(t.(all := init), keep);
      FilterMembers(init, keep);
      if keep(last) {
        AppendKeepsSound(t, Filter(init, keep));
      } else {
        assert Filter(t.all, keep) == Filter(init, keep);
      }
    }
  }

  lemma PrefixIsSound(t: Rows, n: nat)
    requires Sound(t) && n <= |t.all|
    ensures Sound(t.(all := t.all[..n]))
  {
    var ps := t.all[..n];
    forall i, j | 0 <= i < j < |ps| ensures DistinctAt(ps, i, j) {
      assert DistinctAt(t.all, i, j);
    }
  }

  lemma AppendKeepsSound(t: Rows, some: seq<Provider>)
    requires Sound(t) && t.all != [] && Sound(t.(all := some))
    requires forall p :: p in some ==> p in t.all[..|t.all| - 1]
    ensures Sound(t.(all := some + [t.all[|t.all| - 1]]))
  {
    var n := |t.all| - 1;
    var ps := some + [t.all[n]];
    forall i, j | 0 <= i < j < |ps| ensures DistinctAt(ps, i, j) {
      if j < |some| {
        assert DistinctAt(some, i, j);
      } else {
        assert some[i] in some;
        var k :| 0 <= k < n && t.all[k] == some[i];
        assert DistinctAt(t.all, k, n);
      }
    }
  }

  // ---------- The provider routes ----------

  datatype Outcome = Done(id: nat) | NotFound | Forbidden | Conflict | Invalid

  datatype CatalogEntry = CatalogEntry(displayName: string, baseUrl: string, requiresBaseUrl: bool)

  /** A request to create a provider; an empty text is no text, and `catalog` is the entry an id resolved to. */
  datatype CreateBody = CreateBody(name: string, baseUrl: string, key: string, catalogId: bool, catalog: Option<CatalogEntry>)

  function ChosenUrl(b: CreateBody): string {
    if b.catalogId && b.catalog.Some? && !b.catalog.value.requiresBaseUrl then b.catalog.value.baseUrl else b.baseUrl
  }

  function ChosenName(b: CreateBody): string {
    if b.catalogId && b.catalog.Some? && b.name == "" then b.catalog.value.displayName else b.name
  }

  function Created(t: Rows, b: CreateBody, ptype: string): (Rows, Outcome) {
    if (b.catalogId && b.catalog.None?) || ChosenUrl(b) == "" || ChosenName(b) == "" then (t, Invalid)
    else if Named(t.all, ChosenName(b)).Some? then (t, Conflict)
    else (Inserted(t, ChosenName(b), ChosenUrl(b), b.key, ptype, t.all == [], Database), Done(t.nextId))
  }

  datatype UpdateBody = UpdateBody(name: Option<string>, baseUrl: Option<string>, key: Option<string>)

  predicate TakenByAnother(ps: seq<Provider>, name: string, id: nat) {
    exists p :: p in ps && p.name == name && p.id != id
  }

  function Edited(p: Provider, b: UpdateBody, probed: string): Provider {
    var url := if b.baseUrl.Some? then b.baseUrl.value else p.baseUrl;
    p.(name := if b.name.Some? then b.name.value else p.name,
       baseUrl := url,
       key := if b.key.Some? && b.key.value != "" then b.key.value else p.key,
       ptype := if url != p.baseUrl then probed else p.ptype)
  }

  function Updated(t: Rows, id: nat, b: UpdateBody, probed: string): (Rows, Outcome) {
    var found := ById(t.all, id);
    if found.None? then (t, NotFound)
    else if found.value.source == Env then (t, Forbidden)
    else if found.value.source == Detected && b.baseUrl.Some? && b.baseUrl.value != found.value.baseUrl then (t, Forbidden)
    else if b.name.Some? && TakenByAnother(t.all, b.name.value, id) then (t, Conflict)
    else (t.(all := Written(t.all, Edited(found.value, b, probed))), Done(id))
  }

  function Dropped(ps: seq<Provider>, id: nat): seq<Provider> {
    Filter(ps, (p: Provider) => p.id != id)
  }

  /** Deleting also blanks the model settings that name the provider; that part is in `ModelRoles`. */
  function Deleted(t: Rows, id: nat): (Rows, Outcome) {
    var found := ById(t.all, id);
    if found.None? then (t, NotFound)
    else if found.value.source == Env then (t, Forbidden)
    else if found.value.isDefault then (t, Conflict)
    else (t.(all := Dropped(t.all, id)), Done(id))
  }

  function Defaulted(t: Rows, id: nat): (Rows, Outcome) {
    if ById(t.all, id).None? then (t, NotFound)
    else (t.(all := seq(|t.all|, i requires 0 <= i < |t.all| => t.all[i].(isDefault := t.all[i].id == id))), Done(id))
  }

  lemma CreateKeepsSound(t: Rows, b: CreateBody, ptype: string)
    requires Sound(t)
    ensures Sound(Created(t, b, ptype).0)
  {
    hide Named, Inserted, Sound;
    if Created(t, b, ptype).1.Done? {
      InsertKeepsSound(t, ChosenName(b), ChosenUrl(b), b.key, ptype, t.all == [], Database);
    }
  }

  lemma UpdateKeepsSound(t: Rows, id: nat, b: UpdateBody, probed: string)
    requires Sound(t)
    ensures Sound(Updated(t, id, b, probed).0)
  {
    hide Named, Written, Sound, ById;
    if Updated(t, id, b, probed).1.Done? {
      var p := ById(t.all, id).value;
      var e := Edited(p, b, probed);
      if e.name != p.name && Named(t.all, e.name).Some? {
        OnlyHolder(t, p, Named(t.all, e.name).value);
      }
      WriteKeepsSound(t, p, e);
    }
  }

  lemma OnlyHolder(t: Rows, p: Provider, q: Provider)
    requires Sound(t) && p in t.all && q in t.all && p.id == q.id
    ensures p == q
  {
    SoundIsDistinct(t);
    SameNameSameRow(t, p);
  }

  lemma DeleteKeepsSound(t: Rows, id: nat)
    requires Sound(t)
    ensures Sound(Deleted(t, id).0)
  {
    hide Sound, ById, Filter;
    FilterKeepsSound(t, (p: Provider) => p.id != id);
  }

  /** Setting the default moves it: exactly the named row carries it afterwards. */
  lemma DefaultKeepsSound(t: Rows, id: nat)
    requires Sound(t)
    ensures Sound(Defaulted(t, id).0)
    ensures Defaulted(t, id).1.Done? ==> forall p :: p in Defaulted(t, id).0.all ==> (p.isDefault <==> p.id == id)
  {
    hide ById;
    var t' := Defaulted(t, id).0;
    forall i, j | 0 <= i < j < |t'.all| ensures DistinctAt(t'.all, i, j) {
      assert DistinctAt(t.all, i, j);
    }
  }

  // ---------- What the routes do, spelled out ----------

  /**
   A provider is created exactly if it has a name nobody has and an endpoint, from the request or from its catalog
   entry, which decides the endpoint unless it asks for one.  Otherwise nothing changes.
   */
  lemma CreateOutcome(t: Rows, b: CreateBody, ptype: string)
    ensures var (after, o) := Created(t, b, ptype);
            var entry := b.catalogId && b.catalog.Some?;
            var url := if entry && !b.catalog.value.requiresBaseUrl then b.catalog.value.baseUrl else b.baseUrl;
            var name := if b.name != "" then b.name else if entry then b.catalog.value.displayName else "";
            && (o.Invalid? <==> (b.catalogId && b.catalog.None?) || url == "" || name == "")
            && (o.Conflict? <==> !o.Invalid? && exists p :: p in t.all && p.name == name)
            && (if o.Invalid? || o.Conflict? then after == t
                else o == Done(t.nextId) && after.nextId == t.nextId + 1
                     && after.all == t.all + [Provider(t.nextId, name, url, b.key, ptype, t.all == [], Database)])
  {
    hide Named;
  }

  /**
   An update changes exactly what it gives, the type only with the endpoint.  It is refused for the environment's
   providers, for another endpoint of a detected one, and for a name another provider has; then nothing changes.
   */
  lemma UpdateOutcome(t: Rows, id: nat, b: UpdateBody, probed: string, p: Provider)
    requires Sound(t) && p in t.all && p.id == id
    ensures var (after, o) := Updated(t, id, b, probed);
            var url := if b.baseUrl.Some? then b.baseUrl.value else p.baseUrl;
            && (o.Forbidden? <==> p.source == Env || (p.source == Detected && url != p.baseUrl))
            && (o.Conflict? <==> !o.Forbidden? && b.name.Some? && exists q :: q in t.all && q.name == b.name.value && q.id != id)
            && (o.Forbidden? || o.Conflict? ==> after == t)
            && (!o.Forbidden? && !o.Conflict? ==>
                  && o == Done(id) && |after.all| == |t.all| && after.nextId == t.nextId
                  && (forall q :: q in t.all && q.id != id ==> q in after.all)
                  && Provider(id, if b.name.Some? then b.name.value else p.name, url,
                              if b.key.Some? && b.key.value != "" then b.key.value else p.key,
                              if url != p.baseUrl then probed else p.ptype, p.isDefault, p.source) in after.all)
  {
    hide Sound, ById, Written;
    var found := ById(t.all, id);
    assert found.Some?;
    OnlyHolder(t, found.value, p);
    var e := Edited(p, b, probed);
    var i :| 0 <= i < |t.all| && t.all[i] == p;
    assert Written(t.all, e)[i] == e;
    forall q | q in t.all && q.id != id ensures q in Written(t.all, e) {
      var j :| 0 <= j < |t.all| && t.all[j] == q;
      assert Written(t.all, e)[j] == q;
    }
  }

  /** A delete takes away exactly the row named, unless it is the environment's or the default. */
  lemma DeleteOutcome(t: Rows, id: nat)
    requires Sound(t)
    ensures var (after, o) := Deleted(t, id);
            && (o.NotFound? <==> forall p :: p in t.all ==> p.id != id)
            && (o.Forbidden? <==> exists p :: p in t.all && p.id == id && p.source == Env)
            && (o.Conflict? <==> exists p :: p in t.all && p.id == id && p.source != Env && p.isDefault)
            && (!o.Done? ==> after == t)
            && (o.Done? ==> forall p :: p in after.all <==> p in t.all && p.id != id)
  {
    hide Sound, ById, Filter;
    FilterMembers(t.all, (p: Provider) => p.id != id);
    var found := ById(t.all, id);
    if found.Some? {
      forall p | p in t.all && p.id == id ensures p == found.value {
        OnlyHolder(t, p, found.value);
      }
    }
  }

  /** Setting the default changes no other field of any row, and is refused only for a row that is not there. */
  lemma DefaultOutcome(t: Rows, id: nat)
    ensures var (after, o) := Defaulted(t, id);
            && (o.NotFound? <==> forall p :: p in t.all ==> p.id != id)
            && (o.NotFound? ==> after == t)
            && (!o.NotFound? ==>
                  && o == Done(id) && |after.all| == |t.all| && after.nextId == t.nextId
                  && forall i :: 0 <= i < |t.all| ==> after.all[i] == t.all[i].(isDefault := t.all[i].id == id))
  {
    hide ById;
  }

  // ---------- The environment ----------

  /** The three variables of one index; an unset one is empty. */
  datatype EnvEntry = EnvEntry(name: string, baseUrl: string, key: string, probed: string)

  predicate Complete(e: EnvEntry) {
    e.name != "" && e.baseUrl != "" && e.key != ""
  }

  /** The entries up to the first incomplete one. */
  function Usable(env: seq<EnvEntry>): seq<EnvEntry> {
    if env == [] || !Complete(env[0]) then [] else [env[0]] + Usable(env[1..])
  }

  function EnvNames(es: seq<EnvEntry>): set<string> {
    if es == [] then {} else EnvNames(es[..|es| - 1]) + {es[|es| - 1].name}
  }

  function Upserted(t: Rows, e: EnvEntry, first: bool): Rows {
    var found := Named(t.all, e.name);
    if found.Some?
    then t.(all := Written(t.all, found.value.(baseUrl := e.baseUrl, key := e.key, ptype := e.probed,
                                               isDefault := first, source := Env)))
    else Inserted(t, e.name, e.baseUrl, e.key, e.probed, first, Env)
  }

  function UpsertedAll(t: Rows, es: seq<EnvEntry>): Rows {
    if es == [] then t else Upserted(UpsertedAll(t, es[..|es| - 1]), es[|es| - 1], |es| == 1)
  }

  predicate Foreign(p: Provider, names: set<string>) {
    p.source != Env || p.name !in names
  }

  /** Once the environment names providers, no other provider stays the default. */
  function Unclaimed(t: Rows, names: set<string>): Rows {
    if names == {} then t
    else t.(all := seq(|t.all|, i requires 0 <= i < |t.all| =>
                     if t.all[i].isDefault && Foreign(t.all[i], names) then t.all[i].(isDefault := false) else t.all[i]))
  }

  predicate StaleEnv(p: Provider, names: set<string>) {
    p.source == Env && p.name !in names
  }

  function Current(ps: seq<Provider>, names: set<string>): seq<Provider> {
    Filter(ps, (p: Provider) => !StaleEnv(p, names))
  }

  function StaleIds(ps: seq<Provider>, names: set<string>): seq<nat> {
    if ps == [] then []
    else StaleIds(ps[..|ps| - 1], names) + (if StaleEnv(ps[|ps| - 1], names) then [ps[|ps| - 1].id] else [])
  }

  /** `scan_env_providers`, on the rows. */
  function EnvScanned(t: Rows, env: seq<EnvEntry>): Rows {
    var es := Usable(env);
    var merged := Unclaimed(UpsertedAll(t, es), EnvNames(es));
    merged.(all := Current(merged.all, EnvNames(es)))
  }

  lemma InsertKeepsDistinct(t: Rows, name: string, baseUrl: string, key: string, ptype: string, isDefault: bool, source: Source)
    requires Distinct(t) && Named(t.all, name).None?
    ensures Distinct(Inserted(t, name, baseUrl, key, ptype, isDefault, source))
  {
    hide Named;
  }

  lemma WriteKeepsDistinct(t: Rows, old': Provider, p: Provider)
    requires Distinct(t) && old' in t.all && p.id == old'.id && p.name == old'.name
    ensures Distinct(t.(all := Written(t.all, p)))
    ensures forall q :: q in Written(t.all, p) <==> q == p || (q in t.all && q.id != p.id)
  {
    hide Written;
    var k :| 0 <= k < |t.all| && t.all[k] == old';
    var ps := Written(t.all, p);
    assert ps[k] == p;
    forall q | q in t.all && q.id != p.id ensures q in ps {
      var i :| 0 <= i < |t.all| && t.all[i] == q;
      assert ps[i] == q;
    }
  }

  lemma UpsertKeepsDistinct(t: Rows, e: EnvEntry, first: bool)
    requires Distinct(t)
    ensures Distinct(Upserted(t, e, first))
    ensures forall p :: p in Upserted(t, e, first).all ==>
                          if p.name == e.name then p.source == Env && p.isDefault == first else p in t.all
    ensures exists p :: p in Upserted(t, e, first).all && p.name == e.name
    ensures forall p :: p in t.all && p.name != e.name ==> p in Upserted(t, e, first).all
  {
    hide Named, Written;
    var found := Named(t.all, e.name);
    if found.Some? {
      var p := found.value.(baseUrl := e.baseUrl, key := e.key, ptype := e.probed, isDefault := first, source := Env);
      WriteKeepsDistinct(t, found.value, p);
      assert p in Upserted(t, e, first).all;
      SameNameSameRow(t, found.value);
    } else {
      InsertKeepsDistinct(t, e.name, e.baseUrl, e.key, e.probed, first, Env);
      assert Upserted(t, e, first).all[|t.all|].name == e.name;
    }
  }

  lemma SameNameSameRow(t: Rows, p: Provider)
    requires Distinct(t) && p in t.all
    ensures forall q :: q in t.all ==> (q.id == p.id <==> q.name == p.name) && (q.id == p.id ==> q == p)
  {
  }

  /** Whether the entry of index 0 is the last one of that name. */
  predicate FirstStands(es: seq<EnvEntry>) {
    es != [] && forall i :: 0 < i < |es| ==> es[i].name != es[0].name
  }

  lemma {:induction false} UpsertsKeepDistinct(t: Rows, es: seq<EnvEntry>)
    requires Distinct(t)
    ensures Distinct(UpsertedAll(t, es))
    ensures forall p :: p in UpsertedAll(t, es).all ==>
              if p.name in EnvNames(es) then p.source == Env && (p.isDefault <==> FirstStands(es) && p.name == es[0].name)
              else p in t.all
    ensures forall n :: n in EnvNames(es) ==> exists p :: p in UpsertedAll(t, es).all && p.name == n
    ensures forall p :: p in t.all && p.name !in EnvNames(es) ==> p in UpsertedAll(t, es).all
  {
    hide Upserted, Distinct;
    if es != [] {
      var init, e := es[..|es| - 1], es[|es| - 1];
      UpsertsKeepDistinct(t, init);
      UpsertKeepsDistinct(UpsertedAll(t, init), e, |es| == 1);
      if init != [] {
        NamedFirst(init);
        assert FirstStands(es) <==> FirstStands(init) && e.name != es[0].name;
      }
    }
  }

  lemma {:induction false} NamedFirst(es: seq<EnvEntry>)
    requires es != []
    ensures es[0].name in EnvNames(es)
  {
    if |es| > 1 {
      NamedFirst(es[..|es| - 1]);
    }
  }

  lemma UnclaimedKeepsDistinct(t: Rows, names: set<string>)
    requires Distinct(t)
    ensures Distinct(Unclaimed(t, names))
  {
  }

  /**
   After a scan of the environment at most one provider is the default; if the environment names any, the
   default is exactly the provider of index 0, unless a later entry repeats its name.
   */
  lemma EnvScanKeepsSound(t: Rows, env: seq<EnvEntry>)
    requires Sound(t)
    ensures Sound(EnvScanned(t, env))
    ensures Usable(env) != [] ==>
              forall p :: p in EnvScanned(t, env).all ==>
                            (p.isDefault <==> FirstStands(Usable(env)) && p.name == Usable(env)[0].name)
  {
    hide Sound, Distinct, UpsertedAll, Filter, Usable, FirstStands;
    SoundIsDistinct(t);
    var es := Usable(env);
    var names := EnvNames(es);
    var up := UpsertedAll(t, es);
    var merged := Unclaimed(up, names);
    UpsertsKeepDistinct(t, es);
    UnclaimedKeepsDistinct(up, names);
    if es == [] {
      assert merged == t by { NothingUpserted(t); }
    } else {
      NamedFirst(es);
      forall p | p in merged.all ensures p.isDefault <==> FirstStands(es) && p.name == es[0].name {
        var i :| 0 <= i < |merged.all| && merged.all[i] == p;
        assert up.all[i] in up.all;
      }
      OneDefaultName(merged, es[0].name);
    }
    FilterKeepsSound(merged, (p: Provider) => !StaleEnv(p, names));
    FilterMembers(merged.all, (p: Provider) => !StaleEnv(p, names));
  }

  lemma NothingUpserted(t: Rows)
    ensures UpsertedAll(t, []) == t
  {
  }

  /** The environment's entries are those before the first that lacks a name, an endpoint or a key. */
  lemma {:induction false} UsableIs(env: seq<EnvEntry>)
    ensures var n := |Usable(env)|;
            && n <= |env| && Usable(env) == env[..n]
            && (forall i :: 0 <= i < n ==> env[i].name != "" && env[i].baseUrl != "" && env[i].key != "")
            && (n < |env| ==> env[n].name == "" || env[n].baseUrl == "" || env[n].key == "")
  {
    if env != [] && Complete(env[0]) {
      UsableIs(env[1..]);
      var n := |Usable(env[1..])|;
      assert env[..n + 1] == [env[0]] + env[1..][..n];
    }
  }

  lemma {:induction false} EnvNamesAre(es: seq<EnvEntry>, name: string)
    ensures name in EnvNames(es) <==> exists i :: 0 <= i < |es| && es[i].name == name
  {
    if es != [] {
      EnvNamesAre(es[..|es| - 1], name);
    }
  }

  /** The row an entry leaves behind: its endpoint, key and type, whoever had the name before. */
  ghost predicate WrittenBy(p: Provider, e: EnvEntry) {
    p.name == e.name && p.baseUrl == e.baseUrl && p.key == e.key && p.ptype == e.probed && p.source == Env
  }

  lemma UpsertWrites(t: Rows, e: EnvEntry, first: bool)
    requires Distinct(t)
    ensures exists p :: p in Upserted(t, e, first).all && WrittenBy(p, e)
                        && (forall q :: q in t.all && q.name == e.name ==> q.id == p.id)
  {
    hide Named, Written;
    var found := Named(t.all, e.name);
    if found.Some? {
      var p := found.value.(baseUrl := e.baseUrl, key := e.key, ptype := e.probed, isDefault := first, source := Env);
      WriteKeepsDistinct(t, found.value, p);
      SameNameSameRow(t, found.value);
      assert p in Upserted(t, e, first).all && WrittenBy(p, e);
    } else {
      var p := Upserted(t, e, first).all[|t.all|];
      assert p in Upserted(t, e, first).all && WrittenBy(p, e);
    }
  }

  /** Each entry of the environment that no later one repeats is in the table with its endpoint, key and type. */
  lemma {:induction false} UpsertsWrite(t: Rows, es: seq<EnvEntry>, i: nat)
    requires Distinct(t) && i < |es| && forall j :: i < j < |es| ==> es[j].name != es[i].name
    ensures exists p :: p in UpsertedAll(t, es).all && WrittenBy(p, es[i])
  {
    hide Upserted, Distinct, WrittenBy, FirstStands;
    var n := |es| - 1;
    var before := UpsertedAll(t, es[..n]);
    UpsertsKeepDistinct(t, es[..n]);
    if i == n {
      UpsertWrites(before, es[n], |es| == 1);
    } else {
      UpsertsWrite(t, es[..n], i);
      var p :| p in before.all && WrittenBy(p, es[i]);
      UpsertKeepsDistinct(before, es[n], |es| == 1);
      assert p.name == es[i].name by { WrittenName(p, es[i]); }
    }
  }

  lemma WrittenName(p: Provider, e: EnvEntry)
    requires WrittenBy(p, e)
    ensures p.name == e.name
  {
  }

  /** After a scan of the environment the table holds what it says, whoever had the names before. */
  lemma EnvScanWrites(t: Rows, env: seq<EnvEntry>, i: nat)
    requires Sound(t) && i < |Usable(env)| && forall j :: i < j < |Usable(env)| ==> Usable(env)[j].name != Usable(env)[i].name
    ensures var e := Usable(env)[i];
            exists p :: p in EnvScanned(t, env).all && p.name == e.name && p.baseUrl == e.baseUrl
                        && p.key == e.key && p.ptype == e.probed && p.source == Env
  {
    hide Sound, Distinct, UpsertedAll, Filter, Usable, FirstStands;
    var es := Usable(env);
    var names := EnvNames(es);
    SoundIsDistinct(t);
    UpsertsWrite(t, es, i);
    var p :| p in UpsertedAll(t, es).all && WrittenBy(p, es[i]);
    var q := UnclaimedHas(UpsertedAll(t, es), names, p);
    EnvNamesAre(es, q.name);
    FilterMembers(Unclaimed(UpsertedAll(t, es), names).all, (o: Provider) => !StaleEnv(o, names));
    assert q in EnvScanned(t, env).all;
  }

  /** The environment scan removes the providers it no longer names, and no other. */
  lemma EnvScanRemoves(t: Rows, env: seq<EnvEntry>)
    requires Sound(t)
    ensures forall p :: p in EnvScanned(t, env).all && p.source == Env ==> p.name in EnvNames(Usable(env))
    ensures forall n :: n in EnvNames(Usable(env)) ==> exists p :: p in EnvScanned(t, env).all && p.name == n && p.source == Env
    ensures forall p :: p in t.all && p.source != Env && p.name !in EnvNames(Usable(env)) ==>
                          exists q :: q in EnvScanned(t, env).all && q == p.(isDefault := q.isDefault)
    ensures Usable(env) == [] ==> forall p :: p in EnvScanned(t, env).all <==> p in t.all && p.source != Env
  {
    hide Sound, Distinct, UpsertedAll, Filter, Usable, FirstStands;
    NothingUpserted(t);
    SoundIsDistinct(t);
    var es := Usable(env);
    var names := EnvNames(es);
    var up := UpsertedAll(t, es);
    var merged := Unclaimed(up, names);
    UpsertsKeepDistinct(t, es);
    FilterMembers(merged.all, (p: Provider) => !StaleEnv(p, names));
    forall n | n in names ensures exists p :: p in EnvScanned(t, env).all && p.name == n && p.source == Env {
      var q :| q in up.all && q.name == n;
      var p := UnclaimedHas(up, names, q);
      assert p in Current(merged.all, names);
    }
    forall p | p in t.all && p.source != Env && p.name !in names
      ensures exists q :: q in EnvScanned(t, env).all && q == p.(isDefault := q.isDefault) {
      var q := UnclaimedHas(up, names, p);
      assert q in Current(merged.all, names);
    }
  }

  /** The rows an environment scan takes away. */
  lemma {:induction false} StaleIdsAre(ps: seq<Provider>, names: set<string>, id: nat)
    ensures id in StaleIds(ps, names) <==> exists p :: p in ps && p.source == Env && p.name !in names && p.id == id
  {
    if ps != [] {
      StaleIdsAre(ps[..|ps| - 1], names, id);
      assert ps == ps[..|ps| - 1] + [ps[|ps| - 1]];
    }
  }

  lemma StaleWereThere(t: Rows, es: seq<EnvEntry>, id: nat)
    requires Distinct(t)
    ensures id in StaleIds(Unclaimed(UpsertedAll(t, es), EnvNames(es)).all, EnvNames(es)) <==>
            exists p :: p in t.all && p.source == Env && p.name !in EnvNames(es) && p.id == id
  {
    hide Distinct, UpsertedAll, FirstStands, StaleIds;
    var names, up := EnvNames(es), UpsertedAll(t, es);
    var all := Unclaimed(up, names).all;
    UpsertsKeepDistinct(t, es);
    StaleIdsAre(all, names, id);
    if exists q :: q in all && q.source == Env && q.name !in names && q.id == id {
      var q :| q in all && q.source == Env && q.name !in names && q.id == id;
      var i :| 0 <= i < |all| && all[i] == q;
      assert up.all[i] in up.all;
    }
    if exists p :: p in t.all && p.source == Env && p.name !in names && p.id == id {
      var p :| p in t.all && p.source == Env && p.name !in names && p.id == id;
      var q := UnclaimedHas(up, names, p);
    }
  }

  lemma UnclaimedHas(t: Rows, names: set<string>, p: Provider) returns (q: Provider)
    requires p in t.all
    ensures q in Unclaimed(t, names).all && q == p.(isDefault := q.isDefault)
  {
    var i :| 0 <= i < |t.all| && t.all[i] == p;
    q := Unclaimed(t, names).all[i];
  }
}
