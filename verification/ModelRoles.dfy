/** The settings that name a model: whether anybody chose one, clearing them, and establishing them. */
module ModelRoles {
  import opened Text
  import opened ProviderRows

  /** A stored setting: a legacy model name, a provider with a model, or anything else. */
  datatype Value = Bare(s: string) | Dict(provider: Option<nat>, model: string, modelId: string) | Other

  type Settings = map<string, Value>

  const MODEL_ROLE_SETTINGS := ["llm_model", "task_processing_model"]
  const CLEARED_SETTINGS := ["llm_model", "task_processing_model", "transcription_model"]
  const BLANK := Dict(None, "", "")

  function ModelOf(v: Value): string {
    match v
    case Dict(_, model, modelId) => if model != "" then model else modelId
    case _ => ""
  }

  /** Whether somebody chose a model here, usable or not. */
  predicate NamesModel(v: Value) {
    match v
    case Bare(s) => Strip(s) != ""
    case _ => ModelOf(v) != ""
  }

  predicate RoleSet(s: Settings, key: string) {
    key in s && NamesModel(s[key])
  }

  /** `any_role_configured`. */
  predicate AnyRole(s: Settings) {
    RoleSet(s, "llm_model") || RoleSet(s, "task_processing_model")
  }

  // ---------- Whether the roles resolve ----------

  /** What providers list, by endpoint and key; a listing that cannot be read is absent. */
  type Listings = map<(string, string), seq<string>>

  function ListingOf(p: Provider, ls: Listings): Option<seq<string>> {
    if (p.baseUrl, p.key) in ls then Some(ls[(p.baseUrl, p.key)]) else None
  }

  /** A role resolves if it names a model of a provider that exists and is not known not to serve it. */
  predicate Resolves(s: Settings, key: string, ps: seq<Provider>, ls: Listings) {
    && key in s && s[key].Dict? && ModelOf(s[key]) != "" && s[key].provider.Some?
    && var p := ById(ps, s[key].provider.value);
       p.Some? && (ListingOf(p.value, ls).None? || ModelOf(s[key]) in ListingOf(p.value, ls).value)
  }

  datatype Selection = Selection(configured: bool, provider: Option<nat>, model: Option<string>, anyRole: bool)

  function SelectionOf(s: Settings, ps: seq<Provider>, ls: Listings): Selection {
    var configured := Resolves(s, "llm_model", ps, ls) && Resolves(s, "task_processing_model", ps, ls);
    Selection(configured,
              if configured then s["llm_model"].provider else None,
              if configured then Some(ModelOf(s["llm_model"])) else None,
              AnyRole(s))
  }

  /** The roles that name a provider that exists, with that provider and the model. */
  method ClaimedRoles(s: Settings, ps: seq<Provider>) returns (resolved: map<string, (nat, string)>, anyRoleSet: bool)
    ensures anyRoleSet <==> AnyRole(s)
    ensures forall k :: k in resolved <==> k in MODEL_ROLE_SETTINGS && Claims(s, k, ps)
    ensures forall k :: k in resolved ==> Claims(s, k, ps) && resolved[k] == (s[k].provider.value, ModelOf(s[k]))
  {
    hide ById, Strip;
    resolved, anyRoleSet := map[], false;
    for i := 0 to |MODEL_ROLE_SETTINGS|
      invariant anyRoleSet <==> AnyOf(s, MODEL_ROLE_SETTINGS[..i])
      invariant forall k :: k in resolved <==> k in MODEL_ROLE_SETTINGS[..i] && Claims(s, k, ps)
      invariant forall k :: k in resolved ==> Claims(s, k, ps) && resolved[k] == (s[k].provider.value, ModelOf(s[k]))
    {
      var key := MODEL_ROLE_SETTINGS[i];
      assert MODEL_ROLE_SETTINGS[..i + 1] == MODEL_ROLE_SETTINGS[..i] + [key];
      if key in s {
        match s[key] {
          case Bare(text) =>
            anyRoleSet := anyRoleSet || Strip(text) != "";
          case Dict(provider, _, _) =>
            var model := ModelOf(s[key]);
            anyRoleSet := anyRoleSet || model != "";
            if provider.Some? && model != "" && ById(ps, provider.value).Some? {
              resolved := resolved[key := (provider.value, model)];
            }
          case Other =>
        }
      }
    }
    TwoRoles();
    AnyOfTwo(s);
  }

  predicate AnyOf(s: Settings, keys: seq<string>) {
    keys != [] && (AnyOf(s, keys[..|keys| - 1]) || RoleSet(s, keys[|keys| - 1]))
  }

  lemma AnyOfTwo(s: Settings)
    ensures AnyOf(s, MODEL_ROLE_SETTINGS) <==> AnyRole(s)
  {
    hide RoleSet;
    var one: seq<string> := ["llm_model"];
    assert one[..0] == [] && !AnyOf(s, []);
    assert AnyOf(s, one) <==> RoleSet(s, "llm_model");
    assert MODEL_ROLE_SETTINGS[..1] == one;
  }

  /** `model_selection_state`: resolve every role, then drop the ones a readable listing contradicts. */
  method SelectionState(s: Settings, ps: seq<Provider>, ls: Listings) returns (r: Selection)
    ensures r == SelectionOf(s, ps, ls)
  {
    hide ById, AnyRole, Strip, ModelOf;
    var resolved, anyRoleSet := ClaimedRoles(s, ps);
    ghost var claimed := resolved;
    for i := 0 to |MODEL_ROLE_SETTINGS|
      invariant forall k :: k in resolved <==>
                            k in claimed && (k in MODEL_ROLE_SETTINGS[..i] ==> Resolves(s, k, ps, ls))
      invariant forall k :: k in resolved ==> resolved[k] == claimed[k]
    {
      var key := MODEL_ROLE_SETTINGS[i];
      assert forall k :: k in MODEL_ROLE_SETTINGS[..i + 1] <==> k in MODEL_ROLE_SETTINGS[..i] || k == key;
      if key in resolved {
        var listing := ListingOf(ById(ps, resolved[key].0).value, ls);
        if listing.Some? && resolved[key].1 !in listing.value {
          resolved := resolved - {key};
        }
      }
    }
    TwoRoles();
    var configured := "llm_model" in resolved && "task_processing_model" in resolved;
    return Selection(configured,
                     if configured then Some(resolved["llm_model"].0) else None,
                     if configured then Some(resolved["llm_model"].1) else None,
                     anyRoleSet);
  }

  lemma TwoRoles()
    ensures MODEL_ROLE_SETTINGS[..|MODEL_ROLE_SETTINGS|] == MODEL_ROLE_SETTINGS
    ensures forall k :: k in MODEL_ROLE_SETTINGS <==> k == "llm_model" || k == "task_processing_model"
  {
  }

  predicate Claims(s: Settings, key: string, ps: seq<Provider>) {
    key in s && s[key].Dict? && ModelOf(s[key]) != "" && s[key].provider.Some? && ById(ps, s[key].provider.value).Some?
  }

  // ---------- The same, spelled out ----------

  /** A role is chosen by a model name of either form: the legacy text, or either field of a selection. */
  lemma AnyRoleIff(s: Settings)
    ensures AnyRole(s) <==>
            exists key :: key in ["llm_model", "task_processing_model"] && key in s
                          && match s[key]
                             case Bare(text) => Strip(text) != ""
                             case Dict(_, model, modelId) => model != "" || modelId != ""
                             case Other => false
  {
    hide Strip;
    assert "llm_model" in ["llm_model", "task_processing_model"] && "task_processing_model" in ["llm_model", "task_processing_model"];
  }

  /** A role works exactly if it names a provider that is there and a model that provider does not fail to list. */
  lemma ResolvesIff(s: Settings, key: string, ps: seq<Provider>, ls: Listings)
    requires forall i, j :: 0 <= i < j < |ps| ==> ps[i].id != ps[j].id
    ensures Resolves(s, key, ps, ls) <==>
            && key in s && s[key].Dict? && (s[key].model != "" || s[key].modelId != "")
            && exists p :: p in ps && s[key].provider == Some(p.id)
                           && ((p.baseUrl, p.key) in ls ==>
                                 (if s[key].model != "" then s[key].model else s[key].modelId) in ls[(p.baseUrl, p.key)])
  {
    hide ById;
    if key in s && s[key].Dict? && s[key].provider.Some? {
      var found := ById(ps, s[key].provider.value);
      forall p | p in ps && s[key].provider == Some(p.id) ensures found == Some(p) {
        var i :| 0 <= i < |ps| && ps[i] == p;
      }
    }
  }

  /** The state reports the first role's model exactly if both roles work. */
  lemma SelectionIs(s: Settings, ps: seq<Provider>, ls: Listings)
    ensures var r := SelectionOf(s, ps, ls);
            && (r.configured <==> Resolves(s, "llm_model", ps, ls) && Resolves(s, "task_processing_model", ps, ls))
            && (r.configured ==> r.provider == s["llm_model"].provider && r.model == Some(ModelOf(s["llm_model"])))
            && (!r.configured ==> r.provider.None? && r.model.None?)
            && r.anyRole == AnyRole(s)
  {
    hide AnyRole, ById, ListingOf;
  }

  // ---------- Writing the settings ----------

  predicate PointsAt(v: Value, id: nat) {
    v.Dict? && v.provider == Some(id)
  }

  /** `_clear_model_settings_for_provider`. */
  function Cleared(s: Settings, id: nat): Settings {
    map k | k in s :: if k in CLEARED_SETTINGS && PointsAt(s[k], id) then BLANK else s[k]
  }

  function ClearedAll(s: Settings, ids: seq<nat>): Settings {
    if ids == [] then s else Cleared(ClearedAll(s, ids[..|ids| - 1]), ids[|ids| - 1])
  }

  /** Deleting providers blanks exactly the model settings that name one of them. */
  lemma {:induction false} ClearsExactly(s: Settings, ids: seq<nat>)
    ensures ClearedAll(s, ids).Keys == s.Keys
    ensures forall k :: k in s ==>
              ClearedAll(s, ids)[k] ==
              if k in CLEARED_SETTINGS && s[k].Dict? && s[k].provider.Some? && s[k].provider.value in ids then BLANK else s[k]
  {
    if ids != [] {
      var init := ids[..|ids| - 1];
      ClearsExactly(s, init);
      assert ids == init + [ids[|ids| - 1]];
    }
  }

  /** A cleared setting names no provider and no model. */
  lemma BlankIs()
    ensures BLANK == Dict(None, "", "") && CLEARED_SETTINGS == ["llm_model", "task_processing_model", "transcription_model"]
  {
  }

  /** Clearing never makes a role name a model that did not. */
  lemma ClearingNamesNothing(s: Settings, ids: seq<nat>, key: string)
    requires RoleSet(ClearedAll(s, ids), key)
    ensures RoleSet(s, key) && ClearedAll(s, ids)[key] == s[key]
  {
    hide ClearedAll, Strip;
    ClearsExactly(s, ids);
  }

  /** `set_model_selection`. */
  function Selected(s: Settings, id: nat, model: string): Settings {
    s["llm_model" := Dict(Some(id), model, "")]["task_processing_model" := Dict(Some(id), model, "")]
  }

  /** `establish_model_settings_if_unset`: the sole model a provider serves, where nobody chose one. */
  function Established(s: Settings, p: Provider, ls: Listings): (Settings, Option<string>) {
    var listing := ListingOf(p, ls);
    if AnyRole(s) || listing.None? || |listing.value| != 1 then (s, None)
    else (Selected(s, p.id, listing.value[0]), Some(listing.value[0]))
  }

  /** Both roles move to a provider's only model, exactly if no role is set and the listing can be read and is one long. */
  lemma EstablishedIs(s: Settings, p: Provider, ls: Listings)
    ensures var (after, model) := Established(s, p, ls);
            if (RoleSet(s, "llm_model") || RoleSet(s, "task_processing_model"))
               || (p.baseUrl, p.key) !in ls || |ls[(p.baseUrl, p.key)]| != 1 then after == s && model.None?
            else
              && model == Some(ls[(p.baseUrl, p.key)][0])
              && after.Keys == s.Keys + {"llm_model", "task_processing_model"}
              && (forall k :: k in after ==>
                    after[k] == if k in ["llm_model", "task_processing_model"] then Dict(Some(p.id), model.value, "") else s[k])
  {
    hide RoleSet;
  }
}
