/** Detecting AI runtimes on the host: what a scan registers, keeps, removes and configures. */
module LocalScan {
  import opened Text
  import opened ProviderRows
  import opened ModelRoles

  const DETECTED_API_KEY := "sk-no-key-required"

  datatype Candidate = Candidate(name: string, port: nat)

  const LOCAL_AI_CANDIDATES := [
    Candidate("ollama", 11434), Candidate("lm-studio", 1234), Candidate("llama.cpp", 8080), Candidate("jan", 1337),
    Candidate("vllm", 8000), Candidate("localai", 8080), Candidate("gpt4all", 4891), Candidate("mlx", 10240)]

  const PORTS: seq<nat> := [11434, 1234, 8080, 1337, 8000, 4891, 10240]

  /** `candidate_ports`: the distinct ports, in candidate order. */
  method CandidatePorts() returns (seen: seq<nat>)
    ensures seen == PORTS
  {
    seen := [];
    for i := 0 to |LOCAL_AI_CANDIDATES|
      invariant i <= 5 ==> seen == PORTS[..i]
      invariant i >= 6 ==> seen == PORTS[..i - 1]
    {
      if i == 5 {
        assert seen[2] == LOCAL_AI_CANDIDATES[5].port;
      }
      if LOCAL_AI_CANDIDATES[i].port !in seen {
        seen := seen + [LOCAL_AI_CANDIDATES[i].port];
      }
    }
  }

  function Signature(owner: string): Option<string> {
    if owner == "library" then Some("ollama")
    else if owner == "organization_owner" then Some("lm-studio")
    else if owner == "llamacpp" || owner == "llama.cpp" then Some("llama.cpp")
    else if owner in ["vllm", "localai", "omlx"] then Some(owner)
    else None
  }

  /** The owners that name a runtime, and which one. */
  lemma SignatureIs(owner: string)
    ensures Signature("library") == Some("ollama") && Signature("organization_owner") == Some("lm-studio")
    ensures Signature("llamacpp") == Some("llama.cpp") && Signature("llama.cpp") == Some("llama.cpp")
    ensures Signature("vllm") == Some("vllm") && Signature("localai") == Some("localai") && Signature("omlx") == Some("omlx")
    ensures owner !in ["library", "organization_owner", "llamacpp", "llama.cpp", "vllm", "localai", "omlx"] ==>
              Signature(owner).None?
  {
  }

  function FirstSignature(owners: seq<string>): Option<string> {
    if owners == [] then None
    else if Signature(owners[0]).Some? then Signature(owners[0])
    else FirstSignature(owners[1..])
  }

  function ClaimantsAmong(cs: seq<Candidate>, port: nat): seq<string> {
    if cs == [] then []
    else ClaimantsAmong(cs[..|cs| - 1], port) + (if cs[|cs| - 1].port == port then [cs[|cs| - 1].name] else [])
  }

  function Claimants(port: nat): seq<string> {
    ClaimantsAmong(LOCAL_AI_CANDIDATES, port)
  }

  /** `identify_runtime` on a listing whose entries name these owners, trimmed and in lower case. */
  function IdentifyRuntime(owners: seq<string>, port: nat): string {
    if FirstSignature(owners).Some? then FirstSignature(owners).value
    else if (forall i :: 0 <= i < |owners| ==> owners[i] == "") && |Claimants(port)| == 1 then Claimants(port)[0]
    else "local-ai-" + NatText(port)
  }

  /** The entry is the first that names a runtime. */
  predicate FirstRecognised(owners: seq<string>, i: nat) {
    i < |owners| && Signature(owners[i]).Some? && forall j :: 0 <= j < i ==> Signature(owners[j]).None?
  }

  lemma {:induction false} FirstSignatureIs(owners: seq<string>)
    ensures forall i: nat :: FirstRecognised(owners, i) ==> FirstSignature(owners) == Signature(owners[i])
    ensures FirstSignature(owners).None? ==> forall i :: 0 <= i < |owners| ==> Signature(owners[i]).None?
  {
    hide Signature;
    if owners != [] {
      FirstSignatureIs(owners[1..]);
      forall i: nat | FirstRecognised(owners, i) ensures FirstSignature(owners) == Signature(owners[i]) {
        if i > 0 {
          assert FirstRecognised(owners[1..], i - 1);
        }
      }
    }
  }

  lemma {:induction false} OneClaimant(cs: seq<Candidate>, port: nat, k: nat)
    requires k < |cs| && cs[k].port == port
    requires forall j :: 0 <= j < |cs| && j != k ==> cs[j].port != port
    ensures ClaimantsAmong(cs, port) == [cs[k].name]
  {
    var init := cs[..|cs| - 1];
    if k < |init| {
      OneClaimant(init, port, k);
    } else {
      NoClaimant(init, port);
    }
  }

  lemma {:induction false} NoClaimant(cs: seq<Candidate>, port: nat)
    requires forall j :: 0 <= j < |cs| ==> cs[j].port != port
    ensures ClaimantsAmong(cs, port) == []
  {
    if cs != [] {
      NoClaimant(cs[..|cs| - 1], port);
    }
  }

  lemma {:induction false} TwoClaimants(cs: seq<Candidate>, port: nat, j: nat, k: nat)
    requires j < k < |cs| && cs[j].port == port && cs[k].port == port
    ensures |ClaimantsAmong(cs, port)| >= 2
  {
    var init := cs[..|cs| - 1];
    if k < |init| {
      TwoClaimants(init, port, j, k);
    } else {
      AClaimant(init, port, j);
    }
  }

  lemma {:induction false} AClaimant(cs: seq<Candidate>, port: nat, j: nat)
    requires j < |cs| && cs[j].port == port
    ensures |ClaimantsAmong(cs, port)| >= 1
  {
    var init := cs[..|cs| - 1];
    if j < |init| {
      AClaimant(init, port, j);
    }
  }

  predicate Silent(owners: seq<string>) {
    forall i :: 0 <= i < |owners| ==> owners[i] == ""
  }

  /** The candidate is the only one that listens on the port. */
  predicate OnlyOn(port: nat, k: nat) {
    && k < |LOCAL_AI_CANDIDATES| && LOCAL_AI_CANDIDATES[k].port == port
    && forall j :: 0 <= j < |LOCAL_AI_CANDIDATES| && j != k ==> LOCAL_AI_CANDIDATES[j].port != port
  }

  /** How many claimants there are, and who the only one is. */
  lemma ClaimantsAre(port: nat)
    ensures forall k: nat :: OnlyOn(port, k) ==> Claimants(port) == [LOCAL_AI_CANDIDATES[k].name]
    ensures (forall k: nat :: !OnlyOn(port, k)) ==> |Claimants(port)| != 1
  {
    hide ClaimantsAmong;
    var cs := LOCAL_AI_CANDIDATES;
    forall k: nat | OnlyOn(port, k) ensures Claimants(port) == [cs[k].name] {
      OneClaimant(cs, port, k);
    }
    if forall k: nat :: !OnlyOn(port, k) {
      if k: nat :| k < |cs| && cs[k].port == port {
        assert !OnlyOn(port, k);
        var j: nat :| j < |cs| && j != k && cs[j].port == port;
        if j < k { TwoClaimants(cs, port, j, k); } else { TwoClaimants(cs, port, k, j); }
      } else {
        NoClaimant(cs, port);
      }
    }
  }

  /**
   The response is the authority: the first owner that names a runtime decides.  The port names a runtime exactly
   if no owner said anything and a single candidate claims the port; a shared port is never guessed.
   */
  lemma ResponseIsAuthority(owners: seq<string>, port: nat)
    ensures forall i: nat :: FirstRecognised(owners, i) ==> IdentifyRuntime(owners, port) == Signature(owners[i]).value
    ensures (forall i :: 0 <= i < |owners| ==> Signature(owners[i]).None?) && !Silent(owners) ==>
              IdentifyRuntime(owners, port) == "local-ai-" + NatText(port)
    ensures Silent(owners) ==>
              && (forall k: nat :: OnlyOn(port, k) ==> IdentifyRuntime(owners, port) == LOCAL_AI_CANDIDATES[k].name)
              && ((forall k: nat :: !OnlyOn(port, k)) ==> IdentifyRuntime(owners, port) == "local-ai-" + NatText(port))
  {
    hide NatText, Claimants, OnlyOn;
    FirstSignatureIs(owners);
    SilentOwners(owners);
    ClaimantsAre(port);
    assert Silent(owners) <==> forall i :: 0 <= i < |owners| ==> owners[i] == "";
  }

  lemma {:induction false} SilentOwners(owners: seq<string>)
    ensures (forall i :: 0 <= i < |owners| ==> owners[i] == "") ==> FirstSignature(owners).None?
    ensures (forall i :: 0 <= i < |owners| ==> Signature(owners[i]).None?) ==> FirstSignature(owners).None?
  {
    if owners != [] {
      SilentOwners(owners[1..]);
    }
  }

  // ---------- The host ----------

  datatype Probe = NoAnswer | Unauthorized | Error | Answered(owners: seq<string>)

  /** The host as one scan meets it; probes depend on the port and the key, types and listings on endpoint and key. */
  datatype Host = Host(available: bool, gateway: string, probes: map<(nat, string), Probe>,
                       types: map<(string, string), string>, listings: Listings)

  function Endpoint(gateway: string, port: nat): string {
    "http://" + gateway + ":" + NatText(port) + "/v1"
  }

  /** `canonical_base_url`. */
  function Canonical(url: string): string {
    RStripChar(url, '/')
  }

  function ProbeOf(h: Host, port: nat, key: string): Probe {
    if (port, key) in h.probes then h.probes[(port, key)] else NoAnswer
  }

  /** `_resolved_type`: never unknown once a listing was read. */
  function ResolvedType(h: Host, url: string, key: string): string {
    if (url, key) in h.types && h.types[(url, key)] != "unknown" then h.types[(url, key)] else "openai_compatible"
  }

  lemma EndpointIsCanonical(gateway: string, port: nat)
    ensures Canonical(Endpoint(gateway, port)) == Endpoint(gateway, port)
  {
    var e := Endpoint(gateway, port);
    assert e[|e| - 1] == '1';
  }

  lemma EndpointInjective(gateway: string, a: nat, b: nat)
    requires Endpoint(gateway, a) == Endpoint(gateway, b)
    ensures a == b
  {
    hide NatText;
    var front := "http://" + gateway + ":";
    var x, y := front + NatText(a), front + NatText(b);
    assert Endpoint(gateway, a) == x + "/v1" && Endpoint(gateway, b) == y + "/v1";
    assert x == (x + "/v1")[..|x + "/v1"| - 3] && y == (y + "/v1")[..|y + "/v1"| - 3];
    assert x[|front|..] == NatText(a) && y[|front|..] == NatText(b);
    NatTextInjective(a, b);
  }

  function Slashes(n: nat): string {
    if n == 0 then "" else Slashes(n - 1) + "/"
  }

  /** Trailing separators do not count, and nothing else is taken away. */
  lemma {:induction false} CanonicalIs(url: string, n: nat)
    requires url == "" || url[|url| - 1] != '/'
    ensures Canonical(url + Slashes(n)) == url
  {
    if n == 0 {
      assert url + "" == url;
    } else {
      var s := url + Slashes(n);
      assert s[|s| - 1] == '/' && s[..|s| - 1] == url + Slashes(n - 1);
      CanonicalIs(url, n - 1);
    }
  }

  // ---------- Probing ----------

  predicate IsAt(p: Provider, url: string) {
    p.source == Detected && Canonical(p.baseUrl) == url
  }

  /** The detected provider recorded at an endpoint; the oldest, where there are several. */
  function DetectedAt(ps: seq<Provider>, url: string): (r: Option<Provider>)
    ensures r.Some? ==> r.value in ps && IsAt(r.value, url)
    ensures r.None? ==> forall p :: p in ps ==> !IsAt(p, url)
  {
    if ps == [] then None
    else if IsAt(ps[0], url) then Some(ps[0])
    else DetectedAt(ps[1..], url)
  }

  /** The key a port is probed with: the one stored for it, or the placeholder. */
  function ProbeKey(ps: seq<Provider>, url: string): string {
    if DetectedAt(ps, url).Some? then DetectedAt(ps, url).value.key else DETECTED_API_KEY
  }

  function ProbeAt(ps: seq<Provider>, h: Host, port: nat): Probe {
    ProbeOf(h, port, ProbeKey(ps, Endpoint(h.gateway, port)))
  }

  predicate ConfiguredUrl(ps: seq<Provider>, url: string) {
    exists p :: p in ps && Canonical(p.baseUrl) == url
  }

  datatype Info = Info(name: string, baseUrl: string, ptype: string, port: nat)

  function InfoAt(ps: seq<Provider>, h: Host, port: nat): Info
    requires ProbeAt(ps, h, port).Answered?
  {
    var url := Endpoint(h.gateway, port);
    Info(IdentifyRuntime(ProbeAt(ps, h, port).owners, port), url, ResolvedType(h, url, ProbeKey(ps, url)), port)
  }

  /** The endpoints that gave some answer. */
  function Present(ps: seq<Provider>, h: Host, ports: seq<nat>): set<string> {
    if ports == [] then {}
    else
      var init, port := Present(ps, h, ports[..|ports| - 1]), ports[|ports| - 1];
      if ProbeAt(ps, h, port).NoAnswer? then init else init + {Endpoint(h.gateway, port)}
  }

  function NeedsKey(ps: seq<Provider>, h: Host, ports: seq<nat>): seq<string> {
    if ports == [] then []
    else
      var init, port := NeedsKey(ps, h, ports[..|ports| - 1]), ports[|ports| - 1];
      if ProbeAt(ps, h, port).Unauthorized? && !ConfiguredUrl(ps, Endpoint(h.gateway, port))
      then init + [Endpoint(h.gateway, port)] else init
  }

  function Found(ps: seq<Provider>, h: Host, ports: seq<nat>): seq<Info> {
    if ports == [] then []
    else
      var init, port := Found(ps, h, ports[..|ports| - 1]), ports[|ports| - 1];
      if ProbeAt(ps, h, port).Answered? then init + [InfoAt(ps, h, port)] else init
  }

  lemma {:induction false} PresentIff(ps: seq<Provider>, h: Host, ports: seq<nat>, url: string)
    ensures url in Present(ps, h, ports) <==>
            exists port :: port in ports && url == Endpoint(h.gateway, port) && !ProbeAt(ps, h, port).NoAnswer?
  {
    hide Endpoint, ProbeAt;
    if ports != [] {
      PresentIff(ps, h, ports[..|ports| - 1], url);
      assert ports == ports[..|ports| - 1] + [ports[|ports| - 1]];
    }
  }

  /** An endpoint is offered for adoption exactly if it wants a key and no provider is configured for it. */
  lemma {:induction false} NeedsKeyIff(ps: seq<Provider>, h: Host, ports: seq<nat>, url: string)
    ensures url in NeedsKey(ps, h, ports) <==>
            (forall p :: p in ps ==> Canonical(p.baseUrl) != url)
            && exists port :: port in ports && url == Endpoint(h.gateway, port) && ProbeAt(ps, h, port).Unauthorized?
  {
    hide Endpoint, ProbeAt, Canonical;
    if ports != [] {
      NeedsKeyIff(ps, h, ports[..|ports| - 1], url);
      assert ports == ports[..|ports| - 1] + [ports[|ports| - 1]];
    }
  }

  /** The oldest detected row at an endpoint is the one a scan reconciles. */
  lemma {:induction false} OldestAt(ps: seq<Provider>, url: string, i: nat)
    requires i < |ps| && ps[i].source == Detected && Canonical(ps[i].baseUrl) == url
    requires forall j :: 0 <= j < i ==> ps[j].source != Detected || Canonical(ps[j].baseUrl) != url
    ensures DetectedAt(ps, url) == Some(ps[i])
  {
    hide Canonical;
    if i > 0 {
      OldestAt(ps[1..], url, i - 1);
    }
  }

  /**
   What a scan hears at a port: a provider recorded there is asked with its own key, and no other key is sent
   anywhere; a listing of unknown type counts as OpenAI-compatible.
   */
  lemma ProbesAre(ps: seq<Provider>, h: Host, port: nat, i: nat)
    ensures i < |ps| && ps[i].source == Detected && Canonical(ps[i].baseUrl) == Endpoint(h.gateway, port)
            && (forall j :: 0 <= j < i ==> ps[j].source != Detected || Canonical(ps[j].baseUrl) != Endpoint(h.gateway, port)) ==>
              ProbeAt(ps, h, port) == (if (port, ps[i].key) in h.probes then h.probes[(port, ps[i].key)] else NoAnswer)
    ensures (forall p :: p in ps ==> p.source != Detected || Canonical(p.baseUrl) != Endpoint(h.gateway, port)) ==>
              ProbeAt(ps, h, port)
                == (if (port, "sk-no-key-required") in h.probes then h.probes[(port, "sk-no-key-required")] else NoAnswer)
    ensures forall key :: ResolvedType(h, Endpoint(h.gateway, port), key) != "unknown"
    ensures forall key :: (Endpoint(h.gateway, port), key) in h.types && h.types[(Endpoint(h.gateway, port), key)] != "unknown" ==>
              ResolvedType(h, Endpoint(h.gateway, port), key) == h.types[(Endpoint(h.gateway, port), key)]
    ensures Endpoint(h.gateway, port) == "http://" + h.gateway + ":" + NatText(port) + "/v1"
  {
    hide DetectedAt, Canonical, NatText;
    var url := Endpoint(h.gateway, port);
    if i < |ps| && ps[i].source == Detected && Canonical(ps[i].baseUrl) == url
       && (forall j :: 0 <= j < i ==> ps[j].source != Detected || Canonical(ps[j].baseUrl) != url) {
      OldestAt(ps, url, i);
    }
  }

  lemma {:induction false} FoundArePresent(ps: seq<Provider>, h: Host, ports: seq<nat>)
    ensures forall info :: info in Found(ps, h, ports) ==>
              info.baseUrl in Present(ps, h, ports) && Canonical(info.baseUrl) == info.baseUrl
  {
    hide Endpoint, ProbeAt, Canonical;
    if ports != [] {
      FoundArePresent(ps, h, ports[..|ports| - 1]);
      EndpointIsCanonical(h.gateway, ports[|ports| - 1]);
    }
  }

  // ---------- Registering ----------

  /** `_available_name`: the name, or the name with the port, or none. */
  function AvailableName(ps: seq<Provider>, name: string, port: nat): (r: Option<string>)
    ensures r.Some? ==> Named(ps, r.value).None?
  {
    if Named(ps, name).None? then Some(name)
    else if Named(ps, name + "-" + NatText(port)).None? then Some(name + "-" + NatText(port))
    else None
  }

  datatype Entry = Entry(baseUrl: string, name: string)

  /** Registration under way: the rows, whether a new provider may claim the default, and the result list. */
  datatype Registering = Registering(rows: Rows, claim: bool, done: seq<Entry>)

  function Retyped(ps: seq<Provider>, id: nat, ptype: string): (r: seq<Provider>)
    ensures |r| == |ps|
    ensures forall i :: 0 <= i < |ps| ==> r[i] == if ps[i].id == id then ps[i].(ptype := ptype) else ps[i]
  {
    seq(|ps|, i requires 0 <= i < |ps| => if ps[i].id == id then ps[i].(ptype := ptype) else ps[i])
  }

  /** One runtime found; `before` is the table as the scan read it. */
  function RegisterOne(r: Registering, before: seq<Provider>, info: Info): Registering {
    var existing := DetectedAt(before, info.baseUrl);
    if existing.Some? then
      r.(rows := r.rows.(all := Retyped(r.rows.all, existing.value.id, info.ptype)),
         done := r.done + [Entry(info.baseUrl, existing.value.name)])
    else
      var name := AvailableName(r.rows.all, info.name, info.port);
      if name.None? then r
      else Registering(Inserted(r.rows, name.value, info.baseUrl, DETECTED_API_KEY, info.ptype, r.claim, Detected),
                       false, r.done + [Entry(info.baseUrl, name.value)])
  }

  function RegisterAll(r: Registering, before: seq<Provider>, infos: seq<Info>): Registering {
    if infos == [] then r
    else RegisterOne(RegisterAll(r, before, infos[..|infos| - 1]), before, infos[|infos| - 1])
  }

  predicate Departed(p: Provider, present: set<string>) {
    p.source == Detected && Canonical(p.baseUrl) !in present
  }

  function Remaining(ps: seq<Provider>, present: set<string>): seq<Provider> {
    Filter(ps, (p: Provider) => !Departed(p, present))
  }

  function DepartedIds(ps: seq<Provider>, present: set<string>): seq<nat> {
    if ps == [] then []
    else DepartedIds(ps[..|ps| - 1], present) + (if Departed(ps[|ps| - 1], present) then [ps[|ps| - 1].id] else [])
  }

  // ---------- The scan ----------

  datatype Store = Store(rows: Rows, settings: Settings)

  function Registered(s: Store, h: Host): Registering {
    RegisterAll(Registering(s.rows, s.rows.all == [], []), s.rows.all, Found(s.rows.all, h, PORTS))
  }

  /** The table and settings once departed runtimes are removed, before any model is established. */
  function Reconciled(s: Store, h: Host): Store {
    var present := Present(s.rows.all, h, PORTS);
    var rows := Registered(s, h).rows;
    Store(rows.(all := Remaining(rows.all, present)), ClearedAll(s.settings, DepartedIds(rows.all, present)))
  }

  /** The provider of the first entry of the result. */
  function RegisteredProvider(s: Store, h: Host): Option<Provider> {
    var done := Registered(s, h).done;
    if done == [] then None else DetectedAt(Reconciled(s, h).rows.all, Canonical(done[0].baseUrl))
  }

  datatype Result = Result(available: bool, detected: seq<Entry>, needsKey: seq<string>, registered: Option<nat>,
                           established: Option<string>)

  /** `scan_local_ai`. */
  function Scanned(s: Store, h: Host): (Store, Result) {
    if !h.available then (s, Result(false, [], [], None, None))
    else
      var after := Reconciled(s, h);
      var provider := RegisteredProvider(s, h);
      var (settings, model) := if provider.Some? && !AnyRole(s.settings)
                               then Established(after.settings, provider.value, h.listings) else (after.settings, None);
      (after.(settings := settings),
       Result(true, Registered(s, h).done, NeedsKey(s.rows.all, h, PORTS),
              if provider.Some? then Some(provider.value.id) else None, model))
  }

  /** Without a host to probe nothing is scanned; otherwise the result says so and shows the endpoints that want a key. */
  lemma AvailabilityIs(s: Store, h: Host)
    ensures !h.available ==> Scanned(s, h) == (s, Result(false, [], [], None, None))
    ensures h.available ==> Scanned(s, h).1.available && Scanned(s, h).1.needsKey == NeedsKey(s.rows.all, h, PORTS)
  {
  }

  // ---------- Adoption ----------

  datatype Adoption = Refused | AlreadyConfigured | Unreachable | KeyRejected | NameConflict | Adopted(id: nat)

  function AdoptableUrls(h: Host, ports: seq<nat>): set<string> {
    if !h.available || ports == [] then {}
    else AdoptableUrls(h, ports[..|ports| - 1]) + {Endpoint(h.gateway, ports[|ports| - 1])}
  }

  /** The candidate port of an endpoint, which `port_of` reads off its URL. */
  function PortOf(h: Host, url: string, ports: seq<nat>): (port: nat)
    requires url in AdoptableUrls(h, ports)
    ensures port in ports && url == Endpoint(h.gateway, port)
  {
    if url == Endpoint(h.gateway, ports[|ports| - 1]) then ports[|ports| - 1] else PortOf(h, url, ports[..|ports| - 1])
  }

  /** `adopt_local_runtime`; an empty name is no name. */
  function AdoptedBy(s: Store, h: Host, url: string, key: string, name: string): (Store, Adoption) {
    var base := Canonical(url);
    if base !in AdoptableUrls(h, PORTS) then (s, Refused)
    else if ConfiguredUrl(s.rows.all, base) then (s, AlreadyConfigured)
    else
      var port := PortOf(h, base, PORTS);
      match ProbeOf(h, port, key)
      case NoAnswer => (s, Unreachable)
      case Unauthorized => (s, KeyRejected)
      case Error => (s, Unreachable)
      case Answered(owners) =>
        var chosen := if name != "" then name else IdentifyRuntime(owners, port);
        if Named(s.rows.all, chosen).Some? then (s, NameConflict)
        else (s.(rows := Inserted(s.rows, chosen, base, key, ResolvedType(h, base, key), s.rows.all == [], Detected)),
              Adopted(s.rows.nextId))
  }

  /**
   Adoption takes candidate endpoints with nothing configured, a key that is accepted and a name nobody has; each
   refusal names the first of these that fails and changes nothing.
   */
  lemma AdoptionOutcome(s: Store, h: Host, url: string, key: string, name: string, port: nat)
    ensures var (after, o) := AdoptedBy(s, h, url, key, name);
            var answer := if (port, key) in h.probes then h.probes[(port, key)] else NoAnswer;
            && (after == s || o.Adopted?)
            && (o.Refused? <==> !h.available || forall q :: q in PORTS ==> Canonical(url) != Endpoint(h.gateway, q))
            && (o.AlreadyConfigured? <==>
                  !o.Refused? && exists p :: p in s.rows.all && Canonical(p.baseUrl) == Canonical(url))
            && (!o.Refused? && !o.AlreadyConfigured? && port in PORTS && Canonical(url) == Endpoint(h.gateway, port) ==>
                  && (o.Unreachable? <==> answer.NoAnswer? || answer.Error?)
                  && (o.KeyRejected? <==> answer.Unauthorized?)
                  && (answer.Answered? ==>
                        var chosen := if name != "" then name else IdentifyRuntime(answer.owners, port);
                        if exists p :: p in s.rows.all && p.name == chosen then o.NameConflict?
                        else && o == Adopted(s.rows.nextId) && after.settings == s.settings
                             && after.rows.all == s.rows.all + [Provider(s.rows.nextId, chosen, Canonical(url), key,
                                                                         ResolvedType(h, Canonical(url), key),
                                                                         s.rows.all == [], Detected)]))
  {
    hide Canonical, IdentifyRuntime, ResolvedType, Endpoint, AdoptableUrls;
    AdoptableIff(h, PORTS, Canonical(url));
    if port in PORTS && Canonical(url) == Endpoint(h.gateway, port) && Canonical(url) in AdoptableUrls(h, PORTS) {
      EndpointInjective(h.gateway, port, PortOf(h, Canonical(url), PORTS));
    }
  }

  lemma {:induction false} AdoptableIff(h: Host, ports: seq<nat>, url: string)
    ensures url in AdoptableUrls(h, ports) <==> h.available && exists q :: q in ports && url == Endpoint(h.gateway, q)
  {
    hide Endpoint;
    if ports != [] {
      AdoptableIff(h, ports[..|ports| - 1], url);
      assert ports == ports[..|ports| - 1] + [ports[|ports| - 1]];
    }
  }

  // ---------- What registration does to the table ----------

  /** Registration retypes rows, and appends detected ones at endpoints that answered and had none. */
  ghost predicate Grown(t: Rows, r: Rows, before: seq<Provider>, infos: seq<Info>) {
    && |t.all| <= |r.all| && t.nextId <= r.nextId
    && (forall i :: 0 <= i < |t.all| ==> r.all[i] == t.all[i].(ptype := r.all[i].ptype))
    && (forall i :: |t.all| <= i < |r.all| ==> IsNew(r.all[i], t.nextId, before, infos))
  }

  ghost predicate IsNew(p: Provider, from: nat, before: seq<Provider>, infos: seq<Info>) {
    && p.id >= from && p.source == Detected && p.key == DETECTED_API_KEY
    && DetectedAt(before, p.baseUrl).None?
    && exists info :: info in infos && info.baseUrl == p.baseUrl
  }

  lemma {:induction false} RegistrationGrows(r: Registering, before: seq<Provider>, infos: seq<Info>)
    ensures Grown(r.rows, RegisterAll(r, before, infos).rows, before, infos)
  {
    hide DetectedAt, AvailableName, IsNew;
    if infos != [] {
      var init, info := infos[..|infos| - 1], infos[|infos| - 1];
      assert infos == init + [info];
      var mid := RegisterAll(r, before, init);
      var after := RegisterOne(mid, before, info);
      RegistrationGrows(r, before, init);
      forall i | |r.rows.all| <= i < |after.rows.all| ensures IsNew(after.rows.all[i], r.rows.nextId, before, infos) {
        if i < |mid.rows.all| {
          StillNew(mid.rows.all[i], after.rows.all[i], r.rows.nextId, before, init, info);
        } else {
          JustNew(after.rows.all[i], r.rows.nextId, before, infos, info);
        }
      }
    }
  }

  lemma StillNew(p: Provider, q: Provider, from: nat, before: seq<Provider>, init: seq<Info>, info: Info)
    requires IsNew(p, from, before, init) && q == p.(ptype := q.ptype)
    ensures IsNew(q, from, before, init + [info])
  {
    hide DetectedAt;
    var i :| i in init && i.baseUrl == p.baseUrl;
    assert i in init + [info];
  }

  lemma JustNew(p: Provider, from: nat, before: seq<Provider>, infos: seq<Info>, info: Info)
    requires p.id >= from && p.source == Detected && p.key == DETECTED_API_KEY
    requires info in infos && info.baseUrl == p.baseUrl && DetectedAt(before, info.baseUrl).None?
    ensures IsNew(p, from, before, infos)
  {
  }

  lemma RetypeKeepsSound(t: Rows, id: nat, ptype: string)
    requires Sound(t)
    ensures Sound(t.(all := Retyped(t.all, id, ptype)))
  {
    hide Retyped;
    var ps := Retyped(t.all, id, ptype);
    forall i, j | 0 <= i < j < |ps| ensures DistinctAt(ps, i, j) {
      assert DistinctAt(t.all, i, j);
    }
  }

  lemma {:induction false} RegistrationKeepsSound(r: Registering, before: seq<Provider>, infos: seq<Info>)
    requires Sound(r.rows) && (r.claim ==> r.rows.all == [])
    ensures var r' := RegisterAll(r, before, infos); Sound(r'.rows) && (r'.claim ==> r'.rows.all == [])
  {
    hide DetectedAt, Sound, AvailableName;
    if infos != [] {
      var init, info := infos[..|infos| - 1], infos[|infos| - 1];
      var mid := RegisterAll(r, before, init);
      RegistrationKeepsSound(r, before, init);
      var existing := DetectedAt(before, info.baseUrl);
      if existing.Some? {
        RetypeKeepsSound(mid.rows, existing.value.id, info.ptype);
      } else if AvailableName(mid.rows.all, info.name, info.port).Some? {
        InsertKeepsSound(mid.rows, AvailableName(mid.rows.all, info.name, info.port).value, info.baseUrl,
                         DETECTED_API_KEY, info.ptype, mid.claim, Detected);
      }
    }
  }

  lemma ScanKeepsSound(s: Store, h: Host)
    requires Sound(s.rows)
    ensures Sound(Scanned(s, h).0.rows)
  {
    hide Sound, Filter, RegisterAll, Found, Present, Established, ClearedAll, RegisteredProvider;
    if h.available {
      RegistrationKeepsSound(Registering(s.rows, s.rows.all == [], []), s.rows.all, Found(s.rows.all, h, PORTS));
      var present := Present(s.rows.all, h, PORTS);
      FilterKeepsSound(Registered(s, h).rows, (p: Provider) => !Departed(p, present));
    }
  }

  lemma AdoptionKeepsSound(s: Store, h: Host, url: string, key: string, name: string)
    requires Sound(s.rows)
    ensures Sound(AdoptedBy(s, h, url, key, name).0.rows)
  {
    hide Sound, Named, AdoptableUrls, ConfiguredUrl, IdentifyRuntime, Canonical, ResolvedType, ProbeOf;
    var base := Canonical(url);
    if AdoptedBy(s, h, url, key, name).1.Adopted? {
      var port := PortOf(h, base, PORTS);
      var chosen := if name != "" then name else IdentifyRuntime(ProbeOf(h, port, key).owners, port);
      InsertKeepsSound(s.rows, chosen, base, key, ResolvedType(h, base, key), s.rows.all == [], Detected);
    }
  }

  // ---------- What registration registers ----------

  /** There is a detected row of that type at the endpoint. */
  ghost predicate RowAt(ps: seq<Provider>, url: string, ptype: string) {
    exists p :: p in ps && p.source == Detected && Canonical(p.baseUrl) == url && p.ptype == ptype
  }

  /** Both names a runtime found may take are held. */
  predicate NamesHeld(ps: seq<Provider>, info: Info) {
    && (exists p :: p in ps && p.name == info.name)
    && (exists p :: p in ps && p.name == info.name + "-" + NatText(info.port))
  }

  predicate Listed(done: seq<Entry>, url: string) {
    exists e :: e in done && e.baseUrl == url
  }

  /** A runtime found is registered and listed, or both its names were taken and its endpoint had no row. */
  ghost predicate Served(r: Registering, before: seq<Provider>, info: Info) {
    || (RowAt(r.rows.all, info.baseUrl, info.ptype) && Listed(r.done, info.baseUrl))
    || (NamesHeld(r.rows.all, info) && forall p :: p in before ==> p.source != Detected || Canonical(p.baseUrl) != info.baseUrl)
  }

  lemma HeldNamesAre(ps: seq<Provider>, info: Info)
    ensures AvailableName(ps, info.name, info.port).None? <==> NamesHeld(ps, info)
    ensures AvailableName(ps, info.name, info.port).Some? ==>
              var n := AvailableName(ps, info.name, info.port).value;
              (forall p :: p in ps ==> p.name != n)
              && n == (if forall p :: p in ps ==> p.name != info.name then info.name
                       else info.name + "-" + NatText(info.port))
  {
    hide NatText;
  }

  /** The runtime whose turn it is. */
  lemma ServedNow(r: Registering, before: seq<Provider>, info: Info)
    requires Sound(Rows(before, r.rows.nextId)) || before == []
    requires |before| <= |r.rows.all|
    requires forall i :: 0 <= i < |before| ==> r.rows.all[i] == before[i].(ptype := r.rows.all[i].ptype)
    requires Canonical(info.baseUrl) == info.baseUrl
    ensures Served(RegisterOne(r, before, info), before, info)
  {
    hide DetectedAt, AvailableName, Canonical, NatText, Sound, Retyped;
    var after := RegisterOne(r, before, info);
    var existing := DetectedAt(before, info.baseUrl);
    HeldNamesAre(r.rows.all, info);
    if existing.Some? {
      var i :| 0 <= i < |before| && before[i] == existing.value;
      assert after.rows.all[i] == before[i].(ptype := info.ptype);
      assert after.done[|r.done|].baseUrl == info.baseUrl;
      assert after.done[|r.done|] in after.done;
    } else if AvailableName(r.rows.all, info.name, info.port).Some? {
      assert after.rows.all[|r.rows.all|].baseUrl == info.baseUrl;
      assert after.done[|r.done|] in after.done;
    } else {
      forall p | p in before ensures p.source != Detected || Canonical(p.baseUrl) != info.baseUrl {
        assert !IsAt(p, info.baseUrl);
      }
    }
  }

  /** Another runtime's turn takes nothing back. */
  lemma StaysServed(t: Rows, r: Registering, before: seq<Provider>, infos: seq<Info>, info: Info, next: Info)
    requires Sound(t) && t.all == before && Grown(t, r.rows, before, infos) && Served(r, before, info)
    requires next.baseUrl != info.baseUrl
    ensures Served(RegisterOne(r, before, next), before, info)
  {
    hide DetectedAt, AvailableName, Canonical, NatText, Sound, Retyped;
    var after := RegisterOne(r, before, next);
    var existing := DetectedAt(before, next.baseUrl);
    if RowAt(r.rows.all, info.baseUrl, info.ptype) && Listed(r.done, info.baseUrl) {
      var p :| p in r.rows.all && p.source == Detected && Canonical(p.baseUrl) == info.baseUrl && p.ptype == info.ptype;
      var k :| 0 <= k < |r.rows.all| && r.rows.all[k] == p;
      assert |before| <= k ==> IsNew(r.rows.all[k], t.nextId, before, infos);
      if existing.Some? {
        IdsAreOld(t, existing.value);
        if k < |before| && existing.value.id == p.id {
          OnlyHolder(t, before[k], existing.value);
        }
      }
      assert after.rows.all[k] == p;
      var e :| e in r.done && e.baseUrl == info.baseUrl;
      assert e in after.done;
    } else {
      NamesStayHeld(r.rows.all, after.rows.all, info);
    }
  }

  lemma NamesStayHeld(ps: seq<Provider>, qs: seq<Provider>, info: Info)
    requires NamesHeld(ps, info) && |ps| <= |qs| && forall i :: 0 <= i < |ps| ==> qs[i].name == ps[i].name
    ensures NamesHeld(qs, info)
  {
    hide NatText;
    var p :| p in ps && p.name == info.name;
    var i :| 0 <= i < |ps| && ps[i] == p;
    var q :| q in ps && q.name == info.name + "-" + NatText(info.port);
    var j :| 0 <= j < |ps| && ps[j] == q;
    assert qs[i] in qs && qs[j] in qs;
  }

  lemma {:induction false} AllServed(t: Rows, claim: bool, infos: seq<Info>)
    requires Sound(t)
    requires forall i, j :: 0 <= i < j < |infos| ==> infos[i].baseUrl != infos[j].baseUrl
    requires forall info :: info in infos ==> Canonical(info.baseUrl) == info.baseUrl
    ensures var r := RegisterAll(Registering(t, claim, []), t.all, infos);
            forall info :: info in infos ==> Served(r, t.all, info)
  {
    hide Served, Grown, Canonical, Sound, RegisterOne;
    if infos != [] {
      var init, last := infos[..|infos| - 1], infos[|infos| - 1];
      assert infos == init + [last];
      var start := Registering(t, claim, []);
      var mid := RegisterAll(start, t.all, init);
      AllServed(t, claim, init);
      RegistrationGrows(start, t.all, init);
      OldRowsKept(t, mid.rows, t.all, init);
      SoundAtLater(t, mid.rows.nextId);
      ServedNow(mid, t.all, last);
      forall info | info in init ensures Served(RegisterAll(start, t.all, infos), t.all, info) {
        StaysServed(t, mid, t.all, init, info, last);
      }
    }
  }

  lemma OldRowsKept(t: Rows, r: Rows, before: seq<Provider>, infos: seq<Info>)
    requires Grown(t, r, before, infos)
    ensures |t.all| <= |r.all| && t.nextId <= r.nextId
    ensures forall i :: 0 <= i < |t.all| ==> r.all[i] == t.all[i].(ptype := r.all[i].ptype)
  {
  }

  lemma SoundAtLater(t: Rows, nextId: nat)
    requires Sound(t) && t.nextId <= nextId
    ensures Sound(Rows(t.all, nextId))
  {
    forall i, j | 0 <= i < j < |t.all| ensures DistinctAt(t.all, i, j) {
    }
  }

  /**
   After a scan every port that gave a listing has a detected provider of the type the probe resolved, which the
   result names, unless no provider was recorded there and both names the runtime may take are held by others.
   */
  lemma FoundIsRegistered(s: Store, h: Host, port: nat)
    requires Sound(s.rows) && h.available && port in PORTS && ProbeAt(s.rows.all, h, port).Answered?
    ensures var url := Endpoint(h.gateway, port);
            var (after, result) := Scanned(s, h);
            var name := IdentifyRuntime(ProbeAt(s.rows.all, h, port).owners, port);
            || (&& (exists p :: p in after.rows.all && p.source == Detected && Canonical(p.baseUrl) == url
                                && p.ptype == ResolvedType(h, url, ProbeKey(s.rows.all, url)))
                && (exists e :: e in result.detected && e.baseUrl == url))
            || (&& (forall p :: p in s.rows.all ==> p.source != Detected || Canonical(p.baseUrl) != url)
                && (exists p :: p in Registered(s, h).rows.all && p.name == name)
                && (exists p :: p in Registered(s, h).rows.all && p.name == name + "-" + NatText(port)))
  {
    hide Found, RegisterAll, Present, Filter, Canonical, RegisteredProvider, Established, ClearedAll, Sound, Endpoint,
         IdentifyRuntime, ResolvedType, ProbeAt, ProbeKey, NatText;
    var infos := Found(s.rows.all, h, PORTS);
    var info := InfoAt(s.rows.all, h, port);
    FoundUrls(s.rows.all, h, PORTS);
    FoundHas(s.rows.all, h, PORTS, port);
    FoundArePresent(s.rows.all, h, PORTS);
    AllServed(s.rows, s.rows.all == [], infos);
    var r := Registered(s, h);
    assert Served(r, s.rows.all, info);
    if RowAt(r.rows.all, info.baseUrl, info.ptype) && Listed(r.done, info.baseUrl) {
      var p :| p in r.rows.all && p.source == Detected && Canonical(p.baseUrl) == info.baseUrl && p.ptype == info.ptype;
      FilterMembers(r.rows.all, (q: Provider) => !Departed(q, Present(s.rows.all, h, PORTS)));
      assert p in Scanned(s, h).0.rows.all;
    }
  }

  lemma {:induction false} FoundUrls(ps: seq<Provider>, h: Host, ports: seq<nat>)
    requires forall i, j :: 0 <= i < j < |ports| ==> ports[i] != ports[j]
    ensures forall i, j :: 0 <= i < j < |Found(ps, h, ports)| ==>
                             Found(ps, h, ports)[i].baseUrl != Found(ps, h, ports)[j].baseUrl
    ensures forall info :: info in Found(ps, h, ports) ==> info.port in ports && info.baseUrl == Endpoint(h.gateway, info.port)
  {
    hide Endpoint, ProbeAt, IdentifyRuntime, ResolvedType;
    if ports != [] {
      var init, last := ports[..|ports| - 1], ports[|ports| - 1];
      FoundUrls(ps, h, init);
      assert ports == init + [last];
      forall info | info in Found(ps, h, init) ensures info.baseUrl != Endpoint(h.gateway, last) {
        if info.baseUrl == Endpoint(h.gateway, last) {
          EndpointInjective(h.gateway, info.port, last);
        }
      }
    }
  }

  lemma {:induction false} FoundHas(ps: seq<Provider>, h: Host, ports: seq<nat>, port: nat)
    requires port in ports && ProbeAt(ps, h, port).Answered?
    ensures InfoAt(ps, h, port) in Found(ps, h, ports)
  {
    hide ProbeAt, InfoAt;
    assert ports == ports[..|ports| - 1] + [ports[|ports| - 1]];
    if port in ports[..|ports| - 1] {
      FoundHas(ps, h, ports[..|ports| - 1], port);
    }
  }

  /** A row that registration added: its key, its default flag, where it is and what it is called. */
  ghost predicate NewAt(ps: seq<Provider>, infos: seq<Info>, i: nat)
    requires i < |ps|
  {
    && ps[i].source == Detected && ps[i].key == "sk-no-key-required" && (ps[i].isDefault <==> i == 0)
    && exists info :: info in infos && ps[i].baseUrl == info.baseUrl
                      && (ps[i].name == info.name || ps[i].name == info.name + "-" + NatText(info.port))
  }

  lemma {:induction false} NewRowsAre(t: Rows, infos: seq<Info>)
    ensures var r := RegisterAll(Registering(t, t.all == [], []), t.all, infos);
            && |t.all| <= |r.rows.all| && (r.claim <==> r.rows.all == [])
            && forall i :: |t.all| <= i < |r.rows.all| ==> NewAt(r.rows.all, infos, i)
  {
    hide DetectedAt, NatText;
    if infos != [] {
      var init, last := infos[..|infos| - 1], infos[|infos| - 1];
      assert infos == init + [last];
      NewRowsAre(t, init);
      var mid := RegisterAll(Registering(t, t.all == [], []), t.all, init);
      var r := RegisterOne(mid, t.all, last);
      forall i | |t.all| <= i < |r.rows.all| ensures NewAt(r.rows.all, infos, i) {
        if i < |mid.rows.all| {
          assert NewAt(mid.rows.all, init, i);
        } else {
          HeldNamesAre(mid.rows.all, last);
        }
      }
    }
  }

  /**
   What a scan adds is detected, carries the placeholder key, is named after its runtime, with the port behind if
   that name is held, and is the default only if the table was empty; then the first one is.
   */
  lemma ScanAdds(s: Store, h: Host)
    requires Sound(s.rows) && h.available
    ensures forall q :: q in Scanned(s, h).0.rows.all && (forall p :: p in s.rows.all ==> p.id != q.id) ==>
              && q.source == Detected && q.key == "sk-no-key-required" && (q.isDefault ==> s.rows.all == [])
              && exists port :: port in PORTS && ProbeAt(s.rows.all, h, port).Answered?
                                && NamedAfter(q, IdentifyRuntime(ProbeAt(s.rows.all, h, port).owners, port), port)
                                && q.baseUrl == Endpoint(h.gateway, port)
    ensures s.rows.all == [] && Registered(s, h).rows.all != [] ==>
              exists q :: q in Scanned(s, h).0.rows.all && q.isDefault
  {
    hide Found, RegisterAll, Present, Filter, Canonical, RegisteredProvider, Established, ClearedAll, Sound, Endpoint,
         IdentifyRuntime, ResolvedType, ProbeAt, ProbeKey, NatText, NamedAfter;
    var infos := Found(s.rows.all, h, PORTS);
    var all := Registered(s, h).rows.all;
    NewRowsAre(s.rows, infos);
    RegistrationGrows(Registering(s.rows, s.rows.all == [], []), s.rows.all, infos);
    FilterMembers(all, (q: Provider) => !Departed(q, Present(s.rows.all, h, PORTS)));
    forall q | q in Scanned(s, h).0.rows.all && (forall p :: p in s.rows.all ==> p.id != q.id)
      ensures q.source == Detected && q.key == "sk-no-key-required" && (q.isDefault ==> s.rows.all == [])
      ensures exists port :: port in PORTS && ProbeAt(s.rows.all, h, port).Answered?
                             && NamedAfter(q, IdentifyRuntime(ProbeAt(s.rows.all, h, port).owners, port), port)
                             && q.baseUrl == Endpoint(h.gateway, port) {
      var i :| 0 <= i < |all| && all[i] == q;
      NewIndex(s.rows.all, all, i);
      assert NewAt(all, infos, i);
      var info :| info in infos && q.baseUrl == info.baseUrl
                  && (q.name == info.name || q.name == info.name + "-" + NatText(info.port));
      FoundFrom(s.rows.all, h, PORTS, info);
      assert NamedAfter(q, info.name, info.port) by { NamedAfterIs(q, info.name, info.port); }
    }
    if s.rows.all == [] && all != [] {
      assert NewAt(all, infos, 0);
      NothingNewDeparts(s, h, 0);
      assert all[0] in Scanned(s, h).0.rows.all;
    }
  }

  lemma NewIndex(ps: seq<Provider>, qs: seq<Provider>, i: nat)
    requires i < |qs| && |ps| <= |qs| && forall k :: 0 <= k < |ps| ==> qs[k].id == ps[k].id
    requires forall p :: p in ps ==> p.id != qs[i].id
    ensures |ps| <= i
  {
    assert i < |ps| ==> qs[i].id == ps[i].id;
    forall k | 0 <= k < |ps| ensures ps[k].id != qs[i].id {
      assert ps[k] in ps;
    }
  }

  predicate NamedAfter(q: Provider, name: string, port: nat) {
    q.name == name || q.name == name + "-" + NatText(port)
  }

  lemma NamedAfterIs(q: Provider, name: string, port: nat)
    requires q.name == name || q.name == name + "-" + NatText(port)
    ensures NamedAfter(q, name, port)
  {
  }

  lemma {:induction false} FoundFrom(ps: seq<Provider>, h: Host, ports: seq<nat>, info: Info)
    requires info in Found(ps, h, ports)
    ensures info.port in ports && ProbeAt(ps, h, info.port).Answered? && info.baseUrl == Endpoint(h.gateway, info.port)
    ensures info.name == IdentifyRuntime(ProbeAt(ps, h, info.port).owners, info.port)
  {
    hide ProbeAt, Endpoint, IdentifyRuntime, ResolvedType, ProbeKey;
    if ports != [] {
      var init, port := ports[..|ports| - 1], ports[|ports| - 1];
      assert ports == init + [port];
      if info in Found(ps, h, init) {
        FoundFrom(ps, h, init, info);
      }
    }
  }

  /** Whatever the result lists has a detected row at its endpoint. */
  lemma {:induction false} ListedHaveRows(r: Registering, before: seq<Provider>, infos: seq<Info>)
    requires r.rows.all == before && r.done == []
    requires forall info :: info in infos ==> Canonical(info.baseUrl) == info.baseUrl
    ensures forall e :: e in RegisterAll(r, before, infos).done ==>
              && (exists info :: info in infos && info.baseUrl == e.baseUrl)
              && HasRow(RegisterAll(r, before, infos).rows.all, e.baseUrl)
  {
    hide DetectedAt, AvailableName, Canonical;
    if infos != [] {
      var init, last := infos[..|infos| - 1], infos[|infos| - 1];
      assert infos == init + [last];
      ListedHaveRows(r, before, init);
      RegistrationGrows(r, before, init);
      var mid := RegisterAll(r, before, init);
      var after := RegisterOne(mid, before, last);
      forall e | e in after.done
        ensures HasRow(after.rows.all, e.baseUrl) && exists info :: info in infos && info.baseUrl == e.baseUrl {
        if e in mid.done {
          RowsStay(mid.rows.all, after.rows.all, e.baseUrl);
          var info :| info in init && info.baseUrl == e.baseUrl;
          assert info in infos;
        } else {
          assert last in infos;
          if DetectedAt(before, last.baseUrl).Some? {
            var i :| 0 <= i < |before| && before[i] == DetectedAt(before, last.baseUrl).value;
            assert after.rows.all[i].source == Detected && after.rows.all[i] in after.rows.all;
          } else {
            assert after.rows.all[|mid.rows.all|] in after.rows.all;
          }
        }
      }
    }
  }

  ghost predicate HasRow(ps: seq<Provider>, url: string) {
    exists p :: p in ps && p.source == Detected && Canonical(p.baseUrl) == url
  }

  lemma RowsStay(ps: seq<Provider>, qs: seq<Provider>, url: string)
    requires HasRow(ps, url) && |ps| <= |qs| && forall i :: 0 <= i < |ps| ==> qs[i] == ps[i].(ptype := qs[i].ptype)
    ensures HasRow(qs, url)
  {
    hide Canonical;
    var p :| p in ps && p.source == Detected && Canonical(p.baseUrl) == url;
    var i :| 0 <= i < |ps| && ps[i] == p;
    assert qs[i] in qs;
  }

  /** A scan that lists anything reports the detected provider at the first endpoint it lists; else it reports none. */
  lemma ReportedProviderIs(s: Store, h: Host)
    requires Sound(s.rows) && h.available
    ensures var (after, result) := Scanned(s, h);
            if result.detected == [] then result.registered.None?
            else exists p :: p in after.rows.all && p.source == Detected && Canonical(p.baseUrl) == result.detected[0].baseUrl
                             && result.registered == Some(p.id) && RegisteredProvider(s, h) == Some(p)
  {
    hide Found, RegisterAll, Present, Filter, Canonical, Established, ClearedAll, Sound, DetectedAt;
    var r := Registered(s, h);
    if r.done != [] {
      var present := Present(s.rows.all, h, PORTS);
      FoundArePresent(s.rows.all, h, PORTS);
      ListedHaveRows(Registering(s.rows, s.rows.all == [], []), s.rows.all, Found(s.rows.all, h, PORTS));
      assert r.done[0] in r.done;
      var url := r.done[0].baseUrl;
      var p :| p in r.rows.all && p.source == Detected && Canonical(p.baseUrl) == url;
      FilterMembers(r.rows.all, (q: Provider) => !Departed(q, present));
      assert p in Reconciled(s, h).rows.all && IsAt(p, url);
      assert DetectedAt(Reconciled(s, h).rows.all, url).Some?;
    }
  }

  // ---------- What a scan deletes, blanks and keeps ----------

  lemma NothingNewDeparts(s: Store, h: Host, i: nat)
    requires |s.rows.all| <= i < |Registered(s, h).rows.all|
    ensures var q := Registered(s, h).rows.all[i]; !Departed(q, Present(s.rows.all, h, PORTS)) && q.id >= s.rows.nextId
  {
    hide Found, Present, DetectedAt, RegisterAll;
    var infos := Found(s.rows.all, h, PORTS);
    RegistrationGrows(Registering(s.rows, s.rows.all == [], []), s.rows.all, infos);
    FoundArePresent(s.rows.all, h, PORTS);
    assert IsNew(Registered(s, h).rows.all[i], s.rows.nextId, s.rows.all, infos);
  }

  lemma DepartedGo(s: Store, h: Host, p: Provider)
    requires Sound(s.rows) && h.available && p in s.rows.all
    ensures (exists q :: q in Scanned(s, h).0.rows.all && q.id == p.id) <==> !Departed(p, Present(s.rows.all, h, PORTS))
    ensures forall q :: q in Scanned(s, h).0.rows.all && q.id == p.id ==> q == p.(ptype := q.ptype)
  {
    hide Found, Present, DetectedAt, RegisterAll, Filter, Canonical, RegisteredProvider, Established, ClearedAll, Sound;
    var present := Present(s.rows.all, h, PORTS);
    var all := Registered(s, h).rows.all;
    RegistrationGrows(Registering(s.rows, s.rows.all == [], []), s.rows.all, Found(s.rows.all, h, PORTS));
    FilterMembers(all, (q: Provider) => !Departed(q, present));
    var k :| 0 <= k < |s.rows.all| && s.rows.all[k] == p;
    assert all[k] in all;
    forall q | q in all && q.id == p.id ensures q == p.(ptype := q.ptype) {
      var i :| 0 <= i < |all| && all[i] == q;
      if i < |s.rows.all| {
        SameIdSameRow(s.rows, s.rows.all[i], p);
      } else {
        NothingNewDeparts(s, h, i);
        IdsAreOld(s.rows, p);
      }
    }
  }

  lemma SameIdSameRow(t: Rows, p: Provider, q: Provider)
    requires Sound(t) && p in t.all && q in t.all && p.id == q.id
    ensures p == q
  {
    OnlyHolder(t, p, q);
  }

  lemma IdsAreOld(t: Rows, p: Provider)
    requires Sound(t) && p in t.all
    ensures p.id < t.nextId
  {
  }

  lemma {:induction false} DepartedIdsIff(ps: seq<Provider>, present: set<string>, id: nat)
    ensures id in DepartedIds(ps, present) <==> exists p :: p in ps && Departed(p, present) && p.id == id
  {
    hide Departed;
    if ps != [] {
      DepartedIdsIff(ps[..|ps| - 1], present, id);
      assert ps == ps[..|ps| - 1] + [ps[|ps| - 1]];
    }
  }

  /** The endpoint is a candidate's and gave some answer. */
  ghost predicate Answers(s: Store, h: Host, url: string) {
    exists port :: port in PORTS && url == Endpoint(h.gateway, port) && !ProbeAt(s.rows.all, h, port).NoAnswer?
  }

  /** The provider is a detected one whose endpoint gave no answer. */
  ghost predicate Deletes(s: Store, h: Host, id: nat) {
    exists p :: p in s.rows.all && p.source == Detected && !Answers(s, h, Canonical(p.baseUrl)) && p.id == id
  }

  lemma DepartedIff(s: Store, h: Host, p: Provider)
    ensures Departed(p, Present(s.rows.all, h, PORTS)) <==> p.source == Detected && !Answers(s, h, Canonical(p.baseUrl))
  {
    hide Canonical, Endpoint, ProbeAt, Present;
    PresentIff(s.rows.all, h, PORTS, Canonical(p.baseUrl));
  }

  /**
   A scan deletes exactly the detected providers whose canonical endpoint gave no answer.  It changes nothing but
   the type of the other detected ones, and nothing at all of a provider that is not detected.
   */
  lemma ScanDeletesExactly(s: Store, h: Host, p: Provider)
    requires Sound(s.rows) && h.available && p in s.rows.all
    ensures (exists q :: q in Scanned(s, h).0.rows.all && q.id == p.id) <==>
            p.source != Detected || exists port :: port in PORTS && Canonical(p.baseUrl) == Endpoint(h.gateway, port)
                                                  && !ProbeAt(s.rows.all, h, port).NoAnswer?
    ensures forall q :: q in Scanned(s, h).0.rows.all && q.id == p.id ==> q == p.(ptype := q.ptype)
    ensures p.source != Detected ==> p in Scanned(s, h).0.rows.all
  {
    hide Scanned, Canonical, Endpoint, ProbeAt, Departed, Present, Sound;
    DepartedIff(s, h, p);
    DepartedGo(s, h, p);
    if p.source != Detected {
      ManualStays(s, h, p);
    }
  }

  lemma {:induction false} RegistrationSparesManual(r: Registering, before: seq<Provider>, infos: seq<Info>, i: nat)
    requires Sound(r.rows) && r.rows.all == before && i < |before| && before[i].source != Detected
    ensures i < |RegisterAll(r, before, infos).rows.all| && RegisterAll(r, before, infos).rows.all[i] == before[i]
  {
    hide DetectedAt, AvailableName, Sound;
    if infos != [] {
      var init, info := infos[..|infos| - 1], infos[|infos| - 1];
      RegistrationSparesManual(r, before, init, i);
      var existing := DetectedAt(before, info.baseUrl);
      if existing.Some? && existing.value.id == before[i].id {
        OnlyHolder(r.rows, existing.value, before[i]);
      }
    }
  }

  /** A provider that was not detected is not the scan's business. */
  lemma ManualStays(s: Store, h: Host, p: Provider)
    requires Sound(s.rows) && h.available && p in s.rows.all && p.source != Detected
    ensures p in Scanned(s, h).0.rows.all
  {
    hide Found, Present, RegisterAll, Filter, RegisteredProvider, Established, ClearedAll, Sound, Canonical;
    var i :| 0 <= i < |s.rows.all| && s.rows.all[i] == p;
    RegistrationSparesManual(Registering(s.rows, s.rows.all == [], []), s.rows.all, Found(s.rows.all, h, PORTS), i);
    var all, present := Registered(s, h).rows.all, Present(s.rows.all, h, PORTS);
    assert all[i] in all;
    FilterMembers(all, (q: Provider) => !Departed(q, present));
  }

  lemma DeletedAreOld(s: Store, h: Host, id: nat)
    ensures id in DepartedIds(Registered(s, h).rows.all, Present(s.rows.all, h, PORTS)) <==> Deletes(s, h, id)
  {
    hide Registered, Present, Departed, DepartedIds, Answers, Canonical;
    var present := Present(s.rows.all, h, PORTS);
    var all := Registered(s, h).rows.all;
    DepartedIdsIff(all, present, id);
    if exists q :: q in all && Departed(q, present) && q.id == id {
      var q :| q in all && Departed(q, present) && q.id == id;
      var p := DepartedWasThere(s, h, q);
      DepartedIff(s, h, p);
    }
    if Deletes(s, h, id) {
      var p :| p in s.rows.all && p.source == Detected && !Answers(s, h, Canonical(p.baseUrl)) && p.id == id;
      DepartedIff(s, h, p);
      DepartedIsThere(s, h, p);
    }
  }

  lemma DepartedWasThere(s: Store, h: Host, q: Provider) returns (p: Provider)
    requires q in Registered(s, h).rows.all && Departed(q, Present(s.rows.all, h, PORTS))
    ensures p in s.rows.all && Departed(p, Present(s.rows.all, h, PORTS)) && p.id == q.id
  {
    hide Found, Present, DetectedAt, RegisterAll, Canonical, IsNew;
    var all := Registered(s, h).rows.all;
    RegistrationGrows(Registering(s.rows, s.rows.all == [], []), s.rows.all, Found(s.rows.all, h, PORTS));
    var i :| 0 <= i < |all| && all[i] == q;
    if i >= |s.rows.all| {
      NothingNewDeparts(s, h, i);
    }
    p := s.rows.all[i];
  }

  lemma DepartedIsThere(s: Store, h: Host, p: Provider)
    requires p in s.rows.all && Departed(p, Present(s.rows.all, h, PORTS))
    ensures exists q :: q in Registered(s, h).rows.all && Departed(q, Present(s.rows.all, h, PORTS)) && q.id == p.id
  {
    hide Found, Present, DetectedAt, RegisterAll, Canonical, IsNew;
    var present := Present(s.rows.all, h, PORTS);
    var all := Registered(s, h).rows.all;
    RegistrationGrows(Registering(s.rows, s.rows.all == [], []), s.rows.all, Found(s.rows.all, h, PORTS));
    var i :| 0 <= i < |s.rows.all| && s.rows.all[i] == p;
    assert all[i] in all && Departed(all[i], present);
  }

  /** Before any model is established, a scan blanks exactly the model settings that name a deleted provider. */
  lemma ScanBlanksExactly(s: Store, h: Host, k: string)
    requires k in s.settings
    ensures k in Reconciled(s, h).settings
    ensures Reconciled(s, h).settings[k] ==
            if k in CLEARED_SETTINGS && s.settings[k].Dict? && s.settings[k].provider.Some?
               && Deletes(s, h, s.settings[k].provider.value)
            then BLANK else s.settings[k]
  {
    hide Registered, Present, ClearedAll, Deletes, Departed, Filter;
    var ids := DepartedIds(Registered(s, h).rows.all, Present(s.rows.all, h, PORTS));
    ClearsExactly(s.settings, ids);
    if s.settings[k].Dict? && s.settings[k].provider.Some? {
      DeletedAreOld(s, h, s.settings[k].provider.value);
    }
  }

  // ---------- Model roles ----------

  lemma RegisteredProviderIsDetected(s: Store, h: Host)
    requires RegisteredProvider(s, h).Some?
    ensures var p := RegisteredProvider(s, h).value;
            && p in Reconciled(s, h).rows.all && p.source == Detected
            && Answers(s, h, Canonical(p.baseUrl))
            && exists e :: e in Registered(s, h).done && Canonical(e.baseUrl) == Canonical(p.baseUrl)
  {
    hide Registered, Present, DetectedAt, Canonical, Filter;
    var present := Present(s.rows.all, h, PORTS);
    FilterMembers(Registered(s, h).rows.all, (q: Provider) => !Departed(q, present));
    assert Registered(s, h).done[0] in Registered(s, h).done;
    DepartedIff(s, h, RegisteredProvider(s, h).value);
  }

  /**
   If any role named a model before the scan, usable or not, the scan selects nothing: each role is as it was,
   or blank because the scan deleted its provider.
   */
  lemma ChosenModelsAreNotReplaced(s: Store, h: Host, key: string)
    requires AnyRole(s.settings) && key in s.settings && h.available
    ensures Scanned(s, h).1.established.None?
    ensures key in Scanned(s, h).0.settings
    ensures Scanned(s, h).0.settings[key] ==
            if key in CLEARED_SETTINGS && s.settings[key].Dict? && s.settings[key].provider.Some?
               && Deletes(s, h, s.settings[key].provider.value)
            then BLANK else s.settings[key]
  {
    hide Registered, RegisteredProvider, Reconciled, AnyRole, Deletes, Present;
    ScanBlanksExactly(s, h, key);
  }

  lemma SettingsOnlyBlanked(s: Store, h: Host)
    requires !AnyRole(s.settings)
    ensures !AnyRole(Reconciled(s, h).settings)
  {
    hide RoleSet, ClearedAll, Registered, Present, Filter;
    var ids := DepartedIds(Registered(s, h).rows.all, Present(s.rows.all, h, PORTS));
    if RoleSet(Reconciled(s, h).settings, "llm_model") {
      ClearingNamesNothing(s.settings, ids, "llm_model");
    }
    if RoleSet(Reconciled(s, h).settings, "task_processing_model") {
      ClearingNamesNothing(s.settings, ids, "task_processing_model");
    }
  }

  /**
   If no role named a model, a scan establishes one exactly if it registered a provider whose listing can be
   read and holds a single model.  Then both roles move to it together; otherwise no role names a model.
   */
  lemma SoleModelIsEstablished(s: Store, h: Host)
    requires !AnyRole(s.settings) && h.available
    ensures var (after, result) := Scanned(s, h);
            var p := RegisteredProvider(s, h);
            var sole := p.Some? && ListingOf(p.value, h.listings).Some? && |ListingOf(p.value, h.listings).value| == 1;
            && (result.established.Some? <==> sole)
            && (sole ==>
                  var model := ListingOf(p.value, h.listings).value[0];
                  && result.established == Some(model) && result.registered == Some(p.value.id)
                  && p.value in after.rows.all && p.value.source == Detected
                  && Answers(s, h, Canonical(p.value.baseUrl))
                  && "llm_model" in after.settings && "task_processing_model" in after.settings
                  && after.settings["llm_model"] == Dict(Some(p.value.id), model, "")
                  && after.settings["task_processing_model"] == after.settings["llm_model"])
            && (!sole ==> after.settings == Reconciled(s, h).settings && !AnyRole(after.settings))
            && (forall k :: k in s.settings && k !in MODEL_ROLE_SETTINGS ==>
                              k in after.settings && k in Reconciled(s, h).settings
                              && after.settings[k] == Reconciled(s, h).settings[k])
  {
    hide Registered, RegisteredProvider, Reconciled, AnyRole, Answers, Canonical;
    SettingsOnlyBlanked(s, h);
    if RegisteredProvider(s, h).Some? {
      RegisteredProviderIsDetected(s, h);
    }
    forall k | k in s.settings ensures k in Reconciled(s, h).settings {
      ScanBlanksExactly(s, h, k);
    }
  }
}
