/**
 The reconciliation pass: re-registering webhook triggers whose cloud endpoint is gone, and the ledger of
 replaced URLs.
 */
module EndpointReconciliation {
  import opened Text

  type Url = s: string | s != "" witness "u"
  type Token = s: string | s != "" witness "t"

  /** A trigger's stored secret: absent, not decryptable, or a plaintext. */
  datatype Secret = Missing | Unreadable | Holds(plain: string)

  datatype Trigger = Trigger(name: string, source: string, secret: Secret, url: Option<Url>, token: Option<Token>)

  datatype Change = Change(id: nat, name: string, source: string, previous: Url, now: Url)

  /** What a registration attempt meets. */
  datatype Reply = NotConnected | NoAccessToken | Refused | Granted(url: Url, token: Token)

  datatype Table = Table(triggers: map<nat, Trigger>, changes: seq<Change>, lastKnown: map<nat, Url>)

  /** One pass as the outside world answers it: a listing that failed is absent from `listings`. */
  datatype Plan = Plan(connected: bool, listings: map<string, set<Token>>, replies: map<nat, Reply>,
                       secrets: map<nat, string>)

  function ReplyTo(plan: Plan, id: nat): Reply {
    if id in plan.replies then plan.replies[id] else Refused
  }

  function MintedSecret(plan: Plan, id: nat): string {
    if id in plan.secrets then plan.secrets[id] else ""
  }

  const WEBHOOK_TRIGGER_INTEGRATIONS := ["jira", "github"]

  // ---------- One trigger ----------

  predicate Usable(s: Secret) {
    s.Missing? || (s.Holds? && s.plain != "")
  }

  predicate Registers(t: Trigger, reply: Reply) {
    reply.Granted? && Usable(t.secret)
  }

  /** `register_webhook_trigger_with_cloud`. */
  function Registered(t: Trigger, reply: Reply, minted: string): Trigger {
    if reply.NotConnected? then t
    else
      var keyed := if t.secret.Missing? then t.(secret := Holds(minted)) else t;
      if Registers(t, reply) then keyed.(url := Some(reply.url), token := Some(reply.token)) else keyed
  }

  /** Everything the pass keeps about one trigger. */
  datatype Own = Own(trigger: Trigger, lastKnown: Option<Url>, records: seq<Change>)

  /** The URL the third party is pointed at, as far as anyone remembers. */
  function Carried(o: Own): Option<Url> {
    if o.trigger.url.Some? then o.trigger.url else o.lastKnown
  }

  function NewRecords(o: Own, id: nat, now: Url): seq<Change> {
    if Carried(o).Some? && Carried(o).value != now
    then [Change(id, o.trigger.name, o.trigger.source, Carried(o).value, now)] else o.records
  }

  function OwnRepair(o: Own, id: nat, reply: Reply, minted: string): Own {
    var t := Registered(o.trigger, reply, minted);
    if Registers(o.trigger, reply) then Own(t, None, NewRecords(o, id, reply.url))
    else if t.url.Some? then Own(t.(url := None), t.url, o.records)
    else o.(trigger := t)
  }

  predicate Live(t: Trigger, live: set<Token>) {
    t.token.Some? && t.token.value in live
  }

  /** Whether the pass acts on a trigger. */
  predicate Touched(t: Trigger, plan: Plan) {
    && plan.connected
    && t.source in WEBHOOK_TRIGGER_INTEGRATIONS
    && t.source in plan.listings
    && !Live(t, plan.listings[t.source])
  }

  function OwnPass(o: Own, id: nat, plan: Plan): Own {
    if Touched(o.trigger, plan) then OwnRepair(o, id, ReplyTo(plan, id), MintedSecret(plan, id)) else o
  }

  // ---------- The whole table ----------

  function RecordsOf(changes: seq<Change>, id: nat): seq<Change> {
    if changes == [] then []
    else RecordsOf(changes[..|changes| - 1], id)
         + (if changes[|changes| - 1].id == id then [changes[|changes| - 1]] else [])
  }

  function Without(changes: seq<Change>, id: nat): seq<Change> {
    if changes == [] then []
    else Without(changes[..|changes| - 1], id)
         + (if changes[|changes| - 1].id == id then [] else [changes[|changes| - 1]])
  }

  function OwnOf(t: Table, id: nat): Own
    requires id in t.triggers
  {
    Own(t.triggers[id], if id in t.lastKnown then Some(t.lastKnown[id]) else None, RecordsOf(t.changes, id))
  }

  /** `_reconcile_one`, after its checks. */
  function Repaired(t: Table, id: nat, reply: Reply, minted: string): Table
    requires id in t.triggers
  {
    var before := t.triggers[id];
    var after := Registered(before, reply, minted);
    var previous := if before.url.Some? then before.url else if id in t.lastKnown then Some(t.lastKnown[id]) else None;
    if Registers(before, reply) then
      Table(t.triggers[id := after],
            if previous.Some? && previous.value != reply.url
            then Without(t.changes, id) + [Change(id, before.name, before.source, previous.value, reply.url)] else t.changes,
            t.lastKnown - {id})
    else if after.url.Some? then
      Table(t.triggers[id := after.(url := None)], t.changes, t.lastKnown[id := after.url.value])
    else t.(triggers := t.triggers[id := after])
  }

  function Visited(t: Table, id: nat, plan: Plan): Table {
    if id in t.triggers && Touched(t.triggers[id], plan)
    then Repaired(t, id, ReplyTo(plan, id), MintedSecret(plan, id)) else t
  }

  function VisitedAll(t: Table, ids: seq<nat>, plan: Plan): Table {
    if ids == [] then t else Visited(VisitedAll(t, ids[..|ids| - 1], plan), ids[|ids| - 1], plan)
  }

  // ---------- What one visit does to each trigger's own share ----------

  lemma {:induction false} RecordsWithout(changes: seq<Change>, id: nat, j: nat)
    ensures RecordsOf(Without(changes, id), j) == if j == id then [] else RecordsOf(changes, j)
  {
    if changes != [] {
      var init, last := changes[..|changes| - 1], changes[|changes| - 1];
      RecordsWithout(init, id, j);
      if last.id != id {
        RecordsAppend(Without(init, id), last, j);
      } else {
        assert Without(changes, id) == Without(init, id);
      }
    }
  }

  lemma RecordsAppend(changes: seq<Change>, c: Change, j: nat)
    ensures RecordsOf(changes + [c], j) == RecordsOf(changes, j) + (if c.id == j then [c] else [])
  {
    assert (changes + [c])[..|changes|] == changes;
  }

  lemma RepairIsOwn(t: Table, id: nat, reply: Reply, minted: string, j: nat)
    requires id in t.triggers && j in t.triggers
    ensures j in Repaired(t, id, reply, minted).triggers
    ensures OwnOf(Repaired(t, id, reply, minted), j) ==
            if j == id then OwnRepair(OwnOf(t, id), id, reply, minted) else OwnOf(t, j)
  {
    hide RecordsOf, Without, Registers, Registered;
    RecordsWithout(t.changes, id, j);
    if Registers(t.triggers[id], reply) {
      assert reply.Granted? by { GrantedWhenRegistered(t.triggers[id], reply); }
      var o := OwnOf(t, id);
      if Carried(o).Some? && Carried(o).value != reply.url {
        RecordsAppend(Without(t.changes, id),
                      Change(id, o.trigger.name, o.trigger.source, Carried(o).value, reply.url), j);
      }
    }
  }

  lemma GrantedWhenRegistered(t: Trigger, reply: Reply)
    requires Registers(t, reply)
    ensures reply.Granted?
  {
  }

  lemma {:induction false} VisitsAreOwn(t: Table, ids: seq<nat>, plan: Plan, j: nat)
    requires j in t.triggers
    requires forall a, b :: 0 <= a < b < |ids| ==> ids[a] != ids[b]
    ensures j in VisitedAll(t, ids, plan).triggers
    ensures OwnOf(VisitedAll(t, ids, plan), j) == if j in ids then OwnPass(OwnOf(t, j), j, plan) else OwnOf(t, j)
    ensures VisitedAll(t, ids, plan).triggers.Keys == t.triggers.Keys
  {
    hide OwnOf, Touched, OwnRepair, ReplyTo, MintedSecret;
    if ids != [] {
      var init, last := ids[..|ids| - 1], ids[|ids| - 1];
      VisitsAreOwn(t, init, plan, j);
      VisitIsOwn(VisitedAll(t, init, plan), last, plan, j);
      assert ids == init + [last];
    }
  }

  lemma VisitIsOwn(t: Table, id: nat, plan: Plan, j: nat)
    requires j in t.triggers
    ensures j in Visited(t, id, plan).triggers && Visited(t, id, plan).triggers.Keys == t.triggers.Keys
    ensures OwnOf(Visited(t, id, plan), j) == if j == id then OwnPass(OwnOf(t, j), j, plan) else OwnOf(t, j)
  {
    hide Touched, OwnRepair, RecordsOf, Registered, Registers, Without;
    if id in t.triggers && Touched(t.triggers[id], plan) {
      RepairIsOwn(t, id, ReplyTo(plan, id), MintedSecret(plan, id), j);
    }
  }

  // ---------- A whole pass ----------

  /** The integrations that have triggers, by first appearance. */
  function Names(order: seq<nat>, triggers: map<nat, Trigger>): seq<string>
    requires forall x :: x in order ==> x in triggers
  {
    if order == [] then []
    else
      var init, source := Names(order[..|order| - 1], triggers), triggers[order[|order| - 1]].source;
      if source in WEBHOOK_TRIGGER_INTEGRATIONS && source !in init then init + [source] else init
  }

  function Group(order: seq<nat>, triggers: map<nat, Trigger>, name: string): (ids: seq<nat>)
    requires forall x :: x in order ==> x in triggers
    ensures forall x :: x in ids ==> x in order
  {
    if order == [] then []
    else
      var init, last := Group(order[..|order| - 1], triggers, name), order[|order| - 1];
      if triggers[last].source == name then init + [last] else init
  }

  function Grouped(names: seq<string>, order: seq<nat>, triggers: map<nat, Trigger>): seq<nat>
    requires forall x :: x in order ==> x in triggers
  {
    if names == [] then []
    else Grouped(names[..|names| - 1], order, triggers) + Group(order, triggers, names[|names| - 1])
  }

  predicate Distinct<T(==)>(s: seq<T>) {
    forall a, b :: 0 <= a < b < |s| ==> s[a] != s[b]
  }

  ghost predicate IsScan(order: seq<nat>, triggers: map<nat, Trigger>) {
    Distinct(order) && forall x :: x in order <==> x in triggers
  }

  /** `reconcile_webhook_trigger_endpoints`. */
  function Reconciled(t: Table, order: seq<nat>, plan: Plan): Table
    requires IsScan(order, t.triggers)
  {
    VisitedAll(t, Grouped(Names(order, t.triggers), order, t.triggers), plan)
  }

  lemma {:induction false} NamesAreSources(order: seq<nat>, triggers: map<nat, Trigger>)
    requires forall x :: x in order ==> x in triggers
    ensures Distinct(Names(order, triggers))
    ensures forall n :: n in Names(order, triggers) ==> n in WEBHOOK_TRIGGER_INTEGRATIONS
    ensures forall x :: x in order && triggers[x].source in WEBHOOK_TRIGGER_INTEGRATIONS ==>
                          triggers[x].source in Names(order, triggers)
  {
    if order != [] {
      var init, last := order[..|order| - 1], order[|order| - 1];
      NamesAreSources(init, triggers);
      assert order == init + [last];
    }
  }

  lemma {:induction false} GroupIsFilter(order: seq<nat>, triggers: map<nat, Trigger>, name: string)
    requires forall x :: x in order ==> x in triggers
    ensures forall x :: x in Group(order, triggers, name) <==> x in order && triggers[x].source == name
    ensures Distinct(order) ==> Distinct(Group(order, triggers, name))
  {
    if order != [] {
      var init, last := order[..|order| - 1], order[|order| - 1];
      GroupIsFilter(init, triggers, name);
      assert order == init + [last];
      assert Distinct(order) ==> Distinct(init) && last !in init;
    }
  }

  lemma DistinctConcat<T>(a: seq<T>, b: seq<T>)
    requires Distinct(a) && Distinct(b) && forall x :: x in a ==> x !in b
    ensures Distinct(a + b)
  {
    forall i, j | 0 <= i < j < |a + b| ensures (a + b)[i] != (a + b)[j] {
      if i < |a| <= j {
        assert (a + b)[i] in a && (a + b)[j] in b;
      }
    }
  }

  lemma {:induction false} GroupedIsScan(names: seq<string>, order: seq<nat>, triggers: map<nat, Trigger>)
    requires forall x :: x in order ==> x in triggers
    requires Distinct(names) && Distinct(order)
    ensures forall x :: x in Grouped(names, order, triggers) <==> x in order && triggers[x].source in names
    ensures Distinct(Grouped(names, order, triggers))
  {
    hide Group;
    if names != [] {
      var init, last := names[..|names| - 1], names[|names| - 1];
      GroupedIsScan(init, order, triggers);
      GroupIsFilter(order, triggers, last);
      assert names == init + [last] && last !in init;
      DistinctConcat(Grouped(init, order, triggers), Group(order, triggers, last));
    }
  }

  /** A pass treats every trigger on its own, whatever the order of the table. */
  lemma PassIsPerTrigger(t: Table, order: seq<nat>, plan: Plan, j: nat)
    requires IsScan(order, t.triggers) && j in t.triggers
    ensures Reconciled(t, order, plan).triggers.Keys == t.triggers.Keys
    ensures OwnOf(Reconciled(t, order, plan), j) == OwnPass(OwnOf(t, j), j, plan)
  {
    hide VisitedAll, Names, Grouped, OwnRepair;
    var names := Names(order, t.triggers);
    NamesAreSources(order, t.triggers);
    GroupedIsScan(names, order, t.triggers);
    VisitsAreOwn(t, Grouped(names, order, t.triggers), plan, j);
  }

  /** What a registration needs of the stored secret: none yet, or one that can be read and is not empty. */
  ghost predicate CanRegister(secret: Secret) {
    secret == Missing || exists plain :: secret == Holds(plain) && plain != ""
  }

  /** What the pass must not touch: no cloud, no listing for the trigger, or a listing that shows its token. */
  ghost predicate LeftAlone(t: Trigger, plan: Plan) {
    || !plan.connected
    || (t.source != "jira" && t.source != "github")
    || t.source !in plan.listings
    || exists k :: t.token == Some(k) && k in plan.listings[t.source]
  }

  lemma TouchedIff(t: Trigger, plan: Plan)
    ensures Touched(t, plan) <==> !LeftAlone(t, plan)
  {
    assert t.source in WEBHOOK_TRIGGER_INTEGRATIONS <==> t.source == "jira" || t.source == "github";
    assert t.token.Some? ==> t.token == Some(t.token.value);
  }

  lemma RegistersIff(t: Trigger, reply: Reply)
    ensures Registers(t, reply) <==> reply.Granted? && CanRegister(t.secret)
  {
    assert t.secret.Holds? ==> t.secret == Holds(t.secret.plain);
  }

  /**
   A pass changes no trigger of an integration whose listing failed and none whose token is live, nor their ledger
   entries.  Every other trigger ends with the URL and token just granted, or without a URL, which is then remembered;
   its secret is filled in if it had none and otherwise kept.
   */
  lemma PassOutcome(t: Table, order: seq<nat>, plan: Plan, j: nat)
    requires IsScan(order, t.triggers) && j in t.triggers
    ensures j in Reconciled(t, order, plan).triggers
    ensures var before, after, reply := t.triggers[j], Reconciled(t, order, plan).triggers[j], ReplyTo(plan, j);
            var known := Carried(OwnOf(Reconciled(t, order, plan), j));
            && after.name == before.name && after.source == before.source
            && (LeftAlone(before, plan) ==> OwnOf(Reconciled(t, order, plan), j) == OwnOf(t, j))
            && (!LeftAlone(before, plan) ==>
                  && (if reply.Granted? && CanRegister(before.secret)
                      then after.url == Some(reply.url) && after.token == Some(reply.token) && known == Some(reply.url)
                      else after.url == None && after.token == before.token && known == Carried(OwnOf(t, j)))
                  && after.secret == if before.secret.Missing? && !reply.NotConnected? then Holds(MintedSecret(plan, j))
                                     else before.secret)
  {
    hide Reconciled, Touched, RecordsOf, LeftAlone, CanRegister;
    PassIsPerTrigger(t, order, plan, j);
    TouchedIff(t.triggers[j], plan);
    RegistersIff(t.triggers[j], ReplyTo(plan, j));
  }

  /** When a pass ends, a URL on display belongs to an endpoint that was listed or has just been made. */
  lemma PassShowsOnlyLive(t: Table, order: seq<nat>, plan: Plan, j: nat)
    requires IsScan(order, t.triggers) && j in t.triggers && plan.connected
    requires t.triggers[j].source in ["jira", "github"] && t.triggers[j].source in plan.listings
    ensures j in Reconciled(t, order, plan).triggers
    ensures var after := Reconciled(t, order, plan).triggers[j];
            after.url.Some? ==>
              && after.token.Some?
              && (after.token.value in plan.listings[t.triggers[j].source]
                  || ReplyTo(plan, j) == Granted(after.url.value, after.token.value))
  {
    hide Reconciled;
    PassOutcome(t, order, plan, j);
  }

  /** A registration outside a pass writes URL and token if granted, never clears them, and leaves the ledger alone. */
  lemma ResaveOutcome(t: Table, order: seq<nat>, j: nat, reply: Reply, minted: string)
    requires IsScan(order, t.triggers) && j in t.triggers
    ensures var before, r := t.triggers[j], StepOf(t, order, Resave(j, reply, minted));
            && r.changes == t.changes && r.lastKnown == t.lastKnown && r.triggers.Keys == t.triggers.Keys
            && (forall i :: i in t.triggers && i != j ==> r.triggers[i] == t.triggers[i])
            && r.triggers[j].name == before.name && r.triggers[j].source == before.source
            && r.triggers[j].secret == (if before.secret.Missing? && !reply.NotConnected? then Holds(minted) else before.secret)
            && (if reply.Granted? && CanRegister(before.secret)
                then r.triggers[j].url == Some(reply.url) && r.triggers[j].token == Some(reply.token)
                else r.triggers[j].url == before.url && r.triggers[j].token == before.token)
  {
    hide CanRegister;
    RegistersIff(t.triggers[j], reply);
  }

  // ---------- The ledger over runs ----------

  datatype Step =
    | Pass(plan: Plan)
    | Resave(id: nat, reply: Reply, minted: string)
    | Edit(id: nat, name: string, source: string)
    | Dismiss

  function StepOf(t: Table, order: seq<nat>, step: Step): Table
    requires IsScan(order, t.triggers)
  {
    match step
    case Pass(plan) => Reconciled(t, order, plan)
    case Resave(id, reply, minted) =>
      if id in t.triggers then t.(triggers := t.triggers[id := Registered(t.triggers[id], reply, minted)]) else t
    case Edit(id, name, source) =>
      if id in t.triggers then t.(triggers := t.triggers[id := t.triggers[id].(name := name, source := source)]) else t
    case Dismiss => t.(changes := [], lastKnown := map[])
  }

  function OwnStep(o: Own, id: nat, step: Step): Own {
    match step
    case Pass(plan) => OwnPass(o, id, plan)
    case Resave(j, reply, minted) => if j == id then o.(trigger := Registered(o.trigger, reply, minted)) else o
    case Edit(j, name, source) => if j == id then o.(trigger := o.trigger.(name := name, source := source)) else o
    case Dismiss => o.(lastKnown := None, records := [])
  }

  function OwnRun(o: Own, id: nat, steps: seq<Step>): Own {
    if steps == [] then o else OwnStep(OwnRun(o, id, steps[..|steps| - 1]), id, steps[|steps| - 1])
  }

  lemma StepKeepsScan(t: Table, order: seq<nat>, step: Step)
    requires IsScan(order, t.triggers)
    ensures StepOf(t, order, step).triggers.Keys == t.triggers.Keys && IsScan(order, StepOf(t, order, step).triggers)
  {
    hide Reconciled, Distinct, Registered;
    if step.Pass? && |order| > 0 {
      assert order[0] in t.triggers;
      PassIsPerTrigger(t, order, step.plan, order[0]);
    } else if step.Pass? {
      assert Reconciled(t, order, step.plan) == t by { EmptyPass(t, order, step.plan); }
    }
  }

  lemma EmptyPass(t: Table, order: seq<nat>, plan: Plan)
    requires IsScan(order, t.triggers) && order == []
    ensures Reconciled(t, order, plan) == t
  {
  }

  function Run(t: Table, order: seq<nat>, steps: seq<Step>): (r: Table)
    requires IsScan(order, t.triggers)
    ensures r.triggers.Keys == t.triggers.Keys && IsScan(order, r.triggers)
  {
    if steps == [] then t
    else
      var init := Run(t, order, steps[..|steps| - 1]);
      StepKeepsScan(init, order, steps[|steps| - 1]);
      StepOf(init, order, steps[|steps| - 1])
  }

  lemma StepIsOwn(t: Table, order: seq<nat>, step: Step, j: nat)
    requires IsScan(order, t.triggers) && j in t.triggers
    ensures j in StepOf(t, order, step).triggers
    ensures OwnOf(StepOf(t, order, step), j) == OwnStep(OwnOf(t, j), j, step)
  {
    hide Reconciled, Registered, OwnPass;
    if step.Pass? {
      PassIsPerTrigger(t, order, step.plan, j);
    }
  }

  lemma {:induction false} RunIsOwn(t: Table, order: seq<nat>, steps: seq<Step>, j: nat)
    requires IsScan(order, t.triggers) && j in t.triggers
    ensures OwnOf(Run(t, order, steps), j) == OwnRun(OwnOf(t, j), j, steps)
  {
    hide OwnStep, StepOf, OwnOf;
    if steps != [] {
      RunIsOwn(t, order, steps[..|steps| - 1], j);
      StepIsOwn(Run(t, order, steps[..|steps| - 1]), order, steps[|steps| - 1], j);
    }
  }

  /** The last URL the trigger displayed, over its whole history. */
  function LastShown(o: Own, id: nat, steps: seq<Step>): Option<Url> {
    var now := OwnRun(o, id, steps).trigger.url;
    if now.Some? || steps == [] then now else LastShown(o, id, steps[..|steps| - 1])
  }

  /** Whether the notices were dismissed while no URL was on display, and none has been since. */
  predicate Forgotten(o: Own, id: nat, steps: seq<Step>) {
    && steps != []
    && OwnRun(o, id, steps).trigger.url.None?
    && (steps[|steps| - 1].Dismiss? || Forgotten(o, id, steps[..|steps| - 1]))
  }

  lemma {:induction false} OwnLastShownIsCarried(o: Own, id: nat, steps: seq<Step>)
    requires o.lastKnown.None?
    ensures Carried(OwnRun(o, id, steps)) == if Forgotten(o, id, steps) then None else LastShown(o, id, steps)
  {
    hide Touched, ReplyTo, Registers, NewRecords;
    if steps != [] {
      OwnLastShownIsCarried(o, id, steps[..|steps| - 1]);
      CarriedStep(OwnRun(o, id, steps[..|steps| - 1]), id, steps[|steps| - 1]);
    }
  }

  lemma CarriedStep(o: Own, id: nat, step: Step)
    ensures var o' := OwnStep(o, id, step);
            o'.trigger.url.None? ==> Carried(o') == if step.Dismiss? then None else Carried(o)
  {
    hide Touched, ReplyTo, NewRecords;
  }

  lemma {:induction false} OwnRecordIsSingle(o: Own, id: nat, steps: seq<Step>)
    requires |o.records| <= 1
    ensures |OwnRun(o, id, steps).records| <= 1
  {
    hide Touched, ReplyTo, Registered;
    if steps != [] {
      OwnRecordIsSingle(o, id, steps[..|steps| - 1]);
    }
  }

  /**
   From an empty ledger, over any run: when a pass re-registers a trigger, its record afterwards pairs the
   new URL with the last URL it ever displayed, exactly if it displayed one, the URL changed, and the notices
   were not dismissed while none was on display; otherwise no record is written.  There is never a second one.
   */
  lemma RepairReportsLastShown(t: Table, order: seq<nat>, steps: seq<Step>, plan: Plan, j: nat)
    requires IsScan(order, t.triggers) && j in t.triggers && t.changes == [] && t.lastKnown == map[]
    requires var before := Run(t, order, steps).triggers[j];
             !LeftAlone(before, plan) && ReplyTo(plan, j).Granted? && CanRegister(before.secret)
    ensures var before, after := Run(t, order, steps), Run(t, order, steps + [Pass(plan)]);
            var shown := LastShown(OwnOf(t, j), j, steps);
            var url := ReplyTo(plan, j).url;
            && after.triggers[j].url == Some(url)
            && |RecordsOf(after.changes, j)| <= 1
            && RecordsOf(after.changes, j) ==
               if shown.Some? && shown.value != url && !Forgotten(OwnOf(t, j), j, steps)
               then [Change(j, before.triggers[j].name, before.triggers[j].source, shown.value, url)]
               else RecordsOf(before.changes, j)
  {
    hide Touched, LeftAlone, Registers, CanRegister, Registered, ReplyTo, RecordsOf, Run, OwnRun, LastShown, Forgotten;
    TouchedIff(Run(t, order, steps).triggers[j], plan);
    RegistersIff(Run(t, order, steps).triggers[j], ReplyTo(plan, j));
    assert RecordsOf([], j) == [] by { NoRecords(j); }
    var o := OwnOf(t, j);
    var all := steps + [Pass(plan)];
    RunIsOwn(t, order, steps, j);
    RunIsOwn(t, order, all, j);
    OwnRunAppend(o, j, steps, Pass(plan));
    OwnLastShownIsCarried(o, j, steps);
    OwnRecordIsSingle(o, j, all);
    RegisteredUrl(Run(t, order, steps).triggers[j], ReplyTo(plan, j), MintedSecret(plan, j));
  }

  lemma RegisteredUrl(t: Trigger, reply: Reply, minted: string)
    requires Registers(t, reply)
    ensures reply.Granted? && Registered(t, reply, minted).url == Some(reply.url)
  {
  }

  lemma NoRecords(j: nat)
    ensures RecordsOf([], j) == []
  {
  }

  lemma OwnRunAppend(o: Own, id: nat, steps: seq<Step>, step: Step)
    ensures OwnRun(o, id, steps + [step]) == OwnStep(OwnRun(o, id, steps), id, step)
  {
    hide OwnStep;
    assert (steps + [step])[..|steps|] == steps;
  }

  lemma {:induction false} OwnSecretIsKept(o: Own, id: nat, steps: seq<Step>)
    requires !o.trigger.secret.Missing?
    ensures OwnRun(o, id, steps).trigger.secret == o.trigger.secret
  {
    hide Touched, ReplyTo, NewRecords;
    if steps != [] {
      OwnSecretIsKept(o, id, steps[..|steps| - 1]);
    }
  }

  /** The URL a third party is pointed at, as far as the table remembers. */
  function Remembered(t: Table, id: nat): Option<Url>
    requires id in t.triggers
  {
    Carried(OwnOf(t, id))
  }

  /**
   From an empty ledger, through any number of failed passes, re-saves and edits of any trigger, the table
   remembers the last URL a trigger displayed, exactly unless the notices were dismissed while it displayed none.
   */
  lemma LastShownIsCarried(t: Table, order: seq<nat>, steps: seq<Step>, j: nat)
    requires IsScan(order, t.triggers) && j in t.triggers && t.changes == [] && t.lastKnown == map[]
    ensures Remembered(Run(t, order, steps), j) ==
            if Forgotten(OwnOf(t, j), j, steps) then None else LastShown(OwnOf(t, j), j, steps)
  {
    hide Run, OwnRun, LastShown, Forgotten, RecordsOf;
    RunIsOwn(t, order, steps, j);
    OwnLastShownIsCarried(OwnOf(t, j), j, steps);
  }

  /** No run leaves two records for a trigger in the ledger. */
  lemma AtMostOneRecord(t: Table, order: seq<nat>, steps: seq<Step>, j: nat)
    requires IsScan(order, t.triggers) && j in t.triggers && |RecordsOf(t.changes, j)| <= 1
    ensures |RecordsOf(Run(t, order, steps).changes, j)| <= 1
  {
    hide Run, OwnRun, RecordsOf;
    RunIsOwn(t, order, steps, j);
    OwnRecordIsSingle(OwnOf(t, j), j, steps);
  }

  /** Whatever happens to the table, a secret a trigger has is never replaced. */
  lemma SecretIsKept(t: Table, order: seq<nat>, steps: seq<Step>, j: nat)
    requires IsScan(order, t.triggers) && j in t.triggers && !t.triggers[j].secret.Missing?
    ensures Run(t, order, steps).triggers[j].secret == t.triggers[j].secret
  {
    hide Run, OwnRun, RecordsOf;
    RunIsOwn(t, order, steps, j);
    OwnSecretIsKept(OwnOf(t, j), j, steps);
  }

  // ---------- The run that forgets a URL ----------

  /** A listing that shows no live token, and what the cloud answers trigger `j`. */
  function GoneWith(source: string, j: nat, reply: Reply): Plan {
    Plan(true, map[source := {}], map[j := reply], map[])
  }

  lemma FailedThenDismissed(o: Own, j: nat)
    requires o.trigger.source in WEBHOOK_TRIGGER_INTEGRATIONS && o.trigger.url.Some?
    ensures var steps := [Pass(GoneWith(o.trigger.source, j, Refused)), Dismiss];
            && LastShown(o, j, steps) == o.trigger.url
            && Forgotten(o, j, steps)
            && OwnRun(o, j, steps).records == []
            && OwnRun(o, j, steps).trigger.source == o.trigger.source
  {
    var failing := Pass(GoneWith(o.trigger.source, j, Refused));
    var steps := [failing, Dismiss];
    hide LastShown, Forgotten, OwnRun;
    var o1 := OwnStep(o, j, failing);
    assert steps == [failing] + [Dismiss] && [failing] == [] + [failing];
    NoSteps(o, j);
    OwnRunAppend(o, j, [], failing);
    OwnRunAppend(o, j, [failing], Dismiss);
    assert o1.trigger.url.None?;
    ShownBefore(o, j, [], failing);
    ShownBefore(o, j, [failing], Dismiss);
  }

  lemma NoSteps(o: Own, j: nat)
    ensures OwnRun(o, j, []) == o && LastShown(o, j, []) == o.trigger.url && !Forgotten(o, j, [])
  {
  }

  lemma ShownBefore(o: Own, j: nat, steps: seq<Step>, step: Step)
    requires OwnRun(o, j, steps + [step]).trigger.url.None?
    ensures LastShown(o, j, steps + [step]) == LastShown(o, j, steps)
    ensures step.Dismiss? ==> Forgotten(o, j, steps + [step])
  {
    hide OwnRun;
    assert (steps + [step])[..|steps|] == steps;
  }

  /**
   The failing run: a trigger displays `u1`, a pass finds its endpoint gone and cannot replace it, the notices are
   dismissed, and the next pass is granted `u2`.  No record tells that `u1` was replaced.
   */
  lemma DismissalForgets(t: Table, order: seq<nat>, j: nat, u2: Url, token: Token)
    requires IsScan(order, t.triggers) && j in t.triggers && t.changes == [] && t.lastKnown == map[]
    requires t.triggers[j].source in WEBHOOK_TRIGGER_INTEGRATIONS && t.triggers[j].url.Some?
    requires t.triggers[j].secret.Holds? && t.triggers[j].secret.plain != "" && t.triggers[j].url.value != u2
    ensures var source := t.triggers[j].source;
            var steps := [Pass(GoneWith(source, j, Refused)), Dismiss];
            var after := Run(t, order, steps + [Pass(GoneWith(source, j, Granted(u2, token)))]);
            && LastShown(OwnOf(t, j), j, steps) == t.triggers[j].url
            && after.triggers[j].url == Some(u2)
            && RecordsOf(after.changes, j) == []
  {
    var o := OwnOf(t, j);
    var source := t.triggers[j].source;
    var steps := [Pass(GoneWith(source, j, Refused)), Dismiss];
    var plan := GoneWith(source, j, Granted(u2, token));
    hide Run, OwnRun, LastShown, Forgotten, RecordsOf;
    FailedThenDismissed(o, j);
    RunIsOwn(t, order, steps, j);
    SecretIsKept(t, order, steps, j);
    RepairReportsLastShown(t, order, steps, plan, j);
  }

  // ---------- The code that does it, in place ----------

  /** A trigger as the pass saw it before asking for the listings. */
  datatype Seen = Seen(id: nat, token: Option<Token>)

  function SeenAll(ids: seq<nat>, triggers: map<nat, Trigger>): seq<Seen>
    requires forall x :: x in ids ==> x in triggers
  {
    seq(|ids|, i requires 0 <= i < |ids| => Seen(ids[i], triggers[ids[i]].token))
  }

  function Ids(group: seq<Seen>): seq<nat> {
    seq(|group|, i requires 0 <= i < |group| => group[i].id)
  }

  lemma GroupStep(order: seq<nat>, triggers: map<nat, Trigger>, i: nat, n: string)
    requires i < |order| && forall x :: x in order ==> x in triggers
    ensures SeenAll(Group(order[..i + 1], triggers, n), triggers) ==
            if triggers[order[i]].source == n
            then SeenAll(Group(order[..i], triggers, n), triggers) + [Seen(order[i], triggers[order[i]].token)]
            else SeenAll(Group(order[..i], triggers, n), triggers)
  {
    assert order[..i + 1][..i] == order[..i];
  }

  lemma NewName(order: seq<nat>, triggers: map<nat, Trigger>, n: string)
    requires forall x :: x in order ==> x in triggers
    requires n in WEBHOOK_TRIGGER_INTEGRATIONS && n !in Names(order, triggers)
    ensures Group(order, triggers, n) == []
  {
    hide Names, Group;
    var ids := Group(order, triggers, n);
    assert ids != [] ==> ids[0] in ids;
    NamesAreSources(order, triggers);
    GroupIsFilter(order, triggers, n);
  }

  lemma {:induction false} SkipAll(t: Table, done: seq<nat>, more: seq<nat>, plan: Plan)
    requires forall x :: x in more && x in VisitedAll(t, done, plan).triggers ==>
                           !Touched(VisitedAll(t, done, plan).triggers[x], plan)
    ensures VisitedAll(t, done + more, plan) == VisitedAll(t, done, plan)
  {
    hide Touched, Repaired;
    if more == [] {
      assert done + more == done;
    } else {
      var init, last := more[..|more| - 1], more[|more| - 1];
      assert more == init + [last] && last in more;
      SkipAll(t, done, init, plan);
      assert (done + more)[..|done + more| - 1] == done + init;
    }
  }

  /** Visiting `done` leaves the triggers that come later as they were. */
  lemma NotYetVisited(t: Table, done: seq<nat>, plan: Plan, x: nat)
    requires x in t.triggers && Distinct(done) && x !in done
    ensures x in VisitedAll(t, done, plan).triggers && VisitedAll(t, done, plan).triggers[x] == t.triggers[x]
  {
    hide VisitedAll, OwnPass;
    VisitsAreOwn(t, done, plan, x);
  }

  lemma SkipGroup(t: Table, done: seq<nat>, group: seq<nat>, name: string, plan: Plan)
    requires Distinct(done + group) && name !in plan.listings
    requires forall x :: x in group ==> x in t.triggers && t.triggers[x].source == name
    ensures VisitedAll(t, done + group, plan) == VisitedAll(t, done, plan)
  {
    hide VisitedAll;
    forall x | x in group ensures x in VisitedAll(t, done, plan).triggers && !Touched(VisitedAll(t, done, plan).triggers[x], plan) {
      SplitDistinct(done, group, x);
      NotYetVisited(t, done, plan, x);
    }
    SkipAll(t, done, group, plan);
  }

  lemma SplitDistinct<T>(a: seq<T>, b: seq<T>, x: T)
    requires Distinct(a + b) && x in b
    ensures Distinct(a) && x !in a
  {
    assert forall i :: 0 <= i < |a| ==> (a + b)[i] == a[i];
    var k :| 0 <= k < |b| && b[k] == x;
    assert (a + b)[|a| + k] == x;
  }

  lemma PrefixOfPass(names: seq<string>, i: nat, order: seq<nat>, triggers: map<nat, Trigger>)
    requires i < |names| && Distinct(names) && Distinct(order) && forall x :: x in order ==> x in triggers
    ensures var done, group := Grouped(names[..i], order, triggers), Group(order, triggers, names[i]);
            && Grouped(names[..i + 1], order, triggers) == done + group
            && Distinct(done + group)
            && forall x :: x in group ==> x in triggers && triggers[x].source == names[i]
  {
    hide Group;
    assert names[..i + 1][..i] == names[..i];
    GroupedIsScan(names[..i + 1], order, triggers);
    GroupIsFilter(order, triggers, names[i]);
  }

  lemma IdsOfSeen(ids: seq<nat>, triggers: map<nat, Trigger>)
    requires forall x :: x in ids ==> x in triggers
    ensures Ids(SeenAll(ids, triggers)) == ids
  {
  }

  lemma NextVisit(t: Table, done: seq<nat>, group: seq<Seen>, i: nat, plan: Plan)
    requires i < |group|
    ensures VisitedAll(t, done + Ids(group[..i + 1]), plan) ==
            Visited(VisitedAll(t, done + Ids(group[..i]), plan), group[i].id, plan)
  {
    hide Visited;
    var more := done + Ids(group[..i + 1]);
    assert more[..|more| - 1] == done + Ids(group[..i]);
  }

  /** Nothing before it in the pass has changed the trigger since the pass looked at its token. */
  lemma StillAsSeen(t: Table, done: seq<nat>, group: seq<Seen>, i: nat, plan: Plan)
    requires i < |group| && Distinct(done + Ids(group))
    requires forall x :: x in Ids(group) ==> x in t.triggers
    ensures var now := VisitedAll(t, done + Ids(group[..i]), plan).triggers;
            group[i].id in now && group[i].id in t.triggers && now[group[i].id] == t.triggers[group[i].id]
  {
    hide VisitedAll;
    assert Ids(group)[i] in Ids(group);
    var before, after := done + Ids(group[..i]), Ids(group[i..]);
    assert done + Ids(group) == before + after;
    assert after[0] == group[i].id;
    SplitDistinct(before, after, group[i].id);
    NotYetVisited(t, before, plan, group[i].id);
  }

  /** The trigger rows, in table order, and the setting that holds the ledger. */
  class Triggers {
    var triggers: map<nat, Trigger>
    var order: seq<nat>
    var changes: seq<Change>
    var lastKnown: map<nat, Url>

    ghost predicate Valid()
      reads this
    {
      IsScan(order, triggers)
    }

    ghost function View(): Table
      reads this
    {
      Table(triggers, changes, lastKnown)
    }

    constructor (rows: map<nat, Trigger>, ids: seq<nat>)
      requires IsScan(ids, rows)
      ensures Valid() && View() == Table(rows, [], map[]) && order == ids
    {
      triggers, order, changes, lastKnown := rows, ids, [], map[];
    }

    /** `register_webhook_trigger_with_cloud`. */
    method Register(id: nat, reply: Reply, minted: string) returns (ok: bool)
      requires id in triggers
      modifies `triggers
      ensures triggers == old(triggers)[id := Registered(old(triggers)[id], reply, minted)]
      ensures ok == Registers(old(triggers)[id], reply)
    {
      var t := triggers[id];
      assert triggers == triggers[id := t];
      if reply.NotConnected? {
        return false;
      }
      if t.secret.Missing? {
        t := t.(secret := Holds(minted));
        triggers := triggers[id := t];
      } else if !t.secret.Holds? || t.secret.plain == "" {
        return false;
      }
      if !reply.Granted? {
        return false;
      }
      triggers := triggers[id := t.(url := Some(reply.url), token := Some(reply.token))];
      return true;
    }

    /** `_reconcile_one`. */
    method ReconcileOne(id: nat, integration: string, live: set<Token>, reply: Reply, minted: string)
      modifies `triggers, `changes, `lastKnown
      ensures View() == if id in old(triggers) && old(triggers)[id].source == integration && !Live(old(triggers)[id], live)
                        then Repaired(old(View()), id, reply, minted) else old(View())
    {
      hide Registered, Registers, Without;
      if id !in triggers || triggers[id].source != integration {
        return;
      }
      var t := triggers[id];
      if t.token.Some? && t.token.value in live {
        return;
      }
      var previous := if t.url.Some? then t.url else if id in lastKnown then Some(lastKnown[id]) else None;
      var ok := Register(id, reply, minted);
      if ok {
        RegisteredUrl(t, reply, minted);
        var now := triggers[id].url;
        if previous.Some? && now.Some? && previous != now {
          changes := Without(changes, id) + [Change(id, t.name, t.source, previous.value, now.value)];
        }
        lastKnown := lastKnown - {id};
      } else if triggers[id].url.Some? {
        lastKnown := lastKnown[id := triggers[id].url.value];
        triggers := triggers[id := triggers[id].(url := None)];
      }
    }

    method Dismiss()
      modifies `changes, `lastKnown
      ensures View() == old(View()).(changes := [], lastKnown := map[])
    {
      changes, lastKnown := [], map[];
    }

    /** The triggers of each integration with their tokens, in dictionary order. */
    method GroupBySource() returns (names: seq<string>, groups: map<string, seq<Seen>>)
      requires Valid()
      ensures names == Names(order, triggers)
      ensures forall n :: n in names ==> n in groups && groups[n] == SeenAll(Group(order, triggers, n), triggers)
    {
      hide Distinct;
      names, groups := [], map[];
      for i := 0 to |order|
        invariant names == Names(order[..i], triggers)
        invariant forall n :: n in names <==> n in groups
        invariant forall n :: n in names ==> n in WEBHOOK_TRIGGER_INTEGRATIONS
        invariant forall n :: n in names ==> groups[n] == SeenAll(Group(order[..i], triggers, n), triggers)
      {
        var id := order[i];
        var t := triggers[id];
        assert order[..i + 1][..i] == order[..i];
        ghost var was := names;
        if t.source in WEBHOOK_TRIGGER_INTEGRATIONS {
          if t.source in groups {
            groups := groups[t.source := groups[t.source] + [Seen(id, t.token)]];
          } else {
            names := names + [t.source];
            groups := groups[t.source := [Seen(id, t.token)]];
          }
        }
        forall n | n in names ensures groups[n] == SeenAll(Group(order[..i + 1], triggers, n), triggers) {
          GroupStep(order, triggers, i, n);
          if n == t.source && n !in was {
            NewName(order[..i], triggers, n);
          }
        }
      }
      assert order[..|order|] == order;
    }

    /** `reconcile_webhook_trigger_endpoints`, with no concurrent edits. */
    method Reconcile(plan: Plan)
      requires Valid()
      modifies `triggers, `changes, `lastKnown
      ensures Valid() && View() == Reconciled(old(View()), order, plan)
    {
      hide Visited, Repaired, Names, Group, Distinct;
      ghost var t := View();
      ghost var done: seq<nat> := [];
      if !plan.connected {
        SkipAll(t, [], Grouped(Names(order, triggers), order, triggers), plan);
        assert [] + Grouped(Names(order, triggers), order, triggers) == Grouped(Names(order, triggers), order, triggers);
        return;
      }
      var names, groups := GroupBySource();
      NamesAreSources(order, triggers);
      for i := 0 to |names|
        invariant done == Grouped(names[..i], order, t.triggers)
        invariant View() == VisitedAll(t, done, plan)
      {
        ghost var group := Group(order, t.triggers, names[i]);
        assert names[..i + 1][..i] == names[..i];
        PrefixOfPass(names, i, order, t.triggers);
        if names[i] !in plan.listings {
          SkipGroup(t, done, group, names[i], plan);
        } else {
          IdsOfSeen(group, t.triggers);
          VisitGroup(t, done, names[i], groups[names[i]], plan);
        }
        done := done + group;
      }
      assert names[..|names|] == names;
      StepKeepsScan(t, order, Pass(plan));
    }

    method VisitGroup(ghost t: Table, ghost done: seq<nat>, name: string, group: seq<Seen>, plan: Plan)
      requires plan.connected && name in plan.listings && name in WEBHOOK_TRIGGER_INTEGRATIONS
      requires View() == VisitedAll(t, done, plan)
      requires forall x :: x in Ids(group) ==> x in t.triggers && t.triggers[x].source == name
      requires group == SeenAll(Ids(group), t.triggers) && Distinct(done + Ids(group))
      modifies `triggers, `changes, `lastKnown
      ensures View() == VisitedAll(t, done + Ids(group), plan)
    {
      hide VisitedAll, Repaired;
      var live := plan.listings[name];
      assert done + Ids(group[..0]) == done;
      for i := 0 to |group|
        invariant View() == VisitedAll(t, done + Ids(group[..i]), plan)
      {
        var seen := group[i];
        StillAsSeen(t, done, group, i, plan);
        NextVisit(t, done, group, i, plan);
        if seen.token.Some? && seen.token.value in live {
          continue;
        }
        ReconcileOne(seen.id, name, live, ReplyTo(plan, seen.id), MintedSecret(plan, seen.id));
      }
      assert group[..|group|] == group;
    }
  }
}
