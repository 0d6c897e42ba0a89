/**
 One webhook trigger, its endpoint in the cloud, and the operations that race over both: reconciliation,
 re-saves and deletes, serialised by lock objects that are created on demand and forgotten on deletion.
 */
module TriggerLocks {
  import opened Text

  type Token = nat

  /** The registry of lock objects, by trigger.  A lock object is known by its number, in order of making. */
  datatype Locks = Locks(byKey: map<string, nat>, made: nat)

  predicate Sound(t: Locks) {
    forall k :: k in t.byKey ==> t.byKey[k] < t.made
  }

  /** `trigger_endpoint_lock`: the known object, or a new one. */
  function Looked(t: Locks, key: string): (Locks, nat) {
    if key in t.byKey then (t, t.byKey[key]) else (Locks(t.byKey[key := t.made], t.made + 1), t.made)
  }

  /** `forget_trigger_lock`. */
  function Dropped(t: Locks, key: string): Locks {
    t.(byKey := t.byKey - {key})
  }

  datatype TableStep = Look(key: string) | Drop(key: string)

  function TableNext(t: Locks, step: TableStep): Locks {
    match step
    case Look(key) => Looked(t, key).0
    case Drop(key) => Dropped(t, key)
  }

  function TableRun(t: Locks, steps: seq<TableStep>): Locks {
    if steps == [] then t else TableNext(TableRun(t, steps[..|steps| - 1]), steps[|steps| - 1])
  }

  lemma {:induction false} TableStaysSound(t: Locks, steps: seq<TableStep>, key: string)
    requires Sound(t) && key !in t.byKey && Look(key) !in steps
    ensures var r := TableRun(t, steps); Sound(r) && key !in r.byKey && t.made <= r.made
  {
    if steps != [] {
      var init, last := steps[..|steps| - 1], steps[|steps| - 1];
      assert last in steps && forall s :: s in init ==> s in steps;
      TableStaysSound(t, init, key);
    }
  }

  /** After a lock is forgotten, whoever asks next gets an object that was never handed out before. */
  lemma ForgottenLockIsNew(t: Locks, key: string, steps: seq<TableStep>)
    requires Sound(t) && Look(key) !in steps
    ensures var (r, lock) := Looked(TableRun(Dropped(t, key), steps), key);
            && lock >= t.made
            && (forall k :: k in t.byKey ==> t.byKey[k] != lock)
            && (forall k :: k in r.byKey && k != key ==> r.byKey[k] != lock)
  {
    TableStaysSound(Dropped(t, key), steps, key);
  }

  class LockTable {
    var locks: map<string, nat>
    var made: nat

    ghost function View(): Locks
      reads this
    {
      Locks(locks, made)
    }

    constructor ()
      ensures View() == Locks(map[], 0) && Sound(View())
    {
      locks, made := map[], 0;
    }

    method LockFor(key: string) returns (lock: nat)
      modifies this
      ensures (View(), lock) == Looked(old(View()), key)
      ensures Sound(old(View())) ==> Sound(View())
    {
      if key in locks {
        return locks[key];
      }
      lock := made;
      made := made + 1;
      locks := locks[key := lock];
    }

    method Forget(key: string)
      modifies `locks
      ensures View() == Dropped(old(View()), key)
      ensures Sound(old(View())) ==> Sound(View())
    {
      locks := locks - {key};
    }
  }

  // ---------- One trigger ----------

  datatype Row = Row(source: string, token: Option<Token>)

  /** A reconciliation carries the integration it listed and the tokens the listing showed. */
  datatype Kind = Resave | Reconcile(integration: string, live: set<Token>) | Delete

  datatype Op =
    | Idle
    | Waiting(kind: Kind, lock: nat)
    | Entered(kind: Kind, lock: nat)
    | Registering(lock: nat)
    | Posted(lock: nat, reply: Token)
    | Revoking(lock: nat, token: Option<Token>)
    | Revoked(lock: nat)
    | Forgetting

  predicate InLock(o: Op) {
    o.Entered? || o.Registering? || o.Posted? || o.Revoking? || o.Revoked?
  }

  predicate Uses(o: Op, l: nat) {
    (InLock(o) || o.Waiting?) && o.lock == l
  }

  /**
   `cloud` is the token of the endpoint the cloud holds for the trigger; it keeps at most one, keyed by the
   trigger.  `lapsed` records that the row was deleted while the cloud still held an endpoint, or that a
   registration the cloud carried out was not stored, until a later registration is stored, a revoke reaches
   the endpoint or the cloud drops it.  `registry` and `made` are this trigger's part of the lock table.
   */
  datatype State = State(row: Option<Row>, cloud: Option<Token>, registry: Option<nat>, made: nat,
                         owner: map<nat, nat>, ops: map<nat, Op>, lapsed: bool)

  datatype Event =
    | Arrive(p: nat, kind: Kind)
    | Acquire(p: nat)
    | Reread(p: nat)
    | Post(p: nat, reply: Option<Token>)
    | PostLost(p: nat, token: Token)
    | Store(p: nat)
    | Revoke(p: nat, ok: bool)
    | DeleteRow(p: nat)
    | Forget(p: nat)
    | Fail(p: nat)
    | EditSource(source: string)
    | ServerRevokes
    | OtherLock

  /** A trigger just created, with the endpoint its creation registered, if any. */
  function Initial(source: string, token: Option<Token>): State {
    State(Some(Row(source, token)), token, None, 0, map[], map[], false)
  }

  function OpOf(s: State, p: nat): Op {
    if p in s.ops then s.ops[p] else Idle
  }

  function Set(s: State, p: nat, o: Op): State {
    s.(ops := s.ops[p := o])
  }

  /** The operation ends and releases its lock. */
  function Leave(s: State, p: nat, lock: nat): State {
    Set(s, p, Idle).(owner := s.owner - {lock})
  }

  /** Whether the re-read row still needs the endpoint registered. */
  predicate Wanted(row: Row, kind: Kind) {
    match kind
    case Resave => true
    case Reconcile(integration, live) => row.source == integration && !(row.token.Some? && row.token.value in live)
    case Delete => false
  }

  function Arrived(s: State, p: nat, kind: Kind): State {
    if !OpOf(s, p).Idle? then s
    else if s.registry.Some? then Set(s, p, Waiting(kind, s.registry.value))
    else Set(s, p, Waiting(kind, s.made)).(registry := Some(s.made), made := s.made + 1)
  }

  function Acquired(s: State, p: nat): State {
    var o := OpOf(s, p);
    if !o.Waiting? || o.lock in s.owner then s
    else Set(s, p, Entered(o.kind, o.lock)).(owner := s.owner[o.lock := p])
  }

  /** The re-read under the lock, and the way out when there is nothing left to do. */
  function Rereads(s: State, p: nat): State {
    var o := OpOf(s, p);
    if !o.Entered? then s
    else if s.row.None? then
      if o.kind.Delete? then Leave(s, p, o.lock).(registry := None) else Leave(s, p, o.lock)
    else if o.kind.Delete? then Set(s, p, Revoking(o.lock, s.row.value.token))
    else if Wanted(s.row.value, o.kind) then Set(s, p, Registering(o.lock))
    else Leave(s, p, o.lock)
  }

  predicate Stores(row: Option<Row>, token: Token) {
    row.Some? && row.value.token == Some(token)
  }

  function Registers(s: State, e: Event): State
    requires e.Post? || e.PostLost? || e.Store?
  {
    var o := OpOf(s, e.p);
    match e
    case Post(p, reply) =>
      if !o.Registering? then s
      else if reply.Some? then Set(s, p, Posted(o.lock, reply.value)).(cloud := reply)
      else Leave(s, p, o.lock)
    case PostLost(p, token) =>
      if !o.Registering? then s else Leave(s, p, o.lock).(cloud := Some(token), lapsed := !Stores(s.row, token))
    case Store(p) =>
      if !o.Posted? || s.row.None? then s
      else Leave(s, p, o.lock).(row := Some(s.row.value.(token := Some(o.reply))), lapsed := false)
  }

  /** A revoke goes by token when one is known, and otherwise by trigger. */
  predicate Reaches(token: Option<Token>, cloud: Option<Token>) {
    token.None? || cloud == token
  }

  function Deletes(s: State, e: Event): State
    requires e.Revoke? || e.DeleteRow? || e.Forget?
  {
    var o := OpOf(s, e.p);
    match e
    case Revoke(p, ok) =>
      if !o.Revoking? then s
      else if ok && Reaches(o.token, s.cloud) then Set(s, p, Revoked(o.lock)).(cloud := None, lapsed := false)
      else Set(s, p, Revoked(o.lock))
    case DeleteRow(p) =>
      if !o.Revoked? then s
      else Leave(s, p, o.lock).(ops := s.ops[p := Forgetting], row := None, lapsed := s.cloud.Some?)
    case Forget(p) =>
      if !o.Forgetting? then s else Set(s, p, Idle).(registry := None)
  }

  /** An operation that raises releases its lock; one that dies after the cloud answered loses the answer. */
  function Fails(s: State, p: nat): State {
    var o := OpOf(s, p);
    if !InLock(o) then Set(s, p, Idle)
    else if o.Posted? then Leave(s, p, o.lock).(lapsed := s.cloud.Some? && !Stores(s.row, s.cloud.value))
    else Leave(s, p, o.lock)
  }

  function Next(s: State, e: Event): State {
    match e
    case Arrive(p, kind) => Arrived(s, p, kind)
    case Acquire(p) => Acquired(s, p)
    case Reread(p) => Rereads(s, p)
    case Post(_, _) => Registers(s, e)
    case PostLost(_, _) => Registers(s, e)
    case Store(_) => Registers(s, e)
    case Revoke(_, _) => Deletes(s, e)
    case DeleteRow(_) => Deletes(s, e)
    case Forget(_) => Deletes(s, e)
    case Fail(p) => Fails(s, p)
    case EditSource(source) => if s.row.Some? then s.(row := Some(s.row.value.(source := source))) else s
    case ServerRevokes => s.(cloud := None, lapsed := false)
    case OtherLock => s.(made := s.made + 1)
  }

  function Run(s: State, es: seq<Event>): State {
    if es == [] then s else Next(Run(s, es[..|es| - 1]), es[|es| - 1])
  }

  // ---------- The invariant ----------

  /** The cloud holds nothing, or exactly what the row stores. */
  predicate Agrees(s: State) {
    s.cloud.None? || (s.row.Some? && s.row.value.token == s.cloud)
  }

  /** What an operation relies on while it runs. */
  predicate OpOk(p: nat, o: Op, s: State) {
    && (InLock(o) ==> o.lock in s.owner && s.owner[o.lock] == p)
    && ((InLock(o) || o.Waiting?) ==> o.lock < s.made && (s.row.Some? ==> s.registry == Some(o.lock)))
    && (o.Registering? || o.Posted? || o.Revoking? || o.Revoked? ==> s.row.Some?)
    && (o.Posted? ==> s.cloud.None? || s.cloud == Some(o.reply))
    && (o.Revoking? ==> s.row.value.token == o.token)
    && (o.Forgetting? ==> s.row.None?)
  }

  predicate OpsOk(s: State) {
    forall p :: p in s.ops ==> OpOk(p, s.ops[p], s)
  }

  predicate Owned(s: State) {
    forall l :: l in s.owner ==> l < s.made && s.owner[l] in s.ops && InLock(s.ops[s.owner[l]]) && s.ops[s.owner[l]].lock == l
  }

  predicate SomePosted(s: State) {
    exists p :: p in s.ops && s.ops[p].Posted?
  }

  predicate Inv(s: State) {
    && OpsOk(s)
    && Owned(s)
    && (s.registry.Some? ==> s.registry.value < s.made)
    && (SomePosted(s) || (Agrees(s) <==> !s.lapsed))
  }

  lemma OpIsOk(s: State, p: nat)
    requires OpsOk(s)
    ensures OpOk(p, OpOf(s, p), s)
  {
  }

  /** While the row exists all operations share one lock object, so one at most is inside. */
  lemma OneInside(s: State, p: nat, q: nat)
    requires OpsOk(s) && s.row.Some? && InLock(OpOf(s, p)) && InLock(OpOf(s, q))
    ensures p == q
  {
    OpIsOk(s, p);
    OpIsOk(s, q);
  }

  lemma OnlyPosted(s: State, p: nat)
    requires OpsOk(s) && InLock(OpOf(s, p)) && SomePosted(s)
    ensures OpOf(s, p).Posted? && s.row.Some?
  {
    var q :| q in s.ops && s.ops[q].Posted?;
    OpIsOk(s, q);
    OneInside(s, p, q);
  }

  /** What a step must leave alone for a bystander's sake. */
  predicate Spares(o: Op, p: nat, s: State, s': State) {
    && s.made <= s'.made
    && (s'.row.Some? ==> s.row.Some? && (s.registry.Some? ==> s'.registry == s.registry))
    && (InLock(o) && o.lock in s.owner && s.owner[o.lock] == p ==> o.lock in s'.owner && s'.owner[o.lock] == p)
    && (InLock(o) && s.row.Some? ==>
          && s'.row.Some? && s'.row.value.token == s.row.value.token
          && (s'.cloud == s.cloud || s'.cloud.None?))
  }

  lemma BystanderOk(o: Op, p: nat, s: State, s': State)
    requires OpOk(p, o, s) && Spares(o, p, s, s') && (o.Forgetting? ==> s'.row.None?)
    ensures OpOk(p, o, s')
  {
  }

  /** A step of the operation `p`, which is inside the lock, on everything but the agreement with the cloud. */
  lemma InsideStep(s: State, s': State, p: nat, o: Op)
    requires OpsOk(s) && Owned(s) && InLock(OpOf(s, p))
    requires s'.ops == s.ops[p := o] && OpOk(p, o, s') && s'.made == s.made
    requires if InLock(o) then o.lock == OpOf(s, p).lock && s'.owner == s.owner
             else s'.owner == s.owner - {OpOf(s, p).lock}
    requires s'.row.Some? ==> s.row.Some? && s'.registry == s.registry
    ensures OpsOk(s') && Owned(s')
  {
    hide OpOk, Spares;
    OpIsOk(s, p);
    InsideOwns(s, p);
    forall q | q in s'.ops ensures OpOk(q, s'.ops[q], s') {
      if q != p {
        OpIsOk(s, q);
        OutsiderSpared(s, s', p, q);
        BystanderOk(s.ops[q], q, s, s');
      }
    }
  }

  lemma InsideOwns(s: State, p: nat)
    requires OpsOk(s) && InLock(OpOf(s, p))
    ensures OpOf(s, p).lock in s.owner && s.owner[OpOf(s, p).lock] == p
  {
    OpIsOk(s, p);
  }

  lemma OutsiderSpared(s: State, s': State, p: nat, q: nat)
    requires OpsOk(s) && InLock(OpOf(s, p)) && q in s.ops && q != p
    requires s'.made == s.made
    requires s'.owner == s.owner || s'.owner == s.owner - {OpOf(s, p).lock}
    requires s'.row.Some? ==> s.row.Some? && s'.registry == s.registry
    ensures Spares(s.ops[q], q, s, s') && (s.ops[q].Forgetting? ==> s'.row.None?)
  {
    OpIsOk(s, p);
    OpIsOk(s, q);
    if s.row.Some? && InLock(s.ops[q]) {
      OneInside(s, p, q);
    }
  }

  // ---------- Every step keeps the invariant ----------

  lemma RereadKeeps(s: State, p: nat)
    requires Inv(s)
    ensures Inv(Rereads(s, p))
  {
    hide OpsOk, Owned, Wanted, SomePosted;
    var s' := Rereads(s, p);
    if OpOf(s, p).Entered? {
      OpIsOk(s, p);
      if SomePosted(s) { OnlyPosted(s, p); }
      InsideStep(s, s', p, s'.ops[p]);
    }
  }

  lemma RegisterKeeps(s: State, e: Event)
    requires e.Post? || e.PostLost? || e.Store?
    requires Inv(s)
    ensures Inv(Registers(s, e))
  {
    hide OpsOk, Owned, SomePosted;
    var s' := Registers(s, e);
    if s' != s {
      OpIsOk(s, e.p);
      if SomePosted(s) { OnlyPosted(s, e.p); }
      InsideStep(s, s', e.p, s'.ops[e.p]);
      if s'.ops[e.p].Posted? {
        assert SomePosted(s') by { PostedIsSome(s', e.p); }
      }
    }
  }

  lemma PostedIsSome(s: State, p: nat)
    requires p in s.ops && s.ops[p].Posted?
    ensures SomePosted(s)
  {
  }

  lemma RevokeKeeps(s: State, p: nat, ok: bool)
    requires Inv(s)
    ensures Inv(Deletes(s, Revoke(p, ok)))
  {
    hide OpsOk, Owned, SomePosted;
    var s' := Deletes(s, Revoke(p, ok));
    if OpOf(s, p).Revoking? {
      OpIsOk(s, p);
      if SomePosted(s) { OnlyPosted(s, p); }
      InsideStep(s, s', p, s'.ops[p]);
    }
  }

  lemma DeleteRowKeeps(s: State, p: nat)
    requires Inv(s)
    ensures Inv(Deletes(s, DeleteRow(p)))
  {
    hide OpsOk, Owned, SomePosted;
    var s' := Deletes(s, DeleteRow(p));
    if OpOf(s, p).Revoked? {
      OpIsOk(s, p);
      InsideStep(s, s', p, Forgetting);
    }
  }

  /** A step that leaves row, cloud and flag alone, and is not taken inside the lock. */
  lemma OutsideStep(s: State, s': State, p: nat, o: Op)
    requires Inv(s) && !InLock(OpOf(s, p))
    requires s'.ops == s.ops[p := o] && OpOk(p, o, s') && s.made <= s'.made
    requires s'.row == s.row && s'.cloud == s.cloud && s'.lapsed == s.lapsed
    requires s'.row.Some? ==> (s.registry.Some? ==> s'.registry == s.registry)
    requires s'.registry.Some? ==> s'.registry.value < s'.made
    requires if InLock(o) then o.Entered? && o.lock !in s.owner && s'.owner == s.owner[o.lock := p] else s'.owner == s.owner
    ensures Inv(s')
  {
    hide OpOk, Spares;
    forall q | q in s'.ops ensures OpOk(q, s'.ops[q], s') {
      if q != p {
        OpIsOk(s, q);
        assert Spares(s.ops[q], q, s, s') && (s.ops[q].Forgetting? ==> s'.row.None?) by { OutsideSpares(s, s', q); }
        BystanderOk(s.ops[q], q, s, s');
      }
    }
    assert Owned(s') by { OutsideOwned(s, s', p, o); }
    if SomePosted(s) {
      var q :| q in s.ops && s.ops[q].Posted?;
      PostedIsSome(s', q);
    }
  }

  lemma OutsideSpares(s: State, s': State, q: nat)
    requires OpsOk(s) && q in s.ops && s.made <= s'.made
    requires s'.row == s.row && s'.cloud == s.cloud && s'.lapsed == s.lapsed
    requires s'.row.Some? ==> (s.registry.Some? ==> s'.registry == s.registry)
    requires forall l :: l in s.owner ==> l in s'.owner && s'.owner[l] == s.owner[l]
    ensures Spares(s.ops[q], q, s, s') && (s.ops[q].Forgetting? ==> s'.row.None?)
  {
    OpIsOk(s, q);
  }

  lemma OutsideOwned(s: State, s': State, p: nat, o: Op)
    requires Owned(s) && !InLock(OpOf(s, p)) && s'.ops == s.ops[p := o] && s.made <= s'.made && OpOk(p, o, s')
    requires if InLock(o) then o.lock !in s.owner && s'.owner == s.owner[o.lock := p] else s'.owner == s.owner
    ensures Owned(s')
  {
  }

  lemma ArriveKeeps(s: State, p: nat, kind: Kind)
    requires Inv(s)
    ensures Inv(Arrived(s, p, kind))
  {
    hide OpsOk, Owned, SomePosted;
    var s' := Arrived(s, p, kind);
    if s' != s {
      OutsideStep(s, s', p, s'.ops[p]);
    }
  }

  lemma AcquireKeeps(s: State, p: nat)
    requires Inv(s)
    ensures Inv(Acquired(s, p))
  {
    hide OpsOk, Owned, SomePosted;
    var s' := Acquired(s, p);
    if s' != s {
      OpIsOk(s, p);
      OutsideStep(s, s', p, s'.ops[p]);
    }
  }

  lemma ForgetKeeps(s: State, p: nat)
    requires Inv(s)
    ensures Inv(Deletes(s, Forget(p)))
  {
    hide OpsOk, Owned, SomePosted;
    var s' := Deletes(s, Forget(p));
    if s' != s {
      OpIsOk(s, p);
      OutsideStep(s, s', p, s'.ops[p]);
    }
  }

  lemma FailKeeps(s: State, p: nat)
    requires Inv(s)
    ensures Inv(Fails(s, p))
  {
    hide OpsOk, Owned, SomePosted;
    var s' := Fails(s, p);
    OpIsOk(s, p);
    if InLock(OpOf(s, p)) {
      if SomePosted(s) { OnlyPosted(s, p); }
      InsideStep(s, s', p, Idle);
    } else {
      OutsideStep(s, s', p, Idle);
    }
  }

  /** Edits outside the lock, endpoints revoked by the cloud itself, locks made for other triggers. */
  lemma WorldKeeps(s: State, e: Event)
    requires e.EditSource? || e.ServerRevokes? || e.OtherLock?
    requires Inv(s)
    ensures Inv(Next(s, e))
  {
    hide OpOk, Spares;
    var s' := Next(s, e);
    forall q | q in s'.ops ensures OpOk(q, s'.ops[q], s') {
      OpIsOk(s, q);
      assert Spares(s.ops[q], q, s, s') && (s.ops[q].Forgetting? ==> s'.row.None?) by { WorldSpares(s, e, q); }
      BystanderOk(s.ops[q], q, s, s');
    }
    if SomePosted(s) {
      var q :| q in s.ops && s.ops[q].Posted?;
      PostedIsSome(s', q);
    }
  }

  lemma WorldSpares(s: State, e: Event, q: nat)
    requires e.EditSource? || e.ServerRevokes? || e.OtherLock?
    requires OpsOk(s) && q in s.ops
    ensures Spares(s.ops[q], q, s, Next(s, e)) && (s.ops[q].Forgetting? ==> Next(s, e).row.None?)
  {
    OpIsOk(s, q);
  }

  lemma StepKeeps(s: State, e: Event)
    requires Inv(s)
    ensures Inv(Next(s, e))
  {
    hide Inv, Arrived, Acquired, Rereads, Registers, Deletes, Fails;
    match e
    case Arrive(p, kind) => ArriveKeeps(s, p, kind);
    case Acquire(p) => AcquireKeeps(s, p);
    case Reread(p) => RereadKeeps(s, p);
    case Post(_, _) => RegisterKeeps(s, e);
    case PostLost(_, _) => RegisterKeeps(s, e);
    case Store(_) => RegisterKeeps(s, e);
    case Revoke(p, ok) => RevokeKeeps(s, p, ok);
    case DeleteRow(p) => DeleteRowKeeps(s, p);
    case Forget(p) => ForgetKeeps(s, p);
    case Fail(p) => FailKeeps(s, p);
    case EditSource(_) => WorldKeeps(s, e);
    case ServerRevokes => WorldKeeps(s, e);
    case OtherLock => WorldKeeps(s, e);
  }

  lemma {:induction false} RunKeeps(s: State, es: seq<Event>)
    requires Inv(s)
    ensures Inv(Run(s, es))
  {
    hide Inv, Next;
    if es != [] {
      RunKeeps(s, es[..|es| - 1]);
      StepKeeps(Run(s, es[..|es| - 1]), es[|es| - 1]);
    }
  }

  // ---------- What holds over every run ----------

  predicate NoneInside(s: State) {
    forall p :: p in s.ops ==> !InLock(s.ops[p])
  }

  /**
   In every interleaving, whenever no operation is inside the lock, the cloud holds an endpoint for the
   trigger only if the row exists and stores its token, exactly unless a cloud call has lapsed.
   */
  lemma EndpointAgreesIff(source: string, token: Option<Token>, es: seq<Event>)
    ensures var s := Run(Initial(source, token), es); NoneInside(s) ==> (Agrees(s) <==> !s.lapsed)
  {
    hide Run, OpsOk, Owned, Agrees;
    assert Inv(Initial(source, token)) by { InitialOk(source, token); }
    RunKeeps(Initial(source, token), es);
  }

  lemma InitialOk(source: string, token: Option<Token>)
    ensures Inv(Initial(source, token))
  {
  }

  /** A refused or unsent revoke, a registration whose answer was lost, or a failure. */
  predicate Faulty(e: Event) {
    e.PostLost? || e.Fail? || (e.Revoke? && !e.ok)
  }

  /** No lapse, and no delete about to leave an endpoint behind. */
  predicate Clean(s: State) {
    !s.lapsed && forall p :: p in s.ops && s.ops[p].Revoked? ==> s.cloud.None?
  }

  lemma FaultlessStep(s: State, e: Event)
    requires Inv(s) && Clean(s) && !Faulty(e)
    ensures Clean(Next(s, e))
  {
    hide OpsOk, Owned, Wanted;
    var s' := Next(s, e);
    forall q | q in s'.ops && s'.ops[q].Revoked? ensures s'.cloud.None? {
      OpIsOk(s, q);
      if e.Post? || e.Revoke? {
        OpIsOk(s, e.p);
        if InLock(OpOf(s, e.p)) && InLock(OpOf(s, q)) { OneInside(s, e.p, q); }
        if SomePosted(s) && InLock(OpOf(s, e.p)) { OnlyPosted(s, e.p); }
      }
    }
  }

  lemma {:induction false} FaultlessRun(s: State, es: seq<Event>)
    requires Inv(s) && Clean(s) && forall i :: 0 <= i < |es| ==> !Faulty(es[i])
    ensures Clean(Run(s, es))
  {
    hide Next, Clean, Inv, Faulty;
    if es != [] {
      RunKeeps(s, es[..|es| - 1]);
      FaultlessRun(s, es[..|es| - 1]);
      FaultlessStep(Run(s, es[..|es| - 1]), es[|es| - 1]);
    }
  }

  /** Lapses come from faults: a truthful cloud that stays connected, and commits that succeed, cause none. */
  lemma LapseHasCause(source: string, token: Option<Token>, before: seq<Event>, es: seq<Event>)
    requires var s := Run(Initial(source, token), before); Clean(s) && Run(s, es).lapsed
    ensures exists i :: 0 <= i < |es| && Faulty(es[i])
    ensures Clean(Initial(source, token))
  {
    hide Run, Inv, Faulty;
    InitialOk(source, token);
    InitialClean(source, token);
    RunKeeps(Initial(source, token), before);
    if forall i :: 0 <= i < |es| ==> !Faulty(es[i]) {
      FaultlessRun(Run(Initial(source, token), before), es);
    }
  }

  lemma InitialClean(source: string, token: Option<Token>)
    ensures Clean(Initial(source, token))
  {
  }

  /** Lock objects differ, or two operations are inside at once, only when the row is gone. */
  lemma OneLockWhileTriggerExists(source: string, token: Option<Token>, es: seq<Event>, p: nat, q: nat)
    requires var s := Run(Initial(source, token), es); s.row.Some? && p != q
    ensures var s := Run(Initial(source, token), es);
            && !(InLock(OpOf(s, p)) && InLock(OpOf(s, q)))
            && forall k, l :: Uses(OpOf(s, p), k) && Uses(OpOf(s, q), l) ==> k == l
  {
    hide Run;
    InitialOk(source, token);
    RunKeeps(Initial(source, token), es);
    OpIsOk(Run(Initial(source, token), es), p);
    OpIsOk(Run(Initial(source, token), es), q);
  }

  lemma GoneStep(s: State, e: Event)
    requires Inv(s) && s.row.None?
    ensures Next(s, e).row.None? && Next(s, e).cloud == if e.ServerRevokes? then None else s.cloud
  {
    hide Owned, SomePosted, Wanted;
    if !e.EditSource? && !e.ServerRevokes? && !e.OtherLock? {
      OpIsOk(s, e.p);
    }
  }

  /**
   Once the row is gone it stays gone: no operation still under way registers an endpoint for it or removes
   one.  An orphaned endpoint stays exactly until the cloud drops it itself.
   */
  lemma {:induction false} GoneForGood(s: State, es: seq<Event>)
    requires Inv(s) && s.row.None?
    ensures Run(s, es).row.None? && Run(s, es).cloud == if ServerRevokes in es then None else s.cloud
  {
    hide Inv, Next;
    if es != [] {
      var init := es[..|es| - 1];
      assert es == init + [es[|es| - 1]];
      GoneForGood(s, init);
      RunKeeps(s, init);
      GoneStep(Run(s, init), es[|es| - 1]);
    }
  }

  /** The operation an event is a step of. */
  function Actor(e: Event): Option<nat> {
    match e
    case EditSource(_) => None
    case ServerRevokes => None
    case OtherLock => None
    case _ => Some(e.p)
  }

  predicate Others(es: seq<Event>, p: nat) {
    forall e :: e in es ==> Actor(e) != Some(p)
  }

  /** While an operation is inside the lock and the row exists, no other touches the token or the endpoint. */
  lemma InsideAlone(s: State, e: Event, p: nat)
    requires Inv(s) && InLock(OpOf(s, p)) && s.row.Some? && Actor(e) != Some(p)
    ensures var s' := Next(s, e);
            && OpOf(s', p) == OpOf(s, p)
            && s'.row.Some? && s'.row.value.token == s.row.value.token
            && s'.cloud == (if e.ServerRevokes? then None else s.cloud)
            && s'.lapsed == (if e.ServerRevokes? then false else s.lapsed)
  {
    hide Owned, SomePosted, Wanted, OpsOk;
    OpIsOk(s, p);
    if Actor(e).Some? {
      OpIsOk(s, e.p);
      if InLock(OpOf(s, e.p)) { OneInside(s, p, e.p); }
    }
  }

  lemma {:induction false} InsideAloneRun(s: State, es: seq<Event>, p: nat)
    requires Inv(s) && InLock(OpOf(s, p)) && s.row.Some? && Others(es, p)
    ensures var s' := Run(s, es);
            && Inv(s') && OpOf(s', p) == OpOf(s, p)
            && s'.row.Some? && s'.row.value.token == s.row.value.token
            && s'.cloud == (if ServerRevokes in es then None else s.cloud)
            && s'.lapsed == (if ServerRevokes in es then false else s.lapsed)
  {
    hide Inv, Next, Actor;
    if es != [] {
      var init := es[..|es| - 1];
      assert es == init + [es[|es| - 1]];
      InsideAloneRun(s, init, p);
      InsideAlone(Run(s, init), es[|es| - 1], p);
      StepKeeps(Run(s, init), es[|es| - 1]);
    }
  }

  /**
   An operation inside the lock that is not a delete registers exactly if it is a re-save, or a reconciliation
   whose trigger is still of its integration and has no token the listing showed.  It then ends, whatever others
   do meanwhile, with the granted token in the row and in the cloud; otherwise it leaves everything as it was.
   */
  lemma RegistersIff(s: State, p: nat, k: Token, es: seq<Event>, fs: seq<Event>)
    requires Inv(s) && s.row.Some? && OpOf(s, p).Entered? && !OpOf(s, p).kind.Delete?
    requires Others(es, p) && Others(fs, p)
    ensures var kind, row := OpOf(s, p).kind, s.row.value;
            var s1 := Next(s, Reread(p));
            if kind.Resave? || (row.source == kind.integration && (row.token.None? || row.token.value !in kind.live)) then
              var s2 := Run(Next(Run(s1, es), Post(p, Some(k))), fs);
              var s3 := Next(s2, Store(p));
              && s3.row.Some? && s3.row.value.token == Some(k)
              && s3.cloud == (if ServerRevokes in fs then None else Some(k))
              && !s3.lapsed && OpOf(s3, p).Idle?
            else
              && OpOf(s1, p).Idle? && s1.row == s.row && s1.cloud == s.cloud && s1.lapsed == s.lapsed
              && Next(s1, Post(p, Some(k))) == s1
  {
    hide Run, OpsOk, Owned, Actor, SomePosted, Others;
    var s1 := Next(s, Reread(p));
    StepKeeps(s, Reread(p));
    if InLock(OpOf(s1, p)) {
      InsideAloneRun(s1, es, p);
      var s2 := Next(Run(s1, es), Post(p, Some(k)));
      StepKeeps(Run(s1, es), Post(p, Some(k)));
      InsideAloneRun(s2, fs, p);
    }
  }

  /** A registration the cloud refuses changes neither row nor cloud, and the operation is over. */
  lemma RefusalChangesNothing(s: State, p: nat)
    requires OpOf(s, p).Registering?
    ensures var s' := Next(s, Post(p, None));
            OpOf(s', p).Idle? && s'.row == s.row && s'.cloud == s.cloud && s'.lapsed == s.lapsed
  {
  }

  /** A registration whose answer is lost leaves the cloud with a token the row does not have, and the operation is over. */
  lemma LostAnswerLapses(s: State, p: nat, k: Token)
    requires Inv(s) && OpOf(s, p).Registering?
    ensures var s' := Next(s, PostLost(p, k));
            && OpOf(s', p).Idle? && s.row.Some? && s'.row == s.row
            && s'.cloud == Some(k) && s'.lapsed == (s.row.value.token != Some(k))
  {
    hide Owned, SomePosted;
    OpIsOk(s, p);
  }

  /** An operation that finds the row gone is over; a delete forgets the lock on its way out, no other does. */
  lemma MissingRowEnds(s: State, p: nat)
    requires OpOf(s, p).Entered? && s.row.None?
    ensures var s' := Next(s, Reread(p));
            && OpOf(s', p).Idle? && s'.row.None? && s'.cloud == s.cloud && s'.lapsed == s.lapsed
            && s'.registry == (if OpOf(s, p).kind.Delete? then None else s.registry)
  {
  }

  /**
   A delete inside the lock deletes the row.  Whatever others do meanwhile, it leaves an endpoint behind exactly if
   there was one and the revoke was refused, or went by a token the endpoint did not have; the latter takes an
   earlier lapse.
   */
  lemma DeleteLeavesOrphanIff(s: State, p: nat, ok: bool, es: seq<Event>, fs: seq<Event>)
    requires Inv(s) && s.row.Some? && OpOf(s, p).Entered? && OpOf(s, p).kind.Delete?
    requires Others(es, p) && Others(fs, p) && ServerRevokes !in es && ServerRevokes !in fs
    ensures var s1 := Run(Next(s, Reread(p)), es);
            var s2 := Next(Run(Next(s1, Revoke(p, ok)), fs), DeleteRow(p));
            && s2.row.None?
            && (s2.cloud.Some? <==>
                  s.cloud.Some? && !(ok && (s.row.value.token.None? || s.row.value.token == s.cloud)))
            && (!s.lapsed ==> (s2.cloud.Some? <==> s.cloud.Some? && !ok))
  {
    hide Run, OpsOk, Owned, Actor, Others;
    OpIsOk(s, p);
    if SomePosted(s) { OnlyPosted(s, p); }
    StepKeeps(s, Reread(p));
    InsideAloneRun(Next(s, Reread(p)), es, p);
    var s1 := Run(Next(s, Reread(p)), es);
    OpIsOk(s1, p);
    StepKeeps(s1, Revoke(p, ok));
    InsideAloneRun(Next(s1, Revoke(p, ok)), fs, p);
  }

  /** A waiting operation is let in exactly if no other is inside under the lock object it waits for. */
  lemma EntersIff(s: State, p: nat)
    requires Inv(s) && OpOf(s, p).Waiting?
    ensures var o := OpOf(s, p);
            if exists q :: q in s.ops && InLock(s.ops[q]) && s.ops[q].lock == o.lock
            then Next(s, Acquire(p)) == s
            else OpOf(Next(s, Acquire(p)), p) == Entered(o.kind, o.lock)
  {
    hide SomePosted;
    if exists q :: q in s.ops && InLock(s.ops[q]) && s.ops[q].lock == OpOf(s, p).lock {
      var q :| q in s.ops && InLock(s.ops[q]) && s.ops[q].lock == OpOf(s, p).lock;
      OpIsOk(s, q);
    }
  }

  /** An operation that fails is over, and holds no lock. */
  lemma FailureReleases(s: State, p: nat)
    requires Inv(s)
    ensures OpOf(Next(s, Fail(p)), p).Idle? && forall l :: l in Next(s, Fail(p)).owner ==> Next(s, Fail(p)).owner[l] != p
  {
    hide SomePosted, OpsOk;
    FailKeeps(s, p);
  }

  /** What happens beside the operations: the integration edited, endpoints the cloud drops, other triggers' locks. */
  lemma OutsideEvents(s: State, source: string)
    ensures s.row.Some? ==> Next(s, EditSource(source)) == s.(row := Some(Row(source, s.row.value.token)))
    ensures s.row.None? ==> Next(s, EditSource(source)) == s
    ensures Next(s, ServerRevokes) == s.(cloud := None, lapsed := false)
    ensures Next(s, OtherLock) == s.(made := s.made + 1)
  {
  }

  // ---------- The trigger's part of the lock table ----------

  ghost predicate Projects(t: Locks, key: string, s: State) {
    s.made == t.made && s.registry == if key in t.byKey then Some(t.byKey[key]) else None
  }

  /** The lock a trigger's operation waits for, and the lock it forgets, are those of the table. */
  lemma TableStepsAreEvents(t: Locks, key: string, k: string, s: State, p: nat, kind: Kind)
    requires Projects(t, key, s)
    ensures OpOf(s, p).Idle? ==>
              && Projects(Looked(t, key).0, key, Next(s, Arrive(p, kind)))
              && OpOf(Next(s, Arrive(p, kind)), p) == Waiting(kind, Looked(t, key).1)
    ensures OpOf(s, p).Forgetting? ==> Projects(Dropped(t, key), key, Next(s, Forget(p)))
    ensures OpOf(s, p).Entered? && OpOf(s, p).kind.Delete? && s.row.None? ==>
              Projects(Dropped(t, key), key, Next(s, Reread(p)))
    ensures k != key ==>
              && Projects(Looked(t, k).0, key, if k in t.byKey then s else Next(s, OtherLock))
              && Projects(Dropped(t, k), key, s)
  {
  }

  lemma RunStep(s: State, es: seq<Event>, i: nat)
    requires i < |es|
    ensures Run(s, es[..i + 1]) == Next(Run(s, es[..i]), es[i])
  {
    hide Next;
    assert es[..i + 1][..i] == es[..i];
  }

  lemma NoRun(s: State, es: seq<Event>)
    ensures Run(s, es[..0]) == s
  {
  }

  /** A delete goes ahead when the cloud refuses the revoke, and then nothing local knows the endpoint. */
  lemma RefusedRevokeLeavesOrphan(source: string, token: Token)
    ensures var s := Run(Initial(source, Some(token)),
                         [Arrive(1, Delete), Acquire(1), Reread(1), Revoke(1, false), DeleteRow(1), Forget(1)]);
            s.row.None? && s.cloud == Some(token) && NoneInside(s)
  {
    hide Run;
    var es := [Arrive(1, Delete), Acquire(1), Reread(1), Revoke(1, false), DeleteRow(1), Forget(1)];
    var s := Initial(source, Some(token));
    NoRun(s, es);
    RunStep(s, es, 0);
    RunStep(s, es, 1);
    RunStep(s, es, 2);
    RunStep(s, es, 3);
    RunStep(s, es, 4);
    RunStep(s, es, 5);
    assert es[..6] == es;
  }

  /** After a deletion a waiter and a newcomer do get inside together, each under a lock object of its own. */
  lemma TwoInsideAfterDeletion(source: string, i: string)
    ensures var s := Run(Initial(source, None),
                         [Arrive(1, Delete), Arrive(2, Resave), Acquire(1), Reread(1), Revoke(1, true), DeleteRow(1),
                          Acquire(2), Forget(1), Arrive(3, Reconcile(i, {})), Acquire(3)]);
            InLock(OpOf(s, 2)) && InLock(OpOf(s, 3)) && OpOf(s, 2).lock != OpOf(s, 3).lock
  {
    hide Run, Next, Initial;
    var es := [Arrive(1, Delete), Arrive(2, Resave), Acquire(1), Reread(1), Revoke(1, true), DeleteRow(1),
               Acquire(2), Forget(1), Arrive(3, Reconcile(i, {})), Acquire(3)];
    var s := Initial(source, None);
    WaiterRemains(source, es);
    LockOutlives(Run(s, es[..6]), i);
    RunStep(s, es, 6);
    RunStep(s, es, 7);
    RunStep(s, es, 8);
    RunStep(s, es, 9);
    assert es[..10] == es;
  }

  lemma WaiterRemains(source: string, es: seq<Event>)
    requires |es| > 6 && es[0] == Arrive(1, Delete) && es[1] == Arrive(2, Resave) && es[2] == Acquire(1)
    requires es[3] == Reread(1) && es[4] == Revoke(1, true) && es[5] == DeleteRow(1)
    ensures var s := Run(Initial(source, None), es[..6]);
            && s.row.None? && s.made == 1 && s.owner == map[]
            && OpOf(s, 1) == Forgetting && OpOf(s, 2) == Waiting(Resave, 0) && OpOf(s, 3) == Idle
  {
    hide Run, Wanted;
    var s := Initial(source, None);
    NoRun(s, es);
    RunStep(s, es, 0);
    RunStep(s, es, 1);
    RunStep(s, es, 2);
    RunStep(s, es, 3);
    RunStep(s, es, 4);
    RunStep(s, es, 5);
  }

  lemma LockOutlives(s: State, i: string)
    requires s.row.None? && s.made == 1 && s.owner == map[]
    requires OpOf(s, 1) == Forgetting && OpOf(s, 2) == Waiting(Resave, 0) && OpOf(s, 3) == Idle
    ensures var s' := Next(Next(Next(Next(s, Acquire(2)), Forget(1)), Arrive(3, Reconcile(i, {}))), Acquire(3));
            OpOf(s', 2) == Entered(Resave, 0) && OpOf(s', 3) == Entered(Reconcile(i, {}), 1)
  {
  }
}
