/** Intake drafts: the classifier's rounds, and the requests that race over one draft. */
module Drafts {
  import opened Text
  import opened Questions

  const DRAFT_TTL: int := 24 * 3600

  /** What the classifier may hand over: at most three questions with distinct ids. */
  type QuestionList = qs: seq<Question> | DistinctIds(qs) && |qs| <= MAX_CLARIFYING_QUESTIONS witness []

  datatype Spec = Spec(title: Option<string>, description: Option<string>, category: Option<string>,
                       executeAt: Option<string>, repeatInterval: Option<string>, repeatUntil: Option<string>,
                       profile: Option<string>)

  const NO_SPEC := Spec(None, None, None, None, None, None, None)

  /** A classifier call that failed, or its reply. */
  datatype Verdict = Unusable | Understood(spec: Spec, questions: QuestionList)

  datatype Turn = User(content: string) | Assistant(content: string)

  datatype Status = Drafting | Ready | Confirmed | Abandoned

  datatype Row = Row(input: string, conversation: seq<Turn>, spec: Spec, status: Status, questions: QuestionList,
                     unresolved: bool, round: nat, expiresAt: int, taskId: Option<nat>)

  datatype TaskFields = TaskFields(title: string, description: string, category: string, executeAt: Option<string>,
                                   repeatInterval: Option<string>, repeatUntil: Option<string>, profile: Option<string>)

  predicate Active(r: Row) {
    r.status == Drafting || r.status == Ready
  }

  // ---------- Reading a draft ----------

  /** `_spec_value`: a blank or a spelled-out null is no value. */
  function SpecValue(v: Option<string>): Option<string> {
    if v.Some? && Lower(Strip(v.value)) in ["", "null", "none"] then None else v
  }

  function CleanSpec(s: Spec): Spec {
    Spec(SpecValue(s.title), SpecValue(s.description), SpecValue(s.category), SpecValue(s.executeAt),
         SpecValue(s.repeatInterval), SpecValue(s.repeatUntil), SpecValue(s.profile))
  }

  function Join(sep: string, parts: seq<string>): string {
    if parts == [] then ""
    else if |parts| == 1 then parts[0]
    else Join(sep, parts[..|parts| - 1]) + sep + parts[|parts| - 1]
  }

  /** `s.split()`. */
  function Words(s: string): seq<string> {
    if s == [] then []
    else
      var init, c := s[..|s| - 1], s[|s| - 1];
      if IsSpace(c) then Words(init)
      else if init == [] || IsSpace(init[|init| - 1]) then Words(init) + [[c]]
      else Longer(Words(init), c)
  }

  /** The last word grows by a letter. */
  function Longer(ws: seq<string>, c: char): seq<string> {
    if ws == [] then [[c]] else ws[..|ws| - 1] + [ws[|ws| - 1] + [c]]
  }

  function FallbackTitle(input: string): string {
    var ws := Words(input);
    Join(" ", if |ws| <= 5 then ws else ws[..5]) + "..."
  }

  function UserContents(conv: seq<Turn>): seq<string> {
    if conv == [] then []
    else
      var init, last := UserContents(conv[..|conv| - 1]), conv[|conv| - 1];
      if last.User? then init + [last.content] else init
  }

  /** `_answered_clarifications`: every user turn but the first. */
  function AnsweredClarifications(r: Row): seq<string> {
    var us := UserContents(r.conversation);
    if us == [] then [] else us[1..]
  }

  function Composed(input: string, answers: seq<string>): string {
    if answers == [] then input else input + "\n\nClarifications:\n" + Join("\n", answers)
  }

  function Or(v: Option<string>, otherwise: string): string {
    if v.Some? && v.value != "" then v.value else otherwise
  }

  /** `_resolved_fields`: the task the draft would become now. */
  function Resolved(r: Row): TaskFields {
    TaskFields(Or(r.spec.title, FallbackTitle(r.input)),
               Or(r.spec.description, Composed(r.input, AnsweredClarifications(r))),
               if r.spec.category in [Some("immediate"), Some("scheduled"), Some("repeating")]
               then r.spec.category.value else "immediate",
               r.spec.executeAt, r.spec.repeatInterval, r.spec.repeatUntil, r.spec.profile)
  }

  // ---------- What the classifier and the answers do to a draft ----------

  function Texts(qs: seq<Question>): seq<string> {
    seq(|qs|, i requires 0 <= i < |qs| => qs[i].text)
  }

  function Classified(r: Row, v: Verdict, capReached: bool): Row {
    var spec := if v.Unusable? then NO_SPEC else CleanSpec(v.spec);
    var qs := if v.Unusable? then [] else v.questions;
    if qs != [] && !capReached then
      r.(spec := spec, status := Drafting, questions := qs, unresolved := false,
         conversation := r.conversation + [Assistant(Join("\n", Texts(qs)))])
    else
      var ready := r.(spec := spec, status := Ready, questions := qs, unresolved := qs != []);
      ready.(conversation := r.conversation + [Assistant("Ready: " + Resolved(ready).title)])
  }

  /** A draft that has not been classified yet. */
  function Unclassified(input: string, expiresAt: int): Row {
    Row(input, [User(input)], NO_SPEC, Drafting, [], false, 0, expiresAt, None)
  }

  function Started(text: string, v: Verdict, now: int): Row {
    Classified(Unclassified(Strip(text), now + DRAFT_TTL), v, false)
  }

  /** `max_rounds`: the cap the setting stands for. */
  function Cap(setting: int): nat {
    if setting < 1 then 1 else setting
  }

  function Answered(r: Row, content: string, v: Verdict, now: int, setting: int): Row {
    Classified(r.(conversation := r.conversation + [User(content)], round := r.round + 1, expiresAt := now + DRAFT_TTL),
               v, r.round + 1 >= Cap(setting))
  }

  function AnswerContent(qs: seq<Question>, responses: map<string, Option<string>>): string {
    var lines := AnswerLines(qs, responses);
    if Join("\n", lines) == "" then "(no answer given)" else Join("\n", lines)
  }

  // ---------- The same, spelled out ----------

  predicate IsWord(w: string) {
    w != [] && forall i :: 0 <= i < |w| ==> !IsSpace(w[i])
  }

  lemma {:induction false} OneWord(w: string)
    requires IsWord(w)
    ensures Words(w) == [w]
  {
    if |w| > 1 {
      var init := w[..|w| - 1];
      OneWord(init);
      assert init + [w[|w| - 1]] == w;
    } else {
      assert w[..0] == [] && w == [w[0]];
    }
  }

  lemma WordsStep(s: string, c: char)
    ensures Words(s + [c]) ==
            if IsSpace(c) then Words(s)
            else if s == [] || IsSpace(s[|s| - 1]) then Words(s) + [[c]]
            else Longer(Words(s), c)
  {
    hide IsSpace, Longer;
    var t := s + [c];
    assert t[..|t| - 1] == s && t[|t| - 1] == c;
  }

  lemma LongerConcat(a: seq<string>, b: seq<string>, c: char)
    requires b != []
    ensures Longer(a + b, c) == a + Longer(b, c)
  {
    assert (a + b)[..|a + b| - 1] == a + b[..|b| - 1];
  }

  lemma LastWordGrows(b: string)
    requires b != [] && !IsSpace(b[|b| - 1])
    ensures Words(b) != []
  {
    hide IsSpace;
  }

  /** White space separates words. */
  lemma {:induction false} WordsSplit(a: string, gap: char, b: string)
    requires IsSpace(gap)
    ensures Words(a + [gap] + b) == Words(a) + Words(b)
    decreases |b|
  {
    hide Words, IsSpace, Longer;
    WordsStep(a, gap);
    if b == [] {
      assert a + [gap] + b == a + [gap];
      NoWords();
    } else {
      var init, c := b[..|b| - 1], b[|b| - 1];
      var front := a + [gap] + init;
      assert a + [gap] + b == front + [c] && b == init + [c];
      WordsSplit(a, gap, init);
      WordsStep(front, c);
      WordsStep(init, c);
      assert front[|front| - 1] == if init == [] then gap else init[|init| - 1];
      if !IsSpace(c) && init != [] && !IsSpace(init[|init| - 1]) {
        LastWordGrows(init);
        LongerConcat(Words(a), Words(init), c);
      }
    }
  }

  lemma NoWords()
    ensures Words([]) == []
  {
  }

  lemma JoinIs(sep: string, parts: seq<string>, last: string)
    ensures Join(sep, []) == "" && Join(sep, [last]) == last
    ensures parts != [] ==> Join(sep, parts + [last]) == Join(sep, parts) + sep + last
  {
    assert (parts + [last])[..|parts|] == parts;
  }

  /** A title of the draft's own making: the first five words and an ellipsis. */
  lemma FallbackTitleIs(input: string)
    ensures |Words(input)| <= 5 ==> FallbackTitle(input) == Join(" ", Words(input)) + "..."
    ensures |Words(input)| > 5 ==> FallbackTitle(input) == Join(" ", Words(input)[..5]) + "..."
  {
  }

  /** A value the classifier spelled out as nothing counts as nothing; any other is kept. */
  lemma SpecValueIs(v: string)
    ensures SpecValue(None) == None
    ensures SpecValue(Some(v)) ==
            if Strip(v) == "" || Lower(Strip(v)) == "null" || Lower(Strip(v)) == "none" then None else Some(v)
  {
    hide Strip, Lower;
    assert Lower(Strip(v)) == "" <==> Strip(v) == "";
  }

  /** Gaps in the spec are filled, and nothing that is given is replaced. */
  lemma ResolvedIs(r: Row)
    ensures var f := Resolved(r);
            && f.title == (if r.spec.title.Some? && r.spec.title.value != "" then r.spec.title.value else FallbackTitle(r.input))
            && (r.spec.description.Some? && r.spec.description.value != "" ==> f.description == r.spec.description.value)
            && ((r.spec.description.None? || r.spec.description.value == "") && AnsweredClarifications(r) == [] ==>
                  f.description == r.input)
            && (if r.spec.category in {Some("immediate"), Some("scheduled"), Some("repeating")}
                then Some(f.category) == r.spec.category else f.category == "immediate")
            && f.executeAt == r.spec.executeAt && f.repeatInterval == r.spec.repeatInterval
            && f.repeatUntil == r.spec.repeatUntil && f.profile == r.spec.profile
  {
    hide FallbackTitle, UserContents, Join;
  }

  /**
   The draft asks exactly if the classifier understood, has questions and the cap is not reached.  Questions at
   the cap stay visible as unresolved.  A classifier that failed leaves an empty spec and no questions.
   */
  lemma ClassifiedIs(r: Row, v: Verdict, capReached: bool)
    ensures var after := Classified(r, v, capReached);
            && (after.status == Drafting <==> v.Understood? && v.questions != [] && !capReached)
            && (after.status != Drafting ==> after.status == Ready)
            && (after.unresolved <==> v.Understood? && v.questions != [] && capReached)
            && after.questions == (if v.Understood? then v.questions else [])
            && (v.Unusable? ==> after.spec == Spec(None, None, None, None, None, None, None))
            && (v.Understood? ==>
                  && after.spec.title == SpecValue(v.spec.title) && after.spec.description == SpecValue(v.spec.description)
                  && after.spec.category == SpecValue(v.spec.category) && after.spec.executeAt == SpecValue(v.spec.executeAt)
                  && after.spec.repeatInterval == SpecValue(v.spec.repeatInterval)
                  && after.spec.repeatUntil == SpecValue(v.spec.repeatUntil) && after.spec.profile == SpecValue(v.spec.profile))
            && after.conversation == r.conversation
                 + [Assistant(if after.status == Drafting then Join("\n", Texts(v.questions))
                              else "Ready: " + Resolved(after).title)]
            && after.input == r.input && after.round == r.round && after.expiresAt == r.expiresAt && after.taskId == r.taskId
  {
    hide SpecValue, Join, FallbackTitle, UserContents, Composed;
  }

  /** Starting and answering: what is said, how rounds count, and a day to live from now. */
  lemma StartedAndAnsweredAre(text: string, r: Row, content: string, v: Verdict, now: int, setting: int)
    ensures var first := Started(text, v, now);
            && first.input == Strip(text) && first.round == 0 && first.expiresAt == now + 86400
            && |first.conversation| == 2 && first.conversation[0] == User(Strip(text))
            && (first.status == Drafting <==> v.Understood? && v.questions != [])
    ensures var next := Answered(r, content, v, now, setting);
            && next.input == r.input && next.round == r.round + 1 && next.expiresAt == now + 86400
            && |next.conversation| == |r.conversation| + 2 && r.conversation <= next.conversation
            && next.conversation[|r.conversation|] == User(content)
            && (next.status == Drafting <==> v.Understood? && v.questions != [] && r.round + 1 < setting)
  {
    hide SpecValue, Join, Resolved, Strip;
  }

  /** What the answers of one submission are stored as. */
  lemma AnswerContentIs(qs: seq<Question>, responses: map<string, Option<string>>)
    ensures AnswerLines(qs, responses) == [] ==> AnswerContent(qs, responses) == "(no answer given)"
    ensures AnswerLines(qs, responses) != [] ==> AnswerContent(qs, responses) == Join("\n", AnswerLines(qs, responses))
  {
    hide AnswerLines, Join;
    if AnswerLines(qs, responses) == [] {
      JoinIs("\n", [], "");
    } else {
      var lines := AnswerLines(qs, responses);
      LinesAreNotEmpty(qs, responses);
      assert lines[|lines| - 1] in lines;
      JoinIsLonger(lines);
    }
  }

  lemma JoinIsLonger(parts: seq<string>)
    requires parts != [] && parts[|parts| - 1] != ""
    ensures Join("\n", parts) != ""
  {
  }

  lemma {:induction false} LinesAreNotEmpty(qs: seq<Question>, responses: map<string, Option<string>>)
    ensures forall l :: l in AnswerLines(qs, responses) ==> l != ""
  {
    hide AnswerTo;
    if qs != [] {
      LinesAreNotEmpty(qs[..|qs| - 1], responses);
    }
  }

  /** A draft object, changed in place by the code that handles one request. */
  class Draft {
    var input: string
    var conversation: seq<Turn>
    var spec: Spec
    var status: Status
    var questions: QuestionList
    var unresolved: bool
    var round: nat
    var expiresAt: int
    var taskId: Option<nat>

    ghost function View(): Row
      reads this
    {
      Row(input, conversation, spec, status, questions, unresolved, round, expiresAt, taskId)
    }

    constructor Start(text: string, v: Verdict, now: int)
      ensures View() == Started(text, v, now)
    {
      hide Classified, Strip;
      input := Strip(text);
      conversation := [User(Strip(text))];
      spec, status, questions, unresolved := NO_SPEC, Drafting, [], false;
      round, expiresAt, taskId := 0, now + DRAFT_TTL, None;
      new;
      Classify(v, false);
    }

    method Classify(v: Verdict, capReached: bool)
      modifies this
      ensures View() == Classified(old(View()), v, capReached)
    {
      var qs: QuestionList := [];
      match v {
        case Unusable =>
          spec := NO_SPEC;
        case Understood(reply, asked) =>
          spec := CleanSpec(reply);
          qs := asked;
      }
      var content;
      if qs != [] && !capReached {
        status, questions, unresolved := Drafting, qs, false;
        content := Join("\n", Texts(qs));
      } else {
        status, questions, unresolved := Ready, qs, qs != [];
        content := "Ready: " + Or(spec.title, FallbackTitle(input));
      }
      conversation := conversation + [Assistant(content)];
    }

    /** What `answer` does once its round is claimed. */
    method Accept(content: string, v: Verdict, now: int, setting: int)
      modifies this
      ensures View() == Answered(old(View()), content, v, now, setting)
    {
      hide Classified, Strip;
      conversation := conversation + [User(content)];
      round := round + 1;
      expiresAt := now + DRAFT_TTL;
      Classify(v, round >= Cap(setting));
    }
  }

  /** The answers of one submission, one line per question that got one. */
  method Transcribe(qs: seq<Question>, responses: map<string, Option<string>>) returns (content: string)
    ensures content == AnswerContent(qs, responses) && content != ""
  {
    var lines: seq<string> := [];
    for i := 0 to |qs|
      invariant lines == AnswerLines(qs[..i], responses)
    {
      AnswerLinesStep(qs, responses, 0, i + 1);
      assert qs[0..i + 1] == qs[..i + 1] && qs[0..i] == qs[..i];
      var q := qs[i];
      if q.id in responses && responses[q.id].Some? && Strip(responses[q.id].value) != [] {
        lines := lines + [q.text + " -> " + Strip(responses[q.id].value)];
      }
    }
    assert qs[..|qs|] == qs;
    content := Join("\n", lines);
    if content == "" {
      content := "(no answer given)";
    }
  }

  // ---------- Requests racing over one draft ----------

  /**
   A request in progress.  `snapshot` is the draft as it was loaded.  Between its conditional update
   and its commit a request is `...Claimed` and holds the row.
   */
  datatype Request =
    | Idle
    | Answering(snapshot: Row, content: string)
    | AnswerClaimed(snapshot: Row, content: string)
    | Confirming(snapshot: Row)
    | ConfirmClaimed(snapshot: Row)
    | ConfirmCreated(taskId: nat)
    | Cancelling

  datatype Event =
    | Tick(to: int)
    | LoadAnswer(p: nat, responses: map<string, Option<string>>)
    | ClaimAnswer(p: nat)
    | CommitAnswer(p: nat, verdict: Verdict)
    | LoadConfirm(p: nat)
    | ClaimConfirm(p: nat)
    | CreateTask(p: nat)
    | LinkTask(p: nat)
    | LoadCancel(p: nat)
    | CommitCancel(p: nat)
    | Fail(p: nat)
    | Sweep(asOf: int)

  /**
   `row` is the committed draft; a task's id is its place in `tasks`; `accepted` lists the answers whose request
   succeeded, in order.
   */
  datatype State = State(row: Option<Row>, now: int, holder: Option<nat>, requests: map<nat, Request>,
                         tasks: seq<TaskFields>, accepted: seq<string>)

  function Initial(text: string, v: Verdict, now: int): State {
    State(Some(Started(text, v, now)), now, None, map[], [], [])
  }

  function RequestOf(s: State, p: nat): Request {
    if p in s.requests then s.requests[p] else Idle
  }

  function Set(s: State, p: nat, q: Request): State {
    s.(requests := s.requests[p := q])
  }

  /** `_load`: an expired draft is as good as absent. */
  predicate Visible(s: State) {
    s.row.Some? && s.row.value.expiresAt > s.now
  }

  /** `sweep_expired_drafts` on one row. */
  function Swept(row: Option<Row>, asOf: int): Option<Row> {
    var kept := if row.Some? && Active(row.value) && row.value.expiresAt <= asOf
                then Some(row.value.(status := Abandoned)) else row;
    if kept.Some? && kept.value.status == Abandoned && kept.value.expiresAt <= asOf - DRAFT_TTL then None else kept
  }

  function NextAnswer(s: State, e: Event, setting: int): State
    requires e.LoadAnswer? || e.ClaimAnswer? || e.CommitAnswer?
  {
    match e
    case LoadAnswer(p, responses) =>
      if RequestOf(s, p).Idle? && Visible(s) && s.row.value.status == Drafting && s.row.value.questions != []
      then Set(s, p, Answering(s.row.value, AnswerContent(s.row.value.questions, responses))) else s
    case ClaimAnswer(p) =>
      var q := RequestOf(s, p);
      if !q.Answering? || s.holder.Some? then s
      else if s.row.Some? && s.row.value.status == Drafting && s.row.value.round == q.snapshot.round
      then Set(s, p, AnswerClaimed(q.snapshot, q.content)).(holder := Some(p))
      else Set(s, p, Idle)
    case CommitAnswer(p, v) =>
      var q := RequestOf(s, p);
      if !q.AnswerClaimed? then s
      else Set(s, p, Idle).(row := Some(Answered(q.snapshot, q.content, v, s.now, setting)), holder := None,
                            accepted := s.accepted + [q.content])
  }

  function NextConfirm(s: State, e: Event): State
    requires e.LoadConfirm? || e.ClaimConfirm? || e.CreateTask? || e.LinkTask?
  {
    match e
    case LoadConfirm(p) =>
      if RequestOf(s, p).Idle? && Visible(s) then Set(s, p, Confirming(s.row.value)) else s
    case ClaimConfirm(p) =>
      var q := RequestOf(s, p);
      if !q.Confirming? || s.holder.Some? then s
      else if s.row.Some? && Active(s.row.value) then Set(s, p, ConfirmClaimed(q.snapshot)).(holder := Some(p))
      else Set(s, p, Idle)
    case CreateTask(p) =>
      var q := RequestOf(s, p);
      if !q.ConfirmClaimed? || s.row.None? then s
      else Set(s, p, ConfirmCreated(|s.tasks|)).(row := Some(s.row.value.(status := Confirmed)), holder := None,
                                      tasks := s.tasks + [Resolved(q.snapshot)])
    case LinkTask(p) =>
      var q := RequestOf(s, p);
      if !q.ConfirmCreated? || s.holder.Some? then s
      else if s.row.Some? then Set(s, p, Idle).(row := Some(s.row.value.(taskId := Some(q.taskId))))
      else Set(s, p, Idle)
  }

  /** One step; a step that is not enabled, or that waits for the row, changes nothing. */
  function Next(s: State, e: Event, setting: int): State {
    match e
    case Tick(to) => if to >= s.now then s.(now := to) else s
    case LoadCancel(p) =>
      if RequestOf(s, p).Idle? && Visible(s) && Active(s.row.value) then Set(s, p, Cancelling) else s
    case CommitCancel(p) =>
      if !RequestOf(s, p).Cancelling? || s.holder.Some? then s
      else if s.row.Some? then Set(s, p, Idle).(row := Some(s.row.value.(status := Abandoned)))
      else Set(s, p, Idle)
    case Fail(p) => Set(s, p, Idle).(holder := if s.holder == Some(p) then None else s.holder)
    case Sweep(asOf) => if s.holder.None? && asOf <= s.now then s.(row := Swept(s.row, asOf)) else s
    case LoadAnswer(_, _) => NextAnswer(s, e, setting)
    case ClaimAnswer(_) => NextAnswer(s, e, setting)
    case CommitAnswer(_, _) => NextAnswer(s, e, setting)
    case LoadConfirm(_) => NextConfirm(s, e)
    case ClaimConfirm(_) => NextConfirm(s, e)
    case CreateTask(_) => NextConfirm(s, e)
    case LinkTask(_) => NextConfirm(s, e)
  }

  function Run(s: State, es: seq<Event>, setting: int): State {
    if es == [] then s else Next(Run(s, es[..|es| - 1], setting), es[|es| - 1], setting)
  }

  // ---------- The invariant ----------

  predicate Alternates(conv: seq<Turn>) {
    forall i :: 0 <= i < |conv| ==> (conv[i].User? <==> i % 2 == 0)
  }

  /** The conversation is the input and the accepted answers, each followed by one reply. */
  predicate Faithful(r: Row, accepted: seq<string>) {
    && r.round == |accepted|
    && |r.conversation| == 2 * r.round + 2
    && Alternates(r.conversation)
    && UserContents(r.conversation) == [r.input] + accepted
  }

  /** A draft waits for answers only below the cap, and shows unresolved questions only at it. */
  predicate Capped(r: Row, cap: nat) {
    && r.round <= cap
    && (r.status == Drafting ==> r.round < cap && r.questions != [])
    && (r.unresolved <==> r.questions != [] && r.round == cap)
  }

  predicate RowOk(r: Row, accepted: seq<string>, cap: nat) {
    Faithful(r, accepted) && Capped(r, cap)
  }

  predicate Finished(row: Option<Row>) {
    row.None? || !Active(row.value)
  }

  /** A loaded copy is an earlier state of the draft; at the same round only status and task link can differ. */
  predicate SnapshotOk(snap: Row, row: Option<Row>, accepted: seq<string>, cap: nat) {
    && snap.round <= |accepted|
    && RowOk(snap, accepted[..snap.round], cap)
    && (row.Some? ==> row.value.input == snap.input)
    && (row.Some? && row.value.round == snap.round ==>
          && row.value == snap.(status := row.value.status, taskId := row.value.taskId)
          && (Active(row.value) ==> row.value == snap))
  }

  predicate RequestOk(p: nat, q: Request, row: Option<Row>, holder: Option<nat>, accepted: seq<string>, cap: nat) {
    match q
    case Idle => holder != Some(p)
    case Answering(snap, content) => holder != Some(p) && SnapshotOk(snap, row, accepted, cap) && snap.status == Drafting
    case AnswerClaimed(snap, content) => holder == Some(p) && row == Some(snap) && snap.status == Drafting
    case Confirming(snap) => holder != Some(p) && SnapshotOk(snap, row, accepted, cap)
    case ConfirmClaimed(snap) =>
      holder == Some(p) && row.Some? && Active(row.value) && SnapshotOk(snap, row, accepted, cap)
    case ConfirmCreated(_) => holder != Some(p) && Finished(row)
    case Cancelling => holder != Some(p)
  }

  predicate RequestsOk(s: State, cap: nat) {
    forall p :: p in s.requests ==> RequestOk(p, s.requests[p], s.row, s.holder, s.accepted, cap)
  }

  predicate Inv(s: State, cap: nat) {
    && (s.row.Some? ==> RowOk(s.row.value, s.accepted, cap))
    && (s.row.Some? && Active(s.row.value) ==> s.row.value.taskId.None?)
    && (s.holder.Some? ==> s.holder.value in s.requests)
    && RequestsOk(s, cap)
    && |s.tasks| <= 1
    && (s.tasks != [] ==> Finished(s.row))
  }

  lemma UserContentsAppend(conv: seq<Turn>, t: Turn)
    ensures UserContents(conv + [t]) == if t.User? then UserContents(conv) + [t.content] else UserContents(conv)
  {
    assert (conv + [t])[..|conv|] == conv;
  }

  lemma ReplyKeepsFaith(r: Row, asked: seq<Turn>, v: Verdict, capReached: bool, accepted: seq<string>, cap: nat)
    requires |asked| == 2 * r.round + 1 && Alternates(asked) && UserContents(asked) == [r.input] + accepted
    requires r.conversation == asked && r.round == |accepted|
    requires r.round <= cap && (capReached <==> r.round == cap)
    ensures RowOk(Classified(r, v, capReached), accepted, cap)
  {
    hide Join, Resolved, CleanSpec, UserContents;
    var after := Classified(r, v, capReached);
    UserContentsAppend(asked, after.conversation[|asked|]);
    assert after.conversation == asked + [after.conversation[|asked|]];
  }

  lemma StartedOk(text: string, v: Verdict, now: int, setting: int)
    ensures RowOk(Started(text, v, now), [], Cap(setting))
    ensures Active(Started(text, v, now)) && Started(text, v, now).taskId.None?
  {
    hide Classified, Strip, RowOk;
    var input := Strip(text);
    var r := Unclassified(input, now + DRAFT_TTL);
    OneTurn(input);
    ReplyKeepsFaith(r, [User(input)], v, false, [], Cap(setting));
    ReplyIsActive(r, v, false);
  }

  lemma OneTurn(input: string)
    ensures Alternates([User(input)]) && UserContents([User(input)]) == [input] + []
  {
    UserContentsAppend([], User(input));
    assert [] + [User(input)] == [User(input)];
  }

  lemma ReplyIsActive(r: Row, v: Verdict, capReached: bool)
    ensures var after := Classified(r, v, capReached);
            Active(after) && after.taskId == r.taskId && after.input == r.input && after.round == r.round
  {
    hide Join, Resolved, CleanSpec;
  }

  lemma AnsweredOk(r: Row, content: string, v: Verdict, now: int, setting: int, accepted: seq<string>)
    requires RowOk(r, accepted, Cap(setting)) && r.status == Drafting
    ensures RowOk(Answered(r, content, v, now, setting), accepted + [content], Cap(setting))
    ensures Active(Answered(r, content, v, now, setting))
    ensures Answered(r, content, v, now, setting).taskId == r.taskId
    ensures Answered(r, content, v, now, setting).input == r.input
    ensures Answered(r, content, v, now, setting).round == r.round + 1
  {
    hide Join, Resolved, CleanSpec, UserContents;
    var asked := r.conversation + [User(content)];
    UserContentsAppend(r.conversation, User(content));
    assert [r.input] + accepted + [content] == [r.input] + (accepted + [content]);
    ReplyKeepsFaith(r.(conversation := asked, round := r.round + 1, expiresAt := now + DRAFT_TTL), asked, v,
                    r.round + 1 >= Cap(setting), accepted + [content], Cap(setting));
  }

  // ---------- Every step keeps the invariant ----------

  /** How the committed draft can change in one step. */
  predicate Moves(row: Option<Row>, row': Option<Row>, accepted: seq<string>, accepted': seq<string>) {
    || (row' == row && accepted' == accepted)
    || (row'.None? && accepted' == accepted)
    || (row.Some? && row'.Some? && !Active(row'.value) && accepted' == accepted
        && row'.value == row.value.(status := row'.value.status, taskId := row'.value.taskId))
    || (row.Some? && row'.Some? && Active(row.value) && row'.value.round == |accepted| + 1
        && row'.value.input == row.value.input && |accepted'| == |accepted| + 1 && accepted'[..|accepted|] == accepted)
  }

  lemma SnapshotKept(snap: Row, row: Option<Row>, row': Option<Row>, accepted: seq<string>, accepted': seq<string>, cap: nat)
    requires SnapshotOk(snap, row, accepted, cap) && Moves(row, row', accepted, accepted')
    ensures SnapshotOk(snap, row', accepted', cap)
  {
    hide Faithful, Capped;
    assert accepted'[..snap.round] == accepted[..snap.round] by {
      assert accepted'[..|accepted|][..snap.round] == accepted'[..snap.round];
    }
  }

  /** A step by another request leaves this one in order. */
  lemma BystanderKept(p: nat, q: Request, s: State, s': State, cap: nat)
    requires RequestOk(p, q, s.row, s.holder, s.accepted, cap)
    requires Moves(s.row, s'.row, s.accepted, s'.accepted)
    requires if s.holder == Some(p) then s'.holder == s.holder && s'.row == s.row && s'.accepted == s.accepted
             else s'.holder != Some(p)
    ensures RequestOk(p, q, s'.row, s'.holder, s'.accepted, cap)
  {
    hide SnapshotOk;
    match q
    case Answering(snap, _) => SnapshotKept(snap, s.row, s'.row, s.accepted, s'.accepted, cap);
    case Confirming(snap) => SnapshotKept(snap, s.row, s'.row, s.accepted, s'.accepted, cap);
    case ConfirmClaimed(snap) => SnapshotKept(snap, s.row, s'.row, s.accepted, s'.accepted, cap);
    case _ =>
  }

  lemma StepKeepsRequests(s: State, s': State, p: nat, q: Request, cap: nat)
    requires RequestsOk(s, cap) && (s.holder.Some? ==> s.holder.value in s.requests)
    requires s'.requests == s.requests[p := q] && RequestOk(p, q, s'.row, s'.holder, s'.accepted, cap)
    requires Moves(s.row, s'.row, s.accepted, s'.accepted)
    requires s.holder.None? || s.holder == Some(p) || (s'.row == s.row && s'.holder == s.holder && s'.accepted == s.accepted)
    requires s'.holder == s.holder || s'.holder == None || s'.holder == Some(p)
    ensures RequestsOk(s', cap)
  {
    hide RequestOk, Moves;
    forall o | o in s'.requests ensures RequestOk(o, s'.requests[o], s'.row, s'.holder, s'.accepted, cap) {
      if o != p {
        assert RequestOk(o, s.requests[o], s.row, s.holder, s.accepted, cap);
        BystanderKept(o, s.requests[o], s, s', cap);
      }
    }
  }

  /** What the draft's own copy says right after it is loaded. */
  lemma FreshSnapshotOk(r: Row, accepted: seq<string>, cap: nat)
    requires RowOk(r, accepted, cap)
    ensures SnapshotOk(r, Some(r), accepted, cap)
  {
    hide Capped;
    assert accepted[..r.round] == accepted;
  }

  lemma StillOk(r: Row, status: Status, taskId: Option<nat>, accepted: seq<string>, cap: nat)
    requires RowOk(r, accepted, cap) && status != Drafting
    ensures RowOk(r.(status := status, taskId := taskId), accepted, cap)
  {
  }

  lemma AnswerKeeps(s: State, e: Event, setting: int)
    requires e.LoadAnswer? || e.ClaimAnswer? || e.CommitAnswer?
    requires Inv(s, Cap(setting))
    ensures Inv(Next(s, e, setting), Cap(setting))
  {
    hide RowOk, SnapshotOk, RequestsOk, Answered, AnswerContent, Cap;
    var s' := Next(s, e, setting);
    var cap := Cap(setting);
    var p := e.p;
    var q := RequestOf(s, p);
    if s' != s {
      assert p in s.requests ==> RequestOk(p, q, s.row, s.holder, s.accepted, cap) by { RequestIsOk(s, p, cap); }
      match e
      case LoadAnswer(_, _) =>
        FreshSnapshotOk(s.row.value, s.accepted, cap);
        NotHolding(s, p, cap);
        StepKeepsRequests(s, s', p, s'.requests[p], cap);
      case ClaimAnswer(_) =>
        if s'.holder.Some? { ClaimedRowIsSnapshot(q.snapshot, s.row, s.accepted, cap); }
        StepKeepsRequests(s, s', p, s'.requests[p], cap);
      case CommitAnswer(_, v) =>
        RoundIsCount(q.snapshot, s.accepted, cap);
        AnsweredOk(q.snapshot, q.content, v, s.now, setting, s.accepted);
        assert s'.accepted[..|s.accepted|] == s.accepted;
        StepKeepsRequests(s, s', p, s'.requests[p], cap);
    }
  }

  lemma RequestIsOk(s: State, p: nat, cap: nat)
    requires RequestsOk(s, cap)
    ensures p in s.requests ==> RequestOk(p, s.requests[p], s.row, s.holder, s.accepted, cap)
  {
  }

  lemma RoundIsCount(r: Row, accepted: seq<string>, cap: nat)
    requires RowOk(r, accepted, cap)
    ensures r.round == |accepted|
  {
  }

  lemma NotHolding(s: State, p: nat, cap: nat)
    requires Inv(s, cap) && RequestOf(s, p).Idle?
    ensures s.holder != Some(p)
  {
    hide RowOk, SnapshotOk;
    RequestIsOk(s, p, cap);
  }

  /** The conditional update succeeds only on a draft that is still what the request loaded. */
  lemma ClaimedRowIsSnapshot(snap: Row, row: Option<Row>, accepted: seq<string>, cap: nat)
    requires SnapshotOk(snap, row, accepted, cap)
    requires row.Some? && row.value.status == Drafting && row.value.round == snap.round
    ensures row.value == snap
  {
  }

  lemma ConfirmKeeps(s: State, e: Event, setting: int)
    requires e.LoadConfirm? || e.ClaimConfirm? || e.CreateTask? || e.LinkTask?
    requires Inv(s, Cap(setting))
    ensures Inv(Next(s, e, setting), Cap(setting))
  {
    hide RowOk, SnapshotOk, RequestsOk, Resolved, Cap;
    var s' := Next(s, e, setting);
    var cap := Cap(setting);
    var p := e.p;
    var q := RequestOf(s, p);
    if s' != s {
      assert p in s.requests ==> RequestOk(p, q, s.row, s.holder, s.accepted, cap) by { RequestIsOk(s, p, cap); }
      match e
      case LoadConfirm(_) =>
        FreshSnapshotOk(s.row.value, s.accepted, cap);
        NotHolding(s, p, cap);
        StepKeepsRequests(s, s', p, s'.requests[p], cap);
      case ClaimConfirm(_) =>
        StepKeepsRequests(s, s', p, s'.requests[p], cap);
      case CreateTask(_) =>
        StillOk(s.row.value, Confirmed, s.row.value.taskId, s.accepted, cap);
        StepKeepsRequests(s, s', p, s'.requests[p], cap);
      case LinkTask(_) =>
        if s.row.Some? { StillOk(s.row.value, s.row.value.status, Some(q.taskId), s.accepted, cap); }
        StepKeepsRequests(s, s', p, s'.requests[p], cap);
    }
  }

  lemma OtherKeeps(s: State, e: Event, setting: int)
    requires e.Tick? || e.LoadCancel? || e.CommitCancel? || e.Fail? || e.Sweep?
    requires Inv(s, Cap(setting))
    ensures Inv(Next(s, e, setting), Cap(setting))
  {
    hide RowOk, SnapshotOk, RequestsOk, Cap;
    var s' := Next(s, e, setting);
    var cap := Cap(setting);
    if s' != s {
      if e.Tick? {
        ClockIsIrrelevant(s, s', cap);
      } else if e.Sweep? {
        if s.row.Some? { StillOk(s.row.value, Abandoned, s.row.value.taskId, s.accepted, cap); }
        RowChangeKeepsRequests(s, s', cap);
      } else {
        RequestIsOk(s, e.p, cap);
        if e.LoadCancel? { NotHolding(s, e.p, cap); }
        if e.CommitCancel? && s.row.Some? { StillOk(s.row.value, Abandoned, s.row.value.taskId, s.accepted, cap); }
        StepKeepsRequests(s, s', e.p, s'.requests[e.p], cap);
      }
    }
  }

  lemma ClockIsIrrelevant(s: State, s': State, cap: nat)
    requires RequestsOk(s, cap) && s' == s.(now := s'.now)
    ensures RequestsOk(s', cap)
  {
    hide RequestOk;
    forall o | o in s'.requests ensures RequestOk(o, s'.requests[o], s'.row, s'.holder, s'.accepted, cap) {
      assert RequestOk(o, s.requests[o], s.row, s.holder, s.accepted, cap);
    }
  }

  lemma RowChangeKeepsRequests(s: State, s': State, cap: nat)
    requires RequestsOk(s, cap) && s' == s.(row := s'.row) && s.holder.None?
    requires Moves(s.row, s'.row, s.accepted, s'.accepted)
    ensures RequestsOk(s', cap)
  {
    hide RequestOk, Moves;
    forall o | o in s'.requests ensures RequestOk(o, s'.requests[o], s'.row, s'.holder, s'.accepted, cap) {
      assert RequestOk(o, s.requests[o], s.row, s.holder, s.accepted, cap);
      BystanderKept(o, s.requests[o], s, s', cap);
    }
  }

  lemma StepKeeps(s: State, e: Event, setting: int)
    requires Inv(s, Cap(setting))
    ensures Inv(Next(s, e, setting), Cap(setting))
  {
    hide *;
    if e.LoadAnswer? || e.ClaimAnswer? || e.CommitAnswer? {
      AnswerKeeps(s, e, setting);
    } else if e.LoadConfirm? || e.ClaimConfirm? || e.CreateTask? || e.LinkTask? {
      ConfirmKeeps(s, e, setting);
    } else {
      OtherKeeps(s, e, setting);
    }
  }

  lemma {:induction false} RunKeeps(s: State, es: seq<Event>, setting: int)
    requires Inv(s, Cap(setting))
    ensures Inv(Run(s, es, setting), Cap(setting))
  {
    hide Inv, Next;
    if es != [] {
      RunKeeps(s, es[..|es| - 1], setting);
      StepKeeps(Run(s, es[..|es| - 1], setting), es[|es| - 1], setting);
    }
  }

  // ---------- What holds over every run ----------

  lemma InitialOk(text: string, v: Verdict, now: int, setting: int)
    ensures Inv(Initial(text, v, now), Cap(setting))
  {
    hide RowOk, Started;
    StartedOk(text, v, now, setting);
  }

  /**
   In every interleaving, the draft's round counts the accepted answers, the conversation alternates and
   holds the input and every accepted answer once, in order; only a draft below the cap waits for more.
   */
  lemma NoAnswerIsLost(text: string, v: Verdict, now: int, es: seq<Event>, setting: int)
    ensures var s := Run(Initial(text, v, now), es, setting);
            s.row.Some? ==>
              && s.row.value.round == |s.accepted| <= Cap(setting)
              && |s.row.value.conversation| == 2 * s.row.value.round + 2
              && Alternates(s.row.value.conversation)
              && AnsweredClarifications(s.row.value) == s.accepted
              && (s.row.value.status == Drafting ==> s.row.value.round < Cap(setting))
              && (s.row.value.unresolved <==> s.row.value.questions != [] && s.row.value.round == Cap(setting))
  {
    hide Run, Initial, RequestsOk, UserContents, Cap;
    InitialOk(text, v, now, setting);
    RunKeeps(Initial(text, v, now), es, setting);
  }

  /** An accepted answer stays accepted: the log only grows. */
  lemma {:induction false} AcceptedGrows(s: State, es: seq<Event>, setting: int)
    ensures s.accepted <= Run(s, es, setting).accepted
  {
    hide Answered, AnswerContent, Resolved;
    if es != [] {
      AcceptedGrows(s, es[..|es| - 1], setting);
    }
  }

  lemma FinishedStep(s: State, e: Event, setting: int)
    requires Inv(s, Cap(setting)) && Finished(s.row)
    ensures var s' := Next(s, e, setting); Finished(s'.row) && s'.tasks == s.tasks && (s.row.None? ==> s'.row.None?)
    ensures Next(s, e, setting).accepted == s.accepted
  {
    hide RowOk, SnapshotOk, Resolved, Answered, AnswerContent, Cap;
    if !e.Tick? && !e.Sweep? {
      RequestIsOk(s, e.p, Cap(setting));
    }
  }

  /**
   A draft that was confirmed, abandoned or deleted is never active again, a deleted one never returns,
   and neither another task nor another answer comes of it.
   */
  lemma {:induction false} FinishedForGood(s: State, es: seq<Event>, setting: int)
    requires Inv(s, Cap(setting)) && Finished(s.row)
    ensures var s' := Run(s, es, setting); Finished(s'.row) && s'.tasks == s.tasks && (s.row.None? ==> s'.row.None?)
    ensures Run(s, es, setting).accepted == s.accepted
  {
    hide Inv, Finished, Next, Cap;
    if es != [] {
      FinishedForGood(s, es[..|es| - 1], setting);
      RunKeeps(s, es[..|es| - 1], setting);
      FinishedStep(Run(s, es[..|es| - 1], setting), es[|es| - 1], setting);
    }
  }

  /** At most one task comes of a draft, and the draft is finished once it has. */
  lemma AtMostOneTask(text: string, v: Verdict, now: int, es: seq<Event>, setting: int)
    ensures var s := Run(Initial(text, v, now), es, setting); |s.tasks| <= 1 && (s.tasks != [] ==> Finished(s.row))
  {
    hide Run, Initial, RequestsOk, RowOk, Cap;
    InitialOk(text, v, now, setting);
    RunKeeps(Initial(text, v, now), es, setting);
  }

  // ---------- What each step does ----------

  /**
   A sweep leaves an active draft that has not expired alone, abandons one that has, and deletes exactly those
   expired for a day that are abandoned by then.  A confirmed draft is never touched.
   */
  lemma SweepIs(s: State, asOf: int, setting: int)
    requires s.row.Some? && s.holder.None? && asOf <= s.now
    ensures var r, s' := s.row.value, Next(s, Sweep(asOf), setting);
            && s' == s.(row := s'.row)
            && (r.status == Confirmed || ((r.status == Drafting || r.status == Ready) && r.expiresAt > asOf) ==> s'.row == s.row)
            && (r.status != Confirmed && r.expiresAt <= asOf && r.expiresAt > asOf - 86400 ==>
                  s'.row == Some(r.(status := Abandoned)))
            && (s'.row.None? <==> r.status != Confirmed && r.expiresAt <= asOf - 86400)
            && (r.status == Abandoned && r.expiresAt > asOf - 86400 ==> s'.row == s.row)
  {
  }

  /** A step that ends an active draft: a confirm, a cancel, or a sweep after its expiry. */
  predicate Ends(s: State, e: Event) {
    && s.row.Some? && Active(s.row.value)
    && (e.CreateTask? || e.CommitCancel? || (e.Sweep? && s.row.value.expiresAt <= e.asOf))
  }

  lemma StaysActive(s: State, e: Event, setting: int)
    requires Inv(s, Cap(setting)) && s.row.Some? && Active(s.row.value) && !Ends(s, e)
    ensures var s' := Next(s, e, setting); s'.row.Some? && Active(s'.row.value)
  {
    hide RowOk, SnapshotOk, Resolved, Answered, AnswerContent, Cap;
    if e.CommitAnswer? && RequestOf(s, e.p).AnswerClaimed? {
      RequestIsOk(s, e.p, Cap(setting));
      var q := RequestOf(s, e.p);
      RoundIsCount(q.snapshot, s.accepted, Cap(setting));
      AnsweredOk(q.snapshot, q.content, e.verdict, s.now, setting, s.accepted);
    }
    if e.LinkTask? {
      RequestIsOk(s, e.p, Cap(setting));
    }
  }

  /** An active draft is lost only to a confirm, a cancel, or a sweep after its own expiry. */
  lemma {:induction false} LostOnlyTo(s: State, es: seq<Event>, setting: int)
    requires Inv(s, Cap(setting)) && s.row.Some? && Active(s.row.value) && Finished(Run(s, es, setting).row)
    ensures exists i :: 0 <= i < |es| && Ends(Run(s, es[..i], setting), es[i])
  {
    hide Inv, Next, Cap, Ends;
    if es != [] {
      var n := |es| - 1;
      if Finished(Run(s, es[..n], setting).row) {
        LostOnlyTo(s, es[..n], setting);
        var i :| 0 <= i < n && Ends(Run(s, es[..n][..i], setting), es[..n][i]);
        assert es[..n][..i] == es[..i] && es[..n][i] == es[i];
      } else {
        RunKeeps(s, es[..n], setting);
        if !Ends(Run(s, es[..n], setting), es[n]) {
          StaysActive(Run(s, es[..n], setting), es[n], setting);
        }
      }
    }
  }

  /** Who is let in: nobody to an expired draft, answers to open questions, cancels to an active draft. */
  lemma AdmittedIff(s: State, p: nat, responses: map<string, Option<string>>, setting: int)
    requires RequestOf(s, p).Idle?
    ensures var live := s.row.Some? && s.row.value.expiresAt > s.now;
            && (if live && s.row.value.status == Drafting && s.row.value.questions != []
                then RequestOf(Next(s, LoadAnswer(p, responses), setting), p)
                       == Answering(s.row.value, AnswerContent(s.row.value.questions, responses))
                else Next(s, LoadAnswer(p, responses), setting) == s)
            && (if live then RequestOf(Next(s, LoadConfirm(p), setting), p) == Confirming(s.row.value)
                else Next(s, LoadConfirm(p), setting) == s)
            && (if live && (s.row.value.status == Drafting || s.row.value.status == Ready)
                then RequestOf(Next(s, LoadCancel(p), setting), p) == Cancelling
                else Next(s, LoadCancel(p), setting) == s)
  {
    hide AnswerContent;
  }

  /** A confirm gets the draft exactly if it is still active, whatever happened since it was loaded. */
  lemma ConfirmSucceedsIff(s: State, p: nat, setting: int)
    requires RequestOf(s, p).Confirming? && s.holder.None?
    ensures var s' := Next(s, ClaimConfirm(p), setting);
            if s.row.Some? && (s.row.value.status == Drafting || s.row.value.status == Ready)
            then RequestOf(s', p) == ConfirmClaimed(RequestOf(s, p).snapshot) && s'.holder == Some(p)
            else RequestOf(s', p) == Idle && s'.row == s.row && s'.holder.None?
  {
  }

  /** The task is linked once the row is free, and only the link is written; time moves on and nothing else does. */
  lemma LinksAndTicks(s: State, p: nat, to: int, setting: int)
    requires RequestOf(s, p).ConfirmCreated? && s.holder.None?
    ensures var s' := Next(s, LinkTask(p), setting);
            && RequestOf(s', p).Idle? && s'.tasks == s.tasks && s'.accepted == s.accepted
            && (s.row.Some? ==> s'.row == Some(s.row.value.(taskId := Some(RequestOf(s, p).taskId))))
            && (s.row.None? ==> s'.row == s.row)
    ensures Next(s, Tick(to), setting) == if s.now <= to then s.(now := to) else s
  {
  }

  /** What the commits write, and that nothing else of the draft changes with them. */
  lemma CommitsAre(s: State, p: nat, v: Verdict, setting: int)
    requires Inv(s, Cap(setting))
    ensures RequestOf(s, p).AnswerClaimed? ==>
              var s' := Next(s, CommitAnswer(p, v), setting);
              && s.row.Some? && s'.row == Some(Answered(s.row.value, RequestOf(s, p).content, v, s.now, setting))
              && s'.accepted == s.accepted + [RequestOf(s, p).content] && s'.tasks == s.tasks && s'.holder.None?
    ensures RequestOf(s, p).ConfirmClaimed? ==>
              var s' := Next(s, CreateTask(p), setting);
              && s.row.Some? && s'.row == Some(s.row.value.(status := Confirmed)) && s'.holder.None?
              && s'.accepted == s.accepted && |s'.tasks| == 1
    ensures RequestOf(s, p).Cancelling? && s.holder.None? && s.row.Some? ==>
              Next(s, CommitCancel(p), setting).row == Some(s.row.value.(status := Abandoned))
    ensures var s' := Next(s, Fail(p), setting); RequestOf(s', p).Idle? && s'.row == s.row && s'.tasks == s.tasks
  {
    hide RowOk, SnapshotOk, Resolved, Answered, Cap;
    RequestIsOk(s, p, Cap(setting));
  }

  /** The draft, and every confirm about to link it, names a task that was made from it. */
  predicate Linked(s: State) {
    && (s.row.Some? && s.row.value.taskId.Some? ==> s.row.value.taskId.value < |s.tasks|)
    && forall p :: p in s.requests && s.requests[p].ConfirmCreated? ==> s.requests[p].taskId < |s.tasks|
  }

  lemma LinkedStep(s: State, e: Event, setting: int)
    requires Inv(s, Cap(setting)) && Linked(s)
    ensures Linked(Next(s, e, setting))
  {
    hide RowOk, SnapshotOk, Resolved, Answered, AnswerContent, Cap;
    if e.CommitAnswer? && RequestOf(s, e.p).AnswerClaimed? {
      RequestIsOk(s, e.p, Cap(setting));
      var q := RequestOf(s, e.p);
      RoundIsCount(q.snapshot, s.accepted, Cap(setting));
      AnsweredOk(q.snapshot, q.content, e.verdict, s.now, setting, s.accepted);
    }
  }

  lemma {:induction false} LinkedRun(s: State, es: seq<Event>, setting: int)
    requires Inv(s, Cap(setting)) && Linked(s)
    ensures Linked(Run(s, es, setting))
  {
    hide Inv, Linked, Next, Cap;
    if es != [] {
      LinkedRun(s, es[..|es| - 1], setting);
      RunKeeps(s, es[..|es| - 1], setting);
      LinkedStep(Run(s, es[..|es| - 1], setting), es[|es| - 1], setting);
    }
  }

  /** In every interleaving, a task linked to the draft is the one task that was made from it. */
  lemma LinkIsItsTask(text: string, v: Verdict, now: int, es: seq<Event>, setting: int)
    ensures var s := Run(Initial(text, v, now), es, setting);
            s.row.Some? && s.row.value.taskId.Some? ==> |s.tasks| == 1 && s.row.value.taskId == Some(0)
  {
    hide Run, Inv, Cap, Started;
    assert Linked(Initial(text, v, now)) by { StartedOk(text, v, now, setting); }
    InitialOk(text, v, now, setting);
    LinkedRun(Initial(text, v, now), es, setting);
    AtMostOneTask(text, v, now, es, setting);
  }

  /**
   A loaded answer gets its round exactly if the draft is unfinished and no other answer was accepted
   since it was loaded; it is then applied to the very draft that is stored.
   */
  lemma ClaimSucceedsIff(s: State, p: nat, setting: int)
    requires Inv(s, Cap(setting)) && RequestOf(s, p).Answering? && s.holder.None?
    ensures RequestOf(Next(s, ClaimAnswer(p), setting), p).AnswerClaimed? <==>
              !Finished(s.row) && RequestOf(s, p).snapshot.round == |s.accepted|
    ensures RequestOf(Next(s, ClaimAnswer(p), setting), p).AnswerClaimed? ==> s.row == Some(RequestOf(s, p).snapshot)
    ensures !RequestOf(Next(s, ClaimAnswer(p), setting), p).AnswerClaimed? ==>
              Next(s, ClaimAnswer(p), setting) == Set(s, p, Idle)
  {
    hide Capped, UserContents, Alternates, Cap;
    RequestIsOk(s, p, Cap(setting));
  }

  // ---------- Which answers the task knows ----------

  lemma {:induction false} JoinGrows(sep: string, parts: seq<string>, n: nat)
    requires n <= |parts| && sep != [] && (n == 0 ==> |parts| != 1)
    ensures n < |parts| ==> |Join(sep, parts[..n])| < |Join(sep, parts)|
  {
    if n < |parts| && |parts| > 1 {
      var init := parts[..|parts| - 1];
      if n < |init| {
        assert init[..n] == parts[..n];
        if n == 0 && |init| == 1 {
          assert init[..0] == [];
        } else {
          JoinGrows(sep, init, n);
        }
      } else {
        assert parts[..n] == init;
      }
    }
  }

  /** A description composed of fewer answers is a different one. */
  lemma ComposedTells(input: string, answers: seq<string>, n: nat)
    requires n <= |answers|
    ensures Composed(input, answers[..n]) == Composed(input, answers) <==> n == |answers|
  {
    assert n == |answers| ==> answers[..n] == answers;
    if n < |answers| {
      if n == 0 {
        assert |Composed(input, answers)| > |input|;
      } else {
        JoinGrows("\n", answers, n);
      }
    }
  }

  predicate OccursAt(part: string, whole: string, i: nat) {
    i + |part| <= |whole| && whole[i..i + |part|] == part
  }

  ghost predicate Occurs(part: string, whole: string) {
    exists i: nat :: OccursAt(part, whole, i)
  }

  lemma OccursWithin(part: string, before: string, whole: string, after: string)
    requires Occurs(part, whole)
    ensures Occurs(part, before + whole + after)
  {
    var i: nat :| OccursAt(part, whole, i);
    var all, k := before + whole + after, |before| + i;
    assert all[|before|..|before| + |whole|] == whole;
    assert all[k..k + |part|] == whole[i..i + |part|];
    assert OccursAt(part, all, k);
  }

  lemma OccursInItself(s: string)
    ensures Occurs(s, s)
  {
    assert OccursAt(s, s, 0);
  }

  lemma {:induction false} PartsOccur(sep: string, parts: seq<string>, k: nat)
    requires k < |parts|
    ensures Occurs(parts[k], Join(sep, parts))
  {
    hide Occurs;
    var n := |parts| - 1;
    OccursInItself(parts[k]);
    if n > 0 {
      var init := Join(sep, parts[..n]);
      if k < n {
        PartsOccur(sep, parts[..n], k);
        OccursWithin(parts[k], "", init, sep + parts[n]);
        assert "" + init + (sep + parts[n]) == Join(sep, parts);
      } else {
        OccursWithin(parts[n], init + sep, parts[n], "");
        assert init + sep + parts[n] + "" == Join(sep, parts);
      }
    }
  }

  /** What runs is always runnable; where the classifier left no description it holds the input and every answer. */
  lemma AnswersAreFoldedIn(r: Row, accepted: seq<string>, k: nat)
    requires Faithful(r, accepted)
    ensures Resolved(r).category in ["immediate", "scheduled", "repeating"] && Resolved(r).title != ""
    ensures Or(r.spec.description, "") == "" ==> r.input <= Resolved(r).description
    ensures Or(r.spec.description, "") == "" && k < |accepted| ==> Occurs(accepted[k], Resolved(r).description)
  {
    hide Occurs, Words, Join, UserContents, Alternates;
    if k < |accepted| {
      PartsOccur("\n", accepted, k);
      OccursWithin(accepted[k], r.input + "\n\nClarifications:\n", Join("\n", accepted), "");
      assert r.input + "\n\nClarifications:\n" + Join("\n", accepted) + "" == Composed(r.input, accepted);
    }
  }

  /**
   The one task is built from the draft as the confirming request loaded it, so it knows the answers
   accepted by then: it is what the draft resolves to now if no answer was accepted since, and, where the
   classifier left no description on either side, only if.
   */
  lemma TaskIsCurrentIff(s: State, p: nat, setting: int)
    requires Inv(s, Cap(setting)) && RequestOf(s, p).ConfirmClaimed?
    ensures var snap := RequestOf(s, p).snapshot;
            && s.row.Some? && snap.round <= |s.accepted|
            && Next(s, CreateTask(p), setting).tasks == [Resolved(snap)]
            && AnsweredClarifications(snap) == s.accepted[..snap.round]
            && (snap.round == |s.accepted| ==> Resolved(snap) == Resolved(s.row.value))
            && (Or(snap.spec.description, "") == "" && Or(s.row.value.spec.description, "") == "" ==>
                  (Resolved(snap).description == Resolved(s.row.value).description <==> snap.round == |s.accepted|))
  {
    hide Capped, UserContents, Join, FallbackTitle, Alternates;
    RequestIsOk(s, p, Cap(setting));
    var snap := RequestOf(s, p).snapshot;
    assert s.accepted[..|s.accepted|] == s.accepted;
    ComposedTells(snap.input, s.accepted, snap.round);
  }

  lemma RunStep(s: State, es: seq<Event>, i: nat, setting: int)
    requires i < |es|
    ensures Run(s, es[..i + 1], setting) == Next(Run(s, es[..i], setting), es[i], setting)
  {
    hide Next;
    assert es[..i + 1][..i] == es[..i];
  }

  /** A cancel that was let in before a confirm committed overwrites `confirmed`; the task stays. */
  lemma LateCancelAbandonsConfirmed(text: string, v: Verdict, now: int, setting: int)
    ensures var s := Run(Initial(text, v, now),
                         [LoadCancel(1), LoadConfirm(2), ClaimConfirm(2), CreateTask(2), CommitCancel(1)], setting);
            s.row.Some? && s.row.value.status == Abandoned && |s.tasks| == 1
  {
    hide *;
    var es := [LoadCancel(1), LoadConfirm(2), ClaimConfirm(2), CreateTask(2), CommitCancel(1)];
    CancelWaits(text, v, now, es, setting);
    CancelLands(Run(Initial(text, v, now), es[..3], setting), setting);
    RunStep(Initial(text, v, now), es, 3, setting);
    RunStep(Initial(text, v, now), es, 4, setting);
    assert es[..5] == es;
  }

  lemma CancelWaits(text: string, v: Verdict, now: int, es: seq<Event>, setting: int)
    requires |es| >= 3 && es[0] == LoadCancel(1) && es[1] == LoadConfirm(2) && es[2] == ClaimConfirm(2)
    ensures var s := Run(Initial(text, v, now), es[..3], setting);
            s.row.Some? && RequestOf(s, 1) == Cancelling && RequestOf(s, 2).ConfirmClaimed? && s.tasks == []
            && s.holder == Some(2)
  {
    hide Run, Started, RowOk, NextAnswer, Swept, Cap, Resolved;
    StartedOk(text, v, now, setting);
    StartedExpiry(text, v, now);
    NoRun(Initial(text, v, now), es, setting);
    RunStep(Initial(text, v, now), es, 0, setting);
    RunStep(Initial(text, v, now), es, 1, setting);
    RunStep(Initial(text, v, now), es, 2, setting);
  }

  lemma CancelLands(s: State, setting: int)
    requires s.row.Some? && RequestOf(s, 1) == Cancelling && RequestOf(s, 2).ConfirmClaimed? && s.tasks == []
    requires s.holder == Some(2)
    ensures var s' := Next(Next(s, CreateTask(2), setting), CommitCancel(1), setting);
            s'.row.Some? && s'.row.value.status == Abandoned && |s'.tasks| == 1
  {
    hide Resolved, NextAnswer, Swept;
  }

  lemma NoRun(s: State, es: seq<Event>, setting: int)
    ensures Run(s, es[..0], setting) == s
  {
  }

  lemma StartedExpiry(text: string, v: Verdict, now: int)
    ensures Started(text, v, now).expiresAt > now
  {
    hide Strip, Resolved, Join;
  }

  predicate IsConfirmed(s: State) {
    s.row.Some? && s.row.value.status == Confirmed
  }

  predicate NoCancelPending(s: State) {
    forall p :: p in s.requests ==> !s.requests[p].Cancelling?
  }

  lemma ConfirmedStep(s: State, e: Event, setting: int)
    requires Inv(s, Cap(setting)) && IsConfirmed(s) && NoCancelPending(s)
    ensures IsConfirmed(Next(s, e, setting)) && NoCancelPending(Next(s, e, setting))
  {
    hide RowOk, SnapshotOk, Resolved, Answered, AnswerContent, Cap;
    if !e.Tick? && !e.Sweep? {
      RequestIsOk(s, e.p, Cap(setting));
    }
  }

  lemma {:induction false} ConfirmedRun(s: State, es: seq<Event>, setting: int)
    requires Inv(s, Cap(setting)) && IsConfirmed(s) && NoCancelPending(s)
    ensures IsConfirmed(Run(s, es, setting)) && NoCancelPending(Run(s, es, setting))
  {
    hide Inv, IsConfirmed, NoCancelPending, Next, Cap;
    if es != [] {
      ConfirmedRun(s, es[..|es| - 1], setting);
      RunKeeps(s, es[..|es| - 1], setting);
      ConfirmedStep(Run(s, es[..|es| - 1], setting), es[|es| - 1], setting);
    }
  }

  lemma PendingCancelWins(s: State, p: nat, setting: int)
    requires Inv(s, Cap(setting)) && IsConfirmed(s) && RequestOf(s, p).Cancelling?
    ensures !IsConfirmed(Run(s, [CommitCancel(p)], setting))
  {
    hide RowOk, SnapshotOk, Resolved, Answered, AnswerContent, Cap;
    if s.holder.Some? {
      RequestIsOk(s, s.holder.value, Cap(setting));
    }
    assert [CommitCancel(p)][..0] == [];
  }

  /** `confirmed` is final exactly if no cancel was let in before it was committed. */
  lemma ConfirmedIsFinalIff(s: State, setting: int)
    requires Inv(s, Cap(setting)) && IsConfirmed(s)
    ensures (forall es :: IsConfirmed(Run(s, es, setting))) <==> NoCancelPending(s)
  {
    hide Inv, IsConfirmed, Run, Cap;
    if NoCancelPending(s) {
      forall es ensures IsConfirmed(Run(s, es, setting)) {
        ConfirmedRun(s, es, setting);
      }
    } else {
      var p :| p in s.requests && s.requests[p].Cancelling?;
      PendingCancelWins(s, p, setting);
    }
  }

  /** A confirm that was loaded before an answer was accepted runs the task without that answer. */
  lemma LateConfirmMissesAnswer(text: string, q: Question, now: int, setting: int)
    ensures var v := Understood(NO_SPEC, [q]);
            var s := Run(Initial(text, v, now),
                         [LoadConfirm(1), LoadAnswer(2, map[]), ClaimAnswer(2), CommitAnswer(2, Unusable),
                          ClaimConfirm(1), CreateTask(1)], setting);
            && s.row.Some? && |s.tasks| == 1 && |s.accepted| == 1
            && s.tasks[0].description != Resolved(s.row.value).description
  {
    hide Run, Initial, Next, Started, Resolved, Answered, AnswerContent, RowOk, Cap;
    var v := Understood(NO_SPEC, [q]);
    var es := [LoadConfirm(1), LoadAnswer(2, map[]), ClaimAnswer(2), CommitAnswer(2, Unusable),
               ClaimConfirm(1), CreateTask(1)];
    var r0 := Started(text, v, now);
    var content := AnswerContent(r0.questions, map[]);
    var r1 := Answered(r0, content, Unusable, now, setting);
    AnswerOvertakes(text, q, now, es, setting);
    AnsweredFields(r0, content, now, setting);
    ConfirmFollows(Run(Initial(text, v, now), es[..4], setting), es, r0, r1, setting);
    RunStep(Initial(text, v, now), es, 4, setting);
    RunStep(Initial(text, v, now), es, 5, setting);
    assert es[..6] == es;
    StartedOk(text, v, now, setting);
    StartedAsks(text, q, now);
    AnsweredOk(r0, content, Unusable, now, setting, []);
    StillOk(r1, Confirmed, r1.taskId, [] + [content], Cap(setting));
    DescriptionsDiffer(r0, r1.(status := Confirmed), content, Cap(setting));
  }

  lemma AnswerOvertakes(text: string, q: Question, now: int, es: seq<Event>, setting: int)
    requires |es| >= 4 && es[0] == LoadConfirm(1) && es[1] == LoadAnswer(2, map[])
    requires es[2] == ClaimAnswer(2) && es[3] == CommitAnswer(2, Unusable)
    ensures var r0 := Started(text, Understood(NO_SPEC, [q]), now);
            var content := AnswerContent(r0.questions, map[]);
            var s := Run(Initial(text, Understood(NO_SPEC, [q]), now), es[..4], setting);
            && s.row == Some(Answered(r0, content, Unusable, now, setting)) && s.holder == None
            && RequestOf(s, 1) == Confirming(r0) && s.tasks == [] && s.accepted == [content]
  {
    hide Run, Started, Answered, AnswerContent, Swept, Cap;
    var s0 := Initial(text, Understood(NO_SPEC, [q]), now);
    StartedExpiry(text, Understood(NO_SPEC, [q]), now);
    StartedAsks(text, q, now);
    NoRun(s0, es, setting);
    RunStep(s0, es, 0, setting);
    RunStep(s0, es, 1, setting);
    RunStep(s0, es, 2, setting);
    RunStep(s0, es, 3, setting);
  }

  lemma ConfirmFollows(s: State, es: seq<Event>, r0: Row, r1: Row, setting: int)
    requires |es| >= 6 && es[4] == ClaimConfirm(1) && es[5] == CreateTask(1)
    requires s.row == Some(r1) && s.holder == None && RequestOf(s, 1) == Confirming(r0) && s.tasks == []
    requires r1.status == Ready
    ensures var s' := Next(Next(s, es[4], setting), es[5], setting);
            s'.row == Some(r1.(status := Confirmed)) && s'.tasks == [Resolved(r0)] && s'.accepted == s.accepted
  {
    hide Resolved;
  }

  lemma StartedAsks(text: string, q: Question, now: int)
    ensures var r := Started(text, Understood(NO_SPEC, [q]), now);
            r.status == Drafting && r.questions == [q] && r.spec.description.None?
  {
    hide Strip, Join, Resolved;
  }

  lemma AnsweredFields(r: Row, content: string, now: int, setting: int)
    ensures var r' := Answered(r, content, Unusable, now, setting);
            r'.status == Ready && r'.spec.description.None? && r'.input == r.input
  {
    hide Resolved;
  }

  lemma DescriptionsDiffer(r0: Row, r1: Row, answer: string, cap: nat)
    requires RowOk(r0, [], cap) && RowOk(r1, [] + [answer], cap)
    requires r0.spec.description.None? && r1.spec.description.None? && r0.input == r1.input
    ensures Resolved(r0).description != Resolved(r1).description
  {
    hide Capped, UserContents, Join, FallbackTitle, Alternates;
    assert [answer][..0] == [];
    ComposedTells(r0.input, [answer], 0);
  }
}
