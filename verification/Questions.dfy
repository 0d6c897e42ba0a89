/** Clarifying questions: cleaning up what the classifier asks, and matching answers to them by id. */
module Questions {
  import opened Text

  const MAX_CLARIFYING_QUESTIONS: nat := 3

  /** An entry of the model's list.  A field that is not of the expected type reads as `None`. */
  datatype RawEntry =
    | Bare(s: string)
    | Object(id: Option<string>, text: Option<string>, choiceKind: bool, choices: Option<seq<Option<string>>>)
    | Junk

  /** A well-formed entry; `id` is empty when none was given. */
  datatype Entry = Entry(id: string, text: string, choices: Option<seq<string>>)

  /** `choices` is present exactly for a question of kind "choice". */
  datatype Question = Question(id: string, text: string, choices: Option<seq<string>>)

  /** The non-blank strings of a list of choices, stripped. */
  function CleanChoices(raw: seq<Option<string>>): seq<string> {
    if raw == [] then []
    else if raw[0].Some? && Strip(raw[0].value) != [] then [Strip(raw[0].value)] + CleanChoices(raw[1..])
    else CleanChoices(raw[1..])
  }

  function ReadEntry(e: RawEntry): Option<Entry> {
    match e
    case Junk => None
    case Bare(s) => if Strip(s) == [] then None else Some(Entry("", Strip(s), None))
    case Object(id, text, choiceKind, raw) =>
      if text.None? || Strip(text.value) == [] then None
      else
        var choices := if raw.Some? then CleanChoices(raw.value) else [];
        Some(Entry(if id.Some? then Strip(id.value) else "", Strip(text.value),
                   if choiceKind && choices != [] then Some(choices) else None))
  }

  function WellFormed(raw: seq<RawEntry>): seq<Entry> {
    if raw == [] then []
    else
      var init, last := WellFormed(raw[..|raw| - 1]), ReadEntry(raw[|raw| - 1]);
      if last.Some? then init + [last.value] else init
  }

  lemma {:induction false} WellFormedPrefix(raw: seq<RawEntry>, i: nat)
    requires i <= |raw|
    ensures WellFormed(raw[..i]) <= WellFormed(raw)
  {
    if i < |raw| {
      assert raw[..|raw| - 1][..i] == raw[..i];
      WellFormedPrefix(raw[..|raw| - 1], i);
    } else {
      assert raw[..i] == raw;
    }
  }

  /** What becomes of an entry: junk and blank text are dropped, everything kept is stripped. */
  lemma ReadEntryIs(e: RawEntry)
    ensures e.Junk? ==> ReadEntry(e).None?
    ensures e.Bare? ==> ReadEntry(e) == if Strip(e.s) == "" then None else Some(Entry("", Strip(e.s), None))
    ensures e.Object? ==>
              && (ReadEntry(e).None? <==> e.text.None? || Strip(e.text.value) == "")
              && (ReadEntry(e).Some? ==>
                    && ReadEntry(e).value.text == Strip(e.text.value)
                    && ReadEntry(e).value.id == (if e.id.Some? then Strip(e.id.value) else "")
                    && (ReadEntry(e).value.choices.Some? <==>
                          e.choiceKind && e.choices.Some? && CleanChoices(e.choices.value) != [])
                    && (ReadEntry(e).value.choices.Some? ==>
                          ReadEntry(e).value.choices.value == CleanChoices(e.choices.value)))
  {
    hide Strip, CleanChoices;
  }

  /** Each choice is kept in its place if it is a text that is not blank. */
  lemma {:induction false} ChoicesAre(a: seq<Option<string>>, x: Option<string>, b: seq<Option<string>>)
    ensures CleanChoices([]) == []
    ensures CleanChoices(a + [x] + b) ==
            CleanChoices(a) + (if x.Some? && Strip(x.value) != "" then [Strip(x.value)] else []) + CleanChoices(b)
  {
    hide Strip;
    if a == [] {
      assert a + [x] + b == [x] + b && ([x] + b)[1..] == b;
    } else {
      assert (a + [x] + b)[1..] == a[1..] + [x] + b && (a + [x] + b)[0] == a[0];
      ChoicesAre(a[1..], x, b);
    }
  }

  // ---------- Fresh ids ----------

  function NumberedId(n: nat): string {
    "q" + NatText(n)
  }

  lemma NumberedIdInjective(m: nat, n: nat)
    requires NumberedId(m) == NumberedId(n)
    ensures m == n
  {
    assert NatText(m) == NumberedId(m)[1..] && NatText(n) == NumberedId(n)[1..];
    NatTextInjective(m, n);
  }

  /** The ids in use that are numbered `n` or higher: what a search from `n` can still run into. */
  ghost function InUseFrom(seen: set<string>, n: nat): set<string> {
    set s | s in seen && exists m :: m >= n && s == NumberedId(m)
  }

  lemma SearchShrinks(seen: set<string>, n: nat)
    requires NumberedId(n) in seen
    ensures |InUseFrom(seen, n + 1)| < |InUseFrom(seen, n)|
  {
    var a, b := InUseFrom(seen, n + 1), InUseFrom(seen, n);
    assert NumberedId(n) in b;
    if NumberedId(n) in a {
      var m :| m >= n + 1 && NumberedId(n) == NumberedId(m);
      NumberedIdInjective(n, m);
    }
    assert a <= b - {NumberedId(n)};
    SubsetSize(a, b - {NumberedId(n)});
  }

  lemma {:induction false} SubsetSize<T>(a: set<T>, b: set<T>)
    requires a <= b
    ensures |a| <= |b|
  {
    if a != {} {
      var x :| x in a;
      SubsetSize(a - {x}, b - {x});
    }
  }

  /** The first free numbered id from `n` on. */
  function FreshFrom(seen: set<string>, n: nat): (r: nat)
    ensures r >= n && NumberedId(r) !in seen
    ensures forall m :: n <= m < r ==> NumberedId(m) in seen
    decreases |InUseFrom(seen, n)|
  {
    if NumberedId(n) in seen then
      SearchShrinks(seen, n);
      FreshFrom(seen, n + 1)
    else n
  }

  function Ids(qs: seq<Question>): (ids: set<string>)
    ensures forall i :: 0 <= i < |qs| ==> qs[i].id in ids
  {
    set i | 0 <= i < |qs| :: qs[i].id
  }

  /** A given id is kept if it is not taken; otherwise the question gets the first free number from its own place on. */
  ghost predicate QuestionFits(qs: seq<Question>, es: seq<Entry>, i: nat)
    requires i < |qs| <= |es|
  {
    && qs[i].text == es[i].text && qs[i].choices == es[i].choices
    && qs[i].id == PlacedId(qs[..i], es[i].id)
  }

  ghost predicate QuestionsFit(qs: seq<Question>, es: seq<Entry>) {
    |qs| <= |es| && forall i: nat :: i < |qs| ==> QuestionFits(qs, es, i)
  }

  ghost predicate DistinctIds(qs: seq<Question>) {
    forall i, j :: 0 <= i < j < |qs| ==> qs[i].id != qs[j].id
  }

  lemma FittingIdsAreDistinct(qs: seq<Question>, es: seq<Entry>)
    requires QuestionsFit(qs, es)
    ensures DistinctIds(qs)
  {
    forall i, j | 0 <= i < j < |qs| ensures qs[i].id != qs[j].id {
      assert QuestionFits(qs, es, j) && qs[..j][i] == qs[i];
      assert qs[i].id in Ids(qs[..j]);
    }
  }

  /** The id a further question with given id `given` receives. */
  function PlacedId(qs: seq<Question>, given: string): string {
    if given != "" && given !in Ids(qs) then given else NumberedId(FreshFrom(Ids(qs), |qs| + 1))
  }

  /** An id no question has, numbered from `from` on, with every lower number from there taken. */
  ghost predicate FirstFreeNumber(qs: seq<Question>, from: nat, n: nat) {
    && from <= n
    && (forall i :: 0 <= i < |qs| ==> qs[i].id != "q" + NatText(n))
    && (forall m: nat :: from <= m < n ==> exists i :: 0 <= i < |qs| && qs[i].id == NumberedId(m))
  }

  /** A given id is kept if no earlier question has it; otherwise the first free number from the question's place on. */
  lemma PlacedIdIs(qs: seq<Question>, given: string)
    ensures given != "" && (forall i :: 0 <= i < |qs| ==> qs[i].id != given) ==> PlacedId(qs, given) == given
    ensures given == "" || (exists i :: 0 <= i < |qs| && qs[i].id == given) ==>
              exists n: nat :: FirstFreeNumber(qs, |qs| + 1, n) && PlacedId(qs, given) == "q" + NatText(n)
  {
    hide FreshFrom, NatText;
    var n := FreshFrom(Ids(qs), |qs| + 1);
    forall m: nat | |qs| + 1 <= m < n ensures exists i :: 0 <= i < |qs| && qs[i].id == NumberedId(m) {
      assert NumberedId(m) in Ids(qs);
    }
    assert forall i :: 0 <= i < |qs| ==> qs[i].id in Ids(qs);
    assert NumberedId(n) == "q" + NatText(n);
    assert FirstFreeNumber(qs, |qs| + 1, n);
  }

  /** Questions that fit their entries, one by one. */
  lemma QuestionsAre(qs: seq<Question>, es: seq<Entry>, i: nat)
    requires QuestionsFit(qs, es) && i < |qs|
    ensures qs[i].text == es[i].text && qs[i].choices == es[i].choices && qs[i].id == PlacedId(qs[..i], es[i].id)
  {
    assert QuestionFits(qs, es, i);
  }

  lemma FitOneMore(qs: seq<Question>, es: seq<Entry>, e: Entry)
    requires QuestionsFit(qs, es) && |qs| == |es|
    ensures QuestionsFit(qs + [Question(PlacedId(qs, e.id), e.text, e.choices)], es + [e])
  {
    hide PlacedId;
    var more, longer := qs + [Question(PlacedId(qs, e.id), e.text, e.choices)], es + [e];
    forall i: nat | i < |qs| + 1 ensures QuestionFits(more, longer, i) {
      if i < |qs| {
        assert more[..i] == qs[..i] && more[i] == qs[i] && longer[i] == es[i];
        assert QuestionFits(qs, es, i);
      } else {
        assert more[..i] == qs;
      }
    }
  }

  lemma FitLonger(qs: seq<Question>, es: seq<Entry>, longer: seq<Entry>)
    requires QuestionsFit(qs, es) && es <= longer
    ensures QuestionsFit(qs, longer)
  {
    hide PlacedId;
    forall i: nat | i < |qs| ensures QuestionFits(qs, longer, i) {
      assert QuestionFits(qs, es, i);
    }
  }

  lemma WellFormedStep(raw: seq<RawEntry>, i: nat)
    requires i < |raw|
    ensures WellFormed(raw[..i + 1]) ==
            if ReadEntry(raw[i]).Some? then WellFormed(raw[..i]) + [ReadEntry(raw[i]).value] else WellFormed(raw[..i])
  {
    hide ReadEntry;
    assert raw[..i + 1][..i] == raw[..i];
  }

  method FirstFree(seen: set<string>, from: nat) returns (n: nat)
    ensures n == FreshFrom(seen, from)
  {
    n := from;
    while NumberedId(n) in seen
      invariant FreshFrom(seen, n) == FreshFrom(seen, from)
      decreases |InUseFrom(seen, n)|
    {
      SearchShrinks(seen, n);
      n := n + 1;
    }
  }

  /** `_normalise_questions`: at most the first three well-formed entries, in order, with distinct ids. */
  method NormaliseQuestions(raw: Option<seq<RawEntry>>) returns (result: Option<seq<Question>>)
    ensures result.None? <==> raw.None? || WellFormed(raw.value) == []
    ensures result.Some? ==>
              && QuestionsFit(result.value, WellFormed(raw.value)) && DistinctIds(result.value)
              && |result.value| == if |WellFormed(raw.value)| <= 3 then |WellFormed(raw.value)| else 3
  {
    hide QuestionsFit, DistinctIds, WellFormed, ReadEntry, FreshFrom, NumberedId, Ids;
    if raw.None? {
      return None;
    }
    var entries := raw.value;
    var questions: seq<Question> := [];
    var seen: set<string> := {};
    ghost var taken: seq<Entry> := [];
    var i := 0;
    NothingTaken(entries);
    while i < |entries| && |questions| < MAX_CLARIFYING_QUESTIONS
      invariant i <= |entries|
      invariant seen == Ids(questions)
      invariant taken == WellFormed(entries[..i])
      invariant |questions| == |taken| <= MAX_CLARIFYING_QUESTIONS
      invariant QuestionsFit(questions, taken)
    {
      var entry := ReadEntry(entries[i]);
      WellFormedStep(entries, i);
      if entry.Some? {
        var id := entry.value.id;
        if id == "" || id in seen {
          var n := FirstFree(seen, |questions| + 1);
          id := NumberedId(n);
        }
        var q := Question(id, entry.value.text, entry.value.choices);
        FitOneMore(questions, taken, entry.value);
        IdsOneMore(questions, q);
        taken := taken + [entry.value];
        seen := seen + {id};
        questions := questions + [q];
      }
      i := i + 1;
    }
    WellFormedPrefix(entries, i);
    assert i == |entries| ==> entries[..i] == entries;
    FitLonger(questions, taken, WellFormed(entries));
    FittingIdsAreDistinct(questions, WellFormed(entries));
    return if questions == [] then None else Some(questions);
  }

  lemma NothingTaken(raw: seq<RawEntry>)
    ensures WellFormed(raw[..0]) == [] && Ids([]) == {} && QuestionsFit([], [])
  {
  }

  lemma IdsOneMore(qs: seq<Question>, q: Question)
    ensures Ids(qs + [q]) == Ids(qs) + {q.id}
  {
    var more := qs + [q];
    assert forall i :: 0 <= i < |qs| ==> more[i] == qs[i];
    assert more[|qs|] == q;
    forall x | x in Ids(qs) + {q.id} ensures x in Ids(more) {
      if x in Ids(qs) {
        var i :| 0 <= i < |qs| && qs[i].id == x;
        assert more[i].id == x;
      }
    }
  }

  // ---------- Answers ----------

  /** The non-blank answer given to a question; `None` stands for a value that is not a string. */
  function AnswerTo(q: Question, responses: map<string, Option<string>>): Option<string> {
    if q.id in responses && responses[q.id].Some? && Strip(responses[q.id].value) != []
    then Some(Strip(responses[q.id].value)) else None
  }

  /** One line per answered question, in the order of the questions. */
  function AnswerLines(qs: seq<Question>, responses: map<string, Option<string>>): seq<string> {
    if qs == [] then []
    else AnswerLines(qs[..|qs| - 1], responses) + AnswerLine(qs[|qs| - 1], responses)
  }

  function AnswerLine(q: Question, responses: map<string, Option<string>>): seq<string> {
    var a := AnswerTo(q, responses);
    if a.Some? then [q.text + " -> " + a.value] else []
  }

  /** A question's line exists exactly if its response is a text that is not blank, and holds question and answer. */
  lemma AnswerLineIs(q: Question, responses: map<string, Option<string>>)
    ensures AnswerLine(q, responses) ==
            if q.id in responses && responses[q.id].Some? && Strip(responses[q.id].value) != ""
            then [q.text + " -> " + Strip(responses[q.id].value)] else []
  {
    hide Strip;
  }

  /**
   A non-blank response keyed by the id of a question is that question's line and no other's: taking
   the response away takes away exactly that line.
   */
  lemma ResponseLandsOnce(qs: seq<Question>, responses: map<string, Option<string>>, k: nat)
    requires DistinctIds(qs) && k < |qs|
    ensures AnswerLines(qs, responses) ==
            AnswerLines(qs[..k], responses) + AnswerLine(qs[k], responses) + AnswerLines(qs[k + 1..], responses)
    ensures AnswerLines(qs, responses - {qs[k].id}) ==
            AnswerLines(qs[..k], responses) + AnswerLines(qs[k + 1..], responses)
  {
    hide AnswerLines, AnswerLine;
    assert qs[0..k] == qs[..k] && qs[0..|qs|] == qs && qs[k + 1..|qs|] == qs[k + 1..];
    WithOne(qs, responses, k, |qs|);
    WithoutOne(qs, responses, k, |qs|);
  }

  lemma AnswerLinesStep(qs: seq<Question>, responses: map<string, Option<string>>, from: nat, n: nat)
    requires from < n <= |qs|
    ensures AnswerLines(qs[from..n], responses) ==
            AnswerLines(qs[from..n - 1], responses) + AnswerLine(qs[n - 1], responses)
  {
    hide AnswerLine;
    assert qs[from..n][..n - from - 1] == qs[from..n - 1] && qs[from..n][n - from - 1] == qs[n - 1];
  }

  lemma {:induction false} WithOne(qs: seq<Question>, responses: map<string, Option<string>>, k: nat, n: nat)
    requires k < n <= |qs|
    ensures AnswerLines(qs[0..n], responses) ==
            AnswerLines(qs[0..k], responses) + AnswerLine(qs[k], responses) + AnswerLines(qs[k + 1..n], responses)
  {
    hide AnswerLines, AnswerLine;
    AnswerLinesStep(qs, responses, 0, n);
    if n == k + 1 {
      NoQuestionsNoLines(qs[k + 1..n], responses);
    } else {
      WithOne(qs, responses, k, n - 1);
      AnswerLinesStep(qs, responses, k + 1, n);
    }
  }

  lemma {:induction false} WithoutOne(qs: seq<Question>, responses: map<string, Option<string>>, k: nat, n: nat)
    requires DistinctIds(qs) && k < |qs| && n <= |qs|
    ensures AnswerLines(qs[0..n], responses - {qs[k].id}) ==
            if n <= k then AnswerLines(qs[0..n], responses)
            else AnswerLines(qs[0..k], responses) + AnswerLines(qs[k + 1..n], responses)
  {
    hide AnswerLines, AnswerLine;
    if n > 0 {
      WithoutOne(qs, responses, k, n - 1);
      AnswerLinesStep(qs, responses - {qs[k].id}, 0, n);
      DroppedLine(qs, responses, k, n - 1);
      if n <= k {
        AnswerLinesStep(qs, responses, 0, n);
      } else if n == k + 1 {
        NoQuestionsNoLines(qs[k + 1..n], responses);
      } else {
        AnswerLinesStep(qs, responses, k + 1, n);
      }
    } else {
      NoQuestionsNoLines(qs[0..n], responses);
      NoQuestionsNoLines(qs[0..n], responses - {qs[k].id});
    }
  }

  lemma NoQuestionsNoLines(qs: seq<Question>, responses: map<string, Option<string>>)
    requires qs == []
    ensures AnswerLines(qs, responses) == []
  {
  }

  lemma DroppedLine(qs: seq<Question>, responses: map<string, Option<string>>, k: nat, j: nat)
    requires DistinctIds(qs) && k < |qs| && j < |qs|
    ensures AnswerLine(qs[j], responses - {qs[k].id}) == if j == k then [] else AnswerLine(qs[j], responses)
  {
    hide Strip;
    if j < k {
      assert qs[j].id != qs[k].id;
    } else if k < j {
      assert qs[k].id != qs[j].id;
    }
  }
}
