/**
 Following a pod's log over a stream that may break at any byte and be reopened.

 The cluster is an oracle (`Cluster`): the client's clock when a stream is opened, the chunks
 each stream delivers for the window it was asked for, and whether the pod has terminated when
 the stream ends.
 */
module PodLog {
  import opened Text
  import opened LogLines
  import opened LogTimestamp

  const MAX_RESUMES: nat := 100
  const RESUME_DELAY: nat := 1
  const MAX_RESUME_DELAY: nat := 30
  const MAX_BARREN_RESUMES: nat := 10
  const RESUME_PAD_SECONDS: nat := 2
  const MARKER: string := "failed to create fsnotify watcher"

  datatype Outcome = PodTerminated | StreamNotFollowing | ResumeLimitReached

  /** `now` is in microseconds; `chunks(i, since)` is what the i-th stream delivers for `since_seconds`. */
  datatype Cluster = Cluster(now: nat -> int, chunks: (nat, Option<nat>) -> seq<string>, terminated: nat -> bool)

  /** `sub in s` */
  predicate Contains(s: string, sub: string) {
    exists i :: 0 <= i <= |s| && sub <= s[i..]
  }

  // ---------- One stream ----------

  /** What has been handed on, and the stamp of the last line seen. */
  datatype Reader = Reader(lastTs: Option<int>, lines: seq<string>)

  /** The body of the inner loop for one complete line. */
  function Consume(r: Reader, line: string): Reader {
    var l := Split(line);
    if l.ts.None? && Contains(l.text, MARKER) then r
    else if l.ts.Some? && r.lastTs.Some? && l.ts.value <= r.lastTs.value then r
    else Reader(if l.ts.Some? then l.ts else r.lastTs, if l.text == [] then r.lines else r.lines + [l.text])
  }

  function ConsumeAll(r: Reader, ls: seq<string>): Reader {
    if ls == [] then r else Consume(ConsumeAll(r, ls[..|ls| - 1]), ls[|ls| - 1])
  }

  /** The partial line a stream ended in, unless it is the follow failure. */
  function Leftover(buf: string): string {
    if Contains(buf, MARKER) then [] else buf
  }

  /** What a terminated pod's leftover is handed on as. */
  function FinalYield(r: Reader, buf: string): seq<string> {
    var b := Strip(buf);
    if b == [] then []
    else
      var l := Split(b);
      if l.text == [] || (l.ts.Some? && r.lastTs.Some? && l.ts.value <= r.lastTs.value) then [] else [l.text]
  }

  // ---------- The whole run ----------

  /** `since_seconds` for the next stream; no window when nothing was read yet or the clock is behind the log. */
  function Window(lastTs: Option<int>, now: int): Option<nat> {
    if lastTs.None? || now < lastTs.value then None
    else Some((now - lastTs.value) / MICROS + RESUME_PAD_SECONDS)
  }

  /** `2 ** n` */
  function Pow2(n: nat): (p: nat)
    ensures p >= 1
  {
    if n == 0 then 1 else 2 * Pow2(n - 1)
  }

  function Pause(barren: nat): nat {
    var d := RESUME_DELAY * Pow2(barren);
    if d < MAX_RESUME_DELAY then d else MAX_RESUME_DELAY
  }

  /** Between two streams: the reader, the requests made, the lines each stream gave, the pauses slept. */
  datatype State = State(reader: Reader, requests: seq<Option<nat>>, counts: seq<nat>, pauses: seq<nat>, barren: nat)

  const START := State(Reader(None, []), [], [], [], 0)

  /** The text of the next stream. */
  function StreamText(c: Cluster, s: State): string {
    Concat(c.chunks(|s.requests|, Window(s.reader.lastTs, c.now(|s.requests|))))
  }

  /** Everything up to the end of the next stream, before asking the pod. */
  function AfterStream(c: Cluster, s: State): State {
    var r := ConsumeAll(s.reader, CompleteLines(StreamText(c, s)));
    var n := if |r.lines| >= |s.reader.lines| then |r.lines| - |s.reader.lines| else 0;
    State(r, s.requests + [Window(s.reader.lastTs, c.now(|s.requests|))], s.counts + [n], s.pauses,
          if n > 0 then 0 else s.barren + 1)
  }

  /** The run from `s` on: the final state, why it stopped, and the lines handed on in the end. */
  function Follow(c: Cluster, s: State): (State, Outcome, seq<string>)
    decreases MAX_RESUMES + 1 - |s.pauses|
  {
    var t := AfterStream(c, s);
    if c.terminated(|s.requests|) then
      (t, PodTerminated, t.reader.lines + FinalYield(t.reader, Leftover(Remainder(StreamText(c, s)))))
    else if t.barren > MAX_BARREN_RESUMES then (t, StreamNotFollowing, t.reader.lines)
    else if |t.pauses| + 1 > MAX_RESUMES then (t, ResumeLimitReached, t.reader.lines)
    else Follow(c, t.(pauses := t.pauses + [Pause(t.barren)]))
  }

  lemma {:induction false} ConsumeAllAppend(r: Reader, a: seq<string>, b: seq<string>)
    ensures ConsumeAll(r, a + b) == ConsumeAll(ConsumeAll(r, a), b)
  {
    if b == [] {
      assert a + b == a;
    } else {
      assert (a + b)[..|a + b| - 1] == a + b[..|b| - 1];
      ConsumeAllAppend(r, a, b[..|b| - 1]);
    }
  }

  lemma ConsumeOneMore(r: Reader, done: seq<string>, line: string)
    ensures ConsumeAll(r, done + [line]) == Consume(ConsumeAll(r, done), line)
  {
    assert (done + [line])[..|done|] == done;
  }

  /** The chunk loop of one stream: hands on lines as they close and keeps the rest in `buf`. */
  method ReadStream(chunks: seq<string>, r0: Reader) returns (r: Reader, buf: string, yielded: nat)
    ensures r == ConsumeAll(r0, CompleteLines(Concat(chunks)))
    ensures buf == Remainder(Concat(chunks))
    ensures yielded == |r.lines| - |r0.lines|
  {
    r, buf, yielded := r0, "", 0;
    ghost var done: seq<string> := [];
    assert CompleteLines(Concat(chunks[..0])) == [] && Remainder(Concat(chunks[..0])) == "";
    for i := 0 to |chunks|
      invariant done == CompleteLines(Concat(chunks[..i]))
      invariant r == ConsumeAll(r0, done)
      invariant buf == Remainder(Concat(chunks[..i]))
      invariant yielded == |r.lines| - |r0.lines|
    {
      ghost var before := Concat(chunks[..i]);
      hide *;
      ConcatAppend(chunks, i);
      CutInTwo(before, chunks[i]);
      buf := buf + chunks[i];
      ghost var target := done + CompleteLines(buf);
      while '\n' in buf
        invariant target == done + CompleteLines(buf)
        invariant Remainder(buf) == Remainder(before + chunks[i])
        invariant r == ConsumeAll(r0, done)
        invariant yielded == |r.lines| - |r0.lines|
        decreases |buf|
      {
        var line := FirstLine(buf);
        CutOne(buf);
        RegroupLines(done, line, CompleteLines(buf[|line| + 1..]));
        ConsumeOneMore(r0, done, line);
        buf := buf[|line| + 1..];
        done := done + [line];
        var l := Split(line);
        ConsumeCases(r, line);
        if l.ts.None? && Contains(l.text, MARKER) {
          continue;
        }
        if l.ts.Some? {
          if r.lastTs.Some? && l.ts.value <= r.lastTs.value {
            continue;
          }
          r := r.(lastTs := l.ts);
        }
        if l.text != [] {
          yielded := yielded + 1;
          r := r.(lines := r.lines + [l.text]);
        }
      }
      NoMoreLines(buf);
      assert done + [] == done;
    }
    assert chunks[..|chunks|] == chunks;
  }

  lemma NoMoreLines(buf: string)
    requires '\n' !in buf
    ensures CompleteLines(buf) == [] && Remainder(buf) == buf
  {
  }

  /** `Consume`, spelled out for callers that do not look inside it. */
  lemma ConsumeCases(r: Reader, line: string)
    ensures var l := Split(line);
            Consume(r, line) ==
            if l.ts.None? && Contains(l.text, MARKER) then r
            else if l.ts.Some? && r.lastTs.Some? && l.ts.value <= r.lastTs.value then r
            else Reader(if l.ts.Some? then l.ts else r.lastTs, if l.text == [] then r.lines else r.lines + [l.text])
  {
  }

  /** `_iter_pod_log_lines` is the run from the start. */
  method IterPodLogLines(c: Cluster) returns (final: State, outcome: Outcome, lines: seq<string>)
    ensures (final, outcome, lines) == Follow(c, START)
  {
    hide CompleteLines, Remainder, Concat, ConsumeAll, Split, Strip, Contains;
    var s := START;
    while true
      invariant Follow(c, s) == Follow(c, START)
      decreases MAX_RESUMES + 1 - |s.pauses|
    {
      var window := Window(s.reader.lastTs, c.now(|s.requests|));
      var r, buf, yielded := ReadStream(c.chunks(|s.requests|, window), s.reader);
      ghost var text := StreamText(c, s);
      if Contains(buf, MARKER) {
        buf := "";
      }
      var over := c.terminated(|s.requests|);
      ghost var t := AfterStream(c, s);
      var barren := if yielded > 0 then 0 else s.barren + 1;
      var next := State(r, s.requests + [window], s.counts + [yielded], s.pauses, barren);
      assert next == t && buf == Leftover(Remainder(text));
      hide AfterStream, StreamText, Window, FinalYield;
      if over {
        return next, PodTerminated, r.lines + FinalYield(r, buf);
      }
      if barren > MAX_BARREN_RESUMES {
        return next, StreamNotFollowing, r.lines;
      }
      if |s.pauses| + 1 > MAX_RESUMES {
        return next, ResumeLimitReached, r.lines;
      }
      s := next.(pauses := next.pauses + [Pause(barren)]);
    }
  }

  // ---------- What one line and one pause are ----------

  lemma ContainsIff(s: string, sub: string)
    ensures Contains(s, sub) <==> exists a, b :: s == a + sub + b
  {
    if Contains(s, sub) {
      var i :| 0 <= i <= |s| && sub <= s[i..];
      assert s == s[..i] + sub + s[i + |sub|..];
    }
    if exists a, b :: s == a + sub + b {
      var a, b :| s == a + sub + b;
      assert s[|a|..] == sub + b;
    }
  }

  /** A line without a stamp is handed on whole, unless it says that the log cannot be followed. */
  lemma UnstampedLine(r: Reader, line: string)
    requires Split(line).ts.None?
    ensures Marked(line) ==> Consume(r, line) == r
    ensures !Marked(line) && line != [] ==> Consume(r, line) == r.(lines := r.lines + [line])
  {
    hide Split;
    assert Split(line).text == line by { UnsplitText(line); }
    ContainsIff(line, MARKER);
  }

  lemma UnsplitText(line: string)
    requires Split(line).ts.None?
    ensures Split(line).text == line
  {
  }

  /** A stamped line is handed on if its stamp is later than the last one seen and it has any text. */
  lemma StampedLine(r: Reader, line: string)
    requires Split(line).ts.Some?
    ensures var l := Split(line);
            if r.lastTs.None? || r.lastTs.value < l.ts.value
            then Consume(r, line) == Reader(l.ts, if l.text == [] then r.lines else r.lines + [l.text])
            else Consume(r, line) == r
  {
    hide Split;
  }

  /** A pause is one second, doubled for each barren stream in a row, and stops growing at 30. */
  lemma PausesAre(barren: nat)
    ensures Pause(0) == 1 && Pause(1) == 2
    ensures Pause(barren + 1) == if 2 * Pause(barren) < 30 then 2 * Pause(barren) else 30
  {
  }

  // ---------- It always ends, within bounds ----------

  /** How many streams in a row, up to the last one, handed on nothing. */
  function Barren(counts: seq<nat>): nat {
    if counts == [] || counts[|counts| - 1] > 0 then 0 else Barren(counts[..|counts| - 1]) + 1
  }

  ghost predicate PauseFits(counts: seq<nat>, pauses: seq<nat>, k: nat)
    requires k < |pauses| <= |counts|
  {
    Barren(counts[..k + 1]) <= MAX_BARREN_RESUMES && pauses[k] == Pause(Barren(counts[..k + 1]))
  }

  /** Every pause follows its stream and grows with the barren streak, which never passes the cap. */
  ghost predicate PausesFit(counts: seq<nat>, pauses: seq<nat>) {
    |pauses| <= |counts| && forall k: nat :: k < |pauses| ==> PauseFits(counts, pauses, k)
  }

  lemma PausesFitAppend(counts: seq<nat>, pauses: seq<nat>, n: nat)
    requires PausesFit(counts, pauses) && |counts| == |pauses|
    ensures PausesFit(counts + [n], pauses)
    ensures Barren(counts + [n]) <= MAX_BARREN_RESUMES ==> PausesFit(counts + [n], pauses + [Pause(Barren(counts + [n]))])
    ensures Barren(counts + [n]) == if n > 0 then 0 else Barren(counts) + 1
  {
    var after := counts + [n];
    var longer := pauses + [Pause(Barren(after))];
    assert after[..|counts|] == counts && after[..|after|] == after;
    forall k: nat | k < |pauses| ensures PauseFits(after, pauses, k) && PauseFits(after, longer, k) {
      assert PauseFits(counts, pauses, k);
      assert after[..k + 1] == counts[..k + 1];
    }
  }

  lemma AfterStreamCounts(c: Cluster, s: State) returns (n: nat)
    ensures var t := AfterStream(c, s);
            && t.counts == s.counts + [n] && |t.requests| == |s.requests| + 1
            && t.pauses == s.pauses && t.barren == (if n > 0 then 0 else s.barren + 1)
            && |t.reader.lines| == |s.reader.lines| + n
  {
    hide StreamText, ConsumeAll, CompleteLines, Window;
    ConsumingAdds(s.reader, CompleteLines(StreamText(c, s)));
    n := AfterStream(c, s).counts[|s.counts|];
  }

  lemma {:induction false} ConsumingAdds(r: Reader, ls: seq<string>)
    ensures r.lines <= ConsumeAll(r, ls).lines
  {
    hide Split, Contains;
    if ls != [] {
      ConsumingAdds(r, ls[..|ls| - 1]);
    }
  }

  function Total(counts: seq<nat>): nat {
    if counts == [] then 0 else Total(counts[..|counts| - 1]) + counts[|counts| - 1]
  }

  lemma TotalAppend(counts: seq<nat>, n: nat)
    ensures Total(counts + [n]) == Total(counts) + n
  {
    assert (counts + [n])[..|counts|] == counts;
  }

  /**
   At most 101 streams; the run stops at the first after which the pod has ended, else at the 11th barren one in a
   row, else at the 101st, and for no other reason.  The counts are of the lines handed on.
   */
  lemma {:induction false} FollowIsBounded(c: Cluster, s: State)
    requires |s.requests| == |s.counts| == |s.pauses| <= 100 && PausesFit(s.counts, s.pauses)
    requires s.barren == Barren(s.counts) <= 10 && Total(s.counts) == |s.reader.lines|
    ensures var (t, o, _) := Follow(c, s);
            && |s.requests| < |t.requests| == |t.counts| == |t.pauses| + 1 <= 101
            && PausesFit(t.counts, t.pauses)
            && Total(t.counts) == |t.reader.lines|
            && Barren(t.counts) <= 11
            && (forall i :: |s.requests| <= i < |t.requests| - 1 ==> !c.terminated(i))
            && (o.PodTerminated? <==> c.terminated(|t.requests| - 1))
            && (o.StreamNotFollowing? <==>
                  !c.terminated(|t.requests| - 1) && Barren(t.counts) == 11)
            && (o.ResumeLimitReached? ==> |t.requests| == 101)
    decreases MAX_RESUMES + 1 - |s.pauses|
  {
    hide AfterStream, StreamText, FinalYield, Leftover, Remainder, Pause, Barren, PausesFit, Total;
    var t := AfterStream(c, s);
    var n := AfterStreamCounts(c, s);
    PausesFitAppend(s.counts, s.pauses, n);
    TotalAppend(s.counts, n);
    if !c.terminated(|s.requests|) && t.barren <= MAX_BARREN_RESUMES && |t.pauses| + 1 <= MAX_RESUMES {
      FollowIsBounded(c, t.(pauses := t.pauses + [Pause(t.barren)]));
    }
  }

  function Slept(pauses: seq<nat>, from: nat, to: nat): nat
    requires from <= to <= |pauses|
  {
    if from == to then 0 else Slept(pauses, from, to - 1) + pauses[to - 1]
  }

  /** Time slept counts every pause once. */
  lemma {:induction false} SleptCounts(pauses: seq<nat>, from: nat, to: nat)
    requires from < to <= |pauses|
    ensures Slept(pauses, from, to) == pauses[from] + Slept(pauses, from + 1, to)
  {
    if from + 1 < to {
      SleptCounts(pauses, from, to - 1);
    }
  }

  /** The pauses after the first to the `n`th stream of a barren streak. */
  function StreakPauses(n: nat): nat {
    if n == 0 then 0 else StreakPauses(n - 1) + Pause(n)
  }

  lemma StreakPausesAtCap()
    ensures StreakPauses(10) == 210
  {
    assert Pow2(1) == 2 && Pow2(2) == 4 && Pow2(3) == 8 && Pow2(4) == 16 && Pow2(5) == 32;
    assert Pow2(6) == 64 && Pow2(7) == 128 && Pow2(8) == 256 && Pow2(9) == 512 && Pow2(10) == 1024;
    assert StreakPauses(4) == 30;
    assert StreakPauses(7) == 120;
  }

  lemma {:induction false} StreakPausesMonotone(m: nat, n: nat)
    requires m <= n
    ensures StreakPauses(m) <= StreakPauses(n)
  {
    if m < n {
      StreakPausesMonotone(m, n - 1);
    }
  }

  lemma {:induction false} StreakSleep(counts: seq<nat>, pauses: seq<nat>, from: nat, to: nat)
    requires PausesFit(counts, pauses) && from < to <= |pauses|
    requires forall k :: from <= k < to ==> counts[k] == 0
    ensures Slept(pauses, from, to) <= StreakPauses(Barren(counts[..to]))
    ensures to - from <= Barren(counts[..to]) <= MAX_BARREN_RESUMES
  {
    assert counts[..to][..to - 1] == counts[..to - 1];
    assert PauseFits(counts, pauses, to - 1);
    if from < to - 1 {
      StreakSleep(counts, pauses, from, to - 1);
    }
  }

  /** Every pause is between 1 and 30 seconds, and a barren streak is at most 10 streams and 210 seconds of sleep. */
  lemma SleepIsBounded(counts: seq<nat>, pauses: seq<nat>, from: nat, to: nat)
    requires PausesFit(counts, pauses) && from <= to <= |pauses|
    requires forall k :: from <= k < to ==> counts[k] == 0
    ensures forall k :: 0 <= k < |pauses| ==> 1 <= pauses[k] <= 30
    ensures to - from <= 10 && Slept(pauses, from, to) <= 210
  {
    forall k: nat | k < |pauses| ensures 1 <= pauses[k] <= 30 {
      assert PauseFits(counts, pauses, k);
    }
    if from < to {
      StreakSleep(counts, pauses, from, to);
      StreakPausesMonotone(Barren(counts[..to]), 10);
      StreakPausesAtCap();
    }
  }

  // ---------- Nothing missing, repeated or reordered ----------

  function Stamp(line: string): int
    requires Split(line).ts.Some?
  {
    Split(line).ts.value
  }

  predicate AllOneLine(ls: seq<string>) {
    forall j :: 0 <= j < |ls| ==> OneLine(ls[j])
  }

  /** Lines as the pod writes them: stamped, without newlines, with stamps that grow by at least a microsecond. */
  ghost predicate WellStamped(log: seq<string>) {
    && (forall j :: 0 <= j < |log| ==> OneLine(log[j]) && Split(log[j]).ts.Some?)
    && (forall i, j :: 0 <= i < j < |log| ==> Stamp(log[i]) < Stamp(log[j]))
  }

  function Texts(ls: seq<string>): seq<string> {
    if ls == [] then [] else Texts(ls[..|ls| - 1]) + [Split(ls[|ls| - 1]).text]
  }

  /** The reader has handed on exactly the non-empty texts of the first `m` lines. */
  ghost predicate HasRead(log: seq<string>, r: Reader, m: nat)
    requires WellStamped(log)
  {
    && m <= |log|
    && r.lines == NonEmpty(Texts(log[..m]))
    && r.lastTs == if m == 0 then None else Some(Stamp(log[m - 1]))
  }

  /** A diagnostic line of the API server, closed or not. */
  ghost predicate IsFollowFailure(d: string) {
    exists l :: OneLine(l) && (d == l || d == l + "\n") && Split(l).ts.None? && Contains(l, MARKER)
  }

  /** The first `k` lines are left out, but none stamped at or after `start`. */
  ghost predicate WindowedAt(log: seq<string>, start: Option<int>, k: nat)
    requires WellStamped(log)
  {
    && k <= |log|
    && (start.None? ==> k == 0)
    && (start.Some? ==> forall j :: 0 <= j < |log| && Stamp(log[j]) >= start.value ==> k <= j)
  }

  /** A stream is the windowed log, broken off anywhere, with a follow failure possibly added on a line of its own. */
  ghost predicate IsStreamOf(log: seq<string>, start: Option<int>, content: string)
    requires WellStamped(log)
  {
    exists k: nat, visible: string, d: string ::
      && WindowedAt(log, start, k)
      && visible <= Unlines(log[k..])
      && content == visible + d
      && (d == [] || (IsFollowFailure(d) && (visible == [] || visible[|visible| - 1] == '\n')))
  }

  function WindowStart(since: Option<nat>, serverNow: int): Option<int> {
    if since.None? then None else Some(serverNow - since.value * MICROS)
  }

  /** Whatever window is asked for, the cluster serves it by a clock at most one second (lead and latency) ahead. */
  ghost predicate Faithful(c: Cluster, log: seq<string>, serverNow: nat -> int)
    requires WellStamped(log)
  {
    && (forall i: nat :: serverNow(i) <= c.now(i) + MICROS)
    && (forall i: nat, since: Option<nat> ::
          IsStreamOf(log, WindowStart(since, serverNow(i)), Concat(c.chunks(i, since))))
  }

  /**
   The requested window reaches back more than one and at most two seconds before the last line seen; there is
   none exactly if nothing was seen or the clock is behind what was.
   */
  lemma WindowReachesBack(last: int, now: int)
    ensures Window(None, now) == None
    ensures Window(Some(last), now).None? <==> now < last
    ensures match Window(Some(last), now)
            case None => true
            case Some(w) => last - 2 * MICROS <= now - w * MICROS < last - MICROS
  {
  }

  /** So every line not yet read is inside the served window. */
  lemma WindowCoversUnread(log: seq<string>, r: Reader, m: nat, now: int, serverNow: int, k: nat)
    requires WellStamped(log) && HasRead(log, r, m) && serverNow <= now + MICROS
    requires WindowedAt(log, WindowStart(Window(r.lastTs, now), serverNow), k)
    ensures k <= m
  {
    if m > 0 {
      WindowReachesBack(Stamp(log[m - 1]), now);
    }
  }

  lemma TextsOneMore(log: seq<string>, m: nat)
    requires m < |log|
    ensures NonEmpty(Texts(log[..m + 1])) ==
            if Split(log[m]).text == [] then NonEmpty(Texts(log[..m])) else NonEmpty(Texts(log[..m])) + [Split(log[m]).text]
  {
    assert log[..m + 1][..m] == log[..m];
    hide NonEmpty, Split;
    NonEmptyAppend(Texts(log[..m]), Split(log[m]).text);
  }

  lemma HasReadOneMore(log: seq<string>, r: Reader, m: nat)
    requires WellStamped(log) && HasRead(log, r, m) && m < |log|
    ensures HasRead(log, Consume(r, log[m]), m + 1)
  {
    hide Consume, Split, NonEmpty, Texts;
    TextsOneMore(log, m);
    ConsumeCases(r, log[m]);
  }

  lemma ConsumeAgain(log: seq<string>, r: Reader, m: nat, q: nat)
    requires WellStamped(log) && HasRead(log, r, m) && q < m
    ensures Consume(r, log[q]) == r
  {
    hide Consume, Split, NonEmpty, Texts;
    assert q == m - 1 || Stamp(log[q]) < Stamp(log[m - 1]);
    ConsumeCases(r, log[q]);
  }

  function Later(m: nat, e: nat): nat {
    if m < e then e else m
  }

  lemma ConsumeSlice(log: seq<string>, r: Reader, k: nat, e: nat)
    requires k <= e <= |log|
    ensures ConsumeAll(r, log[k..e]) == if k == e then r else Consume(ConsumeAll(r, log[k..e - 1]), log[e - 1])
  {
    hide Consume, Split;
    if k < e {
      assert log[k..e][..e - 1 - k] == log[k..e - 1];
    }
  }

  lemma ReadAnyLine(log: seq<string>, r: Reader, m: nat, q: nat)
    requires WellStamped(log) && HasRead(log, r, m) && q <= m && q < |log|
    ensures HasRead(log, Consume(r, log[q]), Later(m, q + 1))
  {
    hide HasRead, WellStamped, Consume;
    if q < m {
      ConsumeAgain(log, r, m, q);
    } else {
      HasReadOneMore(log, r, m);
    }
  }

  /** Reading lines `k` to `e`, again or for the first time. */
  lemma {:induction false} ReadSlice(log: seq<string>, r: Reader, m: nat, k: nat, e: nat)
    requires WellStamped(log) && HasRead(log, r, m) && k <= m && k <= e <= |log|
    ensures HasRead(log, ConsumeAll(r, log[k..e]), Later(m, e))
    decreases e
  {
    hide HasRead, WellStamped, Consume, ConsumeAll;
    ConsumeSlice(log, r, k, e);
    if k < e {
      ReadSlice(log, r, m, k, e - 1);
      ReadAnyLine(log, ConsumeAll(r, log[k..e - 1]), Later(m, e - 1), e - 1);
    }
  }

  /** A stream broken off anywhere is some whole lines and a piece of the next. */
  lemma {:induction false} BrokenOff(ls: seq<string>, v: string) returns (n: nat, f: string)
    requires AllOneLine(ls)
    requires v <= Unlines(ls)
    ensures n <= |ls| && v == Unlines(ls[..n]) + f && OneLine(f)
    ensures if n < |ls| then f <= ls[n] else f == []
  {
    if ls == [] {
      n, f := 0, [];
    } else {
      UnlinesStep(ls);
      hide *;
      var l := ls[0] + "\n";
      if |v| <= |ls[0]| {
        n, f := 0, v;
        PrefixOfFirst(ls[0], "\n" + Unlines(ls[1..]), v);
        UnlinesNone(ls);
      } else {
        SplitPrefix(l, Unlines(ls[1..]), v);
        TailIsOneLine(ls);
        n, f := BrokenOff(ls[1..], v[|l|..]);
        TakeStep(ls, n);
        UnlinesStep(ls[..n + 1]);
        Regroup(l, Unlines(ls[1..][..n]), f);
        n := n + 1;
      }
    }
  }

  lemma PrefixOfFirst(a: string, b: string, v: string)
    requires v <= a + b && |v| <= |a| && OneLine(a)
    ensures v <= a && OneLine(v)
  {
    assert (a + b)[..|v|] == a[..|v|];
  }

  lemma SplitPrefix(l: string, rest: string, v: string)
    requires v <= l + rest && |v| >= |l|
    ensures v == l + v[|l|..] && v[|l|..] <= rest
  {
    assert v[..|l|] == (l + rest)[..|l|] == l;
  }

  lemma Regroup(a: string, b: string, c: string)
    ensures (a + b) + c == a + (b + c)
  {
  }

  lemma UnlinesNone(ls: seq<string>)
    ensures Unlines(ls[..0]) == []
  {
  }

  lemma TailIsOneLine(ls: seq<string>)
    requires ls != [] && AllOneLine(ls)
    ensures AllOneLine(ls[1..])
  {
  }

  lemma UnlinesStep(ls: seq<string>)
    requires ls != []
    ensures Unlines(ls) == ls[0] + "\n" + Unlines(ls[1..])
  {
  }

  lemma TakeStep(ls: seq<string>, n: nat)
    requires n + 1 <= |ls|
    ensures ls[..n + 1][0] == ls[0] && ls[..n + 1][1..] == ls[1..][..n]
  {
  }

  /** The leftover is nothing, or a piece of a line read before or of the next one. */
  ghost predicate IsFragment(log: seq<string>, m: nat, f: string) {
    f == [] || exists q :: 0 <= q <= m && q < |log| && f <= log[q]
  }

  lemma CutWithOpenFailure(lines: seq<string>, l: string)
    requires AllOneLine(lines)
    requires OneLine(l) && Contains(l, MARKER)
    ensures CompleteLines(Unlines(lines) + l) == lines && Leftover(Remainder(Unlines(lines) + l)) == []
  {
    hide CompleteLines, Remainder, Unlines, Contains;
    CutOfUnlines(lines, l);
  }

  /** The stamped ones among `ls` are all in `lines`. */
  ghost predicate StampedIn(ls: seq<string>, lines: seq<string>) {
    forall l :: l in ls && Split(l).ts.Some? ==> l in lines
  }

  lemma CutWithClosedFailure(lines: seq<string>, l: string, r: Reader)
    requires AllOneLine(lines)
    requires OneLine(l) && Split(l).ts.None? && Contains(l, MARKER)
    ensures StampedIn(CompleteLines(Unlines(lines) + (l + "\n")), lines)
    ensures ConsumeAll(r, CompleteLines(Unlines(lines) + (l + "\n"))) == ConsumeAll(r, lines)
    ensures Remainder(Unlines(lines) + (l + "\n")) == []
  {
    assert Unlines([l]) == l + "\n";
    hide *;
    UnlinesConcat(lines, [l]);
    assert Unlines(lines + [l]) + [] == Unlines(lines) + (l + "\n");
    CutOfUnlines(lines + [l], []);
    StampedInOneMore(lines, l);
    ConsumeOneMore(r, lines, l);
    ParsedLineIsStamped(l);
    ConsumeCases(ConsumeAll(r, lines), l);
  }

  lemma StampedInOneMore(lines: seq<string>, l: string)
    requires Split(l).ts.None?
    ensures StampedIn(lines + [l], lines)
  {
    hide Split;
  }

  /** What cutting a stream's text into lines gives. */
  lemma CutStream(lines: seq<string>, f: string, d: string, r: Reader)
    requires AllOneLine(lines)
    requires OneLine(f) && (d == [] || (IsFollowFailure(d) && f == []))
    ensures ConsumeAll(r, CompleteLines(Unlines(lines) + f + d)) == ConsumeAll(r, lines)
    ensures Leftover(Remainder(Unlines(lines) + f + d)) in {f, []}
    ensures StampedIn(CompleteLines(Unlines(lines) + f + d), lines)
  {
    hide Split;
    if d == [] {
      assert Unlines(lines) + f + d == Unlines(lines) + f;
      hide CompleteLines, Remainder, Unlines, Contains;
      CutOfUnlines(lines, f);
    } else {
      var l :| OneLine(l) && (d == l || d == l + "\n") && Split(l).ts.None? && Contains(l, MARKER);
      assert Unlines(lines) + f + d == Unlines(lines) + d;
      hide Unlines, Split, Contains, CompleteLines, Remainder, ConsumeAll;
      if d == l {
        CutWithOpenFailure(lines, l);
      } else {
        CutWithClosedFailure(lines, l, r);
      }
    }
  }

  lemma SliceStampedIn(ls: seq<string>, log: seq<string>, k: nat, e: nat, m: nat)
    requires k <= e <= m <= |log| && StampedIn(ls, log[k..e])
    ensures StampedIn(ls, log[..m])
  {
    hide Split;
    forall l | l in log[k..e] ensures l in log[..m] {
      var j :| 0 <= j < e - k && log[k..e][j] == l;
      assert log[..m][k + j] == l;
    }
  }

  /** Whole lines `k` to `e`, a fragment of line `e` and possibly a diagnostic. */
  lemma PartsAdvance(log: seq<string>, r: Reader, m: nat, k: nat, e: nat, f: string, d: string)
    requires WellStamped(log) && HasRead(log, r, m) && k <= m && k <= e <= |log|
    requires AllOneLine(log[k..e]) && OneLine(f) && (d == [] || (IsFollowFailure(d) && f == []))
    requires if e < |log| then f <= log[e] else f == []
    ensures HasRead(log, ConsumeAll(r, CompleteLines(Unlines(log[k..e]) + f + d)), Later(m, e))
    ensures IsFragment(log, Later(m, e), Leftover(Remainder(Unlines(log[k..e]) + f + d)))
    ensures StampedIn(CompleteLines(Unlines(log[k..e]) + f + d), log[..Later(m, e)])
  {
    hide *;
    CutStream(log[k..e], f, d, r);
    ReadSlice(log, r, m, k, e);
    LaterBounds(m, e);
    HasReadBound(log, r, m);
    SliceStampedIn(CompleteLines(Unlines(log[k..e]) + f + d), log, k, e, Later(m, e));
    FragmentAt(log, Later(m, e), e, f, Leftover(Remainder(Unlines(log[k..e]) + f + d)));
  }

  /** A stream that starts at line `k`, not after the next unread one. */
  lemma VisibleAdvances(log: seq<string>, r: Reader, m: nat, k: nat, visible: string, d: string) returns (m': nat)
    requires WellStamped(log) && HasRead(log, r, m) && k <= m && k <= |log|
    requires visible <= Unlines(log[k..])
    requires d == [] || (IsFollowFailure(d) && (visible == [] || visible[|visible| - 1] == '\n'))
    ensures m <= m' <= |log| && HasRead(log, ConsumeAll(r, CompleteLines(visible + d)), m')
    ensures IsFragment(log, m', Leftover(Remainder(visible + d)))
    ensures StampedIn(CompleteLines(visible + d), log[..m'])
  {
    hide *;
    LogTailIsOneLine(log, k);
    var n, f := BrokenOff(log[k..], visible);
    var e := k + n;
    TailTake(log, k, n);
    SliceIsOneLine(log, k, n);
    var closed := Unlines(log[k..e]);
    EndOfVisible(closed, f, d, visible);
    LaterBounds(m, e);
    HasReadBound(log, r, m);
    PartsAdvance(log, r, m, k, e, f, d);
    assert closed + f + d == visible + d;
    m' := Later(m, e);
  }

  lemma LaterBounds(m: nat, e: nat)
    ensures Later(m, e) >= m && Later(m, e) >= e && Later(m, e) in {m, e}
  {
  }

  /** One stream: the reader moves on to some later line, and what is left over is a piece of the log. */
  lemma StreamAdvances(c: Cluster, log: seq<string>, serverNow: nat -> int, s: State, m: nat) returns (m': nat)
    requires WellStamped(log) && Faithful(c, log, serverNow) && HasRead(log, s.reader, m)
    ensures m <= m' <= |log| && HasRead(log, AfterStream(c, s).reader, m')
    ensures IsFragment(log, m', Leftover(Remainder(StreamText(c, s))))
    ensures StampedIn(CompleteLines(StreamText(c, s)), log[..m'])
  {
    HasReadBound(log, s.reader, m);
    hide *;
    var k, visible, d := StreamParts(c, log, serverNow, s, m);
    AfterStreamReader(c, s);
    m' := VisibleAdvances(log, s.reader, m, k, visible, d);
  }

  lemma HasReadBound(log: seq<string>, r: Reader, m: nat)
    requires WellStamped(log) && HasRead(log, r, m)
    ensures m <= |log|
  {
  }

  lemma TailTake(log: seq<string>, k: nat, n: nat)
    requires k + n <= |log|
    ensures log[k..][..n] == log[k..k + n]
    ensures |log[k..]| == |log| - k && (k + n < |log| ==> log[k..][n] == log[k + n])
  {
  }

  lemma AfterStreamReader(c: Cluster, s: State)
    ensures AfterStream(c, s).reader == ConsumeAll(s.reader, CompleteLines(StreamText(c, s)))
  {
  }

  /** Where the next stream starts in the log, what it shows of it, and what the API server adds. */
  lemma StreamParts(c: Cluster, log: seq<string>, serverNow: nat -> int, s: State, m: nat)
    returns (k: nat, visible: string, d: string)
    requires WellStamped(log) && Faithful(c, log, serverNow) && HasRead(log, s.reader, m)
    ensures k <= m && visible <= Unlines(log[k..]) && StreamText(c, s) == visible + d
    ensures d == [] || (IsFollowFailure(d) && (visible == [] || visible[|visible| - 1] == '\n'))
  {
    var i := |s.requests|;
    var w := Window(s.reader.lastTs, c.now(i));
    hide Window, Unlines, IsFollowFailure;
    assert IsStreamOf(log, WindowStart(w, serverNow(i)), Concat(c.chunks(i, w)));
    k, visible, d :|
      && WindowedAt(log, WindowStart(w, serverNow(i)), k)
      && visible <= Unlines(log[k..])
      && StreamText(c, s) == visible + d
      && (d == [] || (IsFollowFailure(d) && (visible == [] || visible[|visible| - 1] == '\n')));
    WindowCoversUnread(log, s.reader, m, c.now(i), serverNow(i), k);
  }

  /** A diagnostic comes only after a closed line, so no fragment precedes it. */
  lemma EndOfVisible(closed: string, f: string, d: string, visible: string)
    requires visible == closed + f && OneLine(f)
    requires d == [] || visible == [] || visible[|visible| - 1] == '\n'
    ensures d == [] || f == []
  {
    assert f != [] ==> visible[|visible| - 1] == f[|f| - 1];
  }

  lemma SliceIsOneLine(log: seq<string>, k: nat, n: nat)
    requires k + n <= |log| && AllOneLine(log[k..])
    ensures AllOneLine(log[k..k + n])
  {
    assert log[k..k + n] == log[k..][..n];
  }

  lemma LogTailIsOneLine(log: seq<string>, k: nat)
    requires WellStamped(log) && k <= |log|
    ensures AllOneLine(log[k..])
  {
  }

  lemma FragmentAt(log: seq<string>, m: nat, e: nat, f: string, left: string)
    requires e <= m && left in {f, []}
    requires if e < |log| then f <= log[e] else f == []
    ensures IsFragment(log, m, left)
  {
  }

  /** Every stamped line that any of the streams closed is among the first `m` lines of the log. */
  ghost predicate ReadAllClosed(c: Cluster, requests: seq<Option<nat>>, log: seq<string>, m: nat)
    requires m <= |log|
  {
    forall i :: 0 <= i < |requests| ==> StampedIn(CompleteLines(Concat(c.chunks(i, requests[i]))), log[..m])
  }

  lemma ReadAllClosedAppend(c: Cluster, s: State, log: seq<string>, m: nat, m': nat)
    requires m <= m' <= |log| && ReadAllClosed(c, s.requests, log, m)
    requires StampedIn(CompleteLines(StreamText(c, s)), log[..m'])
    ensures ReadAllClosed(c, AfterStream(c, s).requests, log, m')
  {
    hide Split, Window, CompleteLines, Concat, ConsumeAll;
    var t := AfterStream(c, s).requests;
    forall i | 0 <= i < |t| ensures StampedIn(CompleteLines(Concat(c.chunks(i, t[i]))), log[..m']) {
      if i < |s.requests| {
        assert t[i] == s.requests[i];
        assert forall l :: l in log[..m] ==> l in log[..m'] by {
          assert log[..m'][..m] == log[..m];
        }
      }
    }
  }

  /** What the last of the streams left behind its last newline, unless it is the follow failure. */
  function LastLeftover(c: Cluster, requests: seq<Option<nat>>): string {
    if requests == [] then []
    else Leftover(Remainder(Concat(c.chunks(|requests| - 1, requests[|requests| - 1]))))
  }

  lemma LeftoverOfStream(c: Cluster, s: State)
    ensures LastLeftover(c, AfterStream(c, s).requests) == Leftover(Remainder(StreamText(c, s)))
  {
    hide Leftover, Remainder, Concat, Window, CompleteLines, ConsumeAll;
  }

  /**
   However the stream is chunked, broken off and reopened: the lines handed on are exactly the non-empty
   lines of a prefix of the pod's log, and after a terminated pod what is made of its last stream's leftover.
   */
  lemma {:induction false} FollowReadsPrefix(c: Cluster, log: seq<string>, serverNow: nat -> int, s: State, m: nat)
    returns (m': nat)
    requires WellStamped(log) && Faithful(c, log, serverNow) && HasRead(log, s.reader, m)
    requires m <= |log| && ReadAllClosed(c, s.requests, log, m)
    ensures var (t, o, lines) := Follow(c, s);
            var f := LastLeftover(c, t.requests);
            && t.requests != []
            && m <= m' <= |log| && HasRead(log, t.reader, m') && ReadAllClosed(c, t.requests, log, m')
            && IsFragment(log, m', f)
            && lines == t.reader.lines + (if o.PodTerminated? then FinalYield(t.reader, f) else [])
    decreases MAX_RESUMES + 1 - |s.pauses|
  {
    hide AfterStream, HasRead, WellStamped, Faithful, StreamText, FinalYield, Pause, ReadAllClosed, StampedIn, IsFragment,
         LastLeftover;
    var t := AfterStream(c, s);
    var n := AfterStreamCounts(c, s);
    m' := StreamAdvances(c, log, serverNow, s, m);
    ReadAllClosedAppend(c, s, log, m, m');
    LeftoverOfStream(c, s);
    if !c.terminated(|s.requests|) && t.barren <= MAX_BARREN_RESUMES && |t.pauses| + 1 <= MAX_RESUMES {
      m' := FollowReadsPrefix(c, log, serverNow, t.(pauses := t.pauses + [Pause(t.barren)]), m');
    }
  }

  // ---------- The cut last line ----------

  /** The stream broke off before the space that closes a stamp. */
  predicate TornStamp(f: string) {
    Strip(f) != [] && ' ' !in Strip(f)
  }

  /** What may be handed on of a line that was cut short: the part of the next unread line behind its stamp. */
  function CutTail(log: seq<string>, m: nat, f: string): seq<string> {
    if m < |log| && f <= log[m] && |Head(log[m])| < |Strip(f)| then [Strip(f)[|Head(log[m])| + 1..]] else []
  }

  /** It is a beginning of that line's text. */
  lemma CutTailBegins(log: seq<string>, m: nat, f: string)
    requires WellStamped(log) && CutTail(log, m, f) != []
    ensures m < |log| && CutTail(log, m, f)[0] != [] && CutTail(log, m, f)[0] <= Split(log[m]).text
  {
    hide WellStamped, Strip, ParseStamp, LJust, Number, WholeSeconds, Valid, Writable;
    assert Split(log[m]).ts.Some? by { StampedAt(log, m); }
    StripOfFragment(log[m], f);
    StripEnds(f);
    PrefixBehind(log[m], Strip(f), |Head(log[m])| + 1);
  }

  lemma StampedAt(log: seq<string>, m: nat)
    requires WellStamped(log) && m < |log|
    ensures Split(log[m]).ts.Some?
  {
  }

  lemma StripEnds(f: string)
    ensures Strip(f) != [] ==> Strip(f)[|Strip(f)| - 1] != ' '
  {
  }

  lemma StripOfFragment(line: string, f: string)
    requires Split(line).ts.Some? && f <= line
    ensures Strip(f) <= line
  {
    hide Split, RStrip;
    StampedStartsWithDigit(line);
    assert f != [] ==> f[0] == line[0];
    assert LStrip(f) == f;
  }

  lemma FinalYieldCases(r: Reader, f: string)
    ensures var l := Split(Strip(f));
            FinalYield(r, f) ==
            if Strip(f) == [] || l.text == [] || (l.ts.Some? && r.lastTs.Some? && l.ts.value <= r.lastTs.value)
            then [] else [l.text]
  {
    hide Strip, Split;
  }

  /** A leftover with its whole stamp is dropped if it was read before, and else handed on as far as it got. */
  lemma StampedLeftover(log: seq<string>, r: Reader, m: nat, q: nat, f: string)
    requires WellStamped(log) && HasRead(log, r, m) && q <= m && q < |log|
    requires f <= log[q] && ' ' in Strip(f)
    ensures |Head(log[q])| < |Strip(f)|
    ensures FinalYield(r, f) == if q == m then [Strip(f)[|Head(log[m])| + 1..]] else []
  {
    hide *;
    StampedAt(log, q);
    FinalYieldCases(r, f);
    StripOfFragment(log[q], f);
    StripEnds(f);
    TextOfPrefix(log[q], Strip(f));
    ReadUpTo(log, r, m, q);
  }

  /** The last stamp seen is at or after that of a line read before, and before that of the next. */
  lemma ReadUpTo(log: seq<string>, r: Reader, m: nat, q: nat)
    requires WellStamped(log) && HasRead(log, r, m) && q <= m && q < |log|
    ensures Split(log[q]).ts.Some?
    ensures if q < m then r.lastTs.Some? && Split(log[q]).ts.value <= r.lastTs.value
            else r.lastTs.None? || r.lastTs.value < Split(log[q]).ts.value
  {
    hide Split, NonEmpty, Texts;
    assert q < m ==> q == m - 1 || Stamp(log[q]) < Stamp(log[m - 1]);
    assert 0 < m && q == m ==> Stamp(log[m - 1]) < Stamp(log[m]);
  }

  /** Lines that both begin with a piece that has a whole stamp have the same stamp. */
  lemma SameStamp(a: string, b: string, f: string)
    requires Split(a).ts.Some? && Split(b).ts.Some? && f <= a && f <= b && ' ' in Strip(f)
    ensures Split(a).ts == Split(b).ts
  {
    hide *;
    StripOfFragment(a, f);
    StripOfFragment(b, f);
    TextOfPrefix(a, Strip(f));
    TextOfPrefix(b, Strip(f));
  }

  lemma SpaceEndsHead(line: string, b: string)
    requires b <= line && |Head(line)| < |b|
    ensures ' ' in b
  {
    assert b[|Head(line)|] == line[|Head(line)|];
  }

  lemma NoTailWithoutSpace(log: seq<string>, m: nat, f: string)
    requires WellStamped(log) && ' ' !in Strip(f)
    ensures CutTail(log, m, f) == []
  {
    hide WellStamped, Strip, Head;
    if m < |log| && f <= log[m] && |Head(log[m])| < |Strip(f)| {
      var line := log[m];
      StampedAt(log, m);
      StripOfFragment(line, f);
      SpaceEndsHead(line, Strip(f));
    }
  }

  /**
   The exact condition under which the last line of a terminated pod is what is left of the next line's text
   and nothing else: the stream did not break off inside a stamp.  Otherwise the torn stamp is handed on.
   */
  lemma FinalYieldIsGenuineIff(log: seq<string>, r: Reader, m: nat, f: string)
    requires WellStamped(log) && HasRead(log, r, m) && IsFragment(log, m, f)
    ensures FinalYield(r, f) == if TornStamp(f) then [Strip(f)] else CutTail(log, m, f)
    ensures FinalYield(r, f) == CutTail(log, m, f) <==> !TornStamp(f)
  {
    StripOfNothing();
    hide Split, Strip, FinalYield, HasRead, WellStamped, Head, CutTail;
    FinalYieldCases(r, f);
    if ' ' !in Strip(f) {
      NoTailWithoutSpace(log, m, f);
      NoSpaceIsUnstamped(Strip(f));
    } else {
      var q :| 0 <= q <= m && q < |log| && f <= log[q];
      StampedLeftover(log, r, m, q, f);
      TailOfFragment(log, m, q, f);
    }
  }

  lemma TailOfFragment(log: seq<string>, m: nat, q: nat, f: string)
    requires WellStamped(log) && q <= m && q < |log| && f <= log[q] && ' ' in Strip(f)
    requires |Head(log[q])| < |Strip(f)|
    ensures CutTail(log, m, f) == if q == m then [Strip(f)[|Head(log[m])| + 1..]] else []
  {
    hide Split, Strip, Head;
    if q < m && m < |log| {
      assert Stamp(log[q]) < Stamp(log[m]);
      if f <= log[m] {
        SameStamp(log[q], log[m], f);
      }
    }
  }

  lemma StripOfNothing()
    ensures Strip([]) == []
  {
  }

  /** A text that says the log cannot be followed. */
  ghost predicate Marked(s: string) {
    exists a, b :: s == a + MARKER + b
  }

  /** What a beginning of a stamped line has behind the stamp and its space. */
  function Behind(line: string, b: string): string {
    if |Head(line)| < |b| then b[|Head(line)| + 1..] else []
  }

  /** What is handed on of the rest of the last stream, spelled out. */
  lemma FinalYieldOfRest(log: seq<string>, r: Reader, m: nat, raw: string)
    requires WellStamped(log) && HasRead(log, r, m) && IsFragment(log, m, raw)
    ensures FinalYield(r, raw) ==
            if Strip(raw) == [] then []
            else if ' ' !in Strip(raw) then [Strip(raw)]
            else if m < |log| && raw <= log[m] then [Behind(log[m], Strip(raw))]
            else []
  {
    FinalYieldIsGenuineIff(log, r, m, raw);
    hide Strip, Split, WellStamped, HasRead, Head, FinalYield, IsFragment;
    if Strip(raw) != [] && ' ' in Strip(raw) && m < |log| && raw <= log[m] {
      StampedAt(log, m);
      StripOfFragment(log[m], raw);
      TextOfPrefix(log[m], Strip(raw));
    }
  }

  lemma LeftoverIs(c: Cluster, requests: seq<Option<nat>>, raw: string)
    requires requests != [] && raw == Remainder(Concat(c.chunks(|requests| - 1, requests[|requests| - 1])))
    ensures LastLeftover(c, requests) == if Marked(raw) then [] else raw
  {
    hide Concat, Remainder, Contains;
    ContainsIff(raw, MARKER);
  }

  lemma NothingYielded(r: Reader)
    ensures FinalYield(r, []) == []
  {
  }

  lemma FragmentsAre(log: seq<string>, m: nat, f: string)
    ensures IsFragment(log, m, f) <==> f == [] || exists q :: 0 <= q <= m && q < |log| && f <= log[q]
  {
  }

  /**
   Every run from the start: the lines handed on are the non-empty lines of a prefix of the log in order, once each,
   and the prefix takes in every line that any stream closed.  A stream that was given up on adds nothing, nor does
   a rest that says the log cannot be followed.  Otherwise a terminated pod adds what its last stream left of the
   next line's text, exactly if that stream did not break off inside a stamp; if it did, it adds the torn stamp.
   */
  lemma PodLogExactlyOnce(c: Cluster, log: seq<string>, serverNow: nat -> int) returns (m: nat, raw: string)
    requires WellStamped(log) && Faithful(c, log, serverNow)
    ensures var (t, o, lines) := Follow(c, START);
            && t.requests != [] && raw == Remainder(Concat(c.chunks(|t.requests| - 1, t.requests[|t.requests| - 1])))
            && m <= |log| && HasRead(log, t.reader, m) && ReadAllClosed(c, t.requests, log, m)
            && (!o.PodTerminated? || Marked(raw) ==> lines == NonEmpty(Texts(log[..m])))
            && (o.PodTerminated? && !Marked(raw) ==>
                  && (raw == [] || exists q :: 0 <= q <= m && q < |log| && raw <= log[q])
                  && lines == NonEmpty(Texts(log[..m]))
                              + (if Strip(raw) == [] then []
                                 else if ' ' !in Strip(raw) then [Strip(raw)]
                                 else if m < |log| && raw <= log[m] then [Behind(log[m], Strip(raw))]
                                 else [])
                  && (lines == NonEmpty(Texts(log[..m])) + CutTail(log, m, raw) <==> !TornStamp(raw)))
  {
    hide Follow, FinalYield, CutTail, TornStamp, WellStamped, Faithful, Split, Strip, LastLeftover, ReadAllClosed,
         IsFragment, Head, Remainder, Concat, Marked;
    assert log[..0] == [];
    var (t, o, lines) := Follow(c, START);
    NothingClosed(c, log);
    m := FollowReadsPrefix(c, log, serverNow, START, 0);
    raw := Remainder(Concat(c.chunks(|t.requests| - 1, t.requests[|t.requests| - 1])));
    LeftoverIs(c, t.requests, raw);
    NothingYielded(t.reader);
    FragmentsAre(log, m, raw);
    if o.PodTerminated? && !Marked(raw) {
      FinalYieldOfRest(log, t.reader, m, raw);
      FinalYieldIsGenuineIff(log, t.reader, m, raw);
      SamePrefix(t.reader.lines, FinalYield(t.reader, raw), CutTail(log, m, raw));
    }
  }

  lemma NothingClosed(c: Cluster, log: seq<string>)
    ensures ReadAllClosed(c, START.requests, log, 0)
  {
  }

  lemma SamePrefix(a: seq<string>, x: seq<string>, y: seq<string>)
    ensures a + x == a + y <==> x == y
  {
    assert (a + x)[|a|..] == x && (a + y)[|a|..] == y;
  }

  const TORN_LOG: seq<string> := ["2026-08-30T13:23:49Z done"]

  const TORN_TIME := Civil(2026, 8, 30, 13, 23, 49, "", Zulu(true))

  lemma TwoDigitPieces()
    ensures Two(20) == "20" && Two(26) == "26" && Two(8) == "08" && Two(30) == "30"
    ensures Two(13) == "13" && Two(23) == "23" && Two(49) == "49"
  {
  }

  lemma TornTimeRendered()
    ensures Render(TORN_TIME) == "2026-08-30T13:23:49Z"
  {
    hide Two, DigitChar;
    TwoDigitPieces();
    assert 2026 / 100 == 20 && 2026 % 100 == 26;
  }

  lemma TornLogIsStamped()
    ensures WellStamped(TORN_LOG) && Split(TORN_LOG[0]).text == "done"
  {
    hide Split, Render, Exact, Writable, Valid;
    TornTimeRendered();
    TornTimeIsValid();
    StampedLineParses(TORN_TIME, "done");
    assert TORN_LOG[0] == Render(TORN_TIME) + " " + "done";
  }

  lemma TornTimeIsValid()
    ensures Writable(TORN_TIME) && Valid(TORN_TIME)
  {
  }

  lemma TornStream(start: Option<int>)
    requires WellStamped(TORN_LOG)
    ensures IsStreamOf(TORN_LOG, start, "2026-08")
  {
    hide Split, IsFollowFailure;
    assert WindowedAt(TORN_LOG, start, 0);
    assert TORN_LOG[0..] == TORN_LOG;
    UnlinesStep(TORN_LOG);
    assert "2026-08" <= Unlines(TORN_LOG[0..]) && "2026-08" == "2026-08" + [];
  }

  lemma TornIsFaithful(c: Cluster, serverNow: nat -> int)
    requires WellStamped(TORN_LOG)
    requires forall i: nat, since: Option<nat> :: c.chunks(i, since) == ["2026-08"]
    requires forall i: nat :: serverNow(i) <= c.now(i) + MICROS
    ensures Faithful(c, TORN_LOG, serverNow)
  {
    assert Concat(["2026-08"]) == "2026-08" by {
      assert ["2026-08"][..0] == [];
    }
    hide Split, IsStreamOf, WellStamped, Concat, WindowStart;
    forall i: nat, since: Option<nat>
      ensures IsStreamOf(TORN_LOG, WindowStart(since, serverNow(i)), Concat(c.chunks(i, since)))
    {
      TornStream(WindowStart(since, serverNow(i)));
    }
  }

  lemma TornFitsNoPrefix(m: nat)
    requires WellStamped(TORN_LOG) && Split(TORN_LOG[0]).text == "done" && m <= |TORN_LOG|
    ensures ["2026-08"] != NonEmpty(Texts(TORN_LOG[..m])) + CutTail(TORN_LOG, m, "2026-08")
  {
    hide Split, WellStamped, Head, Strip, CutTail;
    TornIsStripped();
    NoTailWithoutSpace(TORN_LOG, m, "2026-08");
    if m == 0 {
      assert TORN_LOG[..0] == [] && NonEmpty(Texts([])) == [];
    } else {
      assert TORN_LOG[..1][..0] == [] && TORN_LOG[..1][0] == TORN_LOG[0];
      assert Texts(TORN_LOG[..1]) == ["done"];
      assert ["done"][..0] == [];
      assert NonEmpty(["done"]) == ["done"];
      var shown := ["done"] + CutTail(TORN_LOG, m, "2026-08");
      assert shown[0] == "done" && "done"[0] != "2026-08"[0];
    }
  }

  /**
   The failing case: the first stream delivers only the beginning of a stamp and the pod has terminated.  What
   is handed on is no prefix of the log with a cut line.
   */
  lemma TornStampIsHandedOn(c: Cluster, serverNow: nat -> int)
    requires c.terminated(0) && forall i: nat, since: Option<nat> :: c.chunks(i, since) == ["2026-08"]
    requires forall i: nat :: serverNow(i) <= c.now(i) + MICROS
    ensures WellStamped(TORN_LOG) && Faithful(c, TORN_LOG, serverNow)
    ensures Follow(c, START).2 == ["2026-08"]
    ensures forall m: nat :: m <= |TORN_LOG| ==>
              Follow(c, START).2 != NonEmpty(Texts(TORN_LOG[..m])) + CutTail(TORN_LOG, m, "2026-08")
  {
    hide *;
    TornLogIsStamped();
    TornRun(c);
    TornIsFaithful(c, serverNow);
    forall m: nat | m <= |TORN_LOG|
      ensures Follow(c, START).2 != NonEmpty(Texts(TORN_LOG[..m])) + CutTail(TORN_LOG, m, "2026-08") {
      TornFitsNoPrefix(m);
    }
  }

  lemma TornLeftover(c: Cluster)
    requires forall i: nat, since: Option<nat> :: c.chunks(i, since) == ["2026-08"]
    ensures Leftover(Remainder(StreamText(c, START))) == "2026-08"
  {
    hide Split, Strip, FinalYield;
    var buf := "2026-08";
    assert StreamText(c, START) == buf by {
      assert ["2026-08"][..0] == [];
    }
    NoMoreLines(buf);
    assert !Contains(buf, MARKER);
  }

  lemma TornReader(c: Cluster)
    requires forall i: nat, since: Option<nat> :: c.chunks(i, since) == ["2026-08"]
    ensures AfterStream(c, START).reader == START.reader
  {
    hide Split, Strip, FinalYield;
    assert StreamText(c, START) == "2026-08" by {
      assert ["2026-08"][..0] == [];
    }
    NoMoreLines("2026-08");
  }

  lemma TornRun(c: Cluster)
    requires c.terminated(0) && forall i: nat, since: Option<nat> :: c.chunks(i, since) == ["2026-08"]
    ensures Follow(c, START).2 == ["2026-08"]
  {
    hide Split, Strip, Leftover, Remainder, CompleteLines, StreamText, FinalYield, AfterStream;
    var buf := "2026-08";
    TornLeftover(c);
    TornReader(c);
    TornIsStripped();
    NoSpaceIsUnstamped(buf);
    FinalYieldCases(AfterStream(c, START).reader, buf);
  }

  lemma TornIsStripped()
    ensures Strip("2026-08") == "2026-08"
  {
    StripOfBare("2026-08");
  }
}
