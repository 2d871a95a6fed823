/** The rewrite loop (graph.py): the state record, the three nodes that update
    it (generator, humanizer, judge), the routing decision after the judge and
    the loop the graph's edges describe. The language model, the translator
    and the detector are oracles whose answers are scripted per cycle. */
module Graph {
  import opened Text
  import Judge

  datatype Option<T> = None | Some(value: T)

  /** One entry of `history`: `{"iteration", "text", "score"}`. */
  datatype Snapshot = Snapshot(iteration: int, text: string, score: real)

  /** The two labels `should_continue` returns. */
  datatype Route = Continue | End

  const MaxRetries := 6

  // ---------------------------------------------------------------------------
  // The pure pieces of the nodes
  // ---------------------------------------------------------------------------

  /** `should_continue`: stop on a low score unless the feedback carries the
      "Too verbose" veto; otherwise stop once the retry budget is spent. */
  function ShouldContinue(score: real, iteration: int, feedback: string): (route: Route)
    ensures iteration >= MaxRetries ==> route == End
    ensures score >= 0.25 && iteration < MaxRetries ==> route == Continue
  {
    if score < 0.25 && !Contains(feedback, "Too verbose") then End
    else if iteration >= MaxRetries then End
    else Continue
  }

  /** The humanizer's trigger: the first pass, or feedback saying the text
      still reads like AI. */
  predicate ShouldScramble(iteration: int, feedback: string) {
    iteration == 1 || Contains(Lower(feedback), "reads like ai")
  }

  /** What `detect_ai_text` hands the judge: the "score" field when it is a
      number, the fallback after an exception inside the detector, or a "score"
      field that is not a number (a string, null, a list or an object). */
  datatype Detection = Scored(value: real) | Failed | NonNumeric

  /** The raw score the judge works with: the detector's number, 0.5 when the
      detector failed, and None when the score is not a number, so that the
      comparison `raw_score > 0.30` raises and the judge returns nothing. */
  function RawScore(detected: Detection): (raw: Option<real>)
    ensures raw.None? <==> detected.NonNumeric?
    ensures detected.Failed? ==> raw == Some(0.5)
    ensures detected.Scored? ==> raw == Some(detected.value)
  {
    match detected
    case Scored(v) => Some(v)
    case Failed => Some(0.5)
    case NonNumeric => None
  }

  /** `i` is the position of the first ':' in `s`. */
  predicate FirstColonAt(s: string, i: int) {
    0 <= i < |s| && s[i] == ':' && forall j :: 0 <= j < i ==> s[j] != ':'
  }

  /** The index of the first ':' in `s`, if there is one. */
  function FirstColon(s: string): (r: Option<nat>)
    ensures r.None? ==> forall j :: 0 <= j < |s| ==> s[j] != ':'
    ensures r.Some? ==> FirstColonAt(s, r.value)
    decreases |s|
  {
    if s == [] then None
    else if s[0] == ':' then Some(0)
    else match FirstColon(s[1..])
      case None => None
      case Some(i) => Some(i + 1)
  }

  /** The length of `s[:20]`. */
  function Head20(s: string): nat {
    if |s| < 20 then |s| else 20
  }

  /** The generator's clean-up of a reply: when a ':' occurs among the first 20
      characters and more than 50 characters follow the first ':', the reply
      is replaced by what follows that colon, stripped. */
  function StripPreamble(s: string): (r: string)
    ensures |r| <= |s|
    ensures r != s ==> Contains(s, r)
  {
    EarlyColon(s);
    if ':' in s[..Head20(s)] then
      var i := FirstColon(s).value;
      var rest := s[i + 1..];
      if |rest| > 50 then
        var r := Strip(rest);
        assert s == s[..i + 1] + rest;
        ContainsInRight(s[..i + 1], rest, r);
        r
      else s
    else s
  }

  /** A ':' among the first 20 characters is the same as a first ':' there. */
  lemma EarlyColon(s: string)
    ensures ':' in s[..Head20(s)] <==> FirstColon(s).Some? && FirstColon(s).value < 20
  {
    var n := Head20(s);
    if ':' in s[..n] {
      var k :| 0 <= k < n && s[..n][k] == ':';
      assert s[k] == ':';
    }
    if FirstColon(s).Some? && FirstColon(s).value < 20 {
      assert s[..n][FirstColon(s).value] == ':';
    }
  }

  /** The reply changes exactly when some ':' among its first 20 characters has
      more than 50 characters after it. */
  lemma StripPreambleChanges(s: string)
    ensures StripPreamble(s) != s <==>
      exists i :: 0 <= i < |s| && i < 20 && s[i] == ':' && |s| - (i + 1) > 50
  {
    EarlyColon(s);
    if exists i :: 0 <= i < |s| && i < 20 && s[i] == ':' && |s| - (i + 1) > 50 {
      var i :| 0 <= i < |s| && i < 20 && s[i] == ':' && |s| - (i + 1) > 50;
      var j := FirstColon(s).value;
      assert |Strip(s[j + 1..])| < |s|;
    }
    if StripPreamble(s) != s {
      assert FirstColon(s).value < 20;
    }
  }

  /** When the reply changes, it becomes the stripped text after its first ':',
      which is strictly shorter than the reply. */
  lemma StrippedIsRemainder(s: string)
    requires StripPreamble(s) != s
    ensures exists i :: FirstColonAt(s, i) && StripPreamble(s) == Strip(s[i + 1..])
    ensures |StripPreamble(s)| < |s|
  {
    assert FirstColonAt(s, FirstColon(s).value);
  }

  /** Only a reply whose first colon is early and followed by a long remainder
      is touched: "Note: ok" comes back as it is. */
  lemma ShortReplyKept()
    ensures StripPreamble("Note: ok") == "Note: ok"
  {
    StripPreambleChanges("Note: ok");
  }

  // ---------------------------------------------------------------------------
  // The state record and what each node makes of it
  // ---------------------------------------------------------------------------

  /** The value of the state record, less `original_text`, which no node
      returns and which therefore never changes. */
  datatype Record = Record(
    currentText: string,
    iterationCount: int,
    currentScore: real,
    history: seq<Snapshot>,
    feedback: string)

  /** The record the front end starts the graph with. */
  function Initial(input: string): Record {
    Record(input, 0, 1.0, [], "")
  }

  /** `generator_node` merged into the record, given the model's reply. */
  function AfterGenerator(r: Record, reply: string): (g: Record)
    ensures g.(currentText := r.currentText, iterationCount := r.iterationCount) == r
    ensures g.iterationCount == r.iterationCount + 1
    ensures |g.currentText| <= |reply|
  {
    r.(currentText := StripPreamble(reply), iterationCount := r.iterationCount + 1)
  }

  /** `humanizer_node` merged into the record, given the outcome of the
      translation round trip (None when one of its hops raised). */
  function AfterHumanizer(r: Record, translated: Option<string>): (h: Record)
    ensures h.(currentText := r.currentText) == r
    ensures !ShouldScramble(r.iterationCount, r.feedback) ==> h == r
    ensures translated.None? ==> h == r
    ensures ShouldScramble(r.iterationCount, r.feedback) && translated.Some? ==> h.currentText == translated.value
  {
    if ShouldScramble(r.iterationCount, r.feedback) && translated.Some? then
      r.(currentText := translated.value)
    else r
  }

  /** `judge_node` merged into the record, given a numeric raw score. */
  function AfterJudge(r: Record, original: string, raw: real): (j: Record)
    ensures j.(currentScore := r.currentScore, history := r.history, feedback := r.feedback) == r
    ensures j.currentScore >= raw
    ensures raw >= 0.5 ==> j.currentScore == raw
    ensures j.history == [Snapshot(r.iterationCount, r.currentText, j.currentScore)]
  {
    var score := Judge.AdjustedScore(raw, r.currentText, original);
    Judge.ScoreBounds(raw, r.currentText, original);
    r.(currentScore := score,
       history := [Snapshot(r.iterationCount, r.currentText, score)],
       feedback := Judge.Feedback(raw, r.currentText, original))
  }

  /** `should_continue` on a record. */
  function RouteOf(r: Record): Route {
    ShouldContinue(r.currentScore, r.iterationCount, r.feedback)
  }

  /** What the oracles answer in cycle `k` (counting from 0): the model's reply
      (None when the call raises), the translation round trip (None when a hop
      raises) and what the detector hands back. */
  datatype Services = Services(
    rewrite: nat -> Option<string>,
    translate: nat -> Option<string>,
    detect: nat -> Detection)

  /** How a run ends: the model call or the judge of cycle `cycle` raised, or
      the graph reached its end node with this record. */
  datatype Outcome = Aborted(cycle: int) | Finished(final: Record)

  /** The record after one pass generator, humanizer, judge, or None when the
      model call raises or the judge meets a score that is not a number. */
  function Cycle(r: Record, original: string, services: Services): (c: Option<Record>)
    ensures var k := if r.iterationCount < 0 then 0 else r.iterationCount;
      c.None? <==> services.rewrite(k).None? || services.detect(k).NonNumeric?
    ensures c.Some? ==> c.value.iterationCount == r.iterationCount + 1 && |c.value.history| == 1
  {
    var k := if r.iterationCount < 0 then 0 else r.iterationCount;
    match services.rewrite(k)
    case None => None
    case Some(reply) =>
      var scrambled := AfterHumanizer(AfterGenerator(r, reply), services.translate(k));
      match RawScore(services.detect(k))
      case None => None
      case Some(raw) => Some(AfterJudge(scrambled, original, raw))
  }

  /** The run the compiled graph performs from record `r`: cycles until the
      judge routes to the end. */
  function Exec(r: Record, original: string, services: Services): Outcome
    decreases MaxRetries - r.iterationCount
  {
    match Cycle(r, original, services)
    case None => Aborted(r.iterationCount)
    case Some(next) =>
      if RouteOf(next) == End then Finished(next)
      else Exec(next, original, services)
  }

  // ---------------------------------------------------------------------------
  // The record as an object, updated in place by each node
  // ---------------------------------------------------------------------------

  /** `AgentState`. Each node returns the keys it updates and the graph merges
      them into the record, the latest value winning. */
  class Session {
    const originalText: string
    var currentText: string
    var iterationCount: int
    var currentScore: real
    var history: seq<Snapshot>
    var feedback: string

    function State(): Record
      reads this
    {
      Record(currentText, iterationCount, currentScore, history, feedback)
    }

    constructor (input: string)
      ensures originalText == input && State() == Initial(input)
    {
      originalText := input;
      currentText := input;
      iterationCount := 0;
      currentScore := 1.0;
      history := [];
      feedback := "";
    }

    /** `generator_node`: only the text and the counter change. */
    method Generate(reply: string)
      modifies this`currentText, this`iterationCount
      ensures State() == AfterGenerator(old(State()), reply)
    {
      currentText := StripPreamble(reply);
      iterationCount := iterationCount + 1;
    }

    /** `humanizer_node`: only the text changes, and only when the trigger holds
        and the round trip succeeded. */
    method Humanize(translated: Option<string>)
      modifies this`currentText
      ensures State() == AfterHumanizer(old(State()), translated)
    {
      if ShouldScramble(iterationCount, feedback) {
        if translated.Some? {
          currentText := translated.value;
        }
      }
    }

    /** `judge_node`: the score, the one-entry history and the feedback change;
        the verdict comes from the judge's step-by-step evaluation. A score that
        is not a number makes the node raise (`judged` is false) before it
        returns any update. */
    method JudgeDraft(detected: Detection) returns (judged: bool)
      modifies this`currentScore, this`history, this`feedback
      ensures judged <==> !detected.NonNumeric?
      ensures judged ==> State() == AfterJudge(old(State()), originalText, RawScore(detected).value)
      ensures !judged ==> State() == old(State())
    {
      var raw := RawScore(detected);
      if raw.None? {
        return false;
      }
      var text := currentText;
      var score, verdict := Judge.Evaluate(raw.value, text, originalText);
      currentScore, history, feedback := score, [Snapshot(iterationCount, text, score)], verdict;
      judged := true;
    }

    /** `should_continue` on the current record. */
    function Decide(): Route
      reads this
    {
      ShouldContinue(currentScore, iterationCount, feedback)
    }
  }

  /** The compiled graph run on a fresh record: generator, humanizer, judge,
      then either back to the generator or to the end. */
  method Run(input: string, services: Services) returns (outcome: Outcome)
    ensures outcome == Exec(Initial(input), input, services)
  {
    var s := new Session(input);
    var route := Continue;
    while route == Continue
      invariant s.originalText == input
      invariant route == Continue ==> Exec(s.State(), input, services) == Exec(Initial(input), input, services)
      invariant route == Continue ==> s.iterationCount < MaxRetries
      invariant route == End ==> Finished(s.State()) == Exec(Initial(input), input, services)
      decreases MaxRetries - s.iterationCount
    {
      ghost var before := s.State();
      var start := s.iterationCount;
      var cycle := if start < 0 then 0 else start;
      var reply := services.rewrite(cycle);
      if reply.None? {
        return Aborted(start);
      }
      s.Generate(reply.value);
      s.Humanize(services.translate(cycle));
      var judged := s.JudgeDraft(services.detect(cycle));
      if !judged {
        return Aborted(start);
      }
      assert Cycle(before, input, services) == Some(s.State());
      route := s.Decide();
    }
    outcome := Finished(s.State());
  }

  // ---------------------------------------------------------------------------
  // What the loop promises
  // ---------------------------------------------------------------------------

  /** On any feedback the judge produces the "Too verbose" veto never fires, so
      the loop ends exactly when the score is below 0.25 or the retries are
      spent. */
  lemma ContinueOnJudgeFeedback(score: real, iteration: int, raw: real, text: string, original: string)
    ensures ShouldContinue(score, iteration, Judge.Feedback(raw, text, original)) == End
      <==> score < 0.25 || iteration >= MaxRetries
  {
    Judge.NoCapitalisedVerbose(raw, text, original);
  }

  /** After the judge the route depends only on the penalised score and the
      counter, and the score is at least the detector's. */
  lemma JudgedRoute(r: Record, original: string, raw: real)
    ensures AfterJudge(r, original, raw).currentScore >= raw
    ensures RouteOf(AfterJudge(r, original, raw)) == End
      <==> AfterJudge(r, original, raw).currentScore < 0.25 || r.iterationCount >= MaxRetries
  {
    Judge.ScoreBounds(raw, r.currentText, original);
    ContinueOnJudgeFeedback(Judge.AdjustedScore(raw, r.currentText, original), r.iterationCount,
                            raw, r.currentText, original);
  }

  /** The judged record's feedback is "Good." exactly when no rule fired on
      its text: the raw score is at most 0.30 and no length, banned-word or
      artifact rule applies. */
  lemma JudgedFeedback(r: Record, original: string, raw: real)
    ensures AfterJudge(r, original, raw).feedback == Judge.Good
      <==> (raw <= 0.30 && !Judge.TooLong(WordCount(r.currentText), WordCount(original))
            && !Judge.TooShort(WordCount(r.currentText), WordCount(original))
            && Judge.FoundBanned(Lower(r.currentText)) == [] && !Judge.HasArtifacts(r.currentText))
  {
    Judge.FeedbackIsGoodIffNothingFires(raw, r.currentText, original);
  }

  /** A run from a record whose counter is in [0, 6) ends after 1 to 6 more
      cycles: either the model call of some cycle raised, or the final record
      has a counter in [1, 6], a one-entry history describing itself, and a
      score below 0.25 unless the retries are spent. */
  lemma {:induction false} ExecBounds(r: Record, original: string, services: Services)
    requires 0 <= r.iterationCount < MaxRetries
    ensures Exec(r, original, services).Aborted? ==>
      r.iterationCount <= Exec(r, original, services).cycle < MaxRetries
      && (services.rewrite(Exec(r, original, services).cycle).None?
          || services.detect(Exec(r, original, services).cycle).NonNumeric?)
    ensures Exec(r, original, services).Finished? ==>
      var f := Exec(r, original, services).final;
      r.iterationCount < f.iterationCount <= MaxRetries
      && f.history == [Snapshot(f.iterationCount, f.currentText, f.currentScore)]
      && (f.currentScore < 0.25 || f.iterationCount == MaxRetries)
    decreases MaxRetries - r.iterationCount
  {
    match Cycle(r, original, services)
    case None =>
    case Some(next) =>
      var k := r.iterationCount;
      JudgedRoute(AfterHumanizer(AfterGenerator(r, services.rewrite(k).value), services.translate(k)),
                  original, RawScore(services.detect(k)).value);
      if RouteOf(next) != End {
        ExecBounds(next, original, services);
      }
  }

  /** From the record the front end builds, a run either aborts in one of the
      six cycles or finishes with a counter in [1, 6] and a history holding
      only the last judged draft. */
  lemma RunBounds(input: string, services: Services)
    ensures Exec(Initial(input), input, services).Aborted? ==>
      0 <= Exec(Initial(input), input, services).cycle < MaxRetries
    ensures Exec(Initial(input), input, services).Finished? ==>
      var f := Exec(Initial(input), input, services).final;
      1 <= f.iterationCount <= MaxRetries && |f.history| == 1
  {
    ExecBounds(Initial(input), input, services);
  }

  /** In every cycle after a judged one, the humanizer scrambles exactly when
      the counter has just reached 1 or the previous raw detector score was
      above 0.30: the AI-like clause is the only one saying "reads like ai". */
  lemma ScrambleTrigger(r: Record, original: string, raw: real, reply: string)
    ensures var g := AfterGenerator(AfterJudge(r, original, raw), reply);
      ShouldScramble(g.iterationCount, g.feedback) <==> g.iterationCount == 1 || raw > 0.30
  {
    Judge.MentionsAiIffAiLike(raw, r.currentText, original);
  }

  /** The first pass always scrambles, even with empty feedback; a later pass
      whose feedback is "Good." does not. */
  lemma ScrambleScenario()
    ensures ShouldScramble(1, "")
    ensures !ShouldScramble(3, Judge.Good)
  {
    Judge.MissingCharExcludes(Lower(Judge.Good), "reads like ai", 'r');
  }

  /** A detector that always answers 0.80 never lets the score drop below
      0.25, so a run that never aborts goes on to the retry ceiling. */
  lemma {:induction false} HighScoreRunsToCeiling(r: Record, original: string, services: Services)
    requires 0 <= r.iterationCount < MaxRetries
    requires forall k: nat :: services.rewrite(k).Some?
    requires forall k: nat :: services.detect(k) == Scored(0.80)
    ensures Exec(r, original, services).Finished?
    ensures Exec(r, original, services).final.iterationCount == MaxRetries
    decreases MaxRetries - r.iterationCount
  {
    HighScoreCycle(r, original, services);
    var next := Cycle(r, original, services).value;
    if next.iterationCount < MaxRetries {
      HighScoreRunsToCeiling(next, original, services);
    }
  }

  /** One cycle whose model call answers and whose detector says 0.80 adds
      one to the counter and routes to the end only at the ceiling. */
  lemma HighScoreCycle(r: Record, original: string, services: Services)
    requires 0 <= r.iterationCount
    requires services.rewrite(r.iterationCount).Some?
    requires services.detect(r.iterationCount) == Scored(0.80)
    ensures Cycle(r, original, services).Some?
    ensures Cycle(r, original, services).value.iterationCount == r.iterationCount + 1
    ensures RouteOf(Cycle(r, original, services).value) == End <==> r.iterationCount + 1 >= MaxRetries
  {
    var k := r.iterationCount;
    var g := AfterGenerator(r, services.rewrite(k).value);
    var next := AfterJudge(AfterHumanizer(g, services.translate(k)), original, 0.80);
    assert Cycle(r, original, services) == Some(next);
    assert next.currentScore == 0.80;
  }

  /** A draft that keeps the original's words, holds no banned word and no
      artifact, and scores 0.10 ends the run after the first cycle with
      feedback "Good." and its raw score. */
  lemma CleanDraftEndsAtOnce(input: string, services: Services)
    requires services.rewrite(0) == Some(input) && StripPreamble(input) == input
    requires services.translate(0) == Some(input)
    requires services.detect(0) == Scored(0.10)
    requires Judge.FoundBanned(Lower(input)) == [] && !Judge.HasArtifacts(input)
    ensures Exec(Initial(input), input, services)
         == Finished(Record(input, 1, 0.10, [Snapshot(1, input, 0.10)], Judge.Good))
  {
    var g := AfterGenerator(Initial(input), input);
    assert g == Record(input, 1, 1.0, [], "");
    var h := AfterHumanizer(g, Some(input));
    assert h == g;
    Judge.FeedbackIsGoodIffNothingFires(0.10, input, input);
    Judge.ScoreBounds(0.10, input, input);
    var next := AfterJudge(h, input, 0.10);
    assert next == Record(input, 1, 0.10, [Snapshot(1, input, 0.10)], Judge.Good);
    assert Cycle(Initial(input), input, services) == Some(next);
    GoodHasNoVeto();
  }

  /** "Good." does not carry the "Too verbose" veto. */
  lemma GoodHasNoVeto()
    ensures !Contains(Judge.Good, "Too verbose")
  {
    Judge.MissingCharExcludes(Judge.Good, "Too verbose", 'T');
  }
}
