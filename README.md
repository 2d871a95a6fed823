# Adversarial text humanizer: the rewrite, scramble and judge loop

This project models the control logic of the humanizer agent in `graph.py`. A draft
goes through a loop. The language model rewrites it (generator). On some passes, a round
trip through Japanese and German scrambles it (humanizer). The judge then scores it and
writes feedback. A routing rule decides whether to run another cycle or stop. The
language model, the translator and the AI detector are external services. Here they are
oracles whose answers are scripted per cycle.

Modules:

- `Text` (text.dfy): the Python string built-ins the loop uses. These are `str.split()`
  and its length, `str.strip()`, `str.lower()`, the substring test `p in s`,
  `sep.join(...)` and `str(n)`.
- `Judge` (judge.dfy): `judge_node`'s rule set. It has a specification by functions of
  (raw score, text, original). The method `Evaluate` measures the text, and the method
  `Verdict` applies the rules step by step. Both are proved equal to the specification.
  There are lemmas about the score and the feedback.
- `Graph` (graph.py's nodes and wiring): `should_continue`, the humanizer trigger, the
  generator's preamble strip and counter, the state record as the class `Session`
  (updated in place by one method per node), the pure record transformer `Exec`, and the
  loop `Run`, proved to compute `Exec` from the initial record at main.py:16-23.

Main results:

- The judge never emits the capitalised phrase "Too verbose". Its verbosity clause says
  "too verbose". So the veto in `should_continue` never fires on judge feedback. The
  loop ends exactly when the penalised score is below 0.25 or the counter has reached 6.
  This includes a verbose draft whose score is low. The model keeps this behaviour.
- The lower-cased feedback contains "reads like ai" exactly when the raw detector score
  is above 0.30. So the humanizer scrambles exactly on the first pass or after an
  AI-like verdict.
- From the initial record, a run either aborts or ends after 1 to 6 cycles, with a
  final counter in [1, 6]. It aborts when the model call raises, or when the detector
  hands back a "score" that is not a number, so that the judge's comparison raises.
- The penalties are never clamped. The adjusted score is at least the raw score. It
  equals the raw score when the raw score is at least 0.5. It stays below 0.7 when the
  raw score is below 0.5. The two length flags never fire together, even for an empty
  original.
- A low-scoring draft ends the run after one cycle with feedback "Good." only when it
  holds no banned word and no translation artifact. A banned word adds 0.2 to a score
  below 0.5 and is named in the feedback, so raw 0.10 becomes 0.30 and the loop goes on.
  An artifact leaves the score alone but makes the feedback the artifact clause.

Behaviour worth noting:

- `history` is not append-only. It has no reducer in `AgentState` (graph.py:18), and the judge returns a
  one-entry list (graph.py:171). Under the graph's default last-value merge, the record
  holds only the latest snapshot. The model overwrites `history`. It does not append.
  So the final history has exactly one entry, not one per cycle.
- The score thresholds 1.10 and 0.85 are read as exact rationals.

## Model

| member | source | states |
|---|---|---|
| Judge.Evaluate | graph.py:127-165 | The judge (word counts, lower-casing, banned-word test and list, artifact scan, then the rules) yields exactly the specified adjusted score and feedback string |
| Judge.Verdict | graph.py:144-165 | The rules applied in order (feedback list built clause by clause, running score raised by each penalty that applies while below 0.5) yield exactly the specified score and feedback |
| Judge.AnyBanned | graph.py:142 | `any(w in lower_text for w in banned_list)` is true iff some word of the fixed eight-word list occurs in the lower-cased text |
| Judge.CollectBanned | graph.py:158 | The comprehension that names the banned words returns the list's words that occur in the text, in list order |
| Judge.OccurringMembers | graph.py:158 | A word is named in the banned-word clause iff it is in the banned list and occurs as a substring of the lower-cased text |
| Judge.FoundBannedNonEmpty | graph.py:142-158 | The list of named banned words is non-empty iff `has_banned_words` holds, so the clause never names an empty list |
| Judge.CruciallyCountsAsCrucial | graph.py:139-142 | The banned-word test is a substring test on the lower-cased text: "Crucially" is reported as "crucial" |
| Judge.ArtifactScanMatches | graph.py:162 | The artifact scan finds " logic box " |
| Judge.ArtifactScanIsCaseSensitive | graph.py:162 | The artifact scan reads the text as written, not lower-cased: " Logic Box " is no artifact |
| Judge.LengthFlagsExclusive | graph.py:133-136 | Too-long and too-short never both hold; with an empty original, too-short never holds and too-long holds iff the draft has a word |
| Judge.ScoreBounds | graph.py:149-159 | The adjusted score is at least the raw score, equals it when raw is at least 0.5, and is below 0.7 when raw is below 0.5; it is never clamped |
| Judge.PenaltiesAccumulate | graph.py:149-159 | Raw 0.2 on a draft 1.2 times a non-empty original's length, with a banned word and no translation artifact, scores exactly 0.5, and the feedback is the verbosity clause followed by the banned-word clause |
| Judge.VerboseAndBanned | graph.py:149-159 | On a measurement that is too long, not too short, names banned words and has no artifact, raw 0.2 becomes 0.5 and the clauses are verbosity then banned words |
| Judge.FeedbackIsGoodIffNothingFires | graph.py:144-165 | The feedback is "Good." iff the raw score is at most 0.30 and no length, banned-word or artifact rule fires |
| Judge.NoCapitalisedVerbose | graph.py:144-165 | No feedback the judge can produce contains "Too verbose" |
| Judge.MentionsAiIffAiLike | graph.py:146-147 | The lower-cased feedback contains "reads like ai" iff the raw detector score, before any penalty, is above 0.30 |
| Graph.ContinueOnJudgeFeedback | graph.py:175-186 | On judge feedback, `should_continue` ends iff the score is below 0.25 or the counter is at least 6: the "Too verbose" veto never fires |
| Graph.JudgedRoute | graph.py:169-186 | After the judge, the route ends iff the penalised score is below 0.25 or the retries are spent, and that score is at least the detector's |
| Graph.StripPreamble | graph.py:85-86 | The cleaned reply is never longer than the reply, and when it differs it is a substring of it |
| Graph.EarlyColon | graph.py:85 | `":" in new_text[:20]` holds iff the first colon sits among the first 20 characters |
| Graph.StripPreambleChanges | graph.py:85-86 | The reply is changed iff a colon within its first 20 characters has more than 50 characters after it |
| Graph.StrippedIsRemainder | graph.py:85-86 | A changed reply is the whitespace-stripped text after its first colon, strictly shorter than the reply |
| Graph.ShortReplyKept | graph.py:85 | A reply with an early colon but a short remainder ("Note: ok") is kept as it is |
| Graph.AfterGenerator | graph.py:85-91 | The generator changes only the text and the counter, and adds exactly 1 to the counter |
| Graph.AfterHumanizer | graph.py:97-125 | The humanizer changes only the text: when triggered and the round trip succeeds the text becomes the translation; otherwise (not triggered, or a translation hop raised) the record passes through unchanged |
| Graph.AfterJudge | graph.py:127-173 | The judge changes only score, history and feedback; the score is at least the raw score, equals it from 0.5 up, and history is overwritten by one snapshot |
| Graph.JudgedFeedback | graph.py:144-165 | The judged record's feedback is "Good." iff the raw score is at most 0.30 and no length, banned-word or artifact rule fires on its text |
| Graph.Session.constructor | main.py:16-23 | The fresh record: the input as original and current text, counter 0, score 1.0, empty history and feedback |
| Graph.Session.Generate | graph.py:82-91 | In place: the text becomes the cleaned reply, the counter goes up by one, nothing else changes |
| Graph.Session.Humanize | graph.py:97-125 | In place: only the text may change, as the humanizer's trigger and fail-open rule say |
| Graph.Session.JudgeDraft | graph.py:127-173 | In place: score, history and feedback become the judge's verdict on the current text against the unchanged original; a score that is not a number raises and changes nothing |
| Graph.Run | graph.py:188-198 | The loop generator, humanizer, judge, decide, started from the initial record, produces exactly the run `Exec` describes |
| Graph.ExecBounds | graph.py:175-196 | From a counter in [0, 6), a run aborts in a later cycle whose model call raised or whose detector score was not a number, or finishes with a larger counter of at most 6, a one-entry history describing the final draft, and a score below 0.25 unless the counter is 6 |
| Graph.RunBounds | graph.py:90 | From the initial record, a run aborts in cycle 0 to 5 or finishes with a counter in [1, 6] and one history entry |
| Graph.ScrambleTrigger | graph.py:98-101 | After a judged cycle, the humanizer scrambles iff the counter has just become 1 or the previous raw score was above 0.30 |
| Graph.ScrambleScenario | graph.py:101 | The first pass scrambles even with empty feedback; a third pass after "Good." does not |
| Graph.HighScoreRunsToCeiling | graph.py:178-186 | A detector that always answers 0.80 makes a non-aborting run go on until the counter is 6 |
| Graph.HighScoreCycle | graph.py:175-186 | A cycle whose model call answers and whose detector says 0.80 adds one to the counter and ends only at the ceiling |
| Graph.CleanDraftEndsAtOnce | graph.py:144-181 | A draft that the model and the translator return unchanged, that holds no banned word and no translation artifact, and that scores 0.10 ends the run after one cycle with score 0.10 and feedback "Good." |
| Graph.Initial | main.py:16-23 | The record the front end starts the graph with: the input as current text, counter 0, score 1.0, empty history and feedback (the same literal as `Session.constructor`) |
| Judge.Occurring | graph.py:158 | The order-keeping filter of a word list by substring occurrence; never longer than the list (its members are `OccurringMembers`) |
| Judge.ClausesOf | graph.py:144-163 | The fired clauses in rule order: AI-like on the raw score, too long, too short, banned words, artifacts (see `FeedbackIsGoodIffNothingFires`, `MentionsAiIffAiLike`) |
| Text.WordCount | graph.py:133-134 | `len(s.split())`, equal to the number of word starts (`WordCountIsWordStarts`) |
| Text.WordsKeepEverythingButSpace | graph.py:133-134 | `str.split()` loses only whitespace: the words, concatenated, are the non-whitespace characters in order |
| Text.NoWordsIffBlank | graph.py:133-134 | A text has no words iff it is all whitespace |
| Text.NatToStringRoundTrip | graph.py:150-154 | The word counts printed in the length clauses read back as the counts |
| Text.ContainsIffOccurs | graph.py:142 | The substring test holds iff the phrase occurs at some index |
| Text.StripKeepsText | graph.py:86 | `str.strip()` removes whitespace and nothing else |
| Graph.ShouldContinue | graph.py:175-186 | `should_continue` ends once the counter reaches 6, and continues while the score is at least 0.25 and retries remain |
| Graph.ShouldScramble | graph.py:98-101 | The humanizer's trigger: the first pass, or lower-cased feedback containing "reads like ai" (its behaviour on judge feedback is `ScrambleTrigger`) |
| Graph.RawScore | detector.py:37-58 | The judge's raw score: the detector's number, 0.5 when the detector failed (detector.py:56-58), and none when the score is not a number, which makes the judge raise |
| Graph.Cycle | graph.py:82-173 | One pass generator, humanizer, judge: it fails iff the model call raises or the detector's score is not a number; otherwise the counter goes up by one and history holds one entry |
| Graph.Exec | graph.py:188-198 | The run as the graph's edges describe it: cycles until `should_continue` says end or a cycle raises (its bounds are `ExecBounds`) |
| Judge.TooLong | graph.py:133-135 | `new_len > orig_len * 1.10` holds iff 10 times the draft's word count exceeds 11 times the original's |
| Judge.TooShort | graph.py:133-136 | `new_len < orig_len * 0.85` holds iff 20 times the draft's word count is below 17 times the original's |
| Judge.FoundBanned | graph.py:141-158 | The banned words named in the feedback are drawn from the eight-word list, so there are at most eight (membership is `OccurringMembers`) |
| Judge.HasArtifacts | graph.py:161-162 | The artifact test: " picture calculation " or " logic box " occurs in the text as written (see `ArtifactScanMatches`, `ArtifactScanIsCaseSensitive`) |
| Judge.ScoreOf | graph.py:149-159 | The penalised score is at least the raw score and equals it when the raw score is at least 0.5 |
| Judge.FeedbackOf | graph.py:144-165 | The fired clauses joined by single spaces, or "Good." when none fired (the equivalence is `FeedbackIsGoodIffNothingFires`) |
| Text.Words | graph.py:133-134 | `str.split()` yields non-empty words without whitespace |
| Text.WordCountIsWordStarts | graph.py:133-134 | `len(s.split())` equals the number of positions holding a non-whitespace character at the start of the text or after whitespace |
| Text.Lower | graph.py:139 | `str.lower()` keeps the length and leaves no upper-case ASCII letter |
| Text.Contains | graph.py:142 | The substring test `p in s` (its meaning is `ContainsIffOccurs`) |
| Text.Join | graph.py:158 | `sep.join(parts)`: the parts with `sep` between neighbours (see `JoinStartsWithFirst`) |
| Text.NatToString | graph.py:150-154 | `str(n)` for a word count is a non-empty string of digits that reads back as `n` |
| Text.Strip | graph.py:86 | `str.strip()` returns a substring of the input, no longer than it, with no whitespace at either end |

## Left out

- The language model call and the prompt texts (graph.py:21-25, 35-82). The reply of
  each cycle is an arbitrary script entry. A missing entry means the call raised and the
  whole run aborts.
- The detector's code-fence strip and JSON parsing (detector.py:37-58). Each cycle's
  answer is a script entry with three outcomes. A number is used as the raw score. A
  failure inside the detector gives its fallback 0.5 (detector.py:56-58). A "score"
  field that is not a number (a string, null, a list or an object) aborts the run at
  graph.py:146. A JSON `true` or `false` counts as the number 1 or 0. A NaN score
  (which `json.loads` accepts) is not modelled, since scores are exact reals.
- The three translator hops and the `time.sleep` pauses (graph.py:109-118). They are one
  fallible oracle per cycle. A missing entry means some hop raised.
- `print` logging, `load_dotenv`, the Streamlit front end apart from its initial state
  literal, and the graph library's compile and runtime. The graph's edges are an explicit
  loop.
- The unused `forbidden_words` list (graph.py:138), which affects nothing.
- Judge.TooLong: floating-point rounding of `orig_len * 1.10` and `orig_len * 0.85` at
  the exact boundary is not modelled. Both are exact rationals.
- Judge.ScoreOf: the penalties are added as exact reals, not IEEE doubles.
- Text.Lower: lower-cases ASCII letters only, whereas Python's `str.lower()` uses full
  Unicode case mapping. Only two non-ASCII characters lower-case to ASCII letters.
  KELVIN SIGN (U+212A) becomes "k", and no banned word holds a "k". LATIN CAPITAL
  LETTER I WITH DOT ABOVE (U+0130) becomes "i" followed by U+0307. Every "i" in a banned
  word is followed by a letter, so that pair never completes a match. So the
  banned-word test gives the same answer under both mappings. The humanizer lower-cases
  only judge feedback, which is all ASCII.
