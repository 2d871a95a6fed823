/** The judge's deterministic rule set (graph.py, `judge_node`): the word-count
    bounds, the banned-word scan, the translation-artifact scan, the ordered
    feedback sentence and the penalised score. The detector's raw score is a
    parameter; the call that produces it belongs to the loop (module Graph). */
module Judge {
  import opened Text

  /** The words whose presence anywhere in the lower-cased text is penalised,
      in the order the feedback names them. */
  const BannedList: seq<string> :=
    ["delve", "tapestry", "leverage", "underscore", "crucial", "meticulous", "realm", "interplay"]

  /** Phrases left behind by the translation round trip, matched case-sensitively. */
  const PictureArtifact := " picture calculation "
  const LogicArtifact := " logic box "

  // The feedback clauses. The long literals are written as short fragments
  // so that the verifier can look at each one character by character.

  const AiClause := "Text still " + "reads like AI. " + "Vary your sentence " + "structure more."

  /** What the two length clauses share after their heads: both counts and the
      technique to use. */
  function CountsTail(newLen: nat, origLen: nat, hint: string): string {
    NatToString(newLen) + " words vs " + NatToString(origLen) + " orig). Use " + hint
  }

  function VerboseClause(newLen: nat, origLen: nat): string {
    "Text is too verbose (" + CountsTail(newLen, origLen, "'Nominalization'.")
  }

  function ShortClause(newLen: nat, origLen: nat): string {
    "Text is too short (" + CountsTail(newLen, origLen, "'Expansion'.")
  }

  function BannedClause(found: seq<string>): string {
    "You used banned " + "AI words (" + Join(", ", found) + "). Remove them."
  }

  const ArtifactClause := "Translation " + "artifacts detected. " + "Fix awkward phrasing."

  /** The feedback when no rule fires. */
  const Good := "Good."

  // ---------------------------------------------------------------------------
  // The rules, as functions of (raw score, text, original)
  // ---------------------------------------------------------------------------

  /** `new_len > orig_len * 1.10`, with 1.10 read as the exact rational 11/10. */
  predicate TooLong(newLen: nat, origLen: nat)
    ensures TooLong(newLen, origLen) <==> 10 * newLen > 11 * origLen
  {
    newLen as real > origLen as real * 1.10
  }

  /** `new_len < orig_len * 0.85`, with 0.85 read as the exact rational 17/20. */
  predicate TooShort(newLen: nat, origLen: nat)
    ensures TooShort(newLen, origLen) <==> 20 * newLen < 17 * origLen
  {
    newLen as real < origLen as real * 0.85
  }

  /** `[w for w in words if w in lowerText]`: the words that occur in the text,
      in list order. */
  function Occurring(words: seq<string>, lowerText: string): (found: seq<string>)
    ensures |found| <= |words|
    decreases |words|
  {
    if words == [] then []
    else (if Contains(lowerText, words[0]) then [words[0]] else []) + Occurring(words[1..], lowerText)
  }

  /** The banned words named in the feedback for a lower-cased text. */
  function FoundBanned(lowerText: string): (found: seq<string>)
    ensures |found| <= |BannedList|
  {
    Occurring(BannedList, lowerText)
  }

  predicate HasArtifacts(text: string) {
    Contains(text, PictureArtifact) || Contains(text, LogicArtifact)
  }

  /** What the judge measures of a text before applying its rules: the two
      word counts, the banned words found (in list order) and whether a
      translation artifact is present. */
  datatype Measures = Measures(newLen: nat, origLen: nat, banned: seq<string>, artifacts: bool)

  function Measure(text: string, original: string): Measures {
    Measures(WordCount(text), WordCount(original), FoundBanned(Lower(text)), HasArtifacts(text))
  }

  /** The clauses that fire, in rule order: AI-like, too long, too short,
      banned words, artifacts. The AI-like test reads the raw score. */
  function ClausesOf(raw: real, m: Measures): seq<string> {
    var afterAi := Fire([], raw > 0.30, AiClause);
    var afterLong := Fire(afterAi, TooLong(m.newLen, m.origLen), VerboseClause(m.newLen, m.origLen));
    var afterShort := Fire(afterLong, TooShort(m.newLen, m.origLen), ShortClause(m.newLen, m.origLen));
    var afterBanned := Fire(afterShort, m.banned != [], BannedClause(m.banned));
    Fire(afterBanned, m.artifacts, ArtifactClause)
  }

  /** One rule's contribution to the feedback list: its clause is appended
      when it fires. */
  function Fire(clauses: seq<string>, fired: bool, clause: string): seq<string> {
    if fired then clauses + [clause] else clauses
  }

  /** The feedback string: the fired clauses joined by single spaces, or
      "Good." when none fired. */
  function FeedbackOf(raw: real, m: Measures): string {
    var cs := ClausesOf(raw, m);
    if cs == [] then Good else Join(" ", cs)
  }

  /** One conditional penalty: added only while the running score is below 0.5. */
  function Penalize(score: real, fired: bool, amount: real): real {
    if fired && score < 0.5 then score + amount else score
  }

  /** The score after the three penalties, applied in rule order; never clamped. */
  function ScoreOf(raw: real, m: Measures): (score: real)
    ensures score >= raw
    ensures raw >= 0.5 ==> score == raw
  {
    var afterLong := Penalize(raw, TooLong(m.newLen, m.origLen), 0.1);
    var afterShort := Penalize(afterLong, TooShort(m.newLen, m.origLen), 0.1);
    Penalize(afterShort, m.banned != [], 0.2)
  }

  function Clauses(raw: real, text: string, original: string): seq<string> {
    ClausesOf(raw, Measure(text, original))
  }

  function Feedback(raw: real, text: string, original: string): string {
    FeedbackOf(raw, Measure(text, original))
  }

  function AdjustedScore(raw: real, text: string, original: string): real {
    ScoreOf(raw, Measure(text, original))
  }

  // ---------------------------------------------------------------------------
  // judge_node's body, step by step
  // ---------------------------------------------------------------------------

  /** `any(w in lowerText for w in banned_list)`. */
  method AnyBanned(lowerText: string) returns (has: bool)
    ensures has <==> exists k :: 0 <= k < |BannedList| && Contains(lowerText, BannedList[k])
  {
    has := false;
    var k := 0;
    while k < |BannedList| && !has
      invariant 0 <= k <= |BannedList|
      invariant has <==> exists m :: 0 <= m < k && Contains(lowerText, BannedList[m])
    {
      has := Contains(lowerText, BannedList[k]);
      k := k + 1;
    }
  }

  /** The list comprehension that names the banned words found. */
  method CollectBanned(lowerText: string) returns (found: seq<string>)
    ensures found == FoundBanned(lowerText)
  {
    found := [];
    var k := |BannedList|;
    while k > 0
      invariant 0 <= k <= |BannedList|
      invariant found == Occurring(BannedList[k..], lowerText)
    {
      k := k - 1;
      assert BannedList[k..][1..] == BannedList[k + 1..];
      if Contains(lowerText, BannedList[k]) {
        found := [BannedList[k]] + found;
      }
    }
  }

  /** The judge on `text` given the detector's raw score: it measures the
      text against the original, then applies the rules. The banned words are
      named only when some banned word occurs. */
  method Evaluate(raw: real, text: string, original: string) returns (score: real, feedback: string)
    ensures score == AdjustedScore(raw, text, original)
    ensures feedback == Feedback(raw, text, original)
  {
    var origLen := WordCount(original);
    var newLen := WordCount(text);
    var lowerText := Lower(text);
    var hasBanned := AnyBanned(lowerText);
    var names: seq<string> := [];
    if hasBanned {
      names := CollectBanned(lowerText);
    }
    FoundBannedNonEmpty(lowerText);
    var m := Measures(newLen, origLen, names, HasArtifacts(text));
    assert m == Measure(text, original);
    score, feedback := Verdict(raw, m);
  }

  /** The rules applied to a measured text: the feedback list is built clause
      by clause, and the score is raised by each penalty that applies while it
      is still below 0.5. */
  method Verdict(raw: real, m: Measures) returns (score: real, feedback: string)
    ensures score == ScoreOf(raw, m)
    ensures feedback == FeedbackOf(raw, m)
  {
    score := raw;
    var isTooLong := TooLong(m.newLen, m.origLen);
    var isTooShort := TooShort(m.newLen, m.origLen);
    var clauses: seq<string> := [];
    if score > 0.30 {
      clauses := clauses + [AiClause];
    }
    ghost var c1, s1 := clauses, score;
    if isTooLong {
      clauses := clauses + [VerboseClause(m.newLen, m.origLen)];
      if score < 0.5 { score := score + 0.1; }
    }
    assert clauses == Fire(c1, isTooLong, VerboseClause(m.newLen, m.origLen));
    assert score == Penalize(s1, isTooLong, 0.1);
    ghost var c2, s2 := clauses, score;
    if isTooShort {
      clauses := clauses + [ShortClause(m.newLen, m.origLen)];
      if score < 0.5 { score := score + 0.1; }
    }
    assert clauses == Fire(c2, isTooShort, ShortClause(m.newLen, m.origLen));
    assert score == Penalize(s2, isTooShort, 0.1);
    ghost var c3, s3 := clauses, score;
    if m.banned != [] {
      clauses := clauses + [BannedClause(m.banned)];
      if score < 0.5 { score := score + 0.2; }
    }
    assert clauses == Fire(c3, m.banned != [], BannedClause(m.banned));
    assert score == Penalize(s3, m.banned != [], 0.2);
    ghost var c4 := clauses;
    if m.artifacts {
      clauses := clauses + [ArtifactClause];
    }
    assert clauses == Fire(c4, m.artifacts, ArtifactClause);
    feedback := if clauses != [] then Join(" ", clauses) else Good;
  }

  // ---------------------------------------------------------------------------
  // What the rules promise
  // ---------------------------------------------------------------------------

  /** A word is named by the comprehension exactly when it is in the list and
      occurs in the text. */
  lemma {:induction false} OccurringMembers(words: seq<string>, lowerText: string, w: string)
    ensures w in Occurring(words, lowerText) <==> w in words && Contains(lowerText, w)
    decreases |words|
  {
    if words != [] {
      OccurringMembers(words[1..], lowerText, w);
      assert words == [words[0]] + words[1..];
    }
  }

  /** The comprehension is empty exactly when `any(...)` is false. */
  lemma FoundBannedNonEmpty(lowerText: string)
    ensures FoundBanned(lowerText) != [] <==> exists k :: 0 <= k < |BannedList| && Contains(lowerText, BannedList[k])
  {
    var found := FoundBanned(lowerText);
    if found != [] {
      OccurringMembers(BannedList, lowerText, found[0]);
    }
    if exists k :: 0 <= k < |BannedList| && Contains(lowerText, BannedList[k]) {
      var k :| 0 <= k < |BannedList| && Contains(lowerText, BannedList[k]);
      OccurringMembers(BannedList, lowerText, BannedList[k]);
    }
  }

  /** The banned-word test is a substring test: "crucially" is reported as the
      banned word "crucial". */
  lemma CruciallyCountsAsCrucial()
    ensures "crucial" in FoundBanned(Lower("Crucially, the results hold."))
  {
    var t := Lower("Crucially, the results hold.");
    assert "crucial" <= t;
    OccurringMembers(BannedList, t, "crucial");
  }

  /** A phrase holding a character that the text lacks cannot occur in it. */
  lemma MissingCharExcludes(s: string, p: string, c: char)
    requires c in p && c !in s
    ensures !Contains(s, p)
  {
    ContainsIffOccurs(s, p);
  }

  /** The artifact scan finds " logic box " in a text made of just that phrase. */
  lemma ArtifactScanMatches()
    ensures HasArtifacts(" logic box ")
  {
    assert LogicArtifact <= " logic box ";
  }

  /** The artifact scan is case-sensitive: " Logic Box " is not an artifact. */
  lemma ArtifactScanIsCaseSensitive()
    ensures !HasArtifacts(" Logic Box ")
  {
    var s := " Logic Box ";
    assert 'p' !in s && 'l' !in s;
    MissingCharExcludes(s, PictureArtifact, 'p');
    MissingCharExcludes(s, LogicArtifact, 'l');
  }

  // ---------------------------------------------------------------------------
  // The score
  // ---------------------------------------------------------------------------

  /** The length flags exclude each other, even for an empty original. */
  lemma LengthFlagsExclusive(newLen: nat, origLen: nat)
    ensures !(TooLong(newLen, origLen) && TooShort(newLen, origLen))
    ensures origLen == 0 ==> !TooShort(newLen, origLen) && (TooLong(newLen, origLen) <==> newLen > 0)
  {
  }

  /** The adjusted score never falls below the raw score, is left alone from
      0.5 up, and stays below 0.7 when the raw score is below 0.5; nothing
      clamps it into [0, 1]. */
  lemma ScoreBounds(raw: real, text: string, original: string)
    ensures AdjustedScore(raw, text, original) >= raw
    ensures raw >= 0.5 ==> AdjustedScore(raw, text, original) == raw
    ensures raw < 0.5 ==> AdjustedScore(raw, text, original) < 0.7
  {
    var m := Measure(text, original);
    LengthFlagsExclusive(m.newLen, m.origLen);
  }

  /** Raw 0.2 on a text that is too long and holds a banned word scores
      0.2 + 0.1 + 0.2 = 0.5, and the verbosity clause precedes the banned-word
      clause. */
  lemma PenaltiesAccumulate(text: string, original: string)
    requires 10 * WordCount(text) == 12 * WordCount(original) && WordCount(original) > 0
    requires FoundBanned(Lower(text)) != [] && !HasArtifacts(text)
    ensures AdjustedScore(0.2, text, original) == 0.5
    ensures Clauses(0.2, text, original)
         == [VerboseClause(WordCount(text), WordCount(original)), BannedClause(FoundBanned(Lower(text)))]
  {
    var m := Measure(text, original);
    assert TooLong(m.newLen, m.origLen) && !TooShort(m.newLen, m.origLen);
    VerboseAndBanned(m);
  }

  /** The measurement-level form of the scenario above. */
  lemma VerboseAndBanned(m: Measures)
    requires TooLong(m.newLen, m.origLen) && !TooShort(m.newLen, m.origLen)
    requires m.banned != [] && !m.artifacts
    ensures ScoreOf(0.2, m) == 0.5
    ensures ClausesOf(0.2, m) == [VerboseClause(m.newLen, m.origLen), BannedClause(m.banned)]
  {
    assert Penalize(0.2, true, 0.1) == 0.3;
  }

  // ---------------------------------------------------------------------------
  // The feedback string
  // ---------------------------------------------------------------------------

  /** None of the words in `ws` holds a capital T or a k in either case. */
  ghost predicate PlainWords(ws: seq<string>) {
    forall k :: 0 <= k < |ws| ==> NoT(ws[k]) && NoK(ws[k])
  }

  /** The comprehension keeps only words of its list, so it keeps plainness. */
  lemma {:induction false} OccurringPlain(words: seq<string>, lowerText: string)
    requires PlainWords(words)
    ensures PlainWords(Occurring(words, lowerText))
    decreases |words|
  {
    if words != [] {
      OccurringPlain(words[1..], lowerText);
    }
  }

  /** The banned words a measurement reports are plain, like every word of
      the fixed list. */
  lemma MeasurePlainNames(text: string, original: string)
    ensures PlainWords(Measure(text, original).banned)
  {
    BannedListPlain();
    OccurringPlain(BannedList, Lower(text));
  }

  /** The feedback is exactly "Good." when no rule fires; otherwise it starts
      with the first fired clause, whose first letter is 'T' or 'Y'. */
  lemma FeedbackIsGoodIffNothingFires(raw: real, text: string, original: string)
    ensures Feedback(raw, text, original) == Good <==>
      (raw <= 0.30 && !TooLong(WordCount(text), WordCount(original))
       && !TooShort(WordCount(text), WordCount(original))
       && FoundBanned(Lower(text)) == [] && !HasArtifacts(text))
  {
    FeedbackOfIsGoodIffNoClause(raw, Measure(text, original));
  }

  /** No clause begins with 'G', so a joined list of clauses is never "Good.". */
  lemma FeedbackOfIsGoodIffNoClause(raw: real, m: Measures)
    ensures FeedbackOf(raw, m) == Good <==> ClausesOf(raw, m) == []
  {
    var cs := ClausesOf(raw, m);
    if cs != [] {
      var first :=
        if raw > 0.30 then AiClause
        else if TooLong(m.newLen, m.origLen) then VerboseClause(m.newLen, m.origLen)
        else if TooShort(m.newLen, m.origLen) then ShortClause(m.newLen, m.origLen)
        else if m.banned != [] then BannedClause(m.banned)
        else ArtifactClause;
      assert cs[0] == first;
      assert first[0] != 'G';
      JoinStartsWithFirst(" ", cs);
      assert FeedbackOf(raw, m)[0] == first[0];
    }
  }

  /** Free of capital T. */
  ghost predicate NoT(s: string) {
    'T' !in s
  }

  /** Free of k in either case. */
  ghost predicate NoK(s: string) {
    'k' !in s && 'K' !in s
  }

  lemma NoKGuarded(s: string)
    requires NoK(s)
    ensures PrecededSafely(Lower(s), 'i', 'k')
  {
    LowerAvoids(s, 'k');
  }

  /** A head that keeps the T-guard followed by a tail without T keeps it. */
  lemma NoTTail(head: string, tail: string)
    requires FollowedSafely(head, 'T', 'o') && NoT(tail)
    ensures FollowedSafely(head + tail, 'T', 'o')
  {
    assert FollowedSafely(tail, 'T', 'o');
    FollowedSafelyAppend(head, tail, 'T', 'o');
  }

  lemma BannedListPlain()
    ensures PlainWords(BannedList)
  {
  }

  /** Digits hold none of the letters the two guards look for. */
  lemma NumbersPlain(n: nat)
    ensures NoT(NatToString(n)) && NoK(NatToString(n))
  {
  }

  /** The clause heads that hold a capital T: each T is followed by 'e' or 'r'. */
  lemma HeadsGuarded()
    ensures FollowedSafely("Text still ", 'T', 'o')
    ensures FollowedSafely("Text is too verbose (", 'T', 'o')
    ensures FollowedSafely("Text is too short (", 'T', 'o')
    ensures FollowedSafely("Translation ", 'T', 'o')
  {
  }

  lemma AiClauseFollowedSafely()
    ensures FollowedSafely(AiClause, 'T', 'o')
  {
    var head, mid, tail := "Text still ", "reads like AI. ", "Vary your sentence " + "structure more.";
    assert AiClause == head + (mid + tail);
    assert NoT(mid) && NoT("Vary your sentence ") && NoT("structure more.");
    HeadsGuarded();
    NoTTail(head, mid + tail);
  }

  lemma AiClauseMentionsAi()
    ensures Contains(Lower(AiClause), "reads like ai")
  {
    var head, mid, tail := "Text still ", "reads like AI. ", "Vary your sentence " + "structure more.";
    assert AiClause == head + mid + tail;
    LowerAppend(head + mid, tail);
    LowerAppend(head, mid);
    assert Lower(mid) == "reads like ai. ";
    assert "reads like ai" <= Lower(mid);
    ContainsInRight(Lower(head), Lower(mid), "reads like ai");
    ContainsInLeft(Lower(head + mid), Lower(tail), "reads like ai");
  }

  /** A guarded head followed by a tail free of both letters keeps both guards. */
  lemma GuardedClause(head: string, tail: string)
    requires FollowedSafely(head, 'T', 'o') && NoK(head)
    requires NoT(tail) && NoK(tail)
    ensures FollowedSafely(head + tail, 'T', 'o')
    ensures PrecededSafely(Lower(head + tail), 'i', 'k')
  {
    NoTTail(head, tail);
    NoKGuarded(head + tail);
  }

  lemma CountsTailPlain(newLen: nat, origLen: nat, hint: string)
    requires NoT(hint) && NoK(hint)
    ensures NoT(CountsTail(newLen, origLen, hint)) && NoK(CountsTail(newLen, origLen, hint))
  {
    NumbersPlain(newLen);
    NumbersPlain(origLen);
    assert NoT(" words vs ") && NoK(" words vs ");
    assert NoT(" orig). Use ") && NoK(" orig). Use ");
  }

  lemma VerboseClauseGuarded(newLen: nat, origLen: nat)
    ensures FollowedSafely(VerboseClause(newLen, origLen), 'T', 'o')
    ensures PrecededSafely(Lower(VerboseClause(newLen, origLen)), 'i', 'k')
  {
    var hint := "'Nominalization'.";
    assert NoT(hint) && NoK(hint);
    CountsTailPlain(newLen, origLen, hint);
    HeadsGuarded();
    assert NoK("Text is too verbose (");
    GuardedClause("Text is too verbose (", CountsTail(newLen, origLen, hint));
  }

  lemma ShortClauseGuarded(newLen: nat, origLen: nat)
    ensures FollowedSafely(ShortClause(newLen, origLen), 'T', 'o')
    ensures PrecededSafely(Lower(ShortClause(newLen, origLen)), 'i', 'k')
  {
    var hint := "'Expansion'.";
    assert NoT(hint) && NoK(hint);
    CountsTailPlain(newLen, origLen, hint);
    HeadsGuarded();
    assert NoK("Text is too short (");
    GuardedClause("Text is too short (", CountsTail(newLen, origLen, hint));
  }

  /** Joining pieces free of both letters with a separator free of them
      leaves a string free of them. */
  lemma {:induction false} JoinPlain(sep: string, parts: seq<string>)
    requires NoT(sep) && NoK(sep)
    requires PlainWords(parts)
    ensures NoT(Join(sep, parts)) && NoK(Join(sep, parts))
    decreases |parts|
  {
    if |parts| > 1 {
      JoinPlain(sep, parts[1..]);
    }
  }

  lemma BannedClauseGuarded(found: seq<string>)
    requires PlainWords(found)
    ensures FollowedSafely(BannedClause(found), 'T', 'o')
    ensures PrecededSafely(Lower(BannedClause(found)), 'i', 'k')
  {
    BannedPiecesPlain();
    JoinPlain(", ", found);
    var names := Join(", ", found);
    var head, tail := "You used banned " + "AI words (", "). Remove them.";
    assert BannedClause(found) == head + (names + tail);
    NoTFollowedSafely(head);
    GuardedClause(head, names + tail);
  }

  /** The fixed pieces of the banned-word clause. */
  lemma BannedPiecesPlain()
    ensures NoT(", ") && NoK(", ")
    ensures NoT("You used banned " + "AI words (") && NoK("You used banned " + "AI words (")
    ensures NoT("). Remove them.") && NoK("). Remove them.")
  {
    assert NoT("You used banned ") && NoK("You used banned ");
    assert NoT("AI words (") && NoK("AI words (");
  }

  /** Without a capital T the guard holds trivially. */
  lemma NoTFollowedSafely(s: string)
    requires NoT(s)
    ensures FollowedSafely(s, 'T', 'o')
  {
  }

  /** The artifact clause's last sentence, lower-cased, has its one 'k' after a 'w'. */
  lemma ArtifactTailGuarded()
    ensures PrecededSafely(Lower("Fix awkward phrasing."), 'i', 'k')
  {
    var t := "Fix awkward phrasing.";
    forall i | 0 <= i < |t| && Lower(t)[i] == 'k' ensures 0 < i && Lower(t)[i - 1] != 'i' {
      assert t[i] == 'k';
    }
  }

  lemma ArtifactClauseGuarded()
    ensures FollowedSafely(ArtifactClause, 'T', 'o')
    ensures PrecededSafely(Lower(ArtifactClause), 'i', 'k')
  {
    var head, tail := "Translation " + "artifacts detected. ", "Fix awkward phrasing.";
    assert ArtifactClause == head + tail;
    assert NoT("artifacts detected. ") && NoK("artifacts detected. ") && NoK("Translation ");
    HeadsGuarded();
    GuardedClause("Translation ", "artifacts detected. ");
    assert FollowedSafely(tail, 'T', 'o');
    FollowedSafelyAppend(head, tail, 'T', 'o');
    ArtifactTailGuarded();
    LowerAppend(head, tail);
    PrecededSafelyAppend(Lower(head), Lower(tail), 'i', 'k');
  }

  /** Every clause keeps the T-guard; every clause but the AI-like one keeps
      the lower-case "ik" guard. */
  lemma ClausesGuarded(raw: real, m: Measures)
    requires PlainWords(m.banned)
    ensures forall k :: 0 <= k < |ClausesOf(raw, m)| ==> FollowedSafely(ClausesOf(raw, m)[k], 'T', 'o')
    ensures raw <= 0.30 ==>
      forall k :: 0 <= k < |ClausesOf(raw, m)| ==> PrecededSafely(Lower(ClausesOf(raw, m)[k]), 'i', 'k')
  {
    AiClauseFollowedSafely();
    VerboseClauseGuarded(m.newLen, m.origLen);
    ShortClauseGuarded(m.newLen, m.origLen);
    BannedClauseGuarded(m.banned);
    ArtifactClauseGuarded();
  }

  lemma FeedbackOfFollowedSafely(raw: real, m: Measures)
    requires PlainWords(m.banned)
    ensures FollowedSafely(FeedbackOf(raw, m), 'T', 'o')
  {
    var cs := ClausesOf(raw, m);
    if cs != [] {
      ClausesGuarded(raw, m);
      assert FollowedSafely(" ", 'T', 'o');
      JoinFollowedSafely(" ", cs, 'T', 'o');
    }
  }

  /** The capitalised phrase "Too verbose" never occurs in any feedback the
      judge produces (its own verbosity clause says "too verbose"). */
  lemma NoCapitalisedVerbose(raw: real, text: string, original: string)
    ensures !Contains(Feedback(raw, text, original), "Too verbose")
  {
    MeasurePlainNames(text, original);
    FeedbackOfFollowedSafely(raw, Measure(text, original));
    GuardExcludesVeto(Feedback(raw, text, original));
  }

  /** A string in which every capital T is followed by something other than
      'o' cannot hold "Too verbose". */
  lemma GuardExcludesVeto(f: string)
    requires FollowedSafely(f, 'T', 'o')
    ensures !Contains(f, "Too verbose")
  {
    FollowedSafelyExcludes(f, "Too verbose", 0, 'T', 'o');
  }

  lemma AiLikeFeedbackMentionsAi(raw: real, m: Measures)
    requires raw > 0.30
    ensures Contains(Lower(FeedbackOf(raw, m)), "reads like ai")
  {
    var cs := ClausesOf(raw, m);
    assert cs[0] == AiClause;
    var rest := if |cs| == 1 then "" else " " + Join(" ", cs[1..]);
    assert FeedbackOf(raw, m) == AiClause + rest;
    LowerAppend(AiClause, rest);
    AiClauseMentionsAi();
    ContainsInLeft(Lower(AiClause), Lower(rest), "reads like ai");
  }

  lemma PlainFeedbackOmitsAi(raw: real, m: Measures)
    requires raw <= 0.30 && PlainWords(m.banned)
    ensures !Contains(Lower(FeedbackOf(raw, m)), "reads like ai")
  {
    var cs := ClausesOf(raw, m);
    if cs == [] {
      assert NoK(Good);
      NoKGuarded(Good);
    } else {
      ClausesGuarded(raw, m);
      assert NoK(" ");
      NoKGuarded(" ");
      JoinLowerPrecededSafely(" ", cs, 'i', 'k');
    }
    PrecededSafelyExcludes(Lower(FeedbackOf(raw, m)), "reads like ai", 8, 'i', 'k');
  }

  /** The lower-cased feedback mentions "reads like ai" exactly when the raw
      detector score is above 0.30: only the AI-like clause says it. */
  lemma MentionsAiIffAiLike(raw: real, text: string, original: string)
    ensures Contains(Lower(Feedback(raw, text, original)), "reads like ai") <==> raw > 0.30
  {
    if raw > 0.30 {
      AiLikeFeedbackMentionsAi(raw, Measure(text, original));
    } else {
      MeasurePlainNames(text, original);
      PlainFeedbackOmitsAi(raw, Measure(text, original));
    }
  }
}
