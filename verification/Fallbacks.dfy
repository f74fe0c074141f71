// The two results the scheduler falls back on (crates/zcode-agentd/src/lib.rs): both fit the
// smallest result budget the store accepts.
module Fallbacks {
  import opened Prelude
  import opened TaskTypes
  import opened Json
  import opened ResultJson
  import opened StoreSpec

  function Bounded(outcome: Outcome, text: string, gap: string): TaskResult {
    TaskResult(outcome, text, true, None, None, [], None, [], [gap], [])
  }

  // `bounded_cancelled_task_result`
  const CANCELLED := Bounded(Cancelled, "task cancelled", "CANCELLED")

  // `bounded_result_invalid_task_result`
  const RESULT_INVALID := Bounded(ResultInvalid, "result unavailable", "GENERAL_COMPLETION_PERSIST_FAILED")

  // What a list of fields can take: name, two quotes, colon and comma for each.
  function Allowance(fs: seq<Field>): nat {
    if fs == [] then 0 else |fs[0].name| + 4 + Size(fs[0].value) + Allowance(fs[1..])
  }

  predicate PlainNames(fs: seq<Field>) {
    forall i :: 0 <= i < |fs| ==> PlainText(fs[i].name)
  }

  lemma {:induction false} WithinAllowance(fs: seq<Field>)
    requires PlainNames(fs)
    ensures |RenderFields(fs)| <= Allowance(fs)
  {
    if fs != [] {
      PlainSize(fs[0].name);
      WithinAllowance(fs[1..]);
    }
  }

  lemma GapsSize(gap: string)
    requires PlainText(gap)
    ensures Size(StrArr([gap])) == |gap| + 4
  {
    TextSize(gap);
    var items := seq(1, i requires 0 <= i < 1 => JStr([gap][i]));
    assert StrArr([gap]) == JArr(items) && items == [JStr(gap)];
    assert items[1..] == [];
    assert RenderItems(items) == Render(JStr(gap)) + [] + RenderItems([]);
  }

  lemma OutcomeNames()
    ensures PlainText("outcome") && PlainText("final_text") && PlainText("partial")
  {
  }

  lemma CommitNames()
    ensures PlainText("base_commit") && PlainText("head_commit") && PlainText("changed_files")
  {
  }

  lemma ReportNames()
    ensures PlainText("diff_stat") && PlainText("checks") && PlainText("residual_gaps") && PlainText("artifacts")
  {
  }

  function Room(f: Field): nat { |f.name| + 4 + Size(f.value) }

  lemma AllowanceOfThree(a: Field, b: Field, c: Field)
    ensures Allowance([a, b, c]) == Room(a) + Room(b) + Room(c)
  {
    assert [a, b, c][1..] == [b, c] && [b, c][1..] == [c] && [c][1..] == [];
    assert Allowance([c]) == Room(c);
    assert Allowance([b, c]) == Room(b) + Room(c);
  }

  lemma AllowanceConcat(fs: seq<Field>, gs: seq<Field>)
    ensures Allowance(fs + gs) == Allowance(fs) + Allowance(gs)
  {
    if fs == [] {
      assert fs + gs == gs;
    } else {
      AllowanceConcat(fs[1..], gs);
      assert (fs + gs)[1..] == fs[1..] + gs;
    }
  }

  lemma AllowanceOfSeven(a: Field, b: Field, c: Field, d: Field, e: Field, f: Field, g: Field)
    ensures Allowance([a, b, c, d, e, f, g]) == Room(a) + Room(b) + Room(c) + Room(d) + Room(e) + Room(f) + Room(g)
  {
    AllowanceOfThree(a, b, c);
    AllowanceOfThree(d, e, f);
    AllowanceConcat([d, e, f], [g]);
    assert Allowance([g]) == Room(g);
    AllowanceConcat([a, b, c], [d, e, f] + [g]);
    assert [a, b, c] + ([d, e, f] + [g]) == [a, b, c, d, e, f, g];
  }

  // The length of an object whose fields split in two.
  lemma ObjectSize(fs: seq<Field>, gs: seq<Field>)
    requires PlainNames(fs) && PlainNames(gs)
    ensures Size(JObj(fs + gs)) <= Allowance(fs) + Allowance(gs) + 2
  {
    AllowanceConcat(fs, gs);
    WithinAllowance(fs + gs);
  }

  lemma EvidenceAllowance(outcome: Outcome, text: string, gap: string)
    requires PlainText(gap)
    ensures Allowance(EvidenceFields(Bounded(outcome, text, gap))) == 122 + |gap|
  {
    GapsSize(gap);
    AllowanceOfSeven(
      Field("base_commit", JNull), Field("head_commit", JNull), Field("changed_files", StrArr([])),
      Field("diff_stat", JNull), Field("checks", StrArr([])), Field("residual_gaps", StrArr([gap])),
      Field("artifacts", ResultArtifactsJson([])));
  }

  lemma OutcomeAllowance(outcome: Outcome, text: string, gap: string)
    requires PlainText(text)
    ensures Allowance(OutcomeFields(Bounded(outcome, text, gap))) <= 60 + |text|
  {
    TextSize(text);
    OutcomeNameSize(outcome);
    AllowanceOfThree(
      Field("outcome", JStr(OutcomeName(outcome))), Field("final_text", JStr(text)), Field("partial", JBool(true)));
  }

  lemma OutcomeNameSize(outcome: Outcome)
    ensures Size(JStr(OutcomeName(outcome))) <= 18
  {
    TextSize(OutcomeName(outcome));
  }

  lemma BoundedSize(outcome: Outcome, text: string, gap: string)
    requires PlainText(text) && PlainText(gap)
    ensures |CanonicalBytes(Bounded(outcome, text, gap))| <= 184 + |text| + |gap|
  {
    var r := Bounded(outcome, text, gap);
    CommitNames();
    ReportNames();
    OutcomeNames();
    OutcomeAllowance(outcome, text, gap);
    EvidenceAllowance(outcome, text, gap);
    ObjectSize(OutcomeFields(r), EvidenceFields(r));
  }

  // A partial result that reports nothing but a short text and one short gap.
  predicate Minimal(r: TaskResult, outcome: Outcome) {
    && outcome != Completed && |r.residualGaps| == 1
    && r == Bounded(outcome, r.finalText, r.residualGaps[0])
    && PlainText(r.finalText) && !Blank(r.finalText) && PlainText(r.residualGaps[0])
    && |r.finalText| + |r.residualGaps[0]| <= 100
  }

  /** Such a result is valid and fits `MIN_RESULT_BYTES`, the floor of every accepted budget. */
  lemma MinimalFits(r: TaskResult, outcome: Outcome)
    requires Minimal(r, outcome)
    ensures ValidResult(r) && |CanonicalBytes(r)| <= MIN_RESULT_BYTES
  {
    BoundedSize(outcome, r.finalText, r.residualGaps[0]);
  }

  lemma CancelledTexts()
    ensures PlainText("task cancelled") && PlainText("CANCELLED")
  {
  }

  lemma ResultInvalidTexts()
    ensures PlainText("result unavailable") && PlainText("GENERAL_COMPLETION_PERSIST_FAILED")
  {
  }

  /** Both fallbacks of the scheduler are of this kind. */
  lemma FallbacksAreMinimal()
    ensures Minimal(CANCELLED, Cancelled) && Minimal(RESULT_INVALID, ResultInvalid)
  {
    CancelledTexts();
    ResultInvalidTexts();
    assert !IsWhitespace(CANCELLED.finalText[0]) && !IsWhitespace(RESULT_INVALID.finalText[0]);
  }
}
