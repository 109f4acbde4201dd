// phase-1-foundations/benchmark.py judge_item: answers are shown to the judge under the labels
// "Response 1".."Response N" in a shuffled order, and its scores are mapped back to the models.
module Judge {
  import opened Wrappers

  datatype Answer = Answer(model: string, content: string)

  // One value of the judge's "scores" object: not an object at all, an object without a usable score (absent,
  // null, or not convertible to an int), or a score with its reason.
  datatype Info = NotAnObject | NoScore | Unconvertible | Scored(score: int, reason: string)

  datatype Verdict = Verdict(score: int, reason: string)

  /******* Labels *******/

  function Digit(d: nat): char
    requires d < 10
  {
    "0123456789"[d]
  }

  function Decimal(n: nat): string {
    if n < 10 then [Digit(n)] else Decimal(n / 10) + [Digit(n % 10)]
  }

  function DigitValue(c: char): nat {
    if '0' <= c <= '9' then c as int - '0' as int else 0
  }

  function Value(s: string): nat {
    if s == [] then 0 else 10 * Value(s[..|s| - 1]) + DigitValue(s[|s| - 1])
  }

  lemma {:induction false} DecimalReadsBack(n: nat)
    ensures Value(Decimal(n)) == n
  {
    if n < 10 {
      assert Decimal(n)[..0] == [];
    } else {
      DecimalReadsBack(n / 10);
      assert Decimal(n)[..|Decimal(n)| - 1] == Decimal(n / 10);
    }
  }

  function Label(i: nat): string {
    "Response " + Decimal(i + 1)
  }

  lemma LabelsDistinct(i: nat, j: nat)
    requires Label(i) == Label(j)
    ensures i == j
  {
    assert Decimal(i + 1) == Label(i)[9..] == Label(j)[9..] == Decimal(j + 1);
    DecimalReadsBack(i + 1);
    DecimalReadsBack(j + 1);
  }

  // The labels are "Response 1", "Response 2" and so on.
  lemma LabelNumbersFromOne(i: nat)
    ensures Label(i)[..9] == "Response " && Value(Label(i)[9..]) == i + 1
    ensures Label(0) == "Response 1" && Label(9) == "Response 10"
  {
    assert Label(i)[9..] == Decimal(i + 1);
    DecimalReadsBack(i + 1);
    assert Decimal(10) == Decimal(1) + [Digit(0)];
  }

  // The answer shown under a label, if any.
  function ShownAs(order: seq<Answer>, lab: string): Option<Answer> {
    if order == [] then None
    else if lab == Label(|order| - 1) then Some(order[|order| - 1])
    else ShownAs(order[..|order| - 1], lab)
  }

  lemma {:induction false} ShownAsIsTheLabelled(order: seq<Answer>, lab: string)
    ensures ShownAs(order, lab).Some? ==>
      exists i: nat :: i < |order| && lab == Label(i) && ShownAs(order, lab) == Some(order[i])
    ensures forall i: nat :: i < |order| && lab == Label(i) ==> ShownAs(order, lab) == Some(order[i])
  {
    if order != [] {
      var n := |order| - 1;
      ShownAsIsTheLabelled(order[..n], lab);
      forall i: nat | i < |order| && lab == Label(i) ensures ShownAs(order, lab) == Some(order[i]) {
        if lab == Label(n) { LabelsDistinct(i, n); }
      }
      if lab != Label(n) && ShownAs(order, lab).Some? {
        var i: nat :| i < n && lab == Label(i) && ShownAs(order[..n], lab) == Some(order[..n][i]);
        assert ShownAs(order, lab) == Some(order[i]);
      }
    }
  }

  method Relabel(order: seq<Answer>) returns (labels: map<string, Answer>)
    ensures forall lab :: (lab in labels <==> ShownAs(order, lab).Some?)
    ensures forall lab :: lab in labels ==> ShownAs(order, lab) == Some(labels[lab])
  {
    labels := map[];
    for i := 0 to |order|
      invariant forall lab :: (lab in labels <==> ShownAs(order[..i], lab).Some?)
      invariant forall lab :: lab in labels ==> ShownAs(order[..i], lab) == Some(labels[lab])
    {
      assert order[..i + 1][..i] == order[..i];
      labels := labels[Label(i) := order[i]];
    }
    assert order[..|order|] == order;
  }

  /******* Mapping the scores back *******/

  function Clamp(score: int): int {
    var capped := if score < 5 then score else 5;
    if capped > 1 then capped else 1
  }

  function VerdictOf(info: Info): Verdict
    requires info.Scored?
  {
    Verdict(Clamp(info.score), info.reason)
  }

  // The verdict is the judge's own score, brought into 1..5, with the judge's own reason.
  ghost predicate IsVerdictOn(v: Verdict, info: Info) {
    && info.Scored? && v.reason == info.reason
    && v.score == (if info.score < 1 then 1 else if info.score > 5 then 5 else info.score)
  }

  // What a list of labelled scores says about the models behind the labels.
  function Unblind(order: seq<Answer>, scores: seq<(string, Info)>): map<string, Verdict> {
    if scores == [] then map[]
    else
      var before, (lab, info) := Unblind(order, scores[..|scores| - 1]), scores[|scores| - 1];
      var shown := ShownAs(order, lab);
      if shown.Some? && info.Scored? then before[shown.value.model := VerdictOf(info)] else before
  }

  // `scores` is the judge's "scores" object in its own order.
  method JudgeItem(order: seq<Answer>, scores: seq<(string, Info)>) returns (out: map<string, Verdict>)
    ensures out == Unblind(order, scores)
  {
    var labels := Relabel(order);
    out := map[];
    for n := 0 to |scores|
      invariant out == Unblind(order, scores[..n])
    {
      assert scores[..n + 1][..n] == scores[..n];
      var (lab, info) := scores[n];
      if lab in labels && info.Scored? {
        out := out[labels[lab].model := VerdictOf(info)];
      }
    }
    assert scores[..|scores|] == scores;
  }

  // Entry k scores the answer shown at place i.
  ghost predicate Scores(order: seq<Answer>, scores: seq<(string, Info)>, k: nat, i: nat) {
    k < |scores| && i < |order| && scores[k].0 == Label(i) && scores[k].1.Scored?
  }

  // Every verdict is the last score that the judge gave to an answer of that very model, under whatever label it
  // was shown, brought into 1..5; no other model appears.
  lemma {:induction false} EveryVerdictIsItsModels(order: seq<Answer>, scores: seq<(string, Info)>, model: string)
    requires model in Unblind(order, scores)
    ensures exists k: nat, i: nat :: Scores(order, scores, k, i) && order[i].model == model
              && Unblind(order, scores)[model] == VerdictOf(scores[k].1)
              && IsVerdictOn(Unblind(order, scores)[model], scores[k].1)
              && forall l: nat, j: nat :: k < l && Scores(order, scores, l, j) ==> order[j].model != model
    ensures 1 <= Unblind(order, scores)[model].score <= 5
  {
    var n := |scores| - 1;
    var (lab, info) := scores[n];
    var shown := ShownAs(order, lab);
    if shown.Some? && info.Scored? && shown.value.model == model {
      ShownAsIsTheLabelled(order, lab);
      var i: nat :| i < |order| && lab == Label(i) && shown == Some(order[i]);
      assert Scores(order, scores, n, i);
    } else {
      EveryVerdictIsItsModels(order, scores[..n], model);
      var k: nat, i: nat :| Scores(order, scores[..n], k, i) && order[i].model == model
              && Unblind(order, scores[..n])[model] == VerdictOf(scores[..n][k].1)
              && forall l: nat, j: nat :: k < l && Scores(order, scores[..n], l, j) ==> order[j].model != model;
      assert Scores(order, scores, k, i);
      forall l: nat, j: nat | k < l && Scores(order, scores, l, j) ensures order[j].model != model {
        if l < n { assert Scores(order, scores[..n], l, j); } else { ShownAsIsTheLabelled(order, lab); }
      }
    }
  }

  predicate DistinctModels(order: seq<Answer>) {
    forall i, j :: 0 <= i < j < |order| ==> order[i].model != order[j].model
  }

  // A JSON object has each key once.
  predicate DistinctLabels(scores: seq<(string, Info)>) {
    forall i, j :: 0 <= i < j < |scores| ==> scores[i].0 != scores[j].0
  }

  // Conversely every score given to a shown answer reaches its model.
  lemma {:induction false} EveryScoreArrives(order: seq<Answer>, scores: seq<(string, Info)>, k: nat, i: nat)
    requires DistinctModels(order) && DistinctLabels(scores) && Scores(order, scores, k, i)
    ensures order[i].model in Unblind(order, scores) && Unblind(order, scores)[order[i].model] == VerdictOf(scores[k].1)
    ensures IsVerdictOn(Unblind(order, scores)[order[i].model], scores[k].1)
  {
    var n := |scores| - 1;
    ShownAsIsTheLabelled(order, scores[n].0);
    if k < n {
      assert Scores(order, scores[..n], k, i);
      EveryScoreArrives(order, scores[..n], k, i);
      var shown := ShownAs(order, scores[n].0);
      if shown.Some? {
        var j: nat :| j < |order| && scores[n].0 == Label(j) && shown == Some(order[j]);
        assert j != i;
      }
    }
  }

  /******* Blinding is undone *******/

  // The judge scored every answer shown, each on its content alone, and nothing else.
  ghost predicate Honest(order: seq<Answer>, scores: seq<(string, Info)>, grade: string -> Info) {
    && DistinctLabels(scores)
    && (forall k: nat :: k < |scores| ==> GradedAs(order, scores, grade, k))
    && (forall i: nat :: i < |order| ==> exists k: nat :: k < |scores| && scores[k].0 == Label(i))
  }

  ghost predicate GradedAs(order: seq<Answer>, scores: seq<(string, Info)>, grade: string -> Info, k: nat)
    requires k < |scores|
  {
    exists i: nat :: i < |order| && scores[k].0 == Label(i) && scores[k].1 == grade(order[i].content)
  }

  // The verdicts are then the grades of the answers, whatever order they were shown in.
  lemma HonestVerdicts(order: seq<Answer>, scores: seq<(string, Info)>, grade: string -> Info, i: nat)
    requires DistinctModels(order) && Honest(order, scores, grade) && i < |order|
    ensures var g, out := grade(order[i].content), Unblind(order, scores);
      && (order[i].model in out <==> g.Scored?)
      && (g.Scored? ==> out[order[i].model] == VerdictOf(g) && IsVerdictOn(out[order[i].model], g))
  {
    var lab := Label(i);
    var k: nat :| k < |scores| && scores[k].0 == lab;
    GradeOf(order, scores, grade, k, i);
    if grade(order[i].content).Scored? {
      assert Scores(order, scores, k, i);
      EveryScoreArrives(order, scores, k, i);
    }
    if order[i].model in Unblind(order, scores) {
      OnlyGradedModels(order, scores, grade, order[i].model);
    }
  }

  lemma OnlyGradedModels(order: seq<Answer>, scores: seq<(string, Info)>, grade: string -> Info, model: string)
    requires Honest(order, scores, grade) && model in Unblind(order, scores)
    ensures exists j: nat :: j < |order| && order[j].model == model && grade(order[j].content).Scored?
  {
    EveryVerdictIsItsModels(order, scores, model);
    var l: nat, j: nat :| Scores(order, scores, l, j) && order[j].model == model
            && Unblind(order, scores)[model] == VerdictOf(scores[l].1);
    GradeOf(order, scores, grade, l, j);
  }

  lemma GradeOf(order: seq<Answer>, scores: seq<(string, Info)>, grade: string -> Info, k: nat, i: nat)
    requires Honest(order, scores, grade) && k < |scores| && i < |order| && scores[k].0 == Label(i)
    ensures scores[k].1 == grade(order[i].content)
  {
    assert GradedAs(order, scores, grade, k);
    var j: nat :| j < |order| && scores[k].0 == Label(j) && scores[k].1 == grade(order[j].content);
    LabelsDistinct(i, j);
  }

  // Two shuffles of the same answers, judged honestly, give the same verdicts.
  lemma ShuffleDoesNotMatter(order1: seq<Answer>, scores1: seq<(string, Info)>,
                             order2: seq<Answer>, scores2: seq<(string, Info)>,
                             grade: string -> Info)
    requires multiset(order1) == multiset(order2) && DistinctModels(order1) && DistinctModels(order2)
    requires Honest(order1, scores1, grade) && Honest(order2, scores2, grade)
    ensures Unblind(order1, scores1) == Unblind(order2, scores2)
  {
    SameVerdicts(order1, scores1, order2, scores2, grade);
    SameVerdicts(order2, scores2, order1, scores1, grade);
  }

  lemma SameVerdicts(order1: seq<Answer>, scores1: seq<(string, Info)>,
                     order2: seq<Answer>, scores2: seq<(string, Info)>,
                     grade: string -> Info)
    requires multiset(order1) == multiset(order2) && DistinctModels(order1) && DistinctModels(order2)
    requires Honest(order1, scores1, grade) && Honest(order2, scores2, grade)
    ensures var out1, out2 := Unblind(order1, scores1), Unblind(order2, scores2);
      forall m :: m in out1 ==> m in out2 && out2[m] == out1[m]
  {
    forall m | m in Unblind(order1, scores1)
      ensures m in Unblind(order2, scores2) && Unblind(order2, scores2)[m] == Unblind(order1, scores1)[m]
    {
      EveryVerdictIsItsModels(order1, scores1, m);
      var k: nat, i: nat :| Scores(order1, scores1, k, i) && order1[i].model == m
              && Unblind(order1, scores1)[m] == VerdictOf(scores1[k].1);
      HonestVerdicts(order1, scores1, grade, i);
      assert order1[i] in multiset(order2);
      var j: nat :| j < |order2| && order2[j] == order1[i];
      HonestVerdicts(order2, scores2, grade, j);
    }
  }
}
