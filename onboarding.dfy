/** The mentor questionnaire (preguntas-mentor.js): a cursor over seven
    questions and a dictionary of answers keyed by question id, with the
    resume-on-load rule, the back and next buttons, the Enter key on the
    text question, option and mentor picks, the progress bar and the
    summary rows. Index 7 (one past the last question) is the summary. */
module Onboarding {
  import opened Builtins

  datatype Kind = TextQuestion | OptionsQuestion

  datatype Question = Question(id: string, text: string, kind: Kind, options: seq<string>)

  /** The question ids, in order. */
  const QuestionIds: seq<string> := ["q1", "q2", "q3", "q4", "q5", "q6", "q7"]

  const Questions: seq<Question> := [
    Question(QuestionIds[0], "\U{00BF}C\U{00F3}mo te llamas o cu\U{00E1}l es tu apodo?", TextQuestion, []),
    Question(QuestionIds[1], "\U{00BF}En qu\U{00E9} gastas m\U{00E1}s?", OptionsQuestion,
      ["Comida", "Ropa", "Salidas", "Transporte", "Suscripciones"]),
    Question(QuestionIds[2], "Tu meta mensual (S/)", OptionsQuestion,
      ["500", "1000", "1500", "2000+", "Prefiero no decir"]),
    Question(QuestionIds[3], "\U{00BF}Quieres recordatorios inteligentes?", OptionsQuestion, ["S\U{00ED}", "No"]),
    Question(QuestionIds[4], "\U{00BF}Qu\U{00E9} estilo de mentor prefieres?", OptionsQuestion,
      ["Estricto", "Motivador", "Estrat\U{00E9}gico", "Chill"]),
    Question(QuestionIds[5], "\U{00BF}Cu\U{00E1}nto tiempo semanal planeas dedicar?", OptionsQuestion,
      ["15 min", "30 min", "1 hora", "2 horas", "M\U{00E1}s de 2 horas"]),
    Question(QuestionIds[6], "Elige tu mentor (luego podr\U{00E1}s cambiarlo)", OptionsQuestion, [])
  ]

  /** The index of the mentor question, whose options are the mentors. */
  const MentorQuestion: nat := 6

  datatype Mentor = Mentor(key: string, caption: string)

  const Mentors: seq<Mentor> := [
    Mentor("Saison", "Saison \U{2014} La Ardilla Visionaria"),
    Mentor("Kantu", "Kantu \U{2014} El Mono Peruano Emprendedor"),
    Mentor("Inti", "Inti \U{2014} El C\U{00F3}ndor Sabio"),
    Mentor("Sumaq", "Sumaq \U{2014} El Gato Andino Protector")
  ]

  /** A stored answer: a string (typed text or an option), or the
      {label, key} object of a mentor pick. */
  datatype Answer = Text(s: string) | Pick(caption: string, key: string)

  /** JavaScript truthiness of a stored answer: only the empty string is
      falsy. */
  predicate Truthy(a: Answer)
  {
    a.Pick? || a.s != ""
  }

  predicate Answered(answers: map<string, Answer>, i: nat)
    requires i < |QuestionIds|
  {
    QuestionIds[i] in answers && Truthy(answers[QuestionIds[i]])
  }

  lemma QuestionTable()
    ensures |Questions| == |QuestionIds| == 7 && |Mentors| == 4
    ensures forall i :: 0 <= i < |Questions| ==> Questions[i].id == QuestionIds[i]
    ensures forall i, j :: 0 <= i < j < |QuestionIds| ==> QuestionIds[i] != QuestionIds[j]
    ensures Questions[0].kind == TextQuestion
    ensures forall i :: 1 <= i < |Questions| ==> Questions[i].kind == OptionsQuestion
  {
  }

  // ---------------------------------------------------------------------
  // Resume on load.

  /** The first question without a truthy answer, or 7 when all have one. */
  function FirstUnanswered(answers: map<string, Answer>, from: nat): (i: nat)
    requires from <= |QuestionIds|
    ensures from <= i <= |QuestionIds|
    ensures forall j :: from <= j < i ==> Answered(answers, j)
    ensures i < |QuestionIds| ==> !Answered(answers, i)
    decreases |QuestionIds| - from
  {
    if from == |QuestionIds| || !Answered(answers, from) then from
    else FirstUnanswered(answers, from + 1)
  }

  /** When every question has a truthy answer the dictionary has at least
      seven keys, so the resume rule's clamp to the last question never
      takes effect. */
  lemma AllAnsweredMeansSevenKeys(answers: map<string, Answer>)
    requires FirstUnanswered(answers, 0) == |QuestionIds|
    ensures |answers.Keys| >= |QuestionIds|
  {
    QuestionTable();
    var ids := set i | 0 <= i < |QuestionIds| :: QuestionIds[i];
    assert ids == {"q1", "q2", "q3", "q4", "q5", "q6", "q7"};
    assert |ids| == 7;
    forall k | k in ids
      ensures k in answers.Keys
    {
      var i :| 0 <= i < |QuestionIds| && QuestionIds[i] == k;
      assert Answered(answers, i);
    }
    SubsetCard(ids, answers.Keys);
  }

  lemma {:induction false} SubsetCard<T>(a: set<T>, b: set<T>)
    requires a <= b
    ensures |a| <= |b|
    decreases |a|
  {
    if a != {} {
      var x :| x in a;
      SubsetCard(a - {x}, b - {x});
    }
  }

  // ---------------------------------------------------------------------
  // Progress bar and summary.

  /** The progress bar: round(idx / 7 * 100) on a question page, 100 on
      the summary. */
  function ProgressPercent(idx: nat): (pct: int)
    ensures idx < |Questions| ==>
      pct as real - 0.5 <= idx as real * 100.0 / 7.0 < pct as real + 0.5
    ensures idx < |Questions| ==> 0 <= pct <= 86
    ensures pct == 100 <==> idx >= |Questions|
  {
    if idx < |Questions| then
      var x := idx as real / |Questions| as real * 100.0;
      RoundWithin(x, 0, 86);
      Round(x)
    else 100
  }

  /** The bar grows with every step forward. */
  lemma ProgressIncreases(i: nat, j: nat)
    requires i < j <= |Questions|
    ensures ProgressPercent(i) < ProgressPercent(j)
  {
    var x := i as real / 7.0 * 100.0;
    var y := j as real / 7.0 * 100.0;
    assert y - x == (j - i) as real / 7.0 * 100.0;
  }

  /** The value of a summary row: a dash when unanswered, the label of a
      mentor pick, the stored string otherwise. */
  function SummaryValue(answers: map<string, Answer>, id: string): (v: string)
    ensures id !in answers ==> v == "\U{2014}"
    ensures id in answers && answers[id].Pick? ==> v == answers[id].caption
    ensures id in answers && answers[id].Text? ==> v == answers[id].s
  {
    if id !in answers then "\U{2014}"
    else match answers[id]
      case Pick(caption, _) => caption
      case Text(s) => s
  }

  /** The summary list: one (question text, value) row per question, in
      order. */
  function SummaryRows(answers: map<string, Answer>): (rows: seq<(string, string)>)
    ensures |rows| == |Questions|
    ensures forall i :: 0 <= i < |rows| ==> rows[i].0 == Questions[i].text
    ensures forall i :: 0 <= i < |rows| && Questions[i].id !in answers ==> rows[i].1 == "\U{2014}"
    ensures forall i :: 0 <= i < |rows| && Questions[i].id in answers ==>
      match answers[Questions[i].id]
      case Pick(caption, _) => rows[i].1 == caption
      case Text(s) => rows[i].1 == s
  {
    seq(|Questions|, i requires 0 <= i < |Questions| => (Questions[i].text, SummaryValue(answers, Questions[i].id)))
  }

  /** Where the page goes after the cursor has moved forward: the question
      at the new index, or the summary once it reaches 7. */
  datatype Screen = Unchanged | Page(index: nat) | Summary

  function AfterAdvance(idx: nat): (s: Screen)
    ensures idx < |Questions| ==> s == Page(idx)
    ensures idx >= |Questions| ==> s == Summary
  {
    if idx < |Questions| then Page(idx) else Summary
  }

  /** One submission of typed text on question i0: a blank trimmed input
      changes nothing; otherwise the trimmed text is stored under the
      question's id and the cursor moves one forward. */
  predicate TextStep(i0: nat, a0: map<string, Answer>, input: string,
                     i1: nat, a1: map<string, Answer>, screen: Screen)
    requires i0 < |Questions|
  {
    if Trim(input) == "" then i1 == i0 && a1 == a0 && screen == Unchanged
    else a1 == a0[Questions[i0].id := Text(Trim(input))] && i1 == i0 + 1 && screen == AfterAdvance(i1)
  }

  // ---------------------------------------------------------------------
  // The questionnaire state.

  class Questionnaire {
    var idx: nat
    var answers: map<string, Answer>

    ghost predicate Valid()
      reads this
    {
      idx <= |Questions|
    }

    /** The answers read from storage; the cursor is set by Resume. */
    constructor(stored: map<string, Answer>)
      ensures Valid() && idx == 0 && answers == stored
    {
      idx, answers := 0, stored;
    }

    /** init: with at least seven stored keys the summary is shown;
        otherwise the cursor walks to the first question without a truthy
        answer. */
    method Resume() returns (screen: Screen)
      modifies this
      ensures Valid()
      ensures answers == old(answers)
      ensures |answers.Keys| >= |Questions| ==> idx == |Questions| && screen == Summary
      ensures |answers.Keys| < |Questions| ==> idx == FirstUnanswered(answers, 0) < |Questions| && screen == Page(idx)
    {
      QuestionTable();
      if |answers.Keys| >= |Questions| {
        idx := |Questions|;
        return Summary;
      }
      var i := 0;
      while i < |Questions| && QuestionIds[i] in answers && Truthy(answers[QuestionIds[i]])
        invariant 0 <= i <= |Questions|
        invariant FirstUnanswered(answers, i) == FirstUnanswered(answers, 0)
      {
        i := i + 1;
      }
      if FirstUnanswered(answers, 0) == |QuestionIds| {
        AllAnsweredMeansSevenKeys(answers);
      }
      if i >= |Questions| {
        i := |Questions| - 1;
      }
      idx := i;
      screen := Page(idx);
    }

    /** The back button: one question back, never below the first. */
    method Back() returns (screen: Screen)
      requires Valid()
      modifies this
      ensures Valid()
      ensures old(idx) > 0 ==> idx == old(idx) - 1 && screen == Page(idx)
      ensures old(idx) == 0 ==> idx == 0 && screen == Unchanged
      ensures answers == old(answers)
    {
      if idx > 0 {
        idx := idx - 1;
        return Page(idx);
      }
      return Unchanged;
    }

    /** Records a typed answer: a blank trimmed input changes nothing,
        otherwise the trimmed text is stored and the cursor advances. */
    method SubmitText(input: string) returns (screen: Screen)
      requires Valid() && idx < |Questions|
      modifies this
      ensures Valid()
      ensures TextStep(old(idx), old(answers), input, idx, answers, screen)
    {
      var v := Trim(input);
      if v == "" {
        return Unchanged;
      }
      answers := answers[Questions[idx].id := Text(v)];
      idx := idx + 1;
      screen := AfterAdvance(idx);
    }

    /** The Enter key in the text box, which exists only on the text
        question. */
    method Enter(input: string) returns (screen: Screen)
      requires Valid() && idx < |Questions| && Questions[idx].kind == TextQuestion
      modifies this
      ensures Valid()
      ensures TextStep(old(idx), old(answers), input, idx, answers, screen)
    {
      screen := SubmitText(input);
    }

    /** The next button. On the text question it behaves like Enter; on an
        options question it advances, recording nothing, exactly when an
        option is currently marked selected (`selected`). On the summary
        there is no current question and the handler fails before changing
        anything. */
    method Next(input: string, selected: bool) returns (screen: Screen)
      requires Valid()
      modifies this
      ensures Valid()
      ensures old(idx) == |Questions| ==> idx == old(idx) && answers == old(answers) && screen == Unchanged
      ensures old(idx) < |Questions| && Questions[old(idx)].kind == TextQuestion ==>
        TextStep(old(idx), old(answers), input, idx, answers, screen)
      ensures old(idx) < |Questions| && Questions[old(idx)].kind == OptionsQuestion ==>
        (answers == old(answers) && idx == (if selected then old(idx) + 1 else old(idx))
         && screen == (if selected then AfterAdvance(idx) else Unchanged))
    {
      if idx == |Questions| {
        return Unchanged;
      }
      if Questions[idx].kind == TextQuestion {
        screen := SubmitText(input);
      } else if selected {
        idx := idx + 1;
        screen := AfterAdvance(idx);
      } else {
        screen := Unchanged;
      }
    }

    /** A click on option k of an ordinary options question: the option's
        text is stored and the cursor advances. */
    method ChooseOption(k: nat) returns (screen: Screen)
      requires Valid() && idx < |Questions| && idx != MentorQuestion
      requires Questions[idx].kind == OptionsQuestion && k < |Questions[idx].options|
      modifies this
      ensures Valid()
      ensures answers == old(answers)[Questions[old(idx)].id := Text(Questions[old(idx)].options[k])]
      ensures idx == old(idx) + 1 && screen == AfterAdvance(idx)
    {
      answers := answers[Questions[idx].id := Text(Questions[idx].options[k])];
      idx := idx + 1;
      screen := AfterAdvance(idx);
    }

    /** A click on mentor m on the mentor question: {label, key} is stored
        under q7 and the summary follows. */
    method PickMentor(m: nat) returns (screen: Screen)
      requires Valid() && idx == MentorQuestion && m < |Mentors|
      modifies this
      ensures Valid()
      ensures answers == old(answers)["q7" := Pick(Mentors[m].caption, Mentors[m].key)]
      ensures idx == |Questions| && screen == Summary
    {
      QuestionTable();
      answers := answers[Questions[idx].id := Pick(Mentors[m].caption, Mentors[m].key)];
      idx := idx + 1;
      screen := AfterAdvance(idx);
    }
  }

  /** After a mentor pick the summary's last row shows that mentor's label,
      and an option pick shows the option's text on its row. */
  lemma SummaryShowsPicks(answers: map<string, Answer>, m: nat, i: nat, k: nat)
    requires m < |Mentors| && 1 <= i < MentorQuestion && k < |Questions[i].options|
    ensures SummaryRows(answers["q7" := Pick(Mentors[m].caption, Mentors[m].key)])[MentorQuestion].1 == Mentors[m].caption
    ensures SummaryRows(answers[Questions[i].id := Text(Questions[i].options[k])])[i].1 == Questions[i].options[k]
  {
    QuestionTable();
  }
}
