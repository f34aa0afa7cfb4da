/** The multiplication quiz that a collected smoke bomb opens: question and
    answer-option generation, answer counting, question advance, and the
    smoke bombs granted at the end. */
module MathQuiz {
  import opened Text
  import opened HeroEntity
  import opened Game
  import opened Common

  const QuestionCount: nat := 3
  const OptionCount: nat := 4

  /** `Math.floor(Math.random() * 7) + 3` for the draw `roll`. */
  function Factor(roll: real): (n: int)
    requires 0.0 <= roll < 1.0
    ensures 3 <= n <= 9
  {
    (roll * 7.0).Floor + 3
  }

  /** `Math.floor(Math.random() * 10) - 5` for the draw `roll`. */
  function Offset(roll: real): (d: int)
    requires 0.0 <= roll < 1.0
    ensures -5 <= d <= 4
  {
    (roll * 10.0).Floor - 5
  }

  predicate Rolls(draws: seq<real>) {
    forall k :: 0 <= k < |draws| ==> 0.0 <= draws[k] < 1.0
  }

  predicate Distinct(s: seq<string>) {
    forall i, j :: 0 <= i < j < |s| ==> s[i] != s[j]
  }

  /** The texts every option of a question with product `p` is drawn from:
      the numbers p-5 .. p+4. */
  function Candidates(p: int): (c: seq<string>)
    ensures |c| == 10
    ensures forall j :: 0 <= j < 10 ==> c[j] == IntToString(p - 5 + j)
  {
    seq(10, j requires 0 <= j < 10 => IntToString(p - 5 + j))
  }

  /** The options built so far and how many draws the loop consumed. */
  datatype Filled = Filled(options: seq<string>, used: nat)

  /** The option loop: each draw proposes the product plus an offset, which
      is kept when it is positive and not yet among the options; the loop
      stops at four options. A finite supply of draws stands for the
      source's unbounded calls to `Math.random`. */
  function Fill(p: int, options: seq<string>, draws: seq<real>): Filled
    requires Rolls(draws)
    decreases |draws|
  {
    if |options| >= OptionCount || draws == [] then Filled(options, 0)
    else
      var wrong := p + Offset(draws[0]);
      var next := if wrong > 0 && IntToString(wrong) !in options then options + [IntToString(wrong)] else options;
      var f := Fill(p, next, draws[1..]);
      Filled(f.options, f.used + 1)
  }

  /** The same loop without the positivity test. */
  function FillDistinct(p: int, options: seq<string>, draws: seq<real>): Filled
    requires Rolls(draws)
    decreases |draws|
  {
    if |options| >= OptionCount || draws == [] then Filled(options, 0)
    else
      var wrong := IntToString(p + Offset(draws[0]));
      var next := if wrong !in options then options + [wrong] else options;
      var f := FillDistinct(p, next, draws[1..]);
      Filled(f.options, f.used + 1)
  }

  /** With a product of at least 9 every candidate is positive, so the
      positivity test never rejects one: candidates are rejected only as
      duplicates. */
  lemma {:induction false} PositivityTestIsVacuous(p: int, options: seq<string>, draws: seq<real>)
    requires p >= 9 && Rolls(draws)
    ensures Fill(p, options, draws) == FillDistinct(p, options, draws)
    decreases |draws|
  {
    if |options| < OptionCount && draws != [] {
      var wrong := p + Offset(draws[0]);
      var next := if IntToString(wrong) !in options then options + [IntToString(wrong)] else options;
      PositivityTestIsVacuous(p, next, draws[1..]);
    }
  }

  /** The loop keeps what it was given, adds only new candidates, never
      goes past four options, and stops early only when the draws run out. */
  lemma {:induction false} FillSpec(p: int, options: seq<string>, draws: seq<real>)
    requires Rolls(draws) && |options| <= OptionCount && Distinct(options)
    requires forall k :: 0 <= k < |options| ==> options[k] in Candidates(p)
    ensures var f := Fill(p, options, draws);
            && |options| <= |f.options| <= OptionCount
            && f.options[..|options|] == options
            && Distinct(f.options)
            && (forall k :: 0 <= k < |f.options| ==> f.options[k] in Candidates(p))
            && f.used <= |draws|
            && (|f.options| == OptionCount || f.used == |draws|)
    decreases |draws|
  {
    if |options| < OptionCount && draws != [] {
      var d := Offset(draws[0]);
      var wrong := p + d;
      assert Candidates(p)[d + 5] == IntToString(wrong);
      var next := if wrong > 0 && IntToString(wrong) !in options then options + [IntToString(wrong)] else options;
      FillSpec(p, next, draws[1..]);
      var f := Fill(p, next, draws[1..]);
      assert f.options[..|options|] == f.options[..|next|][..|options|];
    }
  }

  /** The option loop of `showMathQuiz` for the question `num1` x `num2`. */
  method GenerateOptions(num1: int, num2: int, draws: seq<real>) returns (options: seq<string>, used: nat)
    requires Rolls(draws)
    ensures Filled(options, used) == Fill(num1 * num2, [IntToString(num1 * num2)], draws)
  {
    var correctAnswer := IntToString(num1 * num2);
    options := [correctAnswer];
    used := 0;
    while |options| < OptionCount && used < |draws|
      invariant used <= |draws|
      invariant var f := Fill(num1 * num2, options, draws[used..]);
                Filled(f.options, f.used + used) == Fill(num1 * num2, [correctAnswer], draws)
      decreases |draws| - used
    {
      assert draws[used..][1..] == draws[used + 1..];
      var wrongAnswer := num1 * num2 + Offset(draws[used]);
      if wrongAnswer > 0 && IntToString(wrongAnswer) !in options {
        options := options + [IntToString(wrongAnswer)];
      }
      used := used + 1;
    }
  }

  /** Generated options: the correct product first, four distinct texts in
      all when the draws suffice, each within five of the product. */
  lemma GeneratedOptions(num1: int, num2: int, draws: seq<real>)
    requires 3 <= num1 <= 9 && 3 <= num2 <= 9 && Rolls(draws)
    ensures var p := num1 * num2;
            var f := Fill(p, [IntToString(p)], draws);
            && 1 <= |f.options| <= OptionCount
            && f.options[0] == IntToString(p)
            && Distinct(f.options)
            && (forall k :: 0 <= k < |f.options| ==> f.options[k] in Candidates(p))
            && (|f.options| == OptionCount || f.used == |draws|)
  {
    var p := num1 * num2;
    assert p >= 9 by {
      assert num1 * num2 >= 3 * num2 >= 9;
    }
    assert Candidates(p)[5] == IntToString(p);
    FillSpec(p, [IntToString(p)], draws);
    var f := Fill(p, [IntToString(p)], draws);
    assert f.options[..1] == [IntToString(p)];
  }

  /** `options.sort(() => Math.random() - 0.5)`: whatever order the random
      comparator leads the sort to, it only exchanges elements; the
      exchanges are given as pairs of indices. */
  function ApplySwaps(s: seq<string>, swaps: seq<(nat, nat)>): (r: seq<string>)
    requires forall k :: 0 <= k < |swaps| ==> swaps[k].0 < |s| && swaps[k].1 < |s|
    ensures |r| == |s|
    ensures multiset(r) == multiset(s)
    ensures Distinct(s) ==> Distinct(r)
    decreases |swaps|
  {
    if swaps == [] then s
    else
      var (i, j) := swaps[0];
      SwapIsPermutation(s, i, j);
      ApplySwaps(s[i := s[j]][j := s[i]], swaps[1..])
  }

  lemma SwapIsPermutation(s: seq<string>, i: nat, j: nat)
    requires i < |s| && j < |s|
    ensures multiset(s[i := s[j]][j := s[i]]) == multiset(s)
    ensures Distinct(s) ==> Distinct(s[i := s[j]][j := s[i]])
  {
    var t := s[i := s[j]][j := s[i]];
    if i != j {
      assert multiset(s[i := s[j]]) == multiset(s) - multiset{s[i]} + multiset{s[j]};
    }
    if Distinct(s) {
      forall a, b | 0 <= a < b < |t|
        ensures t[a] != t[b]
      {
        var a' := if a == i then j else if a == j then i else a;
        var b' := if b == i then j else if b == j then i else b;
        assert t[a] == s[a'] && t[b] == s[b'] && a' != b';
      }
    }
  }

  datatype Question = Question(num1: int, num2: int, options: seq<string>, correctAnswer: string)

  /** What a generated question promises: factors 3..9, four distinct
      options, and the correct product among them. */
  predicate WellFormed(q: Question) {
    && 3 <= q.num1 <= 9 && 3 <= q.num2 <= 9
    && q.correctAnswer == IntToString(q.num1 * q.num2)
    && |q.options| == OptionCount && Distinct(q.options)
    && q.correctAnswer in q.options
  }

  /** Exactly one option of a well-formed question is the correct one. */
  lemma ExactlyOneCorrect(q: Question)
    requires WellFormed(q)
    ensures exists k :: 0 <= k < |q.options| && q.options[k] == q.correctAnswer
    ensures forall a, b ::
              (0 <= a < |q.options| && 0 <= b < |q.options|
               && q.options[a] == q.correctAnswer && q.options[b] == q.correctAnswer) ==> a == b
  {
  }

  /** The random inputs one question consumes. */
  datatype QuestionDraws = QuestionDraws(first: real, second: real, optionDraws: seq<real>, swaps: seq<(nat, nat)>)

  predicate ValidDraws(d: QuestionDraws) {
    && 0.0 <= d.first < 1.0 && 0.0 <= d.second < 1.0 && Rolls(d.optionDraws)
    && forall k :: 0 <= k < |d.swaps| ==> d.swaps[k].0 < OptionCount && d.swaps[k].1 < OptionCount
  }

  /** The question one set of draws gives: two factors, the options around
      their product, shuffled; None when the option loop runs out of draws
      before it has four options. */
  function Generated(d: QuestionDraws): Option<Question>
    requires ValidDraws(d)
  {
    var num1 := Factor(d.first);
    var num2 := Factor(d.second);
    var f := Fill(num1 * num2, [IntToString(num1 * num2)], d.optionDraws);
    if |f.options| < OptionCount then None
    else Some(Question(num1, num2, ApplySwaps(f.options, d.swaps), IntToString(num1 * num2)))
  }

  /** A generated question is well formed, and each of its options lies
      within five of the product; no question is generated only when every
      draw was used up. */
  lemma GeneratedSpec(d: QuestionDraws)
    requires ValidDraws(d)
    ensures Generated(d).Some? ==> WellFormed(Generated(d).value)
    ensures Generated(d).Some? ==>
              var q := Generated(d).value;
              forall k :: 0 <= k < |q.options| ==> q.options[k] in Candidates(q.num1 * q.num2)
    ensures Generated(d).None? ==>
              var p := Factor(d.first) * Factor(d.second);
              Fill(p, [IntToString(p)], d.optionDraws).used == |d.optionDraws|
  {
    var num1 := Factor(d.first);
    var num2 := Factor(d.second);
    var p := num1 * num2;
    var f := Fill(p, [IntToString(p)], d.optionDraws);
    GeneratedOptions(num1, num2, d.optionDraws);
    if |f.options| >= OptionCount {
      var shuffled := ApplySwaps(f.options, d.swaps);
      assert IntToString(p) in multiset(f.options);
      assert IntToString(p) in multiset(shuffled);
      forall k | 0 <= k < |shuffled|
        ensures shuffled[k] in Candidates(p)
      {
        assert shuffled[k] in multiset(shuffled);
        assert shuffled[k] in multiset(f.options);
      }
    }
  }

  /** One pass of the question loop of `showMathQuiz`. */
  method GenerateQuestion(d: QuestionDraws) returns (question: Option<Question>)
    requires ValidDraws(d)
    ensures question == Generated(d)
  {
    var num1 := Factor(d.first);
    var num2 := Factor(d.second);
    var correctAnswer := IntToString(num1 * num2);
    var options, used := GenerateOptions(num1, num2, d.optionDraws);
    if |options| < OptionCount {
      return None;
    }
    var shuffled := ApplySwaps(options, d.swaps);
    return Some(Question(num1, num2, shuffled, correctAnswer));
  }

  /** The question loop of `showMathQuiz`: three questions, one from each
      set of draws, or None when some option loop ran out of draws before
      it had four options. */
  method GenerateQuestions(draws: seq<QuestionDraws>) returns (questions: Option<seq<Question>>)
    requires |draws| == QuestionCount && forall k :: 0 <= k < |draws| ==> ValidDraws(draws[k])
    ensures questions.None? <==> exists k :: 0 <= k < QuestionCount && Generated(draws[k]).None?
    ensures questions.Some? ==>
              |questions.value| == QuestionCount
              && forall k :: 0 <= k < QuestionCount ==> Generated(draws[k]) == Some(questions.value[k])
  {
    var qs: seq<Question> := [];
    var i := 0;
    while i < QuestionCount
      invariant i <= QuestionCount && |qs| == i
      invariant forall k :: 0 <= k < i ==> Generated(draws[k]) == Some(qs[k])
    {
      var q := GenerateQuestion(draws[i]);
      if q.None? {
        return None;
      }
      qs := qs + [q.value];
      i := i + 1;
    }
    return Some(qs);
  }

  /** Every question of a generated quiz is well formed. */
  lemma GeneratedQuizWellFormed(draws: seq<QuestionDraws>, qs: seq<Question>)
    requires |draws| == QuestionCount && forall k :: 0 <= k < |draws| ==> ValidDraws(draws[k])
    requires |qs| == QuestionCount && forall k :: 0 <= k < QuestionCount ==> Generated(draws[k]) == Some(qs[k])
    ensures forall k :: 0 <= k < QuestionCount ==> WellFormed(qs[k])
  {
    forall k | 0 <= k < QuestionCount
      ensures WellFormed(qs[k])
    {
      GeneratedSpec(draws[k]);
    }
  }

  /** The smoke bombs `finishQuiz` grants: two a correct answer. */
  function EarnedSmokeBombs(correctAnswers: nat): (n: nat)
    ensures n % 2 == 0 && n / 2 == correctAnswers
    ensures correctAnswers <= QuestionCount ==> n <= 2 * QuestionCount
  {
    correctAnswers * 2
  }

  /** The quiz dialog's counters. Clicking an option disables every option
      button of that question, so at most one answer counts per question. */
  class Quiz {
    const questions: seq<Question>
    var currentQuestionIndex: nat
    var correctAnswers: nat
    /** The option buttons of the current question are disabled. */
    var answered: bool
    /** `finishQuiz` has run and the results are shown. */
    var finished: bool
    /** The dialog has been removed by the continue button. */
    var closed: bool

    ghost predicate Valid()
      reads this
    {
      && |questions| == QuestionCount
      && currentQuestionIndex < QuestionCount
      && correctAnswers <= currentQuestionIndex + (if answered then 1 else 0)
      && (finished ==> answered && currentQuestionIndex == QuestionCount - 1)
      && (closed ==> finished)
    }

    constructor (questions: seq<Question>)
      requires |questions| == QuestionCount
      ensures Valid() && this.questions == questions
      ensures currentQuestionIndex == 0 && correctAnswers == 0 && !answered && !finished && !closed
    {
      this.questions := questions;
      currentQuestionIndex := 0;
      correctAnswers := 0;
      answered := false;
      finished := false;
      closed := false;
    }

    lemma CorrectAtMostThree()
      requires Valid()
      ensures correctAnswers <= QuestionCount
    {
    }

    /** A click on option `k` of the current question. */
    method ClickOption(k: nat)
      requires Valid() && !finished && k < |questions[currentQuestionIndex].options|
      modifies this`correctAnswers, this`answered
      ensures Valid()
      ensures old(answered) ==> unchanged(this)
      ensures !old(answered) ==>
                answered && correctAnswers == old(correctAnswers)
                  + (if questions[currentQuestionIndex].options[k] == questions[currentQuestionIndex].correctAnswer
                     then 1 else 0)
    {
      if answered {
        return;
      }
      var isCorrect := questions[currentQuestionIndex].options[k] == questions[currentQuestionIndex].correctAnswer;
      answered := true;
      if isCorrect {
        correctAnswers := correctAnswers + 1;
      }
    }

    /** The next/finish button shown after an answer: advances while there is
        a further question, and otherwise finishes the quiz. */
    method ClickNext()
      requires Valid() && answered && !finished
      modifies this`currentQuestionIndex, this`answered, this`finished
      ensures Valid()
      ensures old(currentQuestionIndex) < QuestionCount - 1 ==>
                currentQuestionIndex == old(currentQuestionIndex) + 1 && !answered && !finished
      ensures old(currentQuestionIndex) == QuestionCount - 1 ==>
                currentQuestionIndex == old(currentQuestionIndex) && answered && finished
      ensures correctAnswers == old(correctAnswers)
    {
      if currentQuestionIndex < QuestionCount - 1 {
        currentQuestionIndex := currentQuestionIndex + 1;
        answered := false;
      } else {
        finished := true;
      }
    }

    /** The continue button of the results: the hero may move again and
        holds the smoke attack with exactly the bombs earned, whatever it
        held before, even with no correct answer. Once the dialog is gone
        the button does nothing. */
    method ClickContinue(hero: Hero, gs: GameState)
      requires Valid() && finished
      modifies this`closed, gs`movementLocked, hero`hasSmokeAttack, hero`smokeBombsCount
      ensures Valid() && closed
      ensures old(closed) ==> unchanged(gs) && unchanged(hero)
      ensures !old(closed) ==>
                !gs.movementLocked && hero.hasSmokeAttack
                && hero.smokeBombsCount == EarnedSmokeBombs(correctAnswers)
                && 0 <= hero.smokeBombsCount <= 2 * QuestionCount
    {
      if closed {
        return;
      }
      closed := true;
      gs.movementLocked := false;
      hero.hasSmokeAttack := true;
      hero.smokeBombsCount := EarnedSmokeBombs(correctAnswers);
    }
  }
}
