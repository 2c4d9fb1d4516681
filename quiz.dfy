/**
  The Growth Score quiz: a fixed table of eight questions with four options each,
  an answer map with overwrite semantics, a cursor moved by Previous/Next and by a
  delayed auto-advance, a score that is the sum of the recorded values, four score
  bands, and the one-way progression answering -> results -> e-mail submitted.
 */
module GrowthScoreQuiz {

  datatype Choice = Choice(text: string, value: int)

  datatype Question = Question(id: string, prompt: string, options: seq<Choice>)

  const Questions: seq<Question> := [
    Question("pipeline", "How would you describe your client pipeline right now?", [
      Choice("Mostly referrals\U{2014}we have no proactive outbound", 1),
      Choice("Some outbound, but it's inconsistent", 2),
      Choice("Outbound is running, but conversion is low", 3),
      Choice("Pipeline is healthy and predictable", 4)]),
    Question("data", "How useful is your ATS/CRM data for making decisions?", [
      Choice("It's a mess\U{2014}we barely trust it", 1),
      Choice("It has some value, but takes hours to pull reports", 2),
      Choice("We have basic dashboards, but they're not great", 3),
      Choice("Our data is clean and drives weekly decisions", 4)]),
    Question("automation", "How automated are your internal workflows?", [
      Choice("Almost everything is manual", 1),
      Choice("A few things are automated, but most is manual", 2),
      Choice("We have some automations, but they're fragmented", 3),
      Choice("Most repeatable processes are automated", 4)]),
    Question("kpis", "Do you have clear KPIs that your team tracks weekly?", [
      Choice("No\U{2014}we mostly go by gut feel", 1),
      Choice("We track revenue, but not leading indicators", 2),
      Choice("We have KPIs, but people don't use them consistently", 3),
      Choice("KPIs are embedded in our weekly rhythm", 4)]),
    Question("tech", "How well do your tools (ATS, CRM, email, etc.) work together?", [
      Choice("They don't\U{2014}lots of copy-pasting and manual work", 1),
      Choice("Some integrations, but many gaps", 2),
      Choice("Mostly connected, with a few manual bridges", 3),
      Choice("Fully integrated\U{2014}data flows seamlessly", 4)]),
    Question("ai", "Where are you with AI adoption?", [
      Choice("Haven't started\U{2014}AI feels overwhelming", 1),
      Choice("Experimenting with ChatGPT, but nothing systematic", 2),
      Choice("Using AI in a few areas, want to expand", 3),
      Choice("AI is integrated into our daily operations", 4)]),
    Question("marketing", "How consistent is your marketing and content?", [
      Choice("We have no marketing presence to speak of", 1),
      Choice("Sporadic LinkedIn posts, no strategy", 2),
      Choice("Some content, but it doesn't generate leads", 3),
      Choice("Consistent content that drives inbound interest", 4)]),
    Question("playbooks", "How well-documented are your sales and recruiting processes?", [
      Choice("Nothing is documented\U{2014}tribal knowledge only", 1),
      Choice("Some notes exist, but they're outdated", 2),
      Choice("We have basic SOPs, but adoption is spotty", 3),
      Choice("Comprehensive playbooks that new hires follow", 4)])
  ]

  /** The highest possible score: four points per question. */
  const MaxScore: int := |Questions| * 4

  /** The ids of the questions, in table order. */
  function QuestionIds(): (ids: seq<string>)
    ensures |ids| == |Questions|
    ensures forall i :: 0 <= i < |ids| ==> ids[i] == Questions[i].id
  {
    seq(|Questions|, i requires 0 <= i < |Questions| => Questions[i].id)
  }

  /** The set of question ids: the only keys an answer can be recorded under. */
  function IdSet(): set<string> {
    set id | id in QuestionIds()
  }

  /** Eight questions, each with exactly four options valued 1, 2, 3, 4 in that order,
      and no two questions share an id. */
  lemma QuestionTable()
    ensures |Questions| == 8 && MaxScore == 32
    ensures forall i :: 0 <= i < |Questions| ==> |Questions[i].options| == 4
    ensures forall i, j :: 0 <= i < |Questions| && 0 <= j < |Questions[i].options| ==>
              Questions[i].options[j].value == j + 1
    ensures forall i, j :: 0 <= i < j < |Questions| ==> Questions[i].id != Questions[j].id
  {
  }

  /** A sequence without repeats has as many distinct elements as entries. */
  lemma {:induction false} DistinctCard(s: seq<string>)
    requires forall i, j :: 0 <= i < j < |s| ==> s[i] != s[j]
    ensures |set x | x in s| == |s|
  {
    if s != [] {
      DistinctCard(s[1..]);
      assert (set x | x in s) == {s[0]} + (set x | x in s[1..]);
    }
  }

  /** There are exactly eight distinct question ids. */
  lemma IdCount()
    ensures |IdSet()| == |Questions| == 8
  {
    QuestionTable();
    DistinctCard(QuestionIds());
  }

  // ---------------------------------------------------------------- score bands

  datatype Band = FoundationNeeded | GrowthOpportunity | GrowthPotential | GrowthReady {

    /** Bands ordered from lowest to highest. */
    function Rank(): nat {
      match this
      case FoundationNeeded => 0
      case GrowthOpportunity => 1
      case GrowthPotential => 2
      case GrowthReady => 3
    }

    function Label(): string {
      match this
      case GrowthReady => "Growth Ready"
      case GrowthPotential => "Growth Potential"
      case GrowthOpportunity => "Growth Opportunity"
      case FoundationNeeded => "Growth Foundation Needed"
    }

    function Color(): string {
      match this
      case GrowthReady => "text-success"
      case GrowthPotential => "text-gold"
      case GrowthOpportunity => "text-warning"
      case FoundationNeeded => "text-danger"
    }

    function Advice(): string {
      match this
      case GrowthReady =>
        "You're ahead of most agencies. Focus on optimization, scaling what works, and advanced AI implementation."
      case GrowthPotential =>
        "You have foundations in place but significant room to systematize. A targeted sprint could unlock your next growth phase."
      case GrowthOpportunity =>
        "There are clear gaps in your operations that, once addressed, could dramatically change your growth trajectory."
      case FoundationNeeded =>
        "The good news: there's massive upside. You need foundational systems for pipeline, data, and automation."
    }
  }

  /** The four bands show four different labels in four different colours, so the result
      screen always tells the bands apart. */
  lemma BandsDistinguished(a: Band, b: Band)
    requires a != b
    ensures a.Label() != b.Label() && a.Color() != b.Color()
  {
    assert |a.Label()| != |b.Label()|;
    assert a.Color()[5] != b.Color()[5];
  }

  /** The score reaches the band's inclusive lower bound, 25 percent of the maximum per
      rank, compared in integers (`score / MaxScore * 100 >= 25 * rank`). The lowest band
      has no lower bound. */
  predicate Reaches(score: int, b: Band) {
    b.Rank() == 0 || 100 * score >= 25 * b.Rank() * MaxScore
  }

  /** `getScoreCategory`: the thresholds 75, 50 and 25 percent are tried in descending order
      and the first one reached wins, so the result is the highest band the score reaches. */
  function Category(score: int): (b: Band)
    ensures Reaches(score, b)
    ensures forall c: Band :: Reaches(score, c) ==> c.Rank() <= b.Rank()
  {
    if 100 * score >= 75 * MaxScore then GrowthReady
    else if 100 * score >= 50 * MaxScore then GrowthPotential
    else if 100 * score >= 25 * MaxScore then GrowthOpportunity
    else FoundationNeeded
  }

  /** With the maximum of 32 the boundaries are 24, 16 and 8, each inclusive: one point
      less falls into the next band down. */
  lemma CategoryBoundaries()
    ensures Category(32) == GrowthReady && Category(24) == GrowthReady
    ensures Category(23) == GrowthPotential && Category(16) == GrowthPotential
    ensures Category(15) == GrowthOpportunity && Category(8) == GrowthOpportunity
    ensures Category(7) == FoundationNeeded && Category(0) == FoundationNeeded
  {
  }

  /** Raising the score never lowers the band. */
  lemma CategoryMonotone(s: int, t: int)
    requires s <= t
    ensures Category(s).Rank() <= Category(t).Rank()
  {
    assert Reaches(t, Category(s));
  }

  // ---------------------------------------------------------------- answers and score

  /** An answer the option buttons can record: a question id and an option value. */
  predicate Recordable(id: string, value: int) {
    id in IdSet() && 1 <= value <= 4
  }

  /** `Object.keys(answers).length === questions.length`. */
  predicate AllAnswered(answers: map<string, int>) {
    |answers| == |Questions|
  }

  /** The sum of the values of a map, in no particular order. */
  ghost function MapSum(m: map<string, int>): int
    decreases |m|
  {
    if m == map[] then 0
    else
      var k :| k in m;
      assert |m - {k}| == |m| - 1 by { assert (m - {k}).Keys == m.Keys - {k}; }
      m[k] + MapSum(m - {k})
  }

  /** Any entry can be taken out first: the sum does not depend on the order of the values. */
  lemma {:induction false} MapSumRemove(m: map<string, int>, k: string)
    requires k in m
    ensures MapSum(m) == m[k] + MapSum(m - {k})
    decreases |m|
  {
    var j :| j in m && MapSum(m) == m[j] + MapSum(m - {j});
    if j != k {
      assert (m - {j}).Keys == m.Keys - {j};
      assert (m - {k}).Keys == m.Keys - {k};
      MapSumRemove(m - {j}, k);
      MapSumRemove(m - {k}, j);
      assert (m - {j}) - {k} == (m - {k}) - {j};
    }
  }

  /** Recording `value` under `id` replaces any earlier value for `id` in the score. */
  lemma MapSumUpdate(m: map<string, int>, id: string, value: int)
    ensures MapSum(m[id := value]) == MapSum(m) - (if id in m then m[id] else 0) + value
  {
    var m' := m[id := value];
    MapSumRemove(m', id);
    if id in m {
      MapSumRemove(m, id);
      assert m' - {id} == m - {id};
    } else {
      assert m' - {id} == m;
    }
  }

  /** Values between 1 and 4 give a score between the number of answers and four times it. */
  lemma {:induction false} MapSumBounds(m: map<string, int>)
    requires forall k :: k in m ==> 1 <= m[k] <= 4
    ensures |m| <= MapSum(m) <= 4 * |m|
    decreases |m|
  {
    if m != map[] {
      var k :| k in m;
      MapSumRemove(m, k);
      assert (m - {k}).Keys == m.Keys - {k};
      MapSumBounds(m - {k});
    }
  }

  /** `totalScore`: `Object.values(answers).reduce((sum, v) => sum + v, 0)`. */
  method TotalScore(answers: map<string, int>) returns (total: int)
    ensures total == MapSum(answers)
  {
    total := 0;
    var rest := answers;
    while rest != map[]
      invariant total + MapSum(rest) == MapSum(answers)
      decreases |rest|
    {
      var k :| k in rest;
      MapSumRemove(rest, k);
      assert (rest - {k}).Keys == rest.Keys - {k};
      total := total + rest[k];
      rest := rest - {k};
    }
  }

  /** Since answers are only recorded under question ids, the count-based completion test
      holds exactly when every question has an answer. */
  lemma AllAnsweredMeansEveryQuestion(answers: map<string, int>)
    requires answers.Keys <= IdSet()
    ensures AllAnswered(answers) <==> IdSet() <= answers.Keys
  {
    IdCount();
    var keys := answers.Keys;
    assert |answers| == |keys|;
    if AllAnswered(answers) {
      var extra := IdSet() - keys;
      assert IdSet() == keys + extra;
      assert |IdSet()| == |keys| + |extra|;
      assert extra == {};
    }
    if IdSet() <= keys {
      assert keys == IdSet();
    }
  }

  /** A complete set of recordable answers scores between 8 and 32. */
  lemma CompleteScoreRange(answers: map<string, int>)
    requires forall id :: id in answers ==> Recordable(id, answers[id])
    requires AllAnswered(answers)
    ensures 8 <= MapSum(answers) <= MaxScore
  {
    MapSumBounds(answers);
  }

  /** The answers after the first `|values|` questions were answered with `values`, in order. */
  function AnswersFor(values: seq<int>): (m: map<string, int>)
    requires |values| <= |Questions|
    ensures m.Keys == set i | 0 <= i < |values| :: Questions[i].id
  {
    if values == [] then map[]
    else AnswersFor(values[..|values| - 1])[Questions[|values| - 1].id := values[|values| - 1]]
  }

  function Sum(values: seq<int>): int {
    if values == [] then 0 else Sum(values[..|values| - 1]) + values[|values| - 1]
  }

  /** Answering the questions in turn scores the sum of the chosen values. */
  lemma {:induction false} AnswersForScore(values: seq<int>)
    requires |values| <= |Questions|
    ensures MapSum(AnswersFor(values)) == Sum(values)
    ensures |AnswersFor(values)| == |values|
  {
    if values != [] {
      var n := |values| - 1;
      AnswersForScore(values[..n]);
      QuestionTable();
      assert Questions[n].id !in AnswersFor(values[..n]);
      MapSumUpdate(AnswersFor(values[..n]), Questions[n].id, values[n]);
    }
  }

  lemma SumExample()
    ensures Sum([2, 3, 1, 4, 2, 3, 1, 2]) == 18
  {
    assert Sum([2]) == 2 by { assert [2][..0] == []; }
    assert Sum([2, 3]) == 5 by { assert [2, 3][..1] == [2]; }
    assert Sum([2, 3, 1]) == 6 by { assert [2, 3, 1][..2] == [2, 3]; }
    assert Sum([2, 3, 1, 4]) == 10 by { assert [2, 3, 1, 4][..3] == [2, 3, 1]; }
    assert Sum([2, 3, 1, 4, 2]) == 12 by { assert [2, 3, 1, 4, 2][..4] == [2, 3, 1, 4]; }
    assert Sum([2, 3, 1, 4, 2, 3]) == 15 by { assert [2, 3, 1, 4, 2, 3][..5] == [2, 3, 1, 4, 2]; }
    assert Sum([2, 3, 1, 4, 2, 3, 1]) == 16 by { assert [2, 3, 1, 4, 2, 3, 1][..6] == [2, 3, 1, 4, 2, 3]; }
    assert [2, 3, 1, 4, 2, 3, 1, 2][..7] == [2, 3, 1, 4, 2, 3, 1];
  }

  /** Answering 2, 3, 1, 4, 2, 3, 1, 2 completes the quiz with 18 points (56.25 percent),
      in the "Growth Potential" band. */
  lemma ExampleScore()
    ensures AllAnswered(AnswersFor([2, 3, 1, 4, 2, 3, 1, 2]))
    ensures MapSum(AnswersFor([2, 3, 1, 4, 2, 3, 1, 2])) == 18
    ensures Category(18) == GrowthPotential
  {
    var v := [2, 3, 1, 4, 2, 3, 1, 2];
    SumExample();
    AnswersForScore(v);
  }

  // ---------------------------------------------------------------- the component's state

  /** The quiz component's state. `pendingAdvances` counts the delayed `prev + 1` updates of
      the cursor that were scheduled and have not fired yet; the cursor is not kept inside
      the question range (see `CursorOverrun`). */
  class Quiz {
    var currentQ: int
    var answers: map<string, int>
    var email: string
    var showResults: bool
    var submitted: bool
    var pendingAdvances: nat

    ghost predicate Valid()
      reads this
    {
      && 0 <= currentQ
      && (forall id :: id in answers ==> Recordable(id, answers[id]))
      && (showResults ==> AllAnswered(answers))
      && (submitted ==> showResults)
    }

    /** A fresh quiz: first question, nothing answered, answering phase. */
    constructor ()
      ensures Valid()
      ensures currentQ == 0 && answers == map[] && email == ""
      ensures !showResults && !submitted && pendingAdvances == 0
    {
      currentQ := 0;
      answers := map[];
      email := "";
      showResults := false;
      submitted := false;
      pendingAdvances := 0;
    }

    /** `handleAnswer`, from the button of option `choice` of the current question: records
        the value under the question's id, replacing any earlier one, and schedules one
        unclamped advance unless the cursor is on the last question. */
    method Answer(choice: nat)
      requires Valid()
      requires !showResults
      requires 0 <= currentQ < |Questions|
      requires choice < |Questions[currentQ].options|
      modifies this
      ensures Valid()
      ensures currentQ == old(currentQ) && email == old(email)
      ensures answers == old(answers)[Questions[currentQ].id := Questions[currentQ].options[choice].value]
      ensures pendingAdvances == old(pendingAdvances) + (if currentQ < |Questions| - 1 then 1 else 0)
      ensures showResults == old(showResults) && submitted == old(submitted)
    {
      QuestionTable();
      var q := Questions[currentQ];
      answers := answers[q.id := q.options[choice].value];
      if currentQ < |Questions| - 1 {
        pendingAdvances := pendingAdvances + 1;
      }
    }

    /** The delayed auto-advance firing: `prev + 1`, neither clamped nor cancelled. */
    method FireAdvance()
      requires Valid()
      requires pendingAdvances > 0
      modifies this
      ensures Valid()
      ensures currentQ == old(currentQ) + 1 && pendingAdvances == old(pendingAdvances) - 1
      ensures answers == old(answers) && email == old(email)
      ensures showResults == old(showResults) && submitted == old(submitted)
    {
      currentQ := currentQ + 1;
      pendingAdvances := pendingAdvances - 1;
    }

    /** The Previous button: `Math.max(0, prev - 1)`, a no-op on the first question. */
    method Previous()
      requires Valid()
      requires !showResults
      modifies this
      ensures Valid()
      ensures currentQ == if old(currentQ) > 0 then old(currentQ) - 1 else 0
      ensures old(currentQ) == 0 ==> currentQ == 0
      ensures answers == old(answers) && pendingAdvances == old(pendingAdvances) && email == old(email)
      ensures showResults == old(showResults) && submitted == old(submitted)
    {
      currentQ := if currentQ - 1 > 0 then currentQ - 1 else 0;
    }

    /** The Next button, rendered while some question is unanswered:
        `Math.min(questions.length - 1, prev + 1)`, a no-op on the last question. */
    method Next()
      requires Valid()
      requires !showResults && !AllAnswered(answers)
      modifies this
      ensures Valid()
      ensures currentQ == if old(currentQ) + 1 < |Questions| - 1 then old(currentQ) + 1 else |Questions| - 1
      ensures old(currentQ) == |Questions| - 1 ==> currentQ == old(currentQ)
      ensures answers == old(answers) && pendingAdvances == old(pendingAdvances) && email == old(email)
      ensures showResults == old(showResults) && submitted == old(submitted)
    {
      currentQ := if currentQ + 1 < |Questions| - 1 then currentQ + 1 else |Questions| - 1;
    }

    /** The "See My Score" button, rendered only once every question is answered. */
    method SeeScore()
      requires Valid()
      requires !showResults && AllAnswered(answers)
      modifies this
      ensures Valid()
      ensures showResults
      ensures currentQ == old(currentQ) && answers == old(answers) && pendingAdvances == old(pendingAdvances)
      ensures email == old(email) && submitted == old(submitted)
    {
      showResults := true;
    }

    /** Typing in the e-mail field of the results view. */
    method SetEmail(e: string)
      requires Valid()
      requires showResults && !submitted
      modifies this
      ensures Valid()
      ensures email == e
      ensures currentQ == old(currentQ) && answers == old(answers) && pendingAdvances == old(pendingAdvances)
      ensures showResults == old(showResults) && submitted == old(submitted)
    {
      email := e;
    }

    /** `handleSubmitEmail`. The form's submit event only fires when the browser accepts the
        e-mail field (`accepted`); then `submitted` becomes true and nothing else happens. */
    method SubmitEmail(accepted: bool)
      requires Valid()
      requires showResults && !submitted
      modifies this
      ensures Valid()
      ensures submitted == accepted
      ensures currentQ == old(currentQ) && answers == old(answers) && pendingAdvances == old(pendingAdvances)
      ensures email == old(email) && showResults == old(showResults)
    {
      if accepted {
        submitted := true;
      }
    }
  }

  /** Two quick answers on the seventh question schedule two advances, and both fire: the
      cursor ends one past the last question, where the render's `questions[currentQ]`
      has no question to show. */
  method CursorOverrun() returns (q: Quiz)
    ensures q.currentQ == |Questions|
    ensures q.Valid() && !q.showResults
  {
    QuestionTable();
    q := new Quiz();
    q.Next();
    q.Next();
    q.Next();
    q.Next();
    q.Next();
    q.Next();
    q.Answer(0);
    q.Answer(1);
    q.FireAdvance();
    q.FireAdvance();
  }

  /** An answer on the seventh question followed by a manual Next before the advance fires
      also leaves the cursor one past the last question. */
  method CursorOverrunAfterNext() returns (q: Quiz)
    ensures q.currentQ == |Questions|
  {
    QuestionTable();
    q := new Quiz();
    q.Next();
    q.Next();
    q.Next();
    q.Next();
    q.Next();
    q.Next();
    q.Answer(2);
    IdCount();
    q.Next();
    q.FireAdvance();
  }
}
