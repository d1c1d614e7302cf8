/** The interview-type selection wizard (app/selection.tsx): the user picks a
    mode, then either a chain main topic / sub-topic / specific area /
    difficulty from a fixed two-level table, or a company, a role and a
    question type. Every button toggles its value; choosing a value higher up
    the chain clears what was chosen below it. "Start Interview" is enabled
    only when the chosen mode's fields are all set. */
module Selection {
  import opened Nullable

  datatype Mode = Topic | Company

  /** The three difficulty bubbles, `difficultyLevels`. */
  datatype Difficulty = Easy | Moderate | Hard

  /** The argument of `resetSelections`: 'all' | 'main' | 'sub' | 'specific' | 'none'. */
  datatype ResetLevel = ResetAll | ResetMain | ResetSub | ResetSpecific | ResetNone

  // ---------------------------------------------------------------------------
  // The option tables

  const InitialCompanies: seq<string> := ["Google", "Apple", "Microsoft", "Amazon", "Facebook", "Tesla"]

  const InitialRoles: seq<string> :=
    ["Frontend Engineer", "Backend Engineer", "Data Scientist", "Product Manager", "UX Designer"]

  const QuestionTypes: seq<string> :=
    [ "Technical", "HR", "Behavioral", "System Design", "Managerial", "Situational",
      "Coding Round (Speech)", "Introduction", "Strengths & Weaknesses" ]

  /** A JavaScript object with string keys, in key order. */
  type Table<V> = seq<(string, V)>

  /** The `topics` table: main topic -> sub-topic -> specific areas. */
  const Topics: Table<Table<seq<string>>> := [
    ("Technical", [
      ("Programming Languages", ["JavaScript", "Python", "Java", "C++", "Go"]),
      ("Web Development", ["React", "Angular", "Vue", "Node.js", "Express"]),
      ("Database", ["SQL", "MongoDB", "Redis", "PostgreSQL"]),
      ("System Design", ["Architecture", "Scalability", "Microservices"]),
      ("Data Structures", ["Arrays", "Linked Lists", "Trees", "Graphs"]),
      ("Algorithms", ["Sorting", "Searching", "Dynamic Programming"])
    ]),
    ("Non-Technical", [
      ("Behavioral", ["Leadership", "Teamwork", "Conflict Resolution", "Problem Solving"]),
      ("HR", ["Career Goals", "Company Knowledge", "Salary Discussion", "Work Experience"]),
      ("Situational", ["Project Challenges", "Time Management", "Decision Making"]),
      ("Introduction", ["Self Introduction", "Background", "Achievements"])
    ])
  ]

  /** `Object.keys(table)`. */
  function Keys<V>(table: Table<V>): seq<string>
  {
    seq(|table|, i requires 0 <= i < |table| => table[i].0)
  }

  /** `table[key]`: the value stored under `key`, if any. */
  function Lookup<V>(table: Table<V>, key: string): (r: Option<V>)
    ensures r.None? <==> key !in Keys(table)
    ensures r.Some? ==> exists i :: 0 <= i < |table| && table[i] == (key, r.value)
  {
    if table == [] then None
    else
      assert Keys(table) == [table[0].0] + Keys(table[1..]);
      if table[0].0 == key then Some(table[0].1)
      else
        var r := Lookup(table[1..], key);
        assert r.Some? ==> exists i :: 0 <= i < |table[1..]| && table[1..][i] == (key, r.value);
        r
  }

  /** The main-topic bubbles: the keys of `topics`. */
  function MainTopicOptions(): (r: seq<string>)
    ensures r == ["Technical", "Non-Technical"]
  {
    Keys(Topics)
  }

  /** The sub-topic bubbles under `main`: the keys of `topics[main]`. */
  function SubTopicOptions(main: string): (r: seq<string>)
    ensures main !in MainTopicOptions() ==> r == []
    ensures main in MainTopicOptions() ==>
      exists i :: 0 <= i < |Topics| && Topics[i].0 == main && r == Keys(Topics[i].1)
  {
    match Lookup(Topics, main)
    case Some(subs) => Keys(subs)
    case None => []
  }

  /** The specific-area bubbles under `main` and `sub`: `topics[main][sub]`. */
  function SpecificOptions(main: string, sub: string): (r: seq<string>)
    ensures r != [] ==> exists i, j ::
      && 0 <= i < |Topics| && 0 <= j < |Topics[i].1|
      && Topics[i].0 == main && Topics[i].1[j] == (sub, r)
    ensures main !in MainTopicOptions() ==> r == []
  {
    match Lookup(Topics, main)
    case Some(subs) => (match Lookup(subs, sub) case Some(specs) => specs case None => [])
    case None => []
  }

  /** Every name in the table is a non-empty string and every sub-topic offers
      at least one specific area. */
  ghost predicate WellNamed(table: Table<Table<seq<string>>>)
  {
    forall i :: 0 <= i < |table| ==>
      && table[i].0 != ""
      && forall j :: 0 <= j < |table[i].1| ==>
        && table[i].1[j].0 != ""
        && table[i].1[j].1 != []
        && forall k :: 0 <= k < |table[i].1[j].1| ==> table[i].1[j].1[k] != ""
  }

  lemma TopicsWellNamed()
    ensures WellNamed(Topics)
  {
  }

  /** Below an offered main topic and an offered sub-topic the screen shows a
      non-empty list of specific areas, and none of those names is empty. */
  lemma SpecificsOffered(m: string, s: string)
    requires m in MainTopicOptions() && s in SubTopicOptions(m)
    ensures s != "" && SpecificOptions(m, s) != []
    ensures forall x :: x in SpecificOptions(m, s) ==> x != ""
  {
    TopicsWellNamed();
    var subs := Lookup(Topics, m).value;
    var i :| 0 <= i < |Topics| && Topics[i] == (m, subs);
    assert SubTopicOptions(m) == Keys(subs);
    var j :| 0 <= j < |subs| && Keys(subs)[j] == s;
    var specs := Lookup(subs, s).value;
    var k :| 0 <= k < |subs| && subs[k] == (s, specs);
    assert specs == Topics[i].1[k].1;
  }

  /** The options the topic chain offers: below each offered main topic a
      non-empty list of sub-topics, below each offered sub-topic a non-empty
      list of specific areas; no offered name is the empty string, so every
      chosen option is truthy. */
  lemma TopicOptionsOffered()
    ensures forall m :: m in MainTopicOptions() ==> m != "" && SubTopicOptions(m) != []
    ensures forall m, s :: m in MainTopicOptions() && s in SubTopicOptions(m) ==>
      s != "" && SpecificOptions(m, s) != [] && forall x :: x in SpecificOptions(m, s) ==> x != ""
  {
    TopicsWellNamed();
    forall m | m in MainTopicOptions()
      ensures m != "" && SubTopicOptions(m) != []
    {
      var i :| 0 <= i < |Topics| && Topics[i].0 == m && SubTopicOptions(m) == Keys(Topics[i].1);
    }
    forall m, s | m in MainTopicOptions() && s in SubTopicOptions(m)
      ensures s != "" && SpecificOptions(m, s) != [] && forall x :: x in SpecificOptions(m, s) ==> x != ""
    {
      SpecificsOffered(m, s);
    }
  }

  // ---------------------------------------------------------------------------
  // The selection state as a value

  /** The screen's mode and seven optional choices. */
  datatype Selection = Selection(
    mode: Option<Mode>,
    mainTopic: Option<string>,
    subTopic: Option<string>,
    specific: Option<string>,
    difficulty: Option<Difficulty>,
    company: Option<string>,
    role: Option<string>,
    questionType: Option<string>)

  /** What the handlers keep true: each topic choice was offered under the
      choices above it and only exists in topic mode; the company choices come
      from their lists and only exist in company mode. */
  ghost predicate Consistent(s: Selection)
  {
    && (s.mainTopic.Some? ==> s.mode == Some(Topic) && s.mainTopic.value in MainTopicOptions())
    && (s.subTopic.Some? ==> s.mainTopic.Some? && s.subTopic.value in SubTopicOptions(s.mainTopic.value))
    && (s.specific.Some? ==>
          s.subTopic.Some? && s.specific.value in SpecificOptions(s.mainTopic.value, s.subTopic.value))
    && (s.difficulty.Some? ==> s.specific.Some?)
    && (s.company.Some? ==> s.mode == Some(Company) && s.company.value in InitialCompanies)
    && (s.role.Some? ==> s.mode == Some(Company) && s.role.value in InitialRoles)
    && (s.questionType.Some? ==> s.mode == Some(Company) && s.questionType.value in QuestionTypes)
  }

  /** The condition under which "Start Interview" is enabled: a mode is
      chosen and every field of that mode is set. */
  predicate ProceedEnabled(s: Selection): (b: bool)
    ensures b ==> s.mode.Some?
    ensures b && s.mode == Some(Topic) ==>
      s.mainTopic.Some? && s.subTopic.Some? && s.specific.Some? && s.difficulty.Some?
    ensures b && s.mode == Some(Company) ==> s.company.Some? && s.role.Some? && s.questionType.Some?
  {
    || (s.mode == Some(Topic) && Truthy(s.mainTopic) && Truthy(s.subTopic) && Truthy(s.specific)
        && s.difficulty.Some?)
    || (s.mode == Some(Company) && Truthy(s.company) && Truthy(s.role) && Truthy(s.questionType))
  }

  /** The parameters handed to the question-preparation screen. */
  datatype Route =
    | TopicInterview(mainTopic: string, subTopic: string, specific: string, difficulty: Difficulty)
    | CompanyInterview(company: string, role: string, questionType: string)

  /** `onProceed`: where the screen navigates, or nothing. It navigates exactly
      when the button is enabled, and passes exactly the chosen mode's fields. */
  function OnProceed(s: Selection): (r: Option<Route>)
    ensures r.Some? <==> ProceedEnabled(s)
    ensures r.Some? && r.value.TopicInterview? ==>
      && s.mode == Some(Topic)
      && s.mainTopic == Some(r.value.mainTopic) && s.subTopic == Some(r.value.subTopic)
      && s.specific == Some(r.value.specific) && s.difficulty == Some(r.value.difficulty)
    ensures r.Some? && r.value.CompanyInterview? ==>
      && s.mode == Some(Company)
      && s.company == Some(r.value.company) && s.role == Some(r.value.role)
      && s.questionType == Some(r.value.questionType)
  {
    if s.mode == Some(Topic) && Truthy(s.mainTopic) && Truthy(s.subTopic) && Truthy(s.specific)
       && s.difficulty.Some?
    then Some(TopicInterview(s.mainTopic.value, s.subTopic.value, s.specific.value, s.difficulty.value))
    else if s.mode == Some(Company) && Truthy(s.company) && Truthy(s.role) && Truthy(s.questionType)
    then Some(CompanyInterview(s.company.value, s.role.value, s.questionType.value))
    else None
  }

  /** In topic mode the chain is always filled from the top, so the button is
      enabled exactly when a difficulty is chosen. */
  lemma TopicProceedIffDifficulty(s: Selection)
    requires Consistent(s) && s.mode == Some(Topic)
    ensures ProceedEnabled(s) <==> s.difficulty.Some?
  {
    TopicOptionsOffered();
  }

  /** In company mode the button is enabled exactly when all three choices are
      made (none of the offered names is empty). */
  lemma CompanyProceedIffAllChosen(s: Selection)
    requires Consistent(s) && s.mode == Some(Company)
    ensures ProceedEnabled(s) <==> s.company.Some? && s.role.Some? && s.questionType.Some?
  {
  }

  /** Pressing the button that shows `pressed` when `current` is selected. */
  function Toggle<T(==)>(current: Option<T>, pressed: T): Option<T>
  {
    if current == Some(pressed) then None else Some(pressed)
  }

  // ---------------------------------------------------------------------------
  // The screen

  class SelectionScreen {
    var mode: Option<Mode>
    var mainTopic: Option<string>
    var subTopic: Option<string>
    var specific: Option<string>
    var difficulty: Option<Difficulty>
    var company: Option<string>
    var role: Option<string>
    var questionType: Option<string>

    function State(): Selection
      reads this
    {
      Selection(mode, mainTopic, subTopic, specific, difficulty, company, role, questionType)
    }

    ghost predicate Valid()
      reads this
    {
      Consistent(State())
    }

    constructor ()
      ensures Valid()
      ensures State() == Selection(None, None, None, None, None, None, None, None)
    {
      mode := None;
      mainTopic, subTopic, specific, difficulty := None, None, None, None;
      company, role, questionType := None, None, None;
    }

    /** `resetSelections(level)`: 'all' clears the seven choices, 'main' the
        sub-topic, specific area and difficulty, 'sub' the specific area and
        difficulty; 'specific' and 'none' change nothing. The mode is kept. */
    method ResetSelections(level: ResetLevel)
      modifies this
      ensures old(Valid()) ==> Valid()
      ensures mode == old(mode)
      ensures level == ResetAll ==>
        State() == Selection(mode, None, None, None, None, None, None, None)
      ensures level == ResetMain ==>
        State() == old(State()).(subTopic := None, specific := None, difficulty := None)
      ensures level == ResetSub ==>
        State() == old(State()).(specific := None, difficulty := None)
      ensures level == ResetSpecific || level == ResetNone ==> unchanged(this)
    {
      if level == ResetAll {
        mainTopic := None;
        subTopic := None;
        specific := None;
        difficulty := None;
        company := None;
        role := None;
        questionType := None;
      } else if level == ResetMain {
        subTopic := None;
        specific := None;
        difficulty := None;
      } else if level == ResetSub {
        specific := None;
        difficulty := None;
      }
    }

    /** A mode bubble: toggles the mode and clears every choice. */
    method PressMode(m: Mode)
      modifies this
      ensures Valid()
      ensures State() == Selection(Toggle(old(mode), m), None, None, None, None, None, None, None)
    {
      mode := Toggle(mode, m);
      ResetSelections(ResetAll);
    }

    /** A main-topic bubble (shown in topic mode): toggles the main topic and
        clears sub-topic, specific area and difficulty. */
    method PressMainTopic(t: string)
      requires Valid() && mode == Some(Topic) && t in MainTopicOptions()
      modifies this
      ensures Valid()
      ensures State() == old(State()).(mainTopic := Toggle(old(mainTopic), t),
                                        subTopic := None, specific := None, difficulty := None)
    {
      mainTopic := Toggle(mainTopic, t);
      ResetSelections(ResetMain);
    }

    /** A sub-topic bubble (shown once a main topic is chosen): toggles the
        sub-topic and clears specific area and difficulty. */
    method PressSubTopic(t: string)
      requires Valid() && mode == Some(Topic) && Truthy(mainTopic)
      requires t in SubTopicOptions(mainTopic.value)
      modifies this
      ensures Valid()
      ensures State() == old(State()).(subTopic := Toggle(old(subTopic), t),
                                        specific := None, difficulty := None)
    {
      subTopic := Toggle(subTopic, t);
      ResetSelections(ResetSub);
    }

    /** A specific-area bubble (shown once main and sub-topic are chosen):
        toggles the specific area and clears the difficulty. */
    method PressSpecific(x: string)
      requires Valid() && mode == Some(Topic) && Truthy(mainTopic) && Truthy(subTopic)
      requires x in SpecificOptions(mainTopic.value, subTopic.value)
      modifies this
      ensures Valid()
      ensures State() == old(State()).(specific := Toggle(old(specific), x), difficulty := None)
    {
      specific := Toggle(specific, x);
      difficulty := None;
    }

    /** A difficulty bubble (shown once a specific area is chosen): toggles the
        difficulty and clears nothing else. */
    method PressDifficulty(d: Difficulty)
      requires Valid() && mode == Some(Topic) && Truthy(specific)
      modifies this
      ensures Valid()
      ensures State() == old(State()).(difficulty := Toggle(old(difficulty), d))
    {
      difficulty := Toggle(difficulty, d);
    }

    /** A company bubble (shown in company mode): toggles the company and
        clears nothing else. */
    method PressCompany(c: string)
      requires Valid() && mode == Some(Company) && c in InitialCompanies
      modifies this
      ensures Valid()
      ensures State() == old(State()).(company := Toggle(old(company), c))
    {
      company := Toggle(company, c);
    }

    /** A role bubble (shown once a company is chosen): toggles the role and
        clears nothing else. */
    method PressRole(r: string)
      requires Valid() && mode == Some(Company) && Truthy(company) && r in InitialRoles
      modifies this
      ensures Valid()
      ensures State() == old(State()).(role := Toggle(old(role), r))
    {
      role := Toggle(role, r);
    }

    /** A question-type bubble (shown once a role is chosen): toggles the
        question type and clears nothing else. */
    method PressQuestionType(t: string)
      requires Valid() && mode == Some(Company) && Truthy(role) && t in QuestionTypes
      modifies this
      ensures Valid()
      ensures State() == old(State()).(questionType := Toggle(old(questionType), t))
    {
      questionType := Toggle(questionType, t);
    }
  }
}
