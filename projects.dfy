/** The project list page: a title/client search over the projects and the
    labels shown for each project's phase and status. */
module Projects {
  import opened Common
  import opened Text

  datatype Project = Project(id: string, title: string, clientName: string, status: string,
                             currentPhase: int, updatedAt: string)

  /** The search box matches the title or the client name, ignoring case. */
  predicate MatchesSearch(p: Project, query: string)
  {
    ContainsIgnoringCase(p.title, query) || ContainsIgnoringCase(p.clientName, query)
  }

  /** `filteredProjects`: the matching projects, in list order. */
  function FilterProjects(projects: seq<Project>, query: string): (r: seq<Project>)
    ensures |r| <= |projects|
    ensures IsSubsequence(r, projects)
    ensures forall p :: p in r <==> p in projects && MatchesSearch(p, query)
    ensures forall p :: multiset(r)[p] == if MatchesSearch(p, query) then multiset(projects)[p] else 0
  {
    var keep := (p: Project) => MatchesSearch(p, query);
    FilterIsSubsequence(projects, keep);
    Filter(projects, keep)
  }

  /** An empty search keeps every project. */
  lemma EmptySearchListsAll(projects: seq<Project>)
    ensures FilterProjects(projects, "") == projects
  {
    forall i | 0 <= i < |projects| ensures MatchesSearch(projects[i], "") {
      IncludesEmpty(Lower(projects[i].title));
    }
    FilterKeepsAll(projects, (p: Project) => MatchesSearch(p, ""));
  }

  // -------------------------------------------------------------- phases

  const PHASES: seq<string> := [
    "Project Launch", "Hearing", "Scenario", "Text Storyboard",
    "Video Storyboard", "Rough Video", "Delivery"
  ]

  const PHASES_JA: seq<string> := [
    "プロジェクト立ち上げ", "ヒアリング", "シナリオ", "字コンテ",
    "絵コンテ", "ラフ動画", "納品"
  ]

  /** A phase label built from a name table: the phase number followed by the
      table's name for it when the number selects a non-empty entry, and the
      number alone otherwise. */
  function StepLabel(phases: seq<string>, phase: int): string
  {
    var index := phase - 1;
    if 0 <= index < |phases| && phases[index] != ""
    then "Step " + IntToString(phase) + ": " + phases[index]
    else "Step " + IntToString(phase)
  }

  /** `getPhaseLabel`: phases 1 to 7 carry their English name, any other
      number (zero and negatives included) only its number. */
  function PhaseLabel(phase: int): (r: string)
    ensures 1 <= phase <= 7 ==> r == "Step " + IntToString(phase) + ": " + PHASES[phase - 1]
    ensures !(1 <= phase <= 7) ==> r == "Step " + IntToString(phase)
  {
    StepLabel(PHASES, phase)
  }

  /** `getPhaseLabelJa`: the same rule over the Japanese names. */
  function PhaseLabelJa(phase: int): (r: string)
    ensures 1 <= phase <= 7 ==> r == "Step " + IntToString(phase) + ": " + PHASES_JA[phase - 1]
    ensures !(1 <= phase <= 7) ==> r == "Step " + IntToString(phase)
  {
    StepLabel(PHASES_JA, phase)
  }

  /** The suffix after the number: a colon and the name, or nothing. */
  lemma StepLabelShape(phases: seq<string>, phase: int)
    ensures var n := IntToString(phase);
      var x := StepLabel(phases, phase)[5 + |n|..];
      && StepLabel(phases, phase) == "Step " + n + x
      && StepLabel(phases, phase)[5..] == n + x
      && (x == [] || x[0] == ':')
  {
    var n := IntToString(phase);
    var x := if 0 <= phase - 1 < |phases| && phases[phase - 1] != "" then ": " + phases[phase - 1] else "";
    assert StepLabel(phases, phase) == "Step " + n + x;
    SplitAfterNumber(n, x);
  }

  /** "Step " + n + x splits back into its number and its suffix. */
  lemma SplitAfterNumber(n: string, x: string)
    ensures ("Step " + n + x)[5 + |n|..] == x
    ensures ("Step " + n + x)[5..] == n + x
  {
  }

  /** Different phases always get different labels, in either language. */
  lemma StepLabelInjective(phases: seq<string>, p: int, q: int)
    requires StepLabel(phases, p) == StepLabel(phases, q)
    ensures p == q
  {
    StepLabelShape(phases, p);
    StepLabelShape(phases, q);
    var x := StepLabel(phases, p)[5 + |IntToString(p)|..];
    var y := StepLabel(phases, q)[5 + |IntToString(q)|..];
    NumberBeforeSuffix(p, x, q, y);
  }

  /** Both label functions read the phase number back from the label. */
  lemma PhaseLabelsInjective(p: int, q: int)
    ensures PhaseLabel(p) == PhaseLabel(q) ==> p == q
    ensures PhaseLabelJa(p) == PhaseLabelJa(q) ==> p == q
  {
    if PhaseLabel(p) == PhaseLabel(q) {
      StepLabelInjective(PHASES, p, q);
    }
    if PhaseLabelJa(p) == PhaseLabelJa(q) {
      StepLabelInjective(PHASES_JA, p, q);
    }
  }

  // -------------------------------------------------------------- status

  /** `getStatusBadge`: the label shown for a status string. */
  function StatusBadge(status: string): (badge: string)
    ensures badge == "完了" <==> status == "completed"
    ensures badge == "確認中" <==> status == "review"
    ensures badge == "制作中" <==> status == "production"
    ensures badge == "準備中" <==> status !in {"completed", "review", "production"}
  {
    if status == "completed" then "完了"
    else if status == "review" then "確認中"
    else if status == "production" then "制作中"
    else "準備中"
  }
}
