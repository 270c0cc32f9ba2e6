/** Problem statements (`ProblemStatements`): track filter, selection and difficulty badge. */
module ProblemStatements {
  import opened Results
  import opened Seqs

  datatype Problem = Problem(id: nat, track: string, title: string, description: string,
                             difficulty: string, submissions: nat, tags: seq<string>)

  /** Track filter buttons as (id, label); `all` shows every problem. */
  const Tracks := [("all", "All Tracks"), ("ai-ml", "AI/ML"), ("web3", "Web3"), ("fintech", "FinTech"),
                   ("healthtech", "HealthTech"), ("edtech", "EdTech"), ("open", "Open Innovation")]

  const Problems: seq<Problem> := [
    Problem(1, "ai-ml", "AI-Powered Code Review Assistant",
            "Build an intelligent tool that automatically reviews code, identifies bugs, suggests improvements, and ensures coding standards compliance.",
            "Medium", 45, ["NLP", "Code Analysis", "Machine Learning"]),
    Problem(2, "ai-ml", "Real-time Sign Language Translator",
            "Create a computer vision application that translates sign language gestures into text and speech in real-time.",
            "Hard", 32, ["Computer Vision", "Accessibility", "Real-time"]),
    Problem(3, "web3", "Decentralized Identity Verification",
            "Develop a blockchain-based identity verification system that gives users control over their personal data.",
            "Hard", 28, ["Blockchain", "Privacy", "Identity"]),
    Problem(4, "fintech", "Micro-Investment Platform for Students",
            "Build a platform that allows students to start investing with small amounts and learn financial literacy.",
            "Medium", 56, ["Finance", "Education", "Mobile App"]),
    Problem(5, "healthtech", "Mental Health Support Chatbot",
            "Create an AI-powered chatbot that provides mental health support, resources, and crisis intervention.",
            "Medium", 41, ["AI", "Healthcare", "Chatbot"]),
    Problem(6, "edtech", "Personalized Learning Path Generator",
            "Develop a system that creates customized learning paths based on student performance, interests, and goals.",
            "Easy", 38, ["Education", "AI", "Personalization"])
  ]

  /** `filteredProblems`: every problem for `all`, otherwise those of the chosen track in order. */
  function FilteredProblems(problems: seq<Problem>, track: string): (r: seq<Problem>)
    ensures track == "all" ==> r == problems
    ensures IsSubseq(r, problems)
    ensures track != "all" ==> forall p :: p in r <==> p in problems && p.track == track
    ensures track != "all" ==> forall p :: multiset(r)[p] == if p.track == track then multiset(problems)[p] else 0
  {
    if track == "all" then
      IsSubseqRefl(problems);
      problems
    else
      FilterSpec(problems, (p: Problem) => p.track == track);
      Filter(problems, (p: Problem) => p.track == track)
  }

  /** The open track has no problem in the fixture, so choosing it shows none. */
  lemma OpenTrackIsEmpty()
    ensures Tracks[6] == ("open", "Open Innovation")
    ensures FilteredProblems(Problems, Tracks[6].0) == []
  {
  }

  datatype Page = Page(track: string, selected: Option<Problem>)

  const InitialPage := Page("all", None)

  /** `handleSelectProblem`: remembers the problem and announces it. */
  function Select(page: Page, p: Problem): (r: (Page, string))
    ensures r.0.selected == Some(p) && r.0.track == page.track
    ensures r.1 == "Selected: " + p.title
  {
    (page.(selected := Some(p)), "Selected: " + p.title)
  }

  /** The banner's Change button forgets the selection. */
  function ChangeSelection(page: Page): (r: Page)
    ensures r.selected.None? && r.track == page.track
  {
    page.(selected := None)
  }

  /** Choosing a track keeps the selection, even one the new track hides. */
  function ChooseTrack(page: Page, track: string): (r: Page)
    ensures r.selected == page.selected && r.track == track
  {
    page.(track := track)
  }

  /** A problem's select button is disabled, and reads Selected, exactly when it has the selected id. */
  function SelectDisabled(page: Page, p: Problem): (b: bool)
    ensures b <==> page.selected.Some? && page.selected.value.id == p.id
  {
    match page.selected
    case Some(s) => s.id == p.id
    case None => false
  }

  /** Selecting a problem disables its own button and no button of a problem with another id. */
  lemma SelectDisablesOnlyItself(page: Page, p: Problem, q: Problem)
    ensures SelectDisabled(Select(page, p).0, q) <==> q.id == p.id
  {
  }

  const EasyClass := "bg-green-500/20 text-green-400"
  const MediumClass := "bg-yellow-500/20 text-yellow-400"
  const HardClass := "bg-red-500/20 text-red-400"

  /** The difficulty badge: Medium and Hard have their colours, anything else looks Easy. */
  function DifficultyColor(difficulty: string): (c: string)
    ensures difficulty == "Medium" ==> c == MediumClass
    ensures difficulty == "Hard" ==> c == HardClass
    ensures difficulty != "Medium" && difficulty != "Hard" ==> c == EasyClass
  {
    match difficulty
    case "Easy" => EasyClass
    case "Medium" => MediumClass
    case "Hard" => HardClass
    case _ => EasyClass
  }
}
