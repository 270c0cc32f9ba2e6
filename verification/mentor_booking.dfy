/** The mentor directory (`MentorBooking`): search, expertise filter and booking. */
module MentorBooking {
  import opened Results
  import opened Text
  import opened Seqs

  /** A mentor card; the rating is kept in tenths (4.9 is 49). */
  datatype Mentor = Mentor(
    id: nat, name: string, role: string, company: string, expertise: seq<string>,
    ratingTenths: nat, sessions: nat, bio: string, avatar: string, available: bool)

  const ExpertiseAreas := ["all", "AI/ML", "Web3", "Frontend", "Backend", "Mobile", "DevOps", "Product"]

  const Mentors: seq<Mentor> := [
    Mentor(1, "Dr. Sarah Chen", "AI Research Lead", "Google Research", ["AI/ML", "NLP"], 49, 156,
           "PhD in Machine Learning with 10+ years of experience in AI research and product development.", "SC", true),
    Mentor(2, "Alex Rodriguez", "Blockchain Architect", "Ethereum Foundation", ["Web3", "Smart Contracts"], 48, 89,
           "Blockchain expert with deep knowledge of DeFi protocols and smart contract development.", "AR", true),
    Mentor(3, "Priya Sharma", "Senior Frontend Engineer", "Meta", ["Frontend", "React", "UI/UX"], 49, 234,
           "Frontend specialist passionate about creating beautiful and accessible user interfaces.", "PS", false),
    Mentor(4, "James Wilson", "DevOps Lead", "AWS", ["DevOps", "Cloud", "Backend"], 47, 178,
           "Cloud infrastructure expert helping teams scale their applications efficiently.", "JW", true),
    Mentor(5, "Emily Zhang", "Product Manager", "Microsoft", ["Product", "Strategy"], 48, 145,
           "Product leader with experience launching successful products from 0 to 1.", "EZ", true),
    Mentor(6, "Michael Brown", "Mobile Developer", "Uber", ["Mobile", "iOS", "Android"], 46, 112,
           "Mobile development expert specializing in cross-platform applications.", "MB", true)
  ]

  /** The name, or some expertise tag, contains the query, ignoring case. */
  predicate MatchesSearch(m: Mentor, query: string) {
    ContainsFolded(m.name, query) || exists i :: 0 <= i < |m.expertise| && ContainsFolded(m.expertise[i], query)
  }

  /** The expertise filter is an exact, case-sensitive tag match, or `'all'`. */
  predicate MatchesExpertise(m: Mentor, selected: string) {
    selected == "all" || selected in m.expertise
  }

  function FilteredMentors(mentors: seq<Mentor>, query: string, selected: string): (r: seq<Mentor>)
    ensures |r| <= |mentors|
  {
    Filter(mentors, m => MatchesSearch(m, query) && MatchesExpertise(m, selected))
  }

  /**
   * The shown mentors are those of the directory, in directory order, whose
   * name or a tag contains the query and that carry the selected tag.
   */
  lemma FilteredMentorsSpec(mentors: seq<Mentor>, query: string, selected: string)
    ensures IsSubseq(FilteredMentors(mentors, query, selected), mentors)
    ensures forall m :: m in FilteredMentors(mentors, query, selected) <==>
              && m in mentors
              && (ContainsFolded(m.name, query) || exists i :: 0 <= i < |m.expertise| && ContainsFolded(m.expertise[i], query))
              && (selected == "all" || selected in m.expertise)
  {
    FilterSpec(mentors, m => MatchesSearch(m, query) && MatchesExpertise(m, selected));
  }

  /** With no query and every area selected, the whole directory is shown. */
  lemma NoFilterShowsAll(mentors: seq<Mentor>)
    ensures FilteredMentors(mentors, "", "all") == mentors
  {
    var p := (m: Mentor) => MatchesSearch(m, "") && MatchesExpertise(m, "all");
    forall i | 0 <= i < |mentors| ensures p(mentors[i]) {
      EmptyQueryMatches(mentors[i].name);
    }
    FilterKeepsAll(mentors, p);
  }

  /** Every area the menu offers, apart from `all`, is carried by some mentor of the directory. */
  lemma AreasAllStaffed()
    ensures forall i :: 1 <= i < |ExpertiseAreas| ==> exists m :: m in Mentors && ExpertiseAreas[i] in m.expertise
  {
    assert ExpertiseAreas[1] in Mentors[0].expertise && ExpertiseAreas[2] in Mentors[1].expertise;
    assert ExpertiseAreas[3] in Mentors[2].expertise && ExpertiseAreas[4] in Mentors[3].expertise;
    assert ExpertiseAreas[5] in Mentors[5].expertise && ExpertiseAreas[6] in Mentors[3].expertise;
    assert ExpertiseAreas[7] in Mentors[4].expertise;
  }

  /** In the directory exactly one mentor, Priya Sharma, is busy, so hers is the one disabled book button. */
  lemma OneBusyMentor()
    ensures forall i :: 0 <= i < |Mentors| ==> (BookButton(Mentors[i]).0 <==> Mentors[i].name == "Priya Sharma")
  {
  }

  /**
   * The search ignores case but the expertise filter does not: a mentor tagged
   * `AI/ML` is found by the query `ai/ml` yet dropped by the filter `ai/ml`.
   */
  lemma ExpertiseFilterIsCaseSensitive(m: Mentor)
    requires m.expertise == ["AI/ML"]
    ensures MatchesSearch(m, "ai/ml")
    ensures !MatchesExpertise(m, "ai/ml")
    ensures MatchesExpertise(m, "AI/ML")
  {
    assert Lower("AI/ML") == "ai/ml";
    assert Lower("ai/ml") == "ai/ml";
    assert OccursAt(Lower("ai/ml"), Lower(m.expertise[0]), 0);
  }

  /**
   * The page: the search box, the selected area, the mentor last passed to
   * `setSelectedMentor` (written by the handlers, never read by the page), and
   * the mentor whose booking dialog is open. Each card's dialog keeps its own
   * open state: its trigger opens it, and it shuts only when dismissed (its
   * close button, Escape or a click outside it).
   */
  datatype Page = Page(query: string, expertise: string, selected: Option<Mentor>, dialog: Option<Mentor>)

  const InitialPage := Page("", "all", None, None)

  /** The book button is disabled, and labelled `Unavailable`, exactly when the mentor is busy. */
  function BookButton(m: Mentor): (r: (bool, string))
    ensures r.0 <==> !m.available
    ensures r.1 == (if m.available then "Book Session" else "Unavailable")
  {
    (!m.available, if m.available then "Book Session" else "Unavailable")
  }

  /** Clicking the book button: it records the mentor and opens that card's dialog; a disabled button does not fire. */
  function ClickBook(p: Page, m: Mentor): (r: Page)
    ensures r.query == p.query && r.expertise == p.expertise
    ensures m.available ==> r.selected == Some(m) && r.dialog == Some(m)
    ensures !m.available ==> r == p
  {
    if BookButton(m).0 then p else p.(selected := Some(m), dialog := Some(m))
  }

  /**
   * `handleBookSession`: confirming clears the recorded mentor and reports the
   * booking. It does not close the dialog.
   */
  function ConfirmBooking(p: Page, m: Mentor): (r: (Page, string))
    ensures r.0.selected.None? && r.0.dialog == p.dialog
    ensures r.0.query == p.query && r.0.expertise == p.expertise
    ensures r.1 == "Session booked with " + m.name + "! Check your email for details."
  {
    (p.(selected := None), "Session booked with " + m.name + "! Check your email for details.")
  }

  /** Dismissing the dialog: its close button, Escape, or a click outside it. */
  function CloseDialog(p: Page): (r: Page)
    ensures r.dialog.None? && r.selected == p.selected && r.query == p.query && r.expertise == p.expertise
  {
    p.(dialog := None)
  }

  /** Booking then confirming leaves the dialog on screen; closing it is a separate step. */
  lemma ConfirmKeepsDialogOpen(p: Page, m: Mentor)
    requires m.available
    ensures var q := ConfirmBooking(ClickBook(p, m), m).0;
            q.dialog == Some(m) && q.selected.None? && CloseDialog(q).dialog.None?
  {
  }

  datatype Event =
    | Searched(text: string) | AreaChosen(area: string)
    | BookClicked(index: nat) | ConfirmClicked | DialogClosed

  /**
   * One user action on the directory (`Mentors` on the page). The book buttons are those of the shown
   * cards; the confirm button exists only inside an open dialog, and books the
   * mentor of that dialog. An open dialog is modal: while it shows, only its
   * confirm button and its dismissal reach the page. The second component is
   * the mentor booked, if any.
   */
  function Step(directory: seq<Mentor>, p: Page, e: Event): (r: (Page, Option<Mentor>))
    ensures r.1.Some? ==> p.dialog == r.1
    ensures OnlyAvailable(p) ==> OnlyAvailable(r.0)
    ensures p.dialog.Some? && !e.ConfirmClicked? && !e.DialogClosed? ==> r == (p, None)
  {
    if p.dialog.Some? && !e.ConfirmClicked? && !e.DialogClosed? then (p, None)
    else
    match e
    case Searched(text) => (p.(query := text), None)
    case AreaChosen(area) => (p.(expertise := area), None)
    case BookClicked(i) =>
      var shown := FilteredMentors(directory, p.query, p.expertise);
      (if i < |shown| then ClickBook(p, shown[i]) else p, None)
    case ConfirmClicked =>
      if p.dialog.Some? then (ConfirmBooking(p, p.dialog.value).0, p.dialog) else (p, None)
    case DialogClosed => (CloseDialog(p), None)
  }

  /** Only available mentors are ever recorded or have an open dialog. */
  predicate OnlyAvailable(p: Page) {
    (p.dialog.Some? ==> p.dialog.value.available) && (p.selected.Some? ==> p.selected.value.available)
  }

  /** A run of actions: the mentors booked along the way, in order. */
  function Run(directory: seq<Mentor>, p: Page, events: seq<Event>): (r: (Page, seq<Mentor>))
    requires OnlyAvailable(p)
    ensures OnlyAvailable(r.0)
    ensures forall i :: 0 <= i < |r.1| ==> r.1[i].available
    decreases |events|
  {
    if events == [] then (p, [])
    else
      var (q, booked) := Step(directory, p, events[0]);
      var (r, later) := Run(directory, q, events[1..]);
      (r, (if booked.Some? then [booked.value] else []) + later)
  }

  /** However the user clicks, and whatever the directory holds, no busy mentor is ever booked. */
  lemma NeverBooksBusyMentor(directory: seq<Mentor>, events: seq<Event>)
    ensures forall m :: m in Run(directory, InitialPage, events).1 ==> m.available
  {
  }
}
