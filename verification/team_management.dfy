/** Team management (`TeamManagement`): create, join, leave, invite and remove members. */
module TeamManagement {
  import opened Results
  import opened Text
  import opened Seqs

  datatype Member = Member(id: int, name: string, email: string, role: string, avatar: string)

  datatype Team = Team(name: string, members: seq<Member>)

  datatype Page = Page(hasTeam: bool, inviteCode: string, copied: bool,
                       teamName: string, inviteEmail: string, team: Team)

  const SeedTeam := Team("Code Warriors", [
    Member(1, "You", "you@example.com", "leader", "YO"),
    Member(2, "Alice Johnson", "alice@example.com", "member", "AJ"),
    Member(3, "Bob Smith", "bob@example.com", "member", "BS")
  ])

  const InitialPage := Page(false, "INNO2025-TEAM-XYZ", false, "", "", SeedTeam)

  /** Most members a team can have; the invite form hides once it is full. */
  const MaxMembers := 4

  const CreatedToast := "Team created successfully!"
  const JoinedToast := "Joined team successfully!"
  const CopiedToast := "Invite code copied!"
  const RemovedToast := "Member removed from team"
  const LeftToast := "You left the team"
  const InvitePrefix := "Invitation sent to "

  /** How long the copied tick stays up, in milliseconds. */
  const CopiedResetMs := 2000

  /** The team-name input's change handler. */
  function TypeTeamName(p: Page, text: string): (r: Page)
    ensures r.teamName == text && r == p.(teamName := text)
  {
    p.(teamName := text)
  }

  /**
   * `handleCreateTeam`: a name with something other than white space creates
   * the team under the name as typed; a blank one changes nothing and says
   * nothing. The input is `required`, which only stops the empty name the
   * handler refuses anyway.
   */
  function CreateTeam(p: Page): (r: (Page, Option<string>))
    ensures Trim(p.teamName) == [] ==> r == (p, None)
    ensures Trim(p.teamName) != [] ==>
              && r.0.hasTeam && r.0.team.name == p.teamName && r.0.team.members == p.team.members
              && r.0.teamName == p.teamName && r.0.inviteEmail == p.inviteEmail
              && r.0.inviteCode == p.inviteCode && r.0.copied == p.copied
              && r.1 == Some(CreatedToast)
  {
    if Trim(p.teamName) != [] then (p.(hasTeam := true, team := p.team.(name := p.teamName)), Some(CreatedToast))
    else (p, None)
  }

  /** Creating, leaving, and creating again under the same typed name returns to the same page. */
  lemma CreateLeaveCreate(p: Page)
    requires Trim(p.teamName) != []
    ensures CreateTeam(TypeTeamName(LeaveTeam(CreateTeam(p).0).0, p.teamName)) == CreateTeam(p)
  {
  }

  /** The Join button: the typed code is never read. */
  function JoinTeam(p: Page): (r: (Page, string))
    ensures r.0.hasTeam && r.0.team == p.team && r.0.teamName == p.teamName
    ensures r.0.inviteCode == p.inviteCode && r.0.copied == p.copied && r.0.inviteEmail == p.inviteEmail
    ensures r.1 == JoinedToast
  {
    (p.(hasTeam := true), JoinedToast)
  }

  /**
   * `handleCopyCode`: raises the copied tick and asks for a timer that lowers
   * it again after `CopiedResetMs`; the clipboard write is the host's.
   */
  function CopyCode(p: Page): (r: (Page, string, nat))
    ensures r.0.copied && r.0.inviteCode == p.inviteCode && r.0.team == p.team
    ensures r.0.hasTeam == p.hasTeam && r.0.teamName == p.teamName && r.0.inviteEmail == p.inviteEmail
    ensures r.1 == CopiedToast && r.2 == CopiedResetMs
  {
    (p.(copied := true), CopiedToast, CopiedResetMs)
  }

  /** The copy timer firing. */
  function CopyTimerFired(p: Page): (r: Page)
    ensures !r.copied && r.inviteCode == p.inviteCode && r.team == p.team && r.hasTeam == p.hasTeam
    ensures r.teamName == p.teamName && r.inviteEmail == p.inviteEmail
  {
    p.(copied := false)
  }

  /** Copying and waiting for the timer leaves only the copied tick as it is after the timer. */
  lemma CopyThenTimer(p: Page)
    ensures CopyTimerFired(CopyCode(p).0) == p.(copied := false)
  {
  }

  predicate AsciiAlnum(c: char) {
    'a' <= c <= 'z' || 'A' <= c <= 'Z' || '0' <= c <= '9'
  }

  /** The characters allowed before the `@` of an e-mail address. */
  predicate LocalChar(c: char) {
    AsciiAlnum(c) || c in {'.', '!', '#', '$', '%', '&', '\'', '*', '+', '-', '/', '=', '?', '^', '_', '`', '{', '|', '}', '~'}
  }

  /** One dot-separated part of the domain: letters, digits and inner hyphens, at most 63 long. */
  predicate DomainLabel(s: string) {
    && 1 <= |s| <= 63
    && AsciiAlnum(s[0]) && AsciiAlnum(s[|s| - 1])
    && forall i :: 0 <= i < |s| ==> AsciiAlnum(s[i]) || s[i] == '-'
  }

  /** Labels joined by single dots. */
  predicate Domain(s: string)
    decreases |s|
  {
    DomainLabel(s) || exists k :: 0 < k < |s| && s[k] == '.' && DomainLabel(s[..k]) && Domain(s[k + 1..])
  }

  /**
   * A valid e-mail address in the sense of the HTML Living Standard's `email`
   * input type (section 4.10.5.1.5): a non-empty local part, `@`, and a domain.
   * No local character is `@`, so `k` is the first `@`.
   */
  predicate ValidEmail(s: string) {
    exists k :: 0 < k < |s| && s[k] == '@' && (forall i :: 0 <= i < k ==> LocalChar(s[i])) && Domain(s[k + 1..])
  }

  /** A valid address starts with a character that is not white space, so it is never blank. */
  lemma ValidEmailNotBlank(s: string)
    requires ValidEmail(s)
    ensures Trim(s) != []
  {
    var k :| 0 < k < |s| && s[k] == '@' && (forall i :: 0 <= i < k ==> LocalChar(s[i])) && Domain(s[k + 1..]);
    assert LocalChar(s[0]);
    assert 33 <= s[0] as int <= 126;
    assert !AllSpace(s) by {
      assert !IsSpace(s[0]);
    }
  }

  /** `bob@x.io` passes the browser's check. */
  lemma WellFormedAddressAccepted()
    ensures ValidEmail("bob@x.io")
  {
    var s := "bob@x.io";
    var d := s[4..];
    assert d[..1] == "x" && DomainLabel(d[..1]);
    assert d[2..] == "io" && DomainLabel(d[2..]);
    assert d[1] == '.' && Domain(d);
    assert s[3] == '@' && forall i :: 0 <= i < 3 ==> LocalChar(s[i]);
  }

  /** `bob`, with no `@`, and the empty field are refused. */
  lemma MalformedAddressRefused()
    ensures !ValidEmail("bob") && !ValidEmail("")
  {
    assert forall k :: 0 < k < 3 ==> "bob"[k] != '@';
  }

  /** The invite-address input's change handler. */
  function TypeInviteEmail(p: Page, text: string): (r: Page)
    ensures r.inviteEmail == text && r == p.(inviteEmail := text)
  {
    p.(inviteEmail := text)
  }

  /**
   * Submitting the invite form. The input is `type="email"` and `required`, so
   * the browser refuses to submit an empty or malformed address and the
   * handler never runs. Otherwise `handleInviteMember` announces the address
   * as typed and clears the field; nobody joins the team.
   */
  function InviteMember(p: Page): (r: (Page, Option<string>))
    ensures !ValidEmail(p.inviteEmail) ==> r == (p, None)
    ensures ValidEmail(p.inviteEmail) ==>
              r == (p.(inviteEmail := ""), Some(InvitePrefix + p.inviteEmail))
  {
    if !ValidEmail(p.inviteEmail) then (p, None)
    else
      ValidEmailNotBlank(p.inviteEmail);
      if Trim(p.inviteEmail) != [] then (p.(inviteEmail := ""), Some(InvitePrefix + p.inviteEmail))
      else (p, None)
  }

  /** Submitting twice sends one invitation: the cleared field stops the second. */
  lemma InviteTwiceSendsOnce(p: Page)
    ensures var q := InviteMember(p).0;
            InviteMember(q) == (q, None)
  {
    var q := InviteMember(p).0;
    if ValidEmail(p.inviteEmail) {
      assert q.inviteEmail == "";
    }
  }

  function NotId(id: int): Member -> bool {
    (m: Member) => m.id != id
  }

  /** `handleRemoveMember`. */
  function RemoveMember(p: Page, id: int): (r: (Page, string))
    ensures r.0.team.name == p.team.name && r.0.hasTeam == p.hasTeam
    ensures r.0.inviteCode == p.inviteCode && r.0.copied == p.copied
    ensures r.0.teamName == p.teamName && r.0.inviteEmail == p.inviteEmail
    ensures |r.0.team.members| <= |p.team.members|
    ensures r.1 == RemovedToast
  {
    (p.(team := p.team.(members := Filter(p.team.members, NotId(id)))), RemovedToast)
  }

  /** Removal drops every member with that id and keeps the others, in order. */
  lemma RemoveMemberSpec(p: Page, id: int)
    ensures var ms := RemoveMember(p, id).0.team.members;
            && IsSubseq(ms, p.team.members)
            && (forall m :: m in ms <==> m in p.team.members && m.id != id)
            && (forall m: Member :: m.id != id ==> multiset(ms)[m] == multiset(p.team.members)[m])
  {
    FilterSpec(p.team.members, NotId(id));
  }

  /** `handleLeaveTeam`: back to the create/join screen, with the team record kept. */
  function LeaveTeam(p: Page): (r: (Page, string))
    ensures !r.0.hasTeam && r.0.teamName == ""
    ensures r.0.team == p.team
    ensures r.0.inviteCode == p.inviteCode && r.0.copied == p.copied && r.0.inviteEmail == p.inviteEmail
    ensures r.1 == LeftToast
  {
    (p.(hasTeam := false, teamName := ""), LeftToast)
  }

  /** Leaving and joining again returns to the same team, members and all. */
  lemma LeaveThenJoin(p: Page)
    ensures var q := JoinTeam(LeaveTeam(p).0).0;
            q.hasTeam && q.team == p.team
  {
  }

  /** Only non-leaders have a remove control. */
  predicate RemoveControlShown(m: Member) {
    m.role != "leader"
  }

  /** The invite form shows while the team has fewer than four members. */
  predicate InviteFormShown(p: Page) {
    |p.team.members| < MaxMembers
  }

  predicate UniqueIds(ms: seq<Member>) {
    forall i, j :: 0 <= i < j < |ms| ==> ms[i].id != ms[j].id
  }

  /**
   * While ids are unique, removing through a member's control never removes a
   * leader: every leader stays on the team.
   */
  lemma LeaderNeverRemoved(p: Page, m: Member)
    requires m in p.team.members && RemoveControlShown(m)
    requires UniqueIds(p.team.members)
    ensures forall l :: l in p.team.members && l.role == "leader" ==> l in RemoveMember(p, m.id).0.team.members
  {
    RemoveMemberSpec(p, m.id);
    forall l | l in p.team.members && l.role == "leader"
      ensures l in RemoveMember(p, m.id).0.team.members
    {
      var i :| 0 <= i < |p.team.members| && p.team.members[i] == l;
      var j :| 0 <= j < |p.team.members| && p.team.members[j] == m;
      assert i != j;
    }
  }

  /** The seed team has unique ids, so its leader is safe from removal. */
  lemma SeedTeamIdsUnique()
    ensures UniqueIds(SeedTeam.members)
  {
  }

  /** Removing a member from a full team brings the invite form back. */
  lemma RemovalReopensInvites(p: Page, m: Member)
    requires |p.team.members| == MaxMembers && m in p.team.members
    ensures InviteFormShown(RemoveMember(p, m.id).0)
  {
    var i :| 0 <= i < |p.team.members| && p.team.members[i] == m;
    FilterShrinks(p.team.members, NotId(m.id), i);
  }

  /** A tail's unique ids stay unique. */
  lemma TailUniqueIds(ms: seq<Member>)
    requires ms != [] && UniqueIds(ms)
    ensures UniqueIds(ms[1..])
    ensures forall k :: 1 <= k < |ms| ==> ms[k].id != ms[0].id
  {
    var tail := ms[1..];
    forall i, j | 0 <= i < j < |tail| ensures tail[i].id != tail[j].id {
      assert tail[i] == ms[i + 1] && tail[j] == ms[j + 1];
    }
  }

  /** Removal keeps ids unique. */
  lemma {:induction false} FilterKeepsUniqueIds(ms: seq<Member>, keep: Member -> bool)
    requires UniqueIds(ms)
    ensures UniqueIds(Filter(ms, keep))
  {
    if ms != [] {
      var tail := ms[1..];
      TailUniqueIds(ms);
      FilterKeepsUniqueIds(tail, keep);
      if keep(ms[0]) {
        var rest := Filter(tail, keep);
        var r := [ms[0]] + rest;
        assert Filter(ms, keep) == r;
        forall j | 0 <= j < |rest| ensures rest[j].id != ms[0].id {
          FilterMember(tail, keep, rest[j]);
          var k :| 0 <= k < |tail| && tail[k] == rest[j];
          assert ms[k + 1] == rest[j];
        }
        forall i, j | 0 <= i < j < |r| ensures r[i].id != r[j].id {
          assert r[j] == rest[j - 1];
          if i > 0 {
            assert r[i] == rest[i - 1];
          }
        }
      }
    }
  }

  /** Everything the filter keeps comes from its input. */
  lemma {:induction false} FilterMember(ms: seq<Member>, keep: Member -> bool, x: Member)
    requires x in Filter(ms, keep)
    ensures x in ms
  {
    if ms != [] && x != ms[0] {
      if keep(ms[0]) {
        assert x in Filter(ms[1..], keep);
      }
      FilterMember(ms[1..], keep, x);
    }
  }

  /** What the page can do, as the user sees it. */
  datatype Event =
    | TypedTeamName(text: string) | CreateClicked | JoinClicked
    | CopyClicked | CopyTimerDone | TypedInviteEmail(text: string) | InviteSubmitted
    | RemoveClicked(index: nat) | LeaveClicked

  /**
   * One user action. The create and join forms show only without a team, the
   * team view only with one; a remove control exists only on a non-leader's
   * card, and the invite form only while the team has room.
   */
  function Step(p: Page, e: Event): (r: Page)
    ensures |r.team.members| <= |p.team.members|
  {
    match e
    case TypedTeamName(text) => if p.hasTeam then p else TypeTeamName(p, text)
    case CreateClicked => if p.hasTeam then p else CreateTeam(p).0
    case JoinClicked => if p.hasTeam then p else JoinTeam(p).0
    case CopyClicked => if p.hasTeam then CopyCode(p).0 else p
    case CopyTimerDone => CopyTimerFired(p)
    case TypedInviteEmail(text) => if p.hasTeam && InviteFormShown(p) then TypeInviteEmail(p, text) else p
    case InviteSubmitted => if p.hasTeam && InviteFormShown(p) then InviteMember(p).0 else p
    case RemoveClicked(i) =>
      if p.hasTeam && i < |p.team.members| && RemoveControlShown(p.team.members[i])
      then RemoveMember(p, p.team.members[i].id).0 else p
    case LeaveClicked => if p.hasTeam then LeaveTeam(p).0 else p
  }

  const Leader := SeedTeam.members[0]

  /** What holds on every page reachable from the start: room to invite, unique ids, the leader on the team. */
  predicate Reachable(p: Page) {
    |p.team.members| < MaxMembers && UniqueIds(p.team.members) && Leader in p.team.members
  }

  /** A run of user actions from a reachable page stays reachable. */
  function Run(p: Page, events: seq<Event>): (r: Page)
    requires Reachable(p)
    ensures Reachable(r)
    decreases |events|
  {
    if events == [] then p
    else
      var q := Step(p, events[0]);
      assert Reachable(q) by {
        if events[0].RemoveClicked? {
          var i := events[0].index;
          if p.hasTeam && i < |p.team.members| && RemoveControlShown(p.team.members[i]) {
            LeaderNeverRemoved(p, p.team.members[i]);
            FilterKeepsUniqueIds(p.team.members, NotId(p.team.members[i].id));
          }
        }
      }
      Run(q, events[1..])
  }

  /**
   * The team never fills up: however the user acts, the invite form is there
   * whenever the team view is, and the leader is still on the team.
   */
  lemma InviteFormAlwaysShown(events: seq<Event>)
    ensures var r := Run(InitialPage, events);
            InviteFormShown(r) && Leader in r.team.members
  {
    assert Reachable(InitialPage);
  }
}
