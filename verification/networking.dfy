/** The participant directory (`Networking`): skill list, search and filters, card rules. */
module Networking {
  import opened Text
  import opened Seqs

  /** A participant; the directory itself is supplied by a fixture module outside this model. */
  datatype Participant = Participant(
    id: nat, name: string, college: string, skills: seq<string>, status: string,
    bio: string, github: string, linkedin: string)

  /** The order the default `sort` puts strings in: character by character, a prefix first. */
  predicate StrLess(a: string, b: string)
    decreases |a|
  {
    if a == [] then b != []
    else if b == [] then false
    else a[0] < b[0] || (a[0] == b[0] && StrLess(a[1..], b[1..]))
  }

  lemma {:induction false} StrLessIrreflexive(a: string)
    ensures !StrLess(a, a)
    decreases |a|
  {
    if a != [] { StrLessIrreflexive(a[1..]); }
  }

  /** Any two different strings are ordered one way or the other, never both. */
  lemma {:induction false} StrLessTotal(a: string, b: string)
    ensures a != b ==> StrLess(a, b) || StrLess(b, a)
    ensures !(StrLess(a, b) && StrLess(b, a))
    decreases |a|
  {
    if a != [] && b != [] && a[0] == b[0] {
      StrLessTotal(a[1..], b[1..]);
      if a != b {
        assert a == [a[0]] + a[1..] && b == [b[0]] + b[1..];
      }
    }
  }

  predicate StrictlySorted(s: seq<string>) {
    forall i, j :: 0 <= i < j < |s| ==> StrLess(s[i], s[j])
  }

  /** A strictly sorted list holds no string twice. */
  lemma StrictlySortedDistinct(s: seq<string>)
    requires StrictlySorted(s)
    ensures forall i, j :: 0 <= i < j < |s| ==> s[i] != s[j]
  {
    forall i, j | 0 <= i < j < |s| ensures s[i] != s[j] {
      StrLessIrreflexive(s[i]);
    }
  }

  /** Adds `x` to a strictly sorted list unless it is already there. */
  function InsertUnique(x: string, t: seq<string>): (r: seq<string>)
    requires StrictlySorted(t)
    ensures StrictlySorted(r)
    ensures forall y :: y in r <==> y == x || y in t
  {
    if t == [] then [x]
    else if x == t[0] then t
    else if StrLess(x, t[0]) then
      assert forall j :: 0 < j < |t| ==> StrLess(t[0], t[j]);
      forall j | 0 < j < |t| ensures StrLess(x, t[j]) {
        StrLessTransitive(x, t[0], t[j]);
      }
      [x] + t
    else
      StrLessTotal(x, t[0]);
      var rest := InsertUnique(x, t[1..]);
      assert forall y :: y in t[1..] ==> StrLess(t[0], y);
      [t[0]] + rest
  }

  lemma {:induction false} StrLessTransitive(a: string, b: string, c: string)
    requires StrLess(a, b) && StrLess(b, c)
    ensures StrLess(a, c)
    decreases |a|
  {
    if a != [] && a[0] == b[0] && b[0] == c[0] {
      StrLessTransitive(a[1..], b[1..], c[1..]);
    }
  }

  /** `participants.flatMap(p => p.skills)`. */
  function AllSkillsListed(ps: seq<Participant>): seq<string> {
    if ps == [] then [] else ps[0].skills + AllSkillsListed(ps[1..])
  }

  /** Some participant lists the skill. */
  predicate SomeoneHas(ps: seq<Participant>, skill: string) {
    exists i :: 0 <= i < |ps| && skill in ps[i].skills
  }

  lemma {:induction false} AllSkillsListedSpec(ps: seq<Participant>)
    ensures forall x :: x in AllSkillsListed(ps) <==> SomeoneHas(ps, x)
  {
    if ps != [] {
      AllSkillsListedSpec(ps[1..]);
      forall x ensures x in AllSkillsListed(ps) <==> SomeoneHas(ps, x) {
        if SomeoneHas(ps, x) && x !in ps[0].skills {
          var i :| 0 <= i < |ps| && x in ps[i].skills;
          assert ps[1..][i - 1] == ps[i];
        }
        if x in AllSkillsListed(ps[1..]) {
          var i :| 0 <= i < |ps[1..]| && x in ps[1..][i].skills;
          assert ps[i + 1] == ps[1..][i];
        }
      }
    }
  }

  /** Sorts a list and drops repeats, as `[...new Set(xs)].sort()` does. */
  function SortedUnique(xs: seq<string>): (r: seq<string>)
    ensures StrictlySorted(r)
    ensures forall y :: y in r <==> y in xs
  {
    if xs == [] then [] else InsertUnique(xs[0], SortedUnique(xs[1..]))
  }

  /** The skill filter's options: every listed skill exactly once, in sorted order. */
  function AllSkills(ps: seq<Participant>): (r: seq<string>)
    ensures StrictlySorted(r)
    ensures forall i, j :: 0 <= i < j < |r| ==> r[i] != r[j]
    ensures forall x :: x in r <==> SomeoneHas(ps, x)
  {
    AllSkillsListedSpec(ps);
    var r := SortedUnique(AllSkillsListed(ps));
    StrictlySortedDistinct(r);
    r
  }

  datatype Filters = Filters(query: string, skill: string, status: string)

  const NoFilters := Filters("", "all", "all")

  predicate Matches(p: Participant, f: Filters) {
    && (ContainsFolded(p.name, f.query) || ContainsFolded(p.college, f.query))
    && (f.skill == "all" || f.skill in p.skills)
    && (f.status == "all" || p.status == f.status)
  }

  function FilteredParticipants(ps: seq<Participant>, f: Filters): (r: seq<Participant>)
    ensures |r| <= |ps|
  {
    Filter(ps, p => Matches(p, f))
  }

  /**
   * A participant is shown iff the name or college contains the query (ignoring
   * case), the skill filter is `all` or one of their skills, and the status
   * filter is `all` or their status; shown cards keep the directory's order.
   */
  lemma FilteredParticipantsSpec(ps: seq<Participant>, f: Filters)
    ensures IsSubseq(FilteredParticipants(ps, f), ps)
    ensures forall p :: p in FilteredParticipants(ps, f) <==>
              && p in ps
              && (ContainsFolded(p.name, f.query) || ContainsFolded(p.college, f.query))
              && (f.skill == "all" || f.skill in p.skills)
              && (f.status == "all" || p.status == f.status)
  {
    FilterSpec(ps, p => Matches(p, f));
  }

  /** Clear Filters restores the whole directory. */
  lemma ClearedFiltersShowAll(ps: seq<Participant>)
    ensures FilteredParticipants(ps, NoFilters) == ps
  {
    var m := (p: Participant) => Matches(p, NoFilters);
    forall i | 0 <= i < |ps| ensures m(ps[i]) {
      EmptyQueryMatches(ps[i].name);
    }
    FilterKeepsAll(ps, m);
  }

  /** The Clear Filters button, shown only when nothing matches. */
  function ClearFilters(f: Filters): (r: Filters)
    ensures r.query == "" && r.skill == "all" && r.status == "all"
  {
    NoFilters
  }

  /** A card shows its first three skills and, past three, a `+n` chip counting the rest. */
  function SkillChips(skills: seq<string>): (r: (seq<string>, nat))
    ensures |r.0| == if |skills| < 3 then |skills| else 3
    ensures r.0 <= skills
    ensures r.1 > 0 <==> |skills| > 3
    ensures |r.0| + r.1 == |skills|
  {
    if |skills| > 3 then (skills[..3], |skills| - 3) else (skills, 0)
  }

  /** `handleInvite`: announces the invitation by the participant's name; nothing else changes. */
  function InviteToast(name: string): (r: string)
    ensures |r| == |"Invitation sent to "| + |name|
    ensures r[..|"Invitation sent to "|] == "Invitation sent to " && r[|"Invitation sent to "|..] == name
  {
    "Invitation sent to " + name
  }

  /** The Invite button appears only for a participant looking for a team, Joined only for one in a team. */
  function CardAction(p: Participant): (r: (bool, bool))
    ensures r.0 <==> p.status == "looking"
    ensures r.1 <==> p.status == "team"
    ensures !(r.0 && r.1)
  {
    (p.status == "looking", p.status == "team")
  }
}
