/**
 * The team page: the three-step invitation check (role, blank email, the
 * `\S+@\S+\.\S+` pattern), appending the invited member, per-id role changes,
 * the permission-panel toggles, the online-status colour and the task preview.
 */
module TeamMembers {
  import opened Wrappers
  import opened Text

  datatype Member = Member(
    id: string,
    name: string,
    email: string,
    role: string,
    avatarUrl: Option<string>,
    onlineStatus: string,
    lastLogin: string,
    assignedTasks: seq<string>)

  /** The role the invite form starts with and is reset to. */
  const DefaultRole := "Viewer"

  // ---------------------------------------------------------------- the email pattern

  /**
   * Where the unanchored pattern `\S+@\S+\.\S+` can match: an `@` at `at` with a
   * non-space before it, a non-space run from `at + 1` up to and including a `.`
   * at `dot >= at + 2`, and a non-space right after the dot.
   */
  ghost predicate PatternAt(s: string, at: int, dot: int) {
    && 1 <= at && at + 2 <= dot && dot + 1 < |s|
    && s[at] == '@' && !IsSpace(s[at - 1])
    && (forall k :: at < k <= dot ==> !IsSpace(s[k]))
    && s[dot] == '.' && !IsSpace(s[dot + 1])
  }

  /** A dot at `dot`, reached from `from` through non-space characters, and followed by a non-space. */
  ghost predicate DotAhead(s: string, from: int, dot: int) {
    && 0 <= from <= dot && dot + 1 < |s|
    && (forall k :: from <= k <= dot ==> !IsSpace(s[k]))
    && s[dot] == '.' && !IsSpace(s[dot + 1])
  }

  /** The scan from `from` along a run of non-space characters for a dot followed by a non-space. */
  function DotRun(s: string, from: nat): bool
    decreases |s| - from
  {
    && from < |s| && !IsSpace(s[from])
    && ((s[from] == '.' && from + 1 < |s| && !IsSpace(s[from + 1])) || DotRun(s, from + 1))
  }

  /** Whether the pattern matches with its `@` at `at`. */
  function AtMatches(s: string, at: nat): bool {
    && 1 <= at && at + 1 < |s|
    && s[at] == '@' && !IsSpace(s[at - 1]) && !IsSpace(s[at + 1])
    && DotRun(s, at + 2)
  }

  /** Tries every position from `from` on as the `@`. */
  function MatchFrom(s: string, from: nat): bool
    decreases |s| - from
  {
    from < |s| && (AtMatches(s, from) || MatchFrom(s, from + 1))
  }

  /** Whether some part of the address is non-space text, `@`, non-space text, `.`, non-space text. */
  function EmailPatternMatches(email: string): bool {
    MatchFrom(email, 0)
  }

  lemma {:induction false} DotRunIff(s: string, from: nat)
    ensures DotRun(s, from) <==> exists dot :: DotAhead(s, from, dot)
    decreases |s| - from
  {
    if from < |s| && !IsSpace(s[from]) {
      DotRunIff(s, from + 1);
      if s[from] == '.' && from + 1 < |s| && !IsSpace(s[from + 1]) {
        assert DotAhead(s, from, from);
      } else {
        if DotRun(s, from + 1) {
          var dot :| DotAhead(s, from + 1, dot);
          assert DotAhead(s, from, dot);
        }
        if exists dot :: DotAhead(s, from, dot) {
          var dot :| DotAhead(s, from, dot);
          assert dot != from;
          assert DotAhead(s, from + 1, dot);
        }
      }
    }
  }

  lemma AtMatchesIff(s: string, at: nat)
    ensures AtMatches(s, at) <==> exists dot :: PatternAt(s, at, dot)
  {
    if 1 <= at && at + 1 < |s| && s[at] == '@' && !IsSpace(s[at - 1]) && !IsSpace(s[at + 1]) {
      DotRunIff(s, at + 2);
      if DotRun(s, at + 2) {
        var dot :| DotAhead(s, at + 2, dot);
        assert PatternAt(s, at, dot);
      }
      if exists dot :: PatternAt(s, at, dot) {
        var dot :| PatternAt(s, at, dot);
        assert DotAhead(s, at + 2, dot);
      }
    }
  }

  lemma {:induction false} MatchFromIff(s: string, from: nat)
    ensures MatchFrom(s, from) <==> exists at, dot :: from <= at && PatternAt(s, at, dot)
    decreases |s| - from
  {
    if from < |s| {
      MatchFromIff(s, from + 1);
      AtMatchesIff(s, from);
      if exists at, dot :: from <= at && PatternAt(s, at, dot) {
        var at, dot :| from <= at && PatternAt(s, at, dot);
        if at == from {
          assert AtMatches(s, from);
        } else {
          assert from + 1 <= at;
        }
      }
    }
  }

  /** The pattern test accepts exactly the strings with an `@` and a later `.` placed as the pattern demands. */
  lemma EmailPatternIff(email: string)
    ensures EmailPatternMatches(email) <==> exists at, dot :: PatternAt(email, at, dot)
  {
    MatchFromIff(email, 0);
  }

  /** An accepted address contains an `@`, so the invited name is built from a proper prefix. */
  lemma AcceptedHasAt(email: string)
    requires EmailPatternMatches(email)
    ensures '@' in email
  {
    EmailPatternIff(email);
    var at, dot :| PatternAt(email, at, dot);
    assert email[at] == '@';
  }

  /** The placeholder name of an invited member: the address up to its first `@`, in `Invited (...)`. */
  function InvitedName(email: string): (name: string)
    ensures var local := Split(email, '@')[0];
            && name == "Invited (" + local + ")"
            && '@' !in local
            && StartsWith(email, local)
            && (|local| < |email| <==> '@' in email)
  {
    var local := Split(email, '@')[0];
    InvitedLocalPart(email);
    "Invited (" + local + ")"
  }

  /** `email.split('@')[0]` is the text before the first `@`, or all of it when there is none. */
  lemma InvitedLocalPart(email: string)
    ensures var local := Split(email, '@')[0];
            && '@' !in local
            && StartsWith(email, local)
            && (|local| < |email| <==> '@' in email)
            && ('@' in email ==> email[|local|] == '@')
  {
    var local := Split(email, '@')[0];
    match IndexOf(email, '@')
    case None =>
      assert local == email;
    case Some(i) =>
      assert local == email[..i];
  }

  // ---------------------------------------------------------------- pure helpers

  /** `getStatusColor` */
  function StatusColor(status: string): (colour: string)
    ensures status == "Online" <==> colour == "bg-green-500"
    ensures status == "Offline" <==> colour == "bg-gray-400"
    ensures status != "Online" && status != "Offline" <==> colour == "bg-yellow-400"
  {
    if status == "Online" then "bg-green-500"
    else if status == "Offline" then "bg-gray-400"
    else "bg-yellow-400"
  }

  /** What the member card shows under "Tasks Assigned". */
  datatype Preview = NoTasks | Listed(shown: seq<string>, more: Option<nat>)

  /** The preview of a member's tasks: at most the first two titles, and a count of the rest when there are more than two. */
  function TaskPreview(assignedTasks: seq<string>): (p: Preview)
    ensures p.NoTasks? <==> assignedTasks == []
    ensures p.Listed? ==>
              && |p.shown| == (if |assignedTasks| < 2 then |assignedTasks| else 2)
              && p.shown == assignedTasks[..|p.shown|]
              && (p.more.Some? <==> |assignedTasks| > 2)
              && (p.more.Some? ==> |p.shown| + p.more.value == |assignedTasks|)
  {
    var n := |assignedTasks|;
    if n == 0 then NoTasks
    else Listed(assignedTasks[..if n < 2 then n else 2], if n > 2 then Some(n - 2) else None)
  }

  /** Every member with `memberId` gets `newRole`; everything else stays. */
  function SetRole(members: seq<Member>, memberId: string, newRole: string): (r: seq<Member>)
    ensures |r| == |members|
    ensures forall k :: 0 <= k < |members| && members[k].id == memberId ==> r[k] == members[k].(role := newRole)
    ensures forall k :: 0 <= k < |members| && members[k].id != memberId ==> r[k] == members[k]
  {
    seq(|members|, k requires 0 <= k < |members| =>
      if members[k].id == memberId then members[k].(role := newRole) else members[k])
  }

  /** Changing a role again to the same value changes nothing more. */
  lemma SetRoleIdempotent(members: seq<Member>, memberId: string, newRole: string)
    ensures SetRole(SetRole(members, memberId, newRole), memberId, newRole) == SetRole(members, memberId, newRole)
  {
  }

  /** Whether a member's permission list is open: a missing key reads as closed. */
  function IsExpanded(expanded: map<string, bool>, memberId: string): bool {
    memberId in expanded && expanded[memberId]
  }

  /** The permission panels with one member's panel flipped; a member with no entry counts as closed. */
  function Toggled(expanded: map<string, bool>, memberId: string): (r: map<string, bool>)
    ensures IsExpanded(r, memberId) == !IsExpanded(expanded, memberId)
    ensures forall other :: other != memberId ==> IsExpanded(r, other) == IsExpanded(expanded, other)
    ensures r.Keys == expanded.Keys + {memberId}
  {
    expanded[memberId := !IsExpanded(expanded, memberId)]
  }

  /** Toggling twice restores what every member's panel shows. */
  lemma ToggleTwice(expanded: map<string, bool>, memberId: string)
    ensures forall id :: IsExpanded(Toggled(Toggled(expanded, memberId), memberId), id) == IsExpanded(expanded, id)
  {
  }

  datatype InviteOutcome = MissingRole | BlankEmail | InvalidEmail | Sent

  /** The invitation checks, in the order the handler runs them. */
  function CheckInvitation(role: string, email: string): (r: InviteOutcome)
    ensures r == Sent <==> role != "" && Trim(email) != "" && EmailPatternMatches(email)
    ensures r == MissingRole <==> role == ""
    ensures r == BlankEmail <==> role != "" && AllSpace(email)
    ensures r == InvalidEmail <==> role != "" && !AllSpace(email) && !EmailPatternMatches(email)
  {
    if role == "" then MissingRole
    else if Trim(email) == "" then BlankEmail
    else if !EmailPatternMatches(email) then InvalidEmail
    else Sent
  }

  /** A blank address never passes the pattern, so the blank check only decides the message. */
  lemma BlankFailsPattern(email: string)
    requires AllSpace(email)
    ensures !EmailPatternMatches(email)
  {
    EmailPatternIff(email);
  }

  class TeamPage {
    var inviteEmail: string
    var newMemberRole: string
    var teamMembers: seq<Member>
    var expandedPermissions: map<string, bool>

    constructor (initial: seq<Member>)
      ensures inviteEmail == "" && newMemberRole == DefaultRole
      ensures teamMembers == initial && expandedPermissions == map[]
    {
      inviteEmail := "";
      newMemberRole := DefaultRole;
      teamMembers := initial;
      expandedPermissions := map[];
    }

    method InviteEmailChange(value: string)
      modifies this`inviteEmail
      ensures inviteEmail == value
    {
      inviteEmail := value;
    }

    method RoleSelect(value: string)
      modifies this`newMemberRole
      ensures newMemberRole == value
    {
      newMemberRole := value;
    }

    /** `handleSendInvitation`; `freshId` stands for `` `user-${Date.now()}` ``. */
    method SendInvitation(freshId: string) returns (outcome: InviteOutcome)
      modifies this`teamMembers, this`inviteEmail, this`newMemberRole
      ensures outcome == CheckInvitation(old(newMemberRole), old(inviteEmail))
      ensures outcome != Sent ==>
                teamMembers == old(teamMembers) && inviteEmail == old(inviteEmail) && newMemberRole == old(newMemberRole)
      ensures outcome == Sent ==>
                && teamMembers == old(teamMembers) + [Member(freshId, InvitedName(old(inviteEmail)), old(inviteEmail),
                                                             old(newMemberRole), None, "Pending", "Pending Invitation", [])]
                && inviteEmail == "" && newMemberRole == DefaultRole
    {
      if newMemberRole == "" {
        return MissingRole;
      }
      if Trim(inviteEmail) == "" {
        return BlankEmail;
      }
      if !EmailPatternMatches(inviteEmail) {
        return InvalidEmail;
      }
      var newMember := Member(freshId, InvitedName(inviteEmail), inviteEmail, newMemberRole,
                              None, "Pending", "Pending Invitation", []);
      teamMembers := teamMembers + [newMember];
      inviteEmail := "";
      newMemberRole := DefaultRole;
      outcome := Sent;
    }

    /** `handleRoleChange` */
    method RoleChange(memberId: string, newRole: string)
      modifies this`teamMembers
      ensures teamMembers == SetRole(old(teamMembers), memberId, newRole)
    {
      teamMembers := SetRole(teamMembers, memberId, newRole);
    }

    /** `togglePermissionsVisibility` */
    method TogglePermissionsVisibility(memberId: string)
      modifies this`expandedPermissions
      ensures expandedPermissions == Toggled(old(expandedPermissions), memberId)
    {
      expandedPermissions := Toggled(expandedPermissions, memberId);
    }
  }
}
