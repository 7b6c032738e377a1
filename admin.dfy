/**
 * The staff dashboard's user rules: who may act on whom, the user search and the
 * muted/warned/pending lists, the remaining mute time, and the user-list pagination.
 */
module AdminRules {
  import opened Wrappers
  import opened Seqs
  import opened Text
  import opened Paging

  // ------------------------------------------------------------ permissions

  predicate IsStaffRole(role: Option<string>) {
    role == Some("moderator") || role == Some("admin") || role == Some("super-admin")
  }

  /** `user.id === u._id` */
  predicate IsSelf(actorId: Option<string>, targetId: string) {
    actorId == Some(targetId)
  }

  predicate CanTakeModerationAction(actorRole: Option<string>, self: bool) {
    IsStaffRole(actorRole) && !self
  }

  predicate CanDelete(actorRole: Option<string>, targetRole: string, self: bool) {
    (actorRole == Some("super-admin") && !self) ||
    (actorRole == Some("admin") && targetRole != "admin" && targetRole != "super-admin" && !self)
  }

  predicate CanChangeRole(actorRole: Option<string>, self: bool) {
    actorRole == Some("super-admin") && !self
  }

  /** The menu offered for the signed-in user's own row: none of the three actions. */
  lemma SelfHasNoActions(actorRole: Option<string>, targetRole: string)
    ensures !CanTakeModerationAction(actorRole, true)
    ensures !CanDelete(actorRole, targetRole, true)
    ensures !CanChangeRole(actorRole, true)
  {
  }

  /** The rank of the four known roles; anything else ranks with `user`. */
  function Rank(role: Option<string>): (r: nat)
    ensures r <= 3
    ensures r >= 1 <==> IsStaffRole(role)
    ensures r >= 2 <==> role == Some("admin") || role == Some("super-admin")
    ensures r == 3 <==> role == Some("super-admin")
  {
    if role == Some("super-admin") then 3
    else if role == Some("admin") then 2
    else if role == Some("moderator") then 1
    else 0
  }

  /** Whatever a role may do to another user, every higher-ranked role may do as well. */
  lemma PermissionsGrowWithRank(low: Option<string>, high: Option<string>, targetRole: string, self: bool)
    requires Rank(low) <= Rank(high)
    ensures CanTakeModerationAction(low, self) ==> CanTakeModerationAction(high, self)
    ensures CanDelete(low, targetRole, self) ==> CanDelete(high, targetRole, self)
    ensures CanChangeRole(low, self) ==> CanChangeRole(high, self)
  {
  }

  /** Deletion by role: a super-admin removes anyone else; an admin only non-admins; nobody else anyone. */
  lemma DeleteByRole(actorRole: Option<string>, targetRole: string, self: bool)
    ensures actorRole == Some("super-admin") ==> (CanDelete(actorRole, targetRole, self) <==> !self)
    ensures actorRole == Some("admin") ==>
      (CanDelete(actorRole, targetRole, self) <==> !self && targetRole != "admin" && targetRole != "super-admin")
    ensures Rank(actorRole) <= 1 ==> !CanDelete(actorRole, targetRole, self)
  {
  }

  // ------------------------------------------------------------ the user lists

  /** A user row as the dashboard receives it; `alias` and `nim` may be missing. */
  datatype UserRow = UserRow(
    id: string, alias: Option<string>, nim: Option<string>, role: string, status: string,
    warnCount: int, isMuted: bool, muteUntil: Option<int>)

  /** `u.alias?.toLowerCase().includes(q) || u.nim?.toLowerCase().includes(q)` for the lowered query. */
  predicate MatchesQuery(u: UserRow, query: string) {
    (u.alias.Some? && Includes(Lower(u.alias.value), Lower(query))) ||
    (u.nim.Some? && Includes(Lower(u.nim.value), Lower(query)))
  }

  function FilteredUsers(users: seq<UserRow>, query: string): seq<UserRow> {
    Filter(users, (u: UserRow) => MatchesQuery(u, query))
  }

  /** The search keeps users in list order, exactly those whose alias or NIM contains the query. */
  lemma FilteredUsersSpec(users: seq<UserRow>, query: string, u: UserRow)
    ensures IsSubseq(FilteredUsers(users, query), users)
    ensures u in FilteredUsers(users, query) <==> u in users && MatchesQuery(u, query)
  {
    FilterIsSubseq(users, (v: UserRow) => MatchesQuery(v, query));
    FilterMembership(users, (v: UserRow) => MatchesQuery(v, query), u);
  }

  /** The empty query keeps exactly the users that have an alias or a NIM. */
  lemma EmptyQueryKeepsIdentified(u: UserRow)
    ensures MatchesQuery(u, "") <==> u.alias.Some? || u.nim.Some?
  {
    if u.alias.Some? {
      IncludesEmpty(Lower(u.alias.value));
    }
    if u.nim.Some? {
      IncludesEmpty(Lower(u.nim.value));
    }
  }

  /** `u.isMuted && new Date(u.muteUntil) > now`; a missing or unreadable date never counts. */
  predicate MuteActive(u: UserRow, now: int) {
    u.isMuted && u.muteUntil.Some? && u.muteUntil.value > now
  }

  function MutedUsers(users: seq<UserRow>, now: int): seq<UserRow> {
    Filter(users, (u: UserRow) => MuteActive(u, now))
  }

  function WarnedUsers(users: seq<UserRow>): seq<UserRow> {
    Filter(users, (u: UserRow) => u.warnCount > 0)
  }

  function PendingUsers(users: seq<UserRow>): seq<UserRow> {
    Filter(users, (u: UserRow) => u.status == "pending")
  }

  /** Who appears on each of the three list tabs. */
  lemma ListTabsSpec(users: seq<UserRow>, now: int, u: UserRow)
    ensures u in MutedUsers(users, now) <==> u in users && u.isMuted && u.muteUntil.Some? && u.muteUntil.value > now
    ensures u in WarnedUsers(users) <==> u in users && u.warnCount > 0
    ensures u in PendingUsers(users) <==> u in users && u.status == "pending"
  {
    FilterMembership(users, (v: UserRow) => MuteActive(v, now), u);
    FilterMembership(users, (v: UserRow) => v.warnCount > 0, u);
    FilterMembership(users, (v: UserRow) => v.status == "pending", u);
  }

  /** A mute only counts while it lasts: nobody muted until `t` is listed from `t` on. */
  lemma MuteExpires(users: seq<UserRow>, u: UserRow, now: int)
    requires u.muteUntil.Some? && now >= u.muteUntil.value
    ensures u !in MutedUsers(users, now)
  {
    FilterMembership(users, (v: UserRow) => MuteActive(v, now), u);
  }

  /** Approve and Reject are offered for a pending user, to admins and super-admins only. */
  predicate ApprovalOffered(u: UserRow, actorRole: Option<string>) {
    u.status == "pending" && (actorRole == Some("admin") || actorRole == Some("super-admin"))
  }

  /** Every user offered for approval is on the pending tab, and no moderator is offered it. */
  lemma ApprovalGate(users: seq<UserRow>, u: UserRow, actorRole: Option<string>)
    requires u in users && ApprovalOffered(u, actorRole)
    ensures u in PendingUsers(users)
    ensures Rank(actorRole) >= 2
  {
    ListTabsSpec(users, 0, u);
  }

  // ------------------------------------------------------------ remaining mute

  const HourMs := 3600000
  const MinuteMs := 60000

  datatype Remaining = Expired | Left(hours: nat, minutes: nat)

  /** `getRemainingMute`, on milliseconds: whole hours, then whole minutes of the rest. */
  function RemainingMute(muteUntil: int, now: int): (r: Remaining)
    ensures r.Expired? <==> muteUntil - now <= 0
    ensures r.Left? ==> r.minutes < 60
    ensures r.Left? ==>
      r.hours * HourMs + r.minutes * MinuteMs <= muteUntil - now < r.hours * HourMs + (r.minutes + 1) * MinuteMs
  {
    var diff := muteUntil - now;
    if diff <= 0 then Expired
    else Left(diff / HourMs, (diff % HourMs) / MinuteMs)
  }

  /** The text shown: `Expired`, or `` `${hours}h ${minutes}m` ``. */
  function RemainingMuteText(r: Remaining): string {
    match r
    case Expired => "Expired"
    case Left(h, m) => NatToString(h) + "h " + NatToString(m) + "m"
  }

  /** The row reads `Expired` exactly when the mute end is not after now; otherwise it ends in `m`. */
  lemma MuteTextExpired(muteUntil: int, now: int)
    ensures RemainingMuteText(RemainingMute(muteUntil, now)) == "Expired" <==> muteUntil <= now
    ensures muteUntil > now ==> var t := RemainingMuteText(RemainingMute(muteUntil, now)); t != [] && t[|t| - 1] == 'm'
  {
    var r := RemainingMute(muteUntil, now);
    if r.Left? {
      var t := RemainingMuteText(r);
      assert t[|t| - 1] == 'm';
      assert "Expired"[6] == 'd';
    }
  }

  // ------------------------------------------------------------ pagination

  const UserLimit: nat := 20

  /** The user and chat bars of the dashboard are `Pagination` with 20 rows a page. */
  function DashboardPagination(current: int, total: nat): (r: Option<Bar>)
    ensures r.None? <==> total <= UserLimit
  {
    Pagination(current, total, UserLimit)
  }
}
