/** The online-users page: registered users joined with the presence id list. */
module AdminOnline {
  import opened Wrappers
  import opened Seqs
  import opened Text

  datatype OnlineUser = OnlineUser(id: string, alias: string, role: string)

  /** `allUsers.filter(u => onlineUserIds.includes(u._id))` */
  function OnlineUsersData(all: seq<OnlineUser>, ids: seq<string>): seq<OnlineUser> {
    Filter(all, (u: OnlineUser) => u.id in ids)
  }

  /** Shown are the registered users that are online, in registration-list order, never more than registered. */
  lemma OnlineUsersDataSpec(all: seq<OnlineUser>, ids: seq<string>, u: OnlineUser)
    ensures IsSubseq(OnlineUsersData(all, ids), all)
    ensures |OnlineUsersData(all, ids)| <= |all|
    ensures u in OnlineUsersData(all, ids) <==> u in all && u.id in ids
  {
    FilterIsSubseq(all, (v: OnlineUser) => v.id in ids);
    FilterMembership(all, (v: OnlineUser) => v.id in ids, u);
  }

  /** The header counts ids, so an online id without a loaded record is counted but never shown. */
  function HeaderCount(ids: seq<string>): nat {
    |ids|
  }

  lemma UnknownIdCountedNotShown(all: seq<OnlineUser>, ids: seq<string>, id: string)
    requires id in ids && forall u :: u in all ==> u.id != id
    ensures HeaderCount(ids) > 0
    ensures forall u :: u in OnlineUsersData(all, ids) ==> u.id != id
  {
  }

  /** The page state: presence ids, the fetched users, and the spinner. */
  datatype OnlineState = OnlineState(onlineUserIds: seq<string>, allUsers: seq<OnlineUser>, loading: bool)

  /** The result of `getUsers`: a failure, or a body whose `users` may be missing. */
  datatype UsersResponse = UsersFailed | UsersReceived(users: Option<seq<OnlineUser>>)

  const Initial := OnlineState([], [], true)

  /**
   * `fetchAllUsers`: without a token nothing happens, not even the end of loading; with one,
   * the users are taken (an absent list as empty) and loading ends whether or not the request fails.
   */
  function AfterFetch(s: OnlineState, token: Option<string>, response: UsersResponse): (t: OnlineState)
    ensures t.onlineUserIds == s.onlineUserIds
    ensures t.loading <==> s.loading && !Truthy(token)
    ensures !Truthy(token) || response.UsersFailed? ==> t.allUsers == s.allUsers
    ensures Truthy(token) && response.UsersReceived? ==> t.allUsers == response.users.GetOr([])
  {
    if !Truthy(token) then s
    else match response
      case UsersFailed => s.(loading := false)
      case UsersReceived(users) => s.(allUsers := users.GetOr([]), loading := false)
  }

  /** An `onlineUsers` event replaces the id list and nothing else. */
  function OnOnlineUsers(s: OnlineState, ids: seq<string>): (t: OnlineState)
    ensures t.onlineUserIds == ids && t.allUsers == s.allUsers && t.loading == s.loading
  {
    s.(onlineUserIds := ids)
  }

  /** A run of `onlineUsers` events. */
  function Replay(s: OnlineState, events: seq<seq<string>>): OnlineState
    decreases |events|
  {
    if events == [] then s else Replay(OnOnlineUsers(s, events[0]), events[1..])
  }

  lemma {:induction false} ReplayKeepsLoading(s: OnlineState, events: seq<seq<string>>)
    ensures Replay(s, events).loading == s.loading
    decreases |events|
  {
    if events != [] {
      ReplayKeepsLoading(OnOnlineUsers(s, events[0]), events[1..]);
    }
  }

  /** Without a token the page never leaves its spinner, whatever presence events arrive. */
  lemma NoTokenKeepsLoading(token: Option<string>, response: UsersResponse, events: seq<seq<string>>)
    requires !Truthy(token)
    ensures Replay(AfterFetch(Initial, token, response), events).loading
  {
    ReplayKeepsLoading(AfterFetch(Initial, token, response), events);
  }
}
