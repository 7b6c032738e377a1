/**
 * The staff side of the private threads (`/admin-private`): the list of users with a
 * thread, the selected thread, replies, read receipts and presence.
 */
module AdminPrivateChatView {
  import opened Wrappers
  import opened Text
  import opened Messages
  import opened Socket
  import opened Auth

  /** An entry of the thread list. */
  datatype ThreadUser = ThreadUser(id: string, alias: string, role: string)

  /** The REST requests the view issues, recorded instead of performed. */
  datatype Request = UsersRequest | MessagesRequest(userId: string) | ReplyRequest(userId: string, message: string)

  /** `users.find(u => u._id === id)`: the first entry with that id. */
  function FindUser(users: seq<ThreadUser>, id: string): (r: Option<ThreadUser>)
    ensures r.Some? <==> exists i :: 0 <= i < |users| && users[i].id == id
    ensures r.Some? ==> r.value in users && r.value.id == id
    ensures r.Some? ==>
      (exists i :: 0 <= i < |users| && users[i] == r.value && forall j :: 0 <= j < i ==> users[j].id != id)
  {
    if users == [] then None
    else if users[0].id == id then Some(users[0])
    else
      var r := FindUser(users[1..], id);
      assert r.Some? ==>
        (exists i :: 1 <= i < |users| && users[i] == r.value && forall j :: 0 <= j < i ==> users[j].id != id) by {
        if r.Some? {
          var i :| 0 <= i < |users[1..]| && users[1..][i] == r.value &&
            forall j :: 0 <= j < i ==> users[1..][j].id != id;
          assert users[i + 1] == r.value;
          assert forall j :: 0 <= j < i + 1 ==> users[j].id != id by {
            forall j | 0 <= j < i + 1 ensures users[j].id != id {
              if j > 0 { assert users[j] == users[1..][j - 1]; }
            }
          }
        }
      }
      assert (exists i :: 0 <= i < |users| && users[i].id == id) ==>
        exists i :: 0 <= i < |users[1..]| && users[1..][i].id == id by {
        if exists i :: 0 <= i < |users| && users[i].id == id {
          var i :| 0 <= i < |users| && users[i].id == id;
          assert users[1..][i - 1].id == id;
        }
      }
      r
  }

  /** The presence dot: the selected user is listed and their id is among the online ids. */
  function SelectedUserOnline(users: seq<ThreadUser>, selected: Option<string>, online: seq<string>): (r: bool)
    ensures r <==>
      (selected.Some? && selected.value in online && exists i :: 0 <= i < |users| && users[i].id == selected.value)
  {
    selected.Some? && FindUser(users, selected.value).Some? && FindUser(users, selected.value).value.id in online
  }

  /** An incoming message belongs to the open thread when it is from or to the selected user. */
  predicate InThread(m: PrivateMessage, selected: Option<string>) {
    selected.Some? && (m.fromId == selected.value || m.toId == selected.value)
  }

  /** A message is drawn as the viewer's own when its sender is the signed-in staff member. */
  predicate IsOwn(m: PrivateMessage, viewerId: Option<string>) {
    viewerId == Some(m.fromId)
  }

  /**
   * A staff member without an id owns no message, and what the selected user sends in their own
   * thread is drawn on the far side unless that user is the viewer.
   */
  lemma OwnSide(m: PrivateMessage, viewerId: Option<string>, selected: Option<string>)
    ensures viewerId.None? ==> !IsOwn(m, viewerId)
    ensures InThread(m, selected) && m.fromId == selected.value && selected != viewerId ==> !IsOwn(m, viewerId)
    ensures IsOwn(m, viewerId) && InThread(m, selected) && m.fromId != selected.value ==> m.toId == selected.value
  {
  }

  /** The name sent with `typing` when the staff alias is empty or missing. */
  const TypingFallbackAlias := "Admin"

  class AdminPrivateChat {
    const user: AuthUser
    var users: seq<ThreadUser>
    var selectedUser: Option<string>
    var messages: seq<PrivateMessage>
    var reply: string
    var typingUser: Option<string>
    var onlineUserIds: seq<string>
    var emitted: seq<Emit>
    var requests: seq<Request>

    /** Mounting fetches the thread list (with a token) and joins the staff member's own room (with an id). */
    constructor (user: AuthUser)
      ensures this.user == user
      ensures users == [] && selectedUser == None && messages == [] && reply == ""
      ensures typingUser == None && onlineUserIds == []
      ensures emitted == if Truthy(user.id) then [JoinRoom(user.id.value)] else []
      ensures requests == if Truthy(user.token) then [UsersRequest] else []
    {
      this.user := user;
      users := [];
      selectedUser := None;
      messages := [];
      reply := "";
      typingUser := None;
      onlineUserIds := [];
      emitted := if Truthy(user.id) then [JoinRoom(user.id.value)] else [];
      requests := if Truthy(user.token) then [UsersRequest] else [];
    }

    /** `fetchPrivateUsers`: the list is requested only with a token. */
    method FetchUsers()
      modifies this`requests
      ensures requests == old(requests) + if Truthy(user.token) then [UsersRequest] else []
    {
      if Truthy(user.token) {
        requests := requests + [UsersRequest];
      }
    }

    method OnUsersFetched(us: seq<ThreadUser>)
      modifies this`users
      ensures users == us
    {
      users := us;
    }

    /** `onlineUsers` replaces the online ids. */
    method OnOnlineUsers(ids: seq<string>)
      modifies this`onlineUserIds
      ensures onlineUserIds == ids
    {
      onlineUserIds := ids;
    }

    /** `privateChatListChanged` refetches the list. */
    method OnChatListChanged()
      modifies this`requests
      ensures requests == old(requests) + if Truthy(user.token) then [UsersRequest] else []
    {
      FetchUsers();
    }

    /**
     * `loadMessages(userId)`: select the thread, join its room, request its messages. The
     * listener effect depends on `selectedUser`, so a change of selection re-runs it, and it
     * joins the staff member's own room again when there is an id.
     */
    method SelectUser(userId: string)
      modifies this`selectedUser, this`emitted, this`requests
      ensures selectedUser == Some(userId)
      ensures emitted == old(emitted) + [JoinRoom(userId)] +
        if old(selectedUser) != Some(userId) && Truthy(user.id) then [JoinRoom(user.id.value)] else []
      ensures requests == old(requests) + [MessagesRequest(userId)]
    {
      var changed := selectedUser != Some(userId);
      selectedUser := Some(userId);
      emitted := emitted + [JoinRoom(userId)];
      if changed && Truthy(user.id) {
        emitted := emitted + [JoinRoom(user.id.value)];
      }
      requests := requests + [MessagesRequest(userId)];
    }

    /** A thread response replaces the list, whichever thread is selected when it arrives. */
    method OnMessagesFetched(ms: seq<PrivateMessage>)
      modifies this`messages
      ensures messages == ms
    {
      messages := ms;
    }

    /**
     * `privateMessage`: a message of the open thread is appended unless its id is listed;
     * any other message only refetches the thread list.
     */
    method OnPrivateMessage(m: PrivateMessage)
      modifies this`messages, this`requests
      ensures InThread(m, selectedUser) ==>
        messages == AppendUnique(old(messages), m) && requests == old(requests)
      ensures !InThread(m, selectedUser) ==>
        messages == old(messages) && requests == old(requests) + if Truthy(user.token) then [UsersRequest] else []
      ensures DistinctIds(old(messages)) ==> DistinctIds(messages)
    {
      if InThread(m, selectedUser) {
        if DistinctIds(messages) {
          AppendUniqueKeepsDistinct(messages, m);
        }
        messages := AppendUnique(messages, m);
      } else {
        FetchUsers();
      }
    }

    /** `messageRead(id)` marks that one message read. */
    method OnMessageRead(id: string)
      modifies this`messages
      ensures messages == MarkReadById(old(messages), id)
    {
      messages := MarkReadById(messages, id);
    }

    method OnTyping(alias: Option<string>)
      modifies this`typingUser
      ensures typingUser == alias
    {
      typingUser := alias;
    }

    method OnStopTyping()
      modifies this`typingUser
      ensures typingUser == None
    {
      typingUser := None;
    }

    /**
     * `sendReply`: nothing for a blank reply or without a selected thread. The reply is
     * cleared only once the request succeeds; a failure leaves it and is not handled.
     */
    method SendReply(ok: bool)
      modifies this`reply, this`requests
      ensures IsBlank(old(reply)) || selectedUser.None? ==> reply == old(reply) && requests == old(requests)
      ensures !IsBlank(old(reply)) && selectedUser.Some? ==>
        requests == old(requests) + [ReplyRequest(selectedUser.value, old(reply))] &&
        reply == if ok then "" else old(reply)
    {
      TrimEmptyIffBlank(reply);
      if Trim(reply) == "" || selectedUser.None? {
        return;
      }
      requests := requests + [ReplyRequest(selectedUser.value, reply)];
      if ok {
        reply := "";
      }
    }

    /** `handleTyping`: the text is always taken; `typing` goes to the selected thread only. */
    method Keystroke(value: string)
      modifies this`reply, this`emitted
      ensures reply == value
      ensures emitted == old(emitted) +
        if selectedUser.Some? then [Typing(selectedUser.value, Some(OrElse(user.alias, TypingFallbackAlias)))] else []
    {
      reply := value;
      if selectedUser.Some? {
        emitted := emitted + [Typing(selectedUser.value, Some(OrElse(user.alias, TypingFallbackAlias)))];
      }
    }
  }

  /**
   * Selecting one thread and then another before the first answers: the first answer is
   * still shown, under the second selection.
   */
  method LateThreadResponse(user: AuthUser, a: string, b: string, threadA: seq<PrivateMessage>)
    returns (shown: seq<PrivateMessage>, selected: Option<string>, joined: seq<Emit>)
    ensures shown == threadA && selected == Some(b)
    ensures Truthy(user.id) && a != b ==>
      joined == [JoinRoom(user.id.value), JoinRoom(a), JoinRoom(user.id.value), JoinRoom(b), JoinRoom(user.id.value)]
    ensures Truthy(user.id) && a == b ==>
      joined == [JoinRoom(user.id.value), JoinRoom(a), JoinRoom(user.id.value), JoinRoom(a)]
    ensures !Truthy(user.id) ==> joined == [JoinRoom(a), JoinRoom(b)]
  {
    var view := new AdminPrivateChat(user);
    view.SelectUser(a);
    view.SelectUser(b);
    view.OnMessagesFetched(threadA);
    shown, selected, joined := view.messages, view.selectedUser, view.emitted;
  }
}
