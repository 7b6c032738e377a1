/**
 * The user's private thread with the staff (`/chat-admin`): a de-duplicated message
 * list, read receipts, and a `typing`/`stopTyping` signal to the `admins` room.
 */
module ChatAdminView {
  import opened Wrappers
  import opened Seqs
  import opened Text
  import opened Messages
  import opened Socket
  import opened Auth

  const AdminsRoom := "admins"

  /** The delivery tick drawn next to an own message. */
  datatype StatusIcon = SingleCheck | DoubleCheck

  /** Two ticks exactly for a `read` message; every other status, known or not, gets one. */
  function MessageStatus(status: string): (icon: StatusIcon)
    ensures icon == DoubleCheck <==> status == "read"
  {
    if status == "read" then DoubleCheck else SingleCheck
  }

  /** A message is drawn as the viewer's own when a `user` sent it. */
  predicate IsOwn(m: PrivateMessage) {
    m.fromRole == "user"
  }

  /**
   * After `messagesReadByAdmin`, every own message shows two ticks, and every staff message is
   * drawn as it was.
   */
  lemma OwnMessagesShowRead(ms: seq<PrivateMessage>)
    ensures |MarkUserMessagesRead(ms)| == |ms|
    ensures forall i :: 0 <= i < |ms| && IsOwn(ms[i]) ==>
      IsOwn(MarkUserMessagesRead(ms)[i]) && MessageStatus(MarkUserMessagesRead(ms)[i].status) == DoubleCheck
    ensures forall i :: 0 <= i < |ms| && !IsOwn(ms[i]) ==> MarkUserMessagesRead(ms)[i] == ms[i]
  {
    MarkUserMessagesReadPointwise(ms);
  }

  predicate IsRoomSignal(e: Emit) {
    e.Typing? || e.StopTyping?
  }

  function RoomSignals(log: seq<Emit>): seq<Emit> {
    Filter(log, IsRoomSignal)
  }

  /** While the last room signal sent is `typing`, a live stop timer is there to end it. */
  ghost predicate StopPending(log: seq<Emit>, live: bool) {
    var s := RoomSignals(log);
    s != [] && s[|s| - 1].Typing? ==> live
  }

  /** How one more emit affects the pending-stop obligation. */
  lemma StopPendingSnoc(log: seq<Emit>, e: Emit, live: bool)
    ensures e.Typing? ==> (StopPending(log + [e], live) <==> live)
    ensures e.StopTyping? ==> StopPending(log + [e], live)
    ensures !IsRoomSignal(e) ==> (StopPending(log + [e], live) <==> StopPending(log, live))
  {
    FilterConcat(log, [e], IsRoomSignal);
    assert [e][1..] == [];
    assert RoomSignals(log) + [] == RoomSignals(log);
  }

  class ChatAdmin {
    const user: Option<AuthUser>
    var messages: seq<PrivateMessage>
    var typingUser: Option<string>
    var input: string
    /** `typingTimeoutRef.current` is non-null. */
    var stopTimerRef: bool
    /** The timer it holds is scheduled and not cleared. */
    var stopTimerLive: bool
    var emitted: seq<Emit>

    /** The socket handlers and the initial fetch exist only for a user with an id. */
    predicate Subscribed() {
      user.Some? && Truthy(user.value.id)
    }

    ghost predicate Valid()
      reads this
    {
      (stopTimerLive ==> stopTimerRef) && StopPending(emitted, stopTimerLive)
    }

    /** Mounting joins the user's own room when the user has an id. */
    constructor (user: Option<AuthUser>)
      ensures Valid()
      ensures this.user == user
      ensures messages == [] && typingUser == None && input == "" && !stopTimerRef && !stopTimerLive
      ensures emitted == if Subscribed() then [JoinRoom(user.value.id.value)] else []
    {
      this.user := user;
      messages := [];
      typingUser := None;
      input := "";
      stopTimerRef := false;
      stopTimerLive := false;
      emitted := if user.Some? && Truthy(user.value.id) then [JoinRoom(user.value.id.value)] else [];
      new;
      assert RoomSignals(emitted) == [];
    }

    /** The thread fetched on mount replaces the list. */
    method OnMessagesLoaded(ms: seq<PrivateMessage>)
      requires Subscribed()
      modifies this`messages
      ensures messages == ms
    {
      messages := ms;
    }

    /** A `privateMessage` event: appended unless its id is already listed. */
    method OnPrivateMessage(m: PrivateMessage)
      requires Subscribed()
      modifies this`messages
      ensures messages == AppendUnique(old(messages), m)
      ensures DistinctIds(old(messages)) ==> DistinctIds(messages)
    {
      if DistinctIds(messages) {
        AppendUniqueKeepsDistinct(messages, m);
      }
      messages := AppendUnique(messages, m);
    }

    method OnTyping(alias: Option<string>)
      requires Subscribed()
      modifies this`typingUser
      ensures typingUser == alias
    {
      typingUser := alias;
    }

    method OnStopTyping()
      requires Subscribed()
      modifies this`typingUser
      ensures typingUser == None
    {
      typingUser := None;
    }

    /** `messagesReadByAdmin`: every message a user sent is now `read`. */
    method OnMessagesReadByAdmin()
      requires Subscribed()
      modifies this`messages
      ensures messages == MarkUserMessagesRead(old(messages))
    {
      messages := MarkUserMessagesRead(messages);
    }

    /**
     * `handleSendMessage`: nothing is sent for a blank input or without a user. On success the
     * input is cleared, the stop timer cancelled and `stopTyping("admins")` sent; on failure
     * the input stays and an alert is raised.
     */
    method Send(ok: bool) returns (body: Option<string>, alert: Option<string>)
      requires Valid()
      modifies this`input, this`stopTimerLive, this`emitted
      ensures Valid()
      ensures body.Some? <==> !IsBlank(old(input)) && user.Some?
      ensures body.Some? ==> body.value == old(input)
      ensures alert == if body.Some? && !ok then Some("Pesan gagal terkirim.") else None
      ensures body.Some? && ok ==>
        input == "" && !stopTimerLive && emitted == old(emitted) + [StopTyping(AdminsRoom)]
      ensures body.None? || !ok ==>
        input == old(input) && stopTimerLive == old(stopTimerLive) && emitted == old(emitted)
    {
      TrimEmptyIffBlank(input);
      if Trim(input) == "" || user.None? {
        return None, None;
      }
      body := Some(input);
      if ok {
        StopPendingSnoc(emitted, StopTyping(AdminsRoom), false);
        input := "";
        stopTimerLive := false;
        emitted := emitted + [StopTyping(AdminsRoom)];
        alert := None;
      } else {
        alert := Some("Pesan gagal terkirim.");
      }
    }

    /** `handleTyping`: every keystroke sends `typing("admins", alias)` and re-arms the stop timer. */
    method Keystroke(value: string)
      requires user.Some?
      requires Valid()
      modifies this`input, this`stopTimerRef, this`stopTimerLive, this`emitted
      ensures Valid()
      ensures input == value && stopTimerRef && stopTimerLive
      ensures emitted == old(emitted) + [Typing(AdminsRoom, user.value.alias)]
    {
      StopPendingSnoc(emitted, Typing(AdminsRoom, user.value.alias), true);
      input := value;
      emitted := emitted + [Typing(AdminsRoom, user.value.alias)];
      stopTimerRef := true;
      stopTimerLive := true;
    }

    /** The 2000 ms timer fires: `stopTyping("admins")` goes out and the ref is cleared. */
    method StopTimerFires()
      requires Valid()
      modifies this`stopTimerRef, this`stopTimerLive, this`emitted
      ensures Valid()
      ensures !stopTimerLive
      ensures old(stopTimerLive) ==> emitted == old(emitted) + [StopTyping(AdminsRoom)] && !stopTimerRef
      ensures !old(stopTimerLive) ==> emitted == old(emitted) && stopTimerRef == old(stopTimerRef)
    {
      if stopTimerLive {
        StopPendingSnoc(emitted, StopTyping(AdminsRoom), false);
        emitted := emitted + [StopTyping(AdminsRoom)];
        stopTimerRef := false;
        stopTimerLive := false;
      }
    }
  }
}
