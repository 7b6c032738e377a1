/**
 * The public chat room: the message feed with backwards paging, the incoming
 * typing indicator, the outbound typing signal with its stop timer, and sending.
 */
module ChatBoxView {
  import opened Wrappers
  import opened Seqs
  import opened Text
  import opened Messages
  import opened Socket
  import opened Auth

  // ------------------------------------------------------------ outbound typing protocol

  predicate IsTypingSignal(e: Emit) {
    e.PublicTyping? || e.PublicStopTyping?
  }

  /** The public typing signals of an emit log, in order. */
  function TypingSignals(log: seq<Emit>): seq<Emit> {
    Filter(log, IsTypingSignal)
  }

  /**
   * The outbound protocol: two `publicTyping` signals are always separated by a
   * `publicStopTyping`, and while the last signal is `publicTyping` a stop timer is live.
   */
  ghost predicate TypingProtocol(log: seq<Emit>, live: bool) {
    var s := TypingSignals(log);
    (forall i :: 0 <= i < |s| - 1 && s[i].PublicTyping? ==> !s[i + 1].PublicTyping?) &&
    (s != [] && s[|s| - 1].PublicTyping? ==> live)
  }

  lemma TypingSignalsSnoc(log: seq<Emit>, e: Emit)
    ensures TypingSignals(log + [e]) == TypingSignals(log) + if IsTypingSignal(e) then [e] else []
  {
    FilterConcat(log, [e], IsTypingSignal);
    assert [e][1..] == [];
  }

  /**
   * A keystroke emits `publicTyping` only without a marker, and always leaves a live stop
   * timer: the protocol holds on.
   */
  lemma KeystrokeKeepsProtocol(log: seq<Emit>, armed: bool, live: bool, alias: Option<string>)
    requires TypingProtocol(log, live) && (live ==> armed)
    ensures TypingProtocol(log + if armed then [] else [PublicTyping(alias)], true)
  {
    if !armed {
      TypingSignalsSnoc(log, PublicTyping(alias));
    } else {
      assert log + [] == log;
    }
  }

  /** A `publicStopTyping` ends any pending start, whatever the marker does next. */
  lemma StopKeepsProtocol(log: seq<Emit>, live: bool, liveAfter: bool)
    requires TypingProtocol(log, live)
    ensures TypingProtocol(log + [PublicStopTyping], liveAfter)
  {
    TypingSignalsSnoc(log, PublicStopTyping);
  }

  /** Other emits do not take part in the protocol. */
  lemma OtherEmitKeepsProtocol(log: seq<Emit>, live: bool, e: Emit)
    requires !IsTypingSignal(e)
    ensures TypingProtocol(log + [e], live) <==> TypingProtocol(log, live)
  {
    TypingSignalsSnoc(log, e);
    assert TypingSignals(log) + [] == TypingSignals(log);
  }

  // ------------------------------------------------------------ REST results

  /** The result of `getChats`: a rejected request, or a body whose `chats` may not be an array. */
  datatype ChatsResponse = FetchFailed | ChatsReceived(chats: Option<seq<ChatMessage>>, hasMore: bool)

  /** The result of `sendChat`: the created message, or an error with an optional server `msg`. */
  datatype SendOutcome = Sent(created: ChatMessage) | SendFailed(serverMsg: Option<string>)

  /** The body `sendChat` posts: the raw input and the id of the message replied to. */
  datatype ChatPayload = ChatPayload(message: string, replyTo: Option<string>)

  /** The alert of a failed send when the server gives no message. */
  const SendFailureFallback := "Gagal mengirim pesan"

  // ------------------------------------------------------------ warning banner

  const WarningLead := "Anda telah menerima "
  const WarningMiddle := " peringatan. "
  const WarningTail := " peringatan lagi akan menyebabkan akun Anda diban permanen. Harap jaga perilaku Anda."

  /** The banner shown to a warned user: none for a zero or negative count. */
  function WarningMessage(warnCount: int): (r: Option<string>)
    ensures r.Some? <==> warnCount > 0
  {
    if warnCount <= 0 then None
    else Some(WarningLead + IntToString(warnCount) + WarningMiddle + IntToString(5 - warnCount) + WarningTail)
  }

  /** The banner names the number of warnings received and the `5 - warnCount` still allowed. */
  lemma WarningNamesCounts(warnCount: int)
    requires warnCount > 0
    ensures Includes(WarningMessage(warnCount).value, IntToString(warnCount))
    ensures Includes(WarningMessage(warnCount).value, IntToString(5 - warnCount))
  {
    var t := WarningMessage(warnCount).value;
    var a := IntToString(warnCount);
    var b := IntToString(5 - warnCount);
    var i := |WarningLead|;
    var j := |WarningLead| + |a| + |WarningMiddle|;
    assert t[i..i + |a|] == a;
    assert t[j..j + |b|] == b;
    assert OccursAt(t, a, i);
    assert OccursAt(t, b, j);
    IncludesIffOccurs(t, a);
    IncludesIffOccurs(t, b);
  }

  // ------------------------------------------------------------ the view

  class ChatBox {
    /** The session user the view was mounted with. */
    const user: AuthUser
    var messages: seq<ChatMessage>
    /**
     * The next page to ask for: a client-side counter. The chat service's `getChats` takes only
     * the token, so no request carries it.
     */
    var page: int
    var hasMore: bool
    var isLoadingMore: bool
    /** The alias shown as typing, from the last `publicTyping` not yet ended. */
    var typingUser: Option<string>
    var input: string
    var replyTo: Option<ChatMessage>
    /** `typingTimeoutRef.current` is non-null. */
    var stopTimerRef: bool
    /** The timer it holds is scheduled and not cleared. */
    var stopTimerLive: bool
    var emitted: seq<Emit>

    ghost predicate Valid()
      reads this
    {
      page >= 1 &&
      (stopTimerLive ==> stopTimerRef) &&
      TypingProtocol(emitted, stopTimerLive)
    }

    /** Mounting announces the user as online. */
    constructor (user: AuthUser)
      ensures Valid()
      ensures this.user == user
      ensures messages == [] && page == 1 && hasMore && !isLoadingMore && typingUser == None
      ensures input == "" && replyTo == None && !stopTimerRef && !stopTimerLive
      ensures emitted == [UserOnline(user.id)]
    {
      this.user := user;
      messages := [];
      page := 1;
      hasMore := true;
      isLoadingMore := false;
      typingUser := None;
      input := "";
      replyTo := None;
      stopTimerRef := false;
      stopTimerLive := false;
      emitted := [UserOnline(user.id)];
      new;
      assert TypingSignals(emitted) == [];
    }

    /** A `chatMessage` event: appended as is; it ends the typing indicator of its author. */
    method OnChatMessage(m: ChatMessage)
      modifies this`messages, this`typingUser
      ensures messages == old(messages) + [m]
      ensures typingUser == if old(typingUser) == Some(m.alias) then None else old(typingUser)
    {
      messages := messages + [m];
      if typingUser == Some(m.alias) {
        typingUser := None;
      }
    }

    /** A `chatMessageUpdated` event replaces the loaded entries carrying its id. */
    method OnChatMessageUpdated(u: ChatMessage)
      modifies this`messages
      ensures messages == ReplaceById(old(messages), u)
    {
      messages := ReplaceById(messages, u);
    }

    method OnPublicTyping(alias: Option<string>)
      modifies this`typingUser
      ensures typingUser == alias
    {
      typingUser := alias;
    }

    method OnPublicStopTyping()
      modifies this`typingUser
      ensures typingUser == None
    {
      typingUser := None;
    }

    /** The first half of `loadInitialChats`: without a token nothing is requested. */
    method BeginLoadInitial() returns (requested: bool)
      modifies this`isLoadingMore
      ensures requested <==> Truthy(user.token)
      ensures isLoadingMore == (requested || old(isLoadingMore))
    {
      requested := Truthy(user.token);
      if requested {
        isLoadingMore := true;
      }
    }

    /** The second half: an array body replaces the feed and moves to page 2; anything else keeps it. */
    method ResolveLoadInitial(response: ChatsResponse)
      requires Valid() && isLoadingMore
      modifies this`messages, this`hasMore, this`page, this`isLoadingMore
      ensures Valid()
      ensures !isLoadingMore
      ensures if response.ChatsReceived? && response.chats.Some? then
          messages == response.chats.value && hasMore == response.hasMore && page == 2
        else
          messages == old(messages) && hasMore == old(hasMore) && page == old(page)
    {
      if response.ChatsReceived? && response.chats.Some? {
        messages := response.chats.value;
        hasMore := response.hasMore;
        page := 2;
      }
      isLoadingMore := false;
    }

    /** The first half of `loadMoreChats`: nothing is requested while loading or when the history is exhausted. */
    method BeginLoadMore() returns (requested: bool)
      modifies this`isLoadingMore
      ensures requested <==> old(hasMore) && !old(isLoadingMore)
      ensures isLoadingMore == (requested || old(isLoadingMore))
    {
      requested := hasMore && !isLoadingMore;
      if requested {
        isLoadingMore := true;
      }
    }

    /**
     * The second half: a non-empty page of older messages goes in front of the feed and
     * advances the page; an empty or malformed page ends the history; a failure changes nothing.
     */
    method ResolveLoadMore(response: ChatsResponse)
      requires Valid() && isLoadingMore
      modifies this`messages, this`hasMore, this`page, this`isLoadingMore
      ensures Valid()
      ensures !isLoadingMore
      ensures response.ChatsReceived? && response.chats.Some? && response.chats.value != [] ==>
        messages == response.chats.value + old(messages) && hasMore == response.hasMore && page == old(page) + 1
      ensures response.ChatsReceived? && (response.chats.None? || response.chats.value == []) ==>
        messages == old(messages) && !hasMore && page == old(page)
      ensures response.FetchFailed? ==>
        messages == old(messages) && hasMore == old(hasMore) && page == old(page)
    {
      if response.ChatsReceived? {
        if response.chats.Some? && response.chats.value != [] {
          messages := response.chats.value + messages;
          hasMore := response.hasMore;
          page := page + 1;
        } else {
          hasMore := false;
        }
      }
      isLoadingMore := false;
    }

    /** The reply button of a message. */
    method SetReplyTo(m: ChatMessage)
      modifies this`replyTo
      ensures replyTo == Some(m)
    {
      replyTo := Some(m);
    }

    /** The cancel button of the reply preview. */
    method CancelReply()
      modifies this`replyTo
      ensures replyTo == None
    {
      replyTo := None;
    }

    /**
     * `handleTyping`: the text is taken; `publicTyping` goes out only if no stop marker is set;
     * the stop timer is (re)armed.
     */
    method Keystroke(value: string)
      requires Valid()
      modifies this`input, this`stopTimerRef, this`stopTimerLive, this`emitted
      ensures Valid()
      ensures input == value && stopTimerRef && stopTimerLive
      ensures emitted == old(emitted) + if old(stopTimerRef) then [] else [PublicTyping(user.alias)]
    {
      KeystrokeKeepsProtocol(emitted, stopTimerRef, stopTimerLive, user.alias);
      input := value;
      if !stopTimerRef {
        emitted := emitted + [PublicTyping(user.alias)];
      }
      stopTimerRef := true;
      stopTimerLive := true;
    }

    /** The 2000 ms stop timer fires: `publicStopTyping` goes out and the marker is cleared. */
    method StopTimerFires()
      requires Valid()
      modifies this`stopTimerRef, this`stopTimerLive, this`emitted
      ensures Valid()
      ensures !stopTimerLive
      ensures old(stopTimerLive) ==> emitted == old(emitted) + [PublicStopTyping] && !stopTimerRef
      ensures !old(stopTimerLive) ==> emitted == old(emitted) && stopTimerRef == old(stopTimerRef)
    {
      if stopTimerLive {
        StopKeepsProtocol(emitted, stopTimerLive, false);
        emitted := emitted + [PublicStopTyping];
        stopTimerRef := false;
        stopTimerLive := false;
      }
    }

    /**
     * `handleSendMessage`: a blank input sends nothing. Otherwise the raw input and the reply
     * target's id are posted; on success the created message is re-emitted, the input and reply
     * are reset, the stop timer is cancelled and `publicStopTyping` goes out, while the marker
     * stays set; on failure only an alert is raised.
     */
    method Send(outcome: SendOutcome) returns (payload: Option<ChatPayload>, alert: Option<string>)
      requires Valid()
      modifies this`input, this`replyTo, this`stopTimerLive, this`emitted
      ensures Valid()
      ensures payload.Some? <==> !IsBlank(old(input))
      ensures payload.Some? ==>
        payload.value == ChatPayload(old(input), if old(replyTo).Some? then Some(old(replyTo).value.id) else None)
      ensures alert == if payload.Some? && outcome.SendFailed? then Some(OrElse(outcome.serverMsg, SendFailureFallback)) else None
      ensures payload.Some? && outcome.Sent? ==>
        emitted == old(emitted) + [ChatMessageOut(outcome.created), PublicStopTyping] &&
        input == "" && replyTo == None && !stopTimerLive
      ensures payload.None? || outcome.SendFailed? ==>
        emitted == old(emitted) && input == old(input) && replyTo == old(replyTo) && stopTimerLive == old(stopTimerLive)
    {
      TrimEmptyIffBlank(input);
      if Trim(input) == "" {
        return None, None;
      }
      payload := Some(ChatPayload(input, if replyTo.Some? then Some(replyTo.value.id) else None));
      match outcome
      case Sent(created) =>
        OtherEmitKeepsProtocol(emitted, stopTimerLive, ChatMessageOut(created));
        StopKeepsProtocol(emitted + [ChatMessageOut(created)], stopTimerLive, false);
        emitted := emitted + [ChatMessageOut(created)];
        input := "";
        replyTo := None;
        stopTimerLive := false;
        emitted := emitted + [PublicStopTyping];
        alert := None;
      case SendFailed(serverMsg) =>
        alert := Some(OrElse(serverMsg, SendFailureFallback));
    }
  }

  /**
   * Typing, sending and typing again: because sending keeps the stop marker, the second
   * burst of typing announces nothing.
   */
  method TypeSendType(user: AuthUser, created: ChatMessage) returns (log: seq<Emit>)
    ensures log == [UserOnline(user.id), PublicTyping(user.alias), ChatMessageOut(created), PublicStopTyping]
  {
    var view := new ChatBox(user);
    view.Keystroke("hi");
    assert !IsBlank("hi") by {
      assert !IsJsWhitespace("hi"[0]);
    }
    var payload, alert := view.Send(Sent(created));
    view.Keystroke("again");
    log := view.emitted;
  }
}
