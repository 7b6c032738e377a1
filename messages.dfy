/**
 * Message records and the list transforms the chat views apply to them:
 * replace-by-id (`map`), de-duplicating append (`some` then spread), and the
 * read-marking `map`s of the private threads.
 */
module Messages {
  import opened Seqs

  /** A public-room message as the `/chat` endpoints and the `chatMessage` event carry it. */
  datatype ChatMessage = ChatMessage(id: string, alias: string, body: string, isDeleted: bool)

  /** A private-thread message: its `from` and `to` parties and its delivery `status`. */
  datatype PrivateMessage =
    PrivateMessage(id: string, fromId: string, fromRole: string, toId: string, body: string, status: string)

  // ---------------------------------------------------------------- public room

  function ChatIds(ms: seq<ChatMessage>): seq<string> {
    Map(ms, (m: ChatMessage) => m.id)
  }

  /** `ms.map(m => m._id === u._id ? u : m)` */
  function ReplaceById(ms: seq<ChatMessage>, u: ChatMessage): seq<ChatMessage> {
    Map(ms, (m: ChatMessage) => if m.id == u.id then u else m)
  }

  /** Every entry carrying the updated id is replaced; every other entry keeps its place and value. */
  lemma ReplaceByIdPointwise(ms: seq<ChatMessage>, u: ChatMessage)
    ensures |ReplaceById(ms, u)| == |ms|
    ensures forall i :: 0 <= i < |ms| && ms[i].id == u.id ==> ReplaceById(ms, u)[i] == u
    ensures forall i :: 0 <= i < |ms| && ms[i].id != u.id ==> ReplaceById(ms, u)[i] == ms[i]
  {
  }

  /** An update for an id that is not loaded is dropped: the list is unchanged. */
  lemma ReplaceUnknownId(ms: seq<ChatMessage>, u: ChatMessage)
    requires forall i :: 0 <= i < |ms| ==> ms[i].id != u.id
    ensures ReplaceById(ms, u) == ms
  {
    var r := ReplaceById(ms, u);
    assert forall i :: 0 <= i < |ms| ==> r[i] == ms[i];
  }

  /** Replacing keeps the id sequence, so it never creates or removes an id. */
  lemma ReplaceKeepsIds(ms: seq<ChatMessage>, u: ChatMessage)
    ensures ChatIds(ReplaceById(ms, u)) == ChatIds(ms)
  {
    var r := ReplaceById(ms, u);
    assert forall i :: 0 <= i < |ms| ==> ChatIds(r)[i] == r[i].id == ms[i].id == ChatIds(ms)[i];
  }

  /** Applying the same update twice is the same as applying it once. */
  lemma ReplaceByIdIdempotent(ms: seq<ChatMessage>, u: ChatMessage)
    ensures ReplaceById(ReplaceById(ms, u), u) == ReplaceById(ms, u)
  {
    var r := ReplaceById(ms, u);
    var rr := ReplaceById(r, u);
    assert forall i :: 0 <= i < |ms| ==> rr[i] == r[i];
  }

  // ---------------------------------------------------------------- private threads

  /** `ms.some(m => m._id === id)` */
  predicate HasId(ms: seq<PrivateMessage>, id: string) {
    exists i :: 0 <= i < |ms| && ms[i].id == id
  }

  /** No id occurs twice. */
  ghost predicate DistinctIds(ms: seq<PrivateMessage>) {
    forall i, j :: 0 <= i < j < |ms| ==> ms[i].id != ms[j].id
  }

  /** `prev.some(m => m._id === msg._id) ? prev : [...prev, msg]` */
  function AppendUnique(ms: seq<PrivateMessage>, m: PrivateMessage): (r: seq<PrivateMessage>)
    ensures ms <= r && |r| <= |ms| + 1
    ensures HasId(r, m.id)
    ensures forall id :: HasId(r, id) <==> HasId(ms, id) || id == m.id
    ensures |r| == |ms| + 1 <==> !HasId(ms, m.id)
  {
    if HasId(ms, m.id) then ms
    else
      var r := ms + [m];
      assert r[|ms|] == m;
      assert forall id :: HasId(r, id) ==> HasId(ms, id) || id == m.id by {
        forall id | HasId(r, id) ensures HasId(ms, id) || id == m.id {
          var i :| 0 <= i < |r| && r[i].id == id;
          if i < |ms| { assert ms[i] == r[i]; }
        }
      }
      r
  }

  /** Receiving the same message twice is the same as receiving it once. */
  lemma AppendUniqueIdempotent(ms: seq<PrivateMessage>, m: PrivateMessage)
    ensures AppendUnique(AppendUnique(ms, m), m) == AppendUnique(ms, m)
  {
  }

  /** The de-duplicating append keeps ids distinct. */
  lemma AppendUniqueKeepsDistinct(ms: seq<PrivateMessage>, m: PrivateMessage)
    requires DistinctIds(ms)
    ensures DistinctIds(AppendUnique(ms, m))
  {
    var r := AppendUnique(ms, m);
    if |r| == |ms| + 1 {
      forall i, j | 0 <= i < j < |r| ensures r[i].id != r[j].id {
        if j == |ms| {
          assert r[i] == ms[i];
          assert r[j] == m;
        } else {
          assert r[i] == ms[i] && r[j] == ms[j];
        }
      }
    }
  }

  /** A sequence of `privateMessage` events, applied in receipt order. */
  function ApplyIncoming(ms: seq<PrivateMessage>, incoming: seq<PrivateMessage>): seq<PrivateMessage>
    decreases |incoming|
  {
    if incoming == [] then ms else ApplyIncoming(AppendUnique(ms, incoming[0]), incoming[1..])
  }

  /** Whatever the events, the list only grows at its end and its ids stay distinct. */
  lemma {:induction false} ApplyIncomingExtendsDistinct(ms: seq<PrivateMessage>, incoming: seq<PrivateMessage>)
    requires DistinctIds(ms)
    ensures ms <= ApplyIncoming(ms, incoming)
    ensures DistinctIds(ApplyIncoming(ms, incoming))
    decreases |incoming|
  {
    if incoming != [] {
      AppendUniqueKeepsDistinct(ms, incoming[0]);
      ApplyIncomingExtendsDistinct(AppendUnique(ms, incoming[0]), incoming[1..]);
    }
  }

  /** An id is present afterwards exactly when it was present before or arrived in an event. */
  lemma {:induction false} ApplyIncomingIds(ms: seq<PrivateMessage>, incoming: seq<PrivateMessage>, id: string)
    ensures HasId(ApplyIncoming(ms, incoming), id)
        <==> HasId(ms, id) || exists k :: 0 <= k < |incoming| && incoming[k].id == id
    decreases |incoming|
  {
    if incoming != [] {
      var next := AppendUnique(ms, incoming[0]);
      ApplyIncomingIds(next, incoming[1..], id);
      var tail := incoming[1..];
      assert (exists k :: 0 <= k < |incoming| && incoming[k].id == id)
         <==> incoming[0].id == id || exists k :: 0 <= k < |tail| && tail[k].id == id by {
        if exists k :: 0 <= k < |incoming| && incoming[k].id == id {
          var k :| 0 <= k < |incoming| && incoming[k].id == id;
          if k > 0 { assert tail[k - 1] == incoming[k]; }
        }
        if exists k :: 0 <= k < |tail| && tail[k].id == id {
          var k :| 0 <= k < |tail| && tail[k].id == id;
          assert incoming[k + 1] == tail[k];
        }
      }
    }
  }

  /** Events whose ids are all present already change nothing. */
  lemma {:induction false} ApplyIncomingPresent(ms: seq<PrivateMessage>, incoming: seq<PrivateMessage>)
    requires forall k :: 0 <= k < |incoming| ==> HasId(ms, incoming[k].id)
    ensures ApplyIncoming(ms, incoming) == ms
    decreases |incoming|
  {
    if incoming != [] {
      assert HasId(ms, incoming[0].id);
      ApplyIncomingPresent(ms, incoming[1..]);
    }
  }

  /** Replaying a batch of events a second time changes nothing. */
  lemma ApplyIncomingReplay(ms: seq<PrivateMessage>, incoming: seq<PrivateMessage>)
    ensures ApplyIncoming(ApplyIncoming(ms, incoming), incoming) == ApplyIncoming(ms, incoming)
  {
    var r := ApplyIncoming(ms, incoming);
    forall k | 0 <= k < |incoming| ensures HasId(r, incoming[k].id) {
      ApplyIncomingIds(ms, incoming, incoming[k].id);
    }
    ApplyIncomingPresent(r, incoming);
  }

  function MarkIfFromUser(m: PrivateMessage): PrivateMessage {
    if m.fromRole == "user" then m.(status := "read") else m
  }

  /** `ms.map(m => m.from.role === "user" ? { ...m, status: "read" } : m)` */
  function MarkUserMessagesRead(ms: seq<PrivateMessage>): seq<PrivateMessage> {
    Map(ms, MarkIfFromUser)
  }

  /** Every message from a user becomes read; every other message is untouched; order and length are kept. */
  lemma MarkUserMessagesReadPointwise(ms: seq<PrivateMessage>)
    ensures |MarkUserMessagesRead(ms)| == |ms|
    ensures forall i :: 0 <= i < |ms| && ms[i].fromRole == "user" ==>
      MarkUserMessagesRead(ms)[i] == ms[i].(status := "read")
    ensures forall i :: 0 <= i < |ms| && ms[i].fromRole != "user" ==> MarkUserMessagesRead(ms)[i] == ms[i]
  {
  }

  /** A second `messagesReadByAdmin` changes nothing. */
  lemma MarkUserMessagesReadIdempotent(ms: seq<PrivateMessage>)
    ensures MarkUserMessagesRead(MarkUserMessagesRead(ms)) == MarkUserMessagesRead(ms)
  {
    var r := MarkUserMessagesRead(ms);
    var rr := MarkUserMessagesRead(r);
    assert forall i :: 0 <= i < |r| ==> rr[i] == r[i];
  }

  /** `ms.map(m => m._id === id ? { ...m, status: "read" } : m)` */
  function MarkReadById(ms: seq<PrivateMessage>, id: string): seq<PrivateMessage> {
    Map(ms, (m: PrivateMessage) => if m.id == id then m.(status := "read") else m)
  }

  /** Only the entries with the given id become read; all others are untouched; length is kept. */
  lemma MarkReadByIdPointwise(ms: seq<PrivateMessage>, id: string)
    ensures |MarkReadById(ms, id)| == |ms|
    ensures forall i :: 0 <= i < |ms| && ms[i].id == id ==> MarkReadById(ms, id)[i] == ms[i].(status := "read")
    ensures forall i :: 0 <= i < |ms| && ms[i].id != id ==> MarkReadById(ms, id)[i] == ms[i]
  {
  }

  /** Read-marking never changes which ids are present. */
  lemma MarkReadByIdKeepsIds(ms: seq<PrivateMessage>, id: string, x: string)
    ensures HasId(MarkReadById(ms, id), x) <==> HasId(ms, x)
  {
    var r := MarkReadById(ms, id);
    assert forall i :: 0 <= i < |ms| ==> r[i].id == ms[i].id;
  }
}
