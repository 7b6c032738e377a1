/**
 * The chat moderation tab's search over loaded public messages. The filter calls
 * `toLowerCase` on `chat.alias` and, when the alias does not match, on `chat.message`,
 * without optional chaining, so a row missing either field makes the render throw.
 */
module ChatManagement {
  import opened Wrappers
  import opened Seqs
  import opened Text

  datatype ChatRow = ChatRow(id: string, alias: Option<string>, message: Option<string>)

  /**
   * The filter callback throws on this row: the alias is missing, or the alias does not match
   * and the message, which `||` then evaluates, is missing.
   */
  predicate Throws(c: ChatRow, query: string) {
    c.alias.None? || (!Includes(Lower(c.alias.value), Lower(query)) && c.message.None?)
  }

  /** The callback returns true: the lowered alias, or else the lowered message, contains the lowered query. */
  predicate ChatMatches(c: ChatRow, query: string) {
    c.alias.Some? &&
    (Includes(Lower(c.alias.value), Lower(query)) || (c.message.Some? && Includes(Lower(c.message.value), Lower(query))))
  }

  /** `chats.filter(…)`; `None` when a callback throws, which aborts the whole call. */
  function FilteredChats(chats: seq<ChatRow>, query: string): Option<seq<ChatRow>> {
    if exists i :: 0 <= i < |chats| && Throws(chats[i], query) then None
    else Some(Filter(chats, (c: ChatRow) => ChatMatches(c, query)))
  }

  /**
   * The search fails exactly when some row makes the callback throw; otherwise it keeps the list
   * order and exactly the matching chats.
   */
  lemma FilteredChatsSpec(chats: seq<ChatRow>, query: string, c: ChatRow)
    ensures FilteredChats(chats, query).None? <==> exists i :: 0 <= i < |chats| && Throws(chats[i], query)
    ensures FilteredChats(chats, query).Some? ==> IsSubseq(FilteredChats(chats, query).value, chats)
    ensures FilteredChats(chats, query).Some? ==>
      (c in FilteredChats(chats, query).value <==> c in chats && ChatMatches(c, query))
  {
    FilterIsSubseq(chats, (d: ChatRow) => ChatMatches(d, query));
    FilterMembership(chats, (d: ChatRow) => ChatMatches(d, query), c);
  }

  /** Rows that carry both an alias and a message never make the search fail. */
  lemma CompleteRowsNeverFail(chats: seq<ChatRow>, query: string)
    requires forall i :: 0 <= i < |chats| ==> chats[i].alias.Some? && chats[i].message.Some?
    ensures FilteredChats(chats, query).Some?
  {
  }

  /** An empty search box shows every chat, unless a chat has no alias, which makes the render throw. */
  lemma EmptyQueryKeepsAll(chats: seq<ChatRow>)
    ensures FilteredChats(chats, "") ==
      if exists i :: 0 <= i < |chats| && chats[i].alias.None? then None else Some(chats)
  {
    forall c: ChatRow | c.alias.Some? ensures ChatMatches(c, "") && !Throws(c, "") {
      IncludesEmpty(Lower(c.alias.value));
    }
    if !exists i :: 0 <= i < |chats| && chats[i].alias.None? {
      FilterAll(chats, (c: ChatRow) => ChatMatches(c, ""));
    }
  }

  /** Searching the result again for the same query succeeds and changes nothing. */
  lemma FilteredChatsIdempotent(chats: seq<ChatRow>, query: string)
    requires FilteredChats(chats, query).Some?
    ensures FilteredChats(FilteredChats(chats, query).value, query) == FilteredChats(chats, query)
  {
    var p := (c: ChatRow) => ChatMatches(c, query);
    var r := Filter(chats, p);
    forall i | 0 <= i < |r| ensures !Throws(r[i], query) {
      assert r[i] in r;
      FilterMembership(chats, p, r[i]);
    }
    FilterIdempotent(chats, p);
  }

  /** The search, including whether it throws, ignores ASCII case in the query. */
  lemma QueryCaseIgnored(chats: seq<ChatRow>, query: string)
    ensures FilteredChats(chats, Lower(query)) == FilteredChats(chats, query)
  {
    LowerIdempotent(query);
    FilterCongruent(chats, (c: ChatRow) => ChatMatches(c, Lower(query)), (c: ChatRow) => ChatMatches(c, query));
  }
}
