/**
 * The `@mention` tokenizer of the public chat: `text.split(/@([A-Za-z0-9#]+)/g)`.
 * Because the pattern has one capturing group, the parts alternate between plain
 * text (even indices) and the captured names (odd indices).
 */
module Mentions {
  import opened Wrappers

  /** `[A-Za-z0-9#]` */
  predicate IsMentionChar(c: char) {
    ('A' <= c <= 'Z') || ('a' <= c <= 'z') || ('0' <= c <= '9') || c == '#'
  }

  predicate IsName(s: string) {
    s != [] && forall i :: 0 <= i < |s| ==> IsMentionChar(s[i])
  }

  /** No `@` in `s` is directly followed by a name character, so the pattern does not match inside `s`. */
  predicate MentionFree(s: string) {
    forall i :: 0 <= i < |s| - 1 && s[i] == '@' ==> !IsMentionChar(s[i + 1])
  }

  /** The length of the greedy `[A-Za-z0-9#]+` run at the start of `s`. */
  function NameLength(s: string): (k: nat)
    ensures k <= |s|
    ensures forall i :: 0 <= i < k ==> IsMentionChar(s[i])
    ensures k < |s| ==> !IsMentionChar(s[k])
    decreases |s|
  {
    if s != [] && IsMentionChar(s[0]) then 1 + NameLength(s[1..]) else 0
  }

  /** The pattern matches at the start of `text`: an `@` followed by a name character. */
  predicate StartsMention(text: string) {
    |text| >= 2 && text[0] == '@' && IsMentionChar(text[1])
  }

  /** `text.split(/@([A-Za-z0-9#]+)/g)` */
  function Split(text: string): (parts: seq<string>)
    ensures |parts| % 2 == 1
    decreases |text|
  {
    if text == [] then [""]
    else if StartsMention(text) then
      var n := NameLength(text[1..]);
      ["", text[1..1 + n]] + Split(text[1 + n..])
    else
      var rest := Split(text[1..]);
      [[text[0]] + rest[0]] + rest[1..]
  }

  /** The name captured at a match is non-empty, and the character after it is not a name character. */
  lemma CapturedName(text: string)
    requires StartsMention(text)
    ensures 1 <= NameLength(text[1..]) < |text| && IsName(text[1..1 + NameLength(text[1..])])
    ensures 1 + NameLength(text[1..]) < |text| ==> !IsMentionChar(text[1 + NameLength(text[1..])])
  {
    var n := NameLength(text[1..]);
    assert text[1..][0] == text[1];
    var name := text[1..1 + n];
    assert forall j :: 0 <= j < n ==> name[j] == text[1..][j];
    if 1 + n < |text| {
      assert text[1 + n] == text[1..][n];
    }
  }

  /** Prefixing a character that does not start a match keeps the first part free of matches. */
  lemma PrefixMentionFree(text: string, rest0: string)
    requires text != [] && !StartsMention(text)
    requires MentionFree(rest0)
    requires rest0 != [] ==> |text| >= 2 && rest0[0] == text[1]
    ensures MentionFree([text[0]] + rest0)
  {
    var first := [text[0]] + rest0;
    forall i | 0 <= i < |first| - 1 && first[i] == '@' ensures !IsMentionChar(first[i + 1]) {
      if i > 0 {
        assert first[i] == rest0[i - 1] && first[i + 1] == rest0[i];
      }
    }
  }

  /** Every odd-indexed part is a captured name: non-empty and made of name characters. */
  lemma {:induction false} SplitNames(text: string)
    ensures forall i :: 0 <= i < |Split(text)| && i % 2 == 1 ==> IsName(Split(text)[i])
    decreases |text|
  {
    if text == [] {
    } else if StartsMention(text) {
      var n := NameLength(text[1..]);
      CapturedName(text);
      var rest := Split(text[1 + n..]);
      SplitNames(text[1 + n..]);
      var parts := ["", text[1..1 + n]] + rest;
      assert Split(text) == parts;
      assert forall i :: 2 <= i < |parts| ==> parts[i] == rest[i - 2];
    } else {
      var rest := Split(text[1..]);
      SplitNames(text[1..]);
      var parts := [[text[0]] + rest[0]] + rest[1..];
      assert Split(text) == parts;
      assert forall i :: 1 <= i < |parts| ==> parts[i] == rest[i];
    }
  }

  /** The first part starts with the text's first character. */
  lemma SplitFirst(text: string)
    ensures Split(text)[0] != [] ==> text != [] && Split(text)[0][0] == text[0]
  {
  }

  /** Every even-indexed part is text the pattern does not match inside. */
  lemma {:induction false} SplitPlain(text: string)
    ensures forall i :: 0 <= i < |Split(text)| && i % 2 == 0 ==> MentionFree(Split(text)[i])
    decreases |text|
  {
    if text == [] {
    } else if StartsMention(text) {
      var n := NameLength(text[1..]);
      var rest := Split(text[1 + n..]);
      SplitPlain(text[1 + n..]);
      var parts := ["", text[1..1 + n]] + rest;
      assert Split(text) == parts;
      assert forall i :: 2 <= i < |parts| ==> parts[i] == rest[i - 2];
    } else {
      var rest := Split(text[1..]);
      SplitPlain(text[1..]);
      SplitFirst(text[1..]);
      var parts := [[text[0]] + rest[0]] + rest[1..];
      assert Split(text) == parts;
      assert forall i :: 1 <= i < |parts| ==> parts[i] == rest[i];
      assert rest[0] != [] ==> rest[0][0] == text[1..][0] == text[1];
      PrefixMentionFree(text, rest[0]);
    }
  }

  /** No part after a name starts with a name character. */
  predicate GreedyNames(parts: seq<string>) {
    forall i :: 0 < i < |parts| && i % 2 == 0 && parts[i] != [] ==> !IsMentionChar(parts[i][0])
  }

  /** A part that follows a name does not start with a name character: the name was taken greedily. */
  lemma {:induction false} SplitAfterName(text: string)
    ensures GreedyNames(Split(text))
    decreases |text|
  {
    if text == [] {
    } else if StartsMention(text) {
      var n := NameLength(text[1..]);
      CapturedName(text);
      var tail := text[1 + n..];
      var rest := Split(tail);
      SplitAfterName(tail);
      SplitFirst(tail);
      var parts := ["", text[1..1 + n]] + rest;
      assert Split(text) == parts;
      forall i | 0 < i < |parts| && i % 2 == 0 && parts[i] != [] ensures !IsMentionChar(parts[i][0]) {
        assert parts[i] == rest[i - 2];
        if i == 2 {
          assert rest[0][0] == tail[0] == text[1 + n];
        }
      }
    } else {
      var rest := Split(text[1..]);
      SplitAfterName(text[1..]);
      var parts := [[text[0]] + rest[0]] + rest[1..];
      assert Split(text) == parts;
      forall i | 0 < i < |parts| && i % 2 == 0 && parts[i] != [] ensures !IsMentionChar(parts[i][0]) {
        assert parts[i] == rest[i];
      }
    }
  }

  /** Puts the `@` back in front of every captured name and concatenates. */
  function Rebuild(parts: seq<string>): string
    requires |parts| % 2 == 1
    decreases |parts|
  {
    if |parts| == 1 then parts[0] else parts[0] + "@" + parts[1] + Rebuild(parts[2..])
  }

  lemma {:induction false} RebuildPrefixFirst(c: char, parts: seq<string>)
    requires |parts| % 2 == 1
    ensures Rebuild([[c] + parts[0]] + parts[1..]) == [c] + Rebuild(parts)
  {
    var q := [[c] + parts[0]] + parts[1..];
    assert |q| == |parts| && q[0] == [c] + parts[0];
    if |parts| > 1 {
      assert q[1] == parts[1] && q[2..] == parts[2..];
    }
  }

  lemma RebuildMention(name: string, parts: seq<string>)
    requires |parts| % 2 == 1
    ensures Rebuild(["", name] + parts) == "@" + name + Rebuild(parts)
  {
    var q := ["", name] + parts;
    assert q[0] == "" && q[1] == name && q[2..] == parts;
  }

  lemma MentionDecomposes(text: string, n: nat)
    requires text != [] && text[0] == '@' && 1 + n <= |text|
    ensures text == "@" + text[1..1 + n] + text[1 + n..]
  {
    assert text == [text[0]] + text[1..];
    assert text[1..] == text[1..1 + n] + text[1 + n..];
  }

  /** Splitting loses nothing: re-inserting `@` before each name reproduces the text. */
  lemma {:induction false} SplitRebuild(text: string)
    ensures Rebuild(Split(text)) == text
    decreases |text|
  {
    if text == [] {
    } else if StartsMention(text) {
      var n := NameLength(text[1..]);
      var rest := Split(text[1 + n..]);
      SplitRebuild(text[1 + n..]);
      RebuildMention(text[1..1 + n], rest);
      MentionDecomposes(text, n);
    } else {
      var rest := Split(text[1..]);
      SplitRebuild(text[1..]);
      RebuildPrefixFirst(text[0], rest);
      assert text == [text[0]] + text[1..];
    }
  }

  /** What one part renders as: plain text, or a highlighted name that is or is not the reader's own. */
  datatype Segment = Plain(text: string) | Mention(name: string, mine: bool)

  /** `` `@${part}` === user.alias `` (a null alias is never matched) */
  predicate IsMine(name: string, alias: Option<string>) {
    alias == Some("@" + name)
  }

  /** `parts.map((part, index) => index % 2 === 1 ? <strong …>@{part}</strong> : part)` */
  function Segments(text: string, alias: Option<string>): (r: seq<Segment>)
    ensures |r| == |Split(text)| && |r| % 2 == 1
    ensures forall i :: 0 <= i < |r| && i % 2 == 0 ==> r[i] == Plain(Split(text)[i])
    ensures forall i :: 0 <= i < |r| && i % 2 == 1 ==>
      r[i].Mention? && r[i].name == Split(text)[i] && IsName(r[i].name)
    ensures forall i :: 0 <= i < |r| && i % 2 == 1 ==> (r[i].mine <==> alias == Some("@" + r[i].name))
  {
    SplitNames(text);
    var parts := Split(text);
    seq(|parts|, i requires 0 <= i < |parts| =>
      if i % 2 == 1 then Mention(parts[i], IsMine(parts[i], alias)) else Plain(parts[i]))
  }

  /** A text without any `@` followed by a name character is one plain part. */
  lemma {:induction false} SplitMentionFreeText(text: string)
    requires MentionFree(text)
    ensures Split(text) == [text]
    decreases |text|
  {
    if text != [] {
      assert !StartsMention(text);
      assert MentionFree(text[1..]) by {
        forall i | 0 <= i < |text[1..]| - 1 && text[1..][i] == '@' ensures !IsMentionChar(text[1..][i + 1]) {
          assert text[i + 1] == '@';
        }
      }
      SplitMentionFreeText(text[1..]);
      assert text == [text[0]] + text[1..];
    }
  }
}
