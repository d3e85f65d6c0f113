/** The chat-history rail: the seeded history, the search filter and new chats. */
module Chats {
  import opened Types
  import opened Decimal
  import opened Text

  const Day: int := 86400000

  /** The three chats the component starts with, stamped relative to `now`. */
  function SeedHistory(now: int): seq<ChatItem>
  {
    [ ChatItem("c1", "create a feature calculating total amount per user (24h)", now),
      ChatItem("c2", "update a rule for high-velocity ACH", now - Day),
      ChatItem("c3", "transformer for profile", now - 3 * Day) ]
  }

  /** Whether a chat title matches an already lower-cased search text. */
  predicate Matches(c: ChatItem, q: string)
  {
    Includes(LowerAscii(c.title), q)
  }

  /** `history.filter(h => h.title.toLowerCase().includes(q))`. */
  function MatchingChats(history: seq<ChatItem>, q: string): (r: seq<ChatItem>)
    ensures |r| <= |history|
    ensures forall c :: c in r <==> c in history && Matches(c, q)
  {
    if history == [] then []
    else (if Matches(history[0], q) then [history[0]] else []) + MatchingChats(history[1..], q)
  }

  /** An empty search keeps the whole history, in order. */
  lemma {:induction false} EmptySearchKeepsAll(history: seq<ChatItem>)
    ensures MatchingChats(history, "") == history
  {
    if history != [] {
      assert OccursAt(LowerAscii(history[0].title), "", 0);
      EmptySearchKeepsAll(history[1..]);
    }
  }

  /** The filter keeps the chats' order: filtering a concatenation is
      concatenating the filtered parts. */
  lemma {:induction false} MatchingAppend(a: seq<ChatItem>, b: seq<ChatItem>, q: string)
    ensures MatchingChats(a + b, q) == MatchingChats(a, q) + MatchingChats(b, q)
  {
    if a == [] {
      assert a + b == b;
    } else {
      var head := if Matches(a[0], q) then [a[0]] else [];
      assert (a + b)[0] == a[0];
      assert (a + b)[1..] == a[1..] + b;
      calc {
        MatchingChats(a + b, q);
        head + MatchingChats(a[1..] + b, q);
        { MatchingAppend(a[1..], b, q); }
        head + (MatchingChats(a[1..], q) + MatchingChats(b, q));
        (head + MatchingChats(a[1..], q)) + MatchingChats(b, q);
      }
    }
  }

  /** A single chat is kept exactly when it matches. */
  lemma MatchingSingle(c: ChatItem, q: string)
    ensures MatchingChats([c], q) == if Matches(c, q) then [c] else []
  {
    assert [c][1..] == [];
  }

  /** The chat `newChat` creates when the history holds `count` chats. */
  function NewChatItem(count: nat, now: int): ChatItem
  {
    ChatItem("c" + NatToString(count + 1), "New Chat", now)
  }
}
