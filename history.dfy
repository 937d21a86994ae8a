/** The conversation history table and the memoised recent-messages query.

    The table `history (id INTEGER PRIMARY KEY, role TEXT, message TEXT)` is
    append-only: the database assigns increasing ids and no row is ever
    deleted, so the row with the i-th smallest id is the i-th element of
    `history` below. `get_recent_messages` is memoised with one cache key in
    practice (the same cursor every time), so its cache is a single slot. */
module History {

  /** One row of the history table. */
  datatype Turn = Turn(role: string, message: string)

  datatype Option<T> = None | Some(value: T)

  /** The `LIMIT` of the recent-messages query. */
  const RecentLimit := 100

  function Min(a: int, b: int): int {
    if a <= b then a else b
  }

  /** The sequence in the opposite order: `ORDER BY id DESC` over the table. */
  function Reverse<T>(s: seq<T>): (r: seq<T>)
    ensures |r| == |s|
    ensures forall i :: 0 <= i < |s| ==> r[i] == s[|s| - 1 - i]
  {
    seq(|s|, i requires 0 <= i < |s| => s[|s| - 1 - i])
  }

  /** The last m elements of the reversal are the first m elements, reversed. */
  lemma ReverseSuffix<T>(s: seq<T>, m: nat)
    requires m <= |s|
    ensures Reverse(s)[|s| - m..] == Reverse(s[..m])
  {
    var a, b := Reverse(s)[|s| - m..], Reverse(s[..m]);
    forall k | 0 <= k < m
      ensures a[k] == b[k]
    {
      assert a[k] == Reverse(s)[|s| - m + k];
    }
  }

  /** `SELECT role, message FROM history ORDER BY id DESC LIMIT 100`. */
  function Recent(history: seq<Turn>): (r: seq<Turn>)
    ensures |r| == Min(RecentLimit, |history|)
    ensures forall i :: 0 <= i < |r| ==> r[i] == history[|history| - 1 - i]
  {
    var newestFirst := Reverse(history);
    newestFirst[..Min(RecentLimit, |newestFirst|)]
  }

  /** The query's answer is the last min(100, |history|) turns, reversed. */
  lemma RecentIsReversedTail(history: seq<Turn>)
    ensures Recent(history) == Reverse(history[|history| - Min(RecentLimit, |history|)..])
  {
    var tail := history[|history| - Min(RecentLimit, |history|)..];
    assert |Recent(history)| == |Reverse(tail)|;
    forall i | 0 <= i < |tail|
      ensures Recent(history)[i] == Reverse(tail)[i]
    {
    }
  }

  /** Appending one turn puts it first in the next answer, followed by the
      previous answer less its oldest turn once the limit is reached. */
  lemma RecentAfterAppend(history: seq<Turn>, t: Turn)
    ensures Recent(history + [t]) == [t] + Recent(history)[..Min(RecentLimit - 1, |history|)]
  {
    var h' := history + [t];
    var r := [t] + Recent(history)[..Min(RecentLimit - 1, |history|)];
    assert |Recent(h')| == |r|;
    forall i | 0 <= i < |r|
      ensures Recent(h')[i] == r[i]
    {
      if i > 0 {
        assert h'[|h'| - 1 - i] == history[|history| - 1 - (i - 1)];
      }
    }
  }

  /** The history table with the memo cache of the recent-messages query. */
  class ConversationStore {
    var history: seq<Turn>
    var cache: Option<seq<Turn>>
    /** How many times the table has actually been queried. */
    ghost var queries: nat

    /** The cache never holds a stale answer. */
    ghost predicate Valid()
      reads this
    {
      cache.Some? ==> cache.value == Recent(history)
    }

    /** Opens the table with the rows it already holds; the cache starts empty. */
    constructor (stored: seq<Turn>)
      ensures Valid()
      ensures history == stored && cache == None && queries == 0
    {
      history := stored;
      cache := None;
      queries := 0;
    }

    /** `add_message`: insert one row, then clear the cache. */
    method AddMessage(role: string, message: string)
      requires Valid()
      modifies this
      ensures Valid()
      ensures history == old(history) + [Turn(role, message)]
      ensures cache == None && queries == old(queries)
    {
      history := history + [Turn(role, message)];
      cache := None;
    }

    /** `get_recent_messages`: the cached answer if there is one, otherwise a
        fresh query whose answer is then cached. */
    method GetRecentMessages() returns (recent: seq<Turn>)
      requires Valid()
      modifies this`cache, this`queries
      ensures Valid()
      ensures history == old(history)
      ensures recent == Recent(history) && cache == Some(recent)
      ensures queries == old(queries) + (if old(cache).None? then 1 else 0)
    {
      match cache {
        case Some(cached) =>
          recent := cached;
        case None =>
          recent := Recent(history);
          queries := queries + 1;
          cache := Some(recent);
      }
    }
  }

  /** Two reads with no write between them agree, and the second one is
      answered from the cache. */
  method ReadTwice(store: ConversationStore) returns (first: seq<Turn>, second: seq<Turn>)
    requires store.Valid()
    modifies store`cache, store`queries
    ensures store.Valid() && store.history == old(store.history)
    ensures first == second == Recent(store.history)
    ensures store.queries <= old(store.queries) + 1
  {
    first := store.GetRecentMessages();
    second := store.GetRecentMessages();
  }

  /** A read after a write sees the written turn first. */
  method ReadAfterWrite(store: ConversationStore, role: string, message: string)
    returns (recent: seq<Turn>)
    requires store.Valid()
    modifies store
    ensures store.Valid()
    ensures store.history == old(store.history) + [Turn(role, message)]
    ensures recent == Recent(store.history)
    ensures recent[0] == Turn(role, message)
  {
    store.AddMessage(role, message);
    recent := store.GetRecentMessages();
  }
}
