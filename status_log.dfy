/**
 * The bounded status log: a list of entries shown newest first, kept at no
 * more than MAX_LOG_ENTRIES by a running count. Inserting at the front and
 * dropping the last entry once the count passes the capacity makes it evict
 * the oldest entry.
 */
module StatusLog {

  const MAX_LOG_ENTRIES: nat := 100

  datatype Level = Info | Success | Error

  /** One log line; its timestamp and markup are presentation only. */
  datatype Entry = Entry(message: string, level: Level)

  /** The entries as listed (newest first) together with the separately kept count. */
  datatype LogState = LogState(entries: seq<Entry>, count: int)

  /** The log is consistent: the count is the number of entries, within capacity. */
  predicate Valid(l: LogState) {
    |l.entries| == l.count <= MAX_LOG_ENTRIES
  }

  const Empty := LogState([], 0)

  /** Adds `e` in front, bumps the count, and when it passes the capacity drops the last entry. */
  function Insert(l: LogState, e: Entry): (r: LogState)
    ensures Valid(l) ==> Valid(r)
    ensures Valid(l) ==> |r.entries| == Min(l.count + 1, MAX_LOG_ENTRIES)
  {
    var entries := [e] + l.entries;
    var count := l.count + 1;
    if count > MAX_LOG_ENTRIES then
      LogState(entries[..|entries| - 1], count - 1)
    else
      LogState(entries, count)
  }

  /** Inserts the entries of `es` one after the other, first to last. */
  function InsertAll(l: LogState, es: seq<Entry>): LogState
    decreases |es|
  {
    if es == [] then l else InsertAll(Insert(l, es[0]), es[1..])
  }

  function Min(a: int, b: int): int { if a <= b then a else b }

  function Reverse<T>(s: seq<T>): (r: seq<T>)
    ensures |r| == |s|
  {
    if s == [] then [] else Reverse(s[1..]) + [s[0]]
  }

  /** The first MAX_LOG_ENTRIES elements of `s`: what the list shows of a longer history. */
  function Newest(s: seq<Entry>): (r: seq<Entry>)
    ensures |r| == Min(|s|, MAX_LOG_ENTRIES)
  {
    if |s| <= MAX_LOG_ENTRIES then s else s[..MAX_LOG_ENTRIES]
  }

  /**
   * One insertion into a consistent log puts the new entry in front and keeps
   * every older entry in order; exactly when the log was full, exactly the
   * oldest entry (the last one) is dropped.
   */
  lemma InsertEvictsOldest(l: LogState, e: Entry)
    requires Valid(l)
    ensures Insert(l, e).entries[0] == e
    ensures l.count < MAX_LOG_ENTRIES ==> Insert(l, e).entries == [e] + l.entries
    ensures l.count == MAX_LOG_ENTRIES ==>
              Insert(l, e).entries == [e] + l.entries[..MAX_LOG_ENTRIES - 1]
              && l.entries == Insert(l, e).entries[1..] + [l.entries[MAX_LOG_ENTRIES - 1]]
  {
  }

  lemma InsertNewest(l: LogState, e: Entry)
    requires Valid(l)
    ensures Insert(l, e).entries == Newest([e] + l.entries)
  {
  }

  lemma NewestOfNewest(a: seq<Entry>, b: seq<Entry>)
    ensures Newest(a + Newest(b)) == Newest(a + b)
  {
    var x, y := a + Newest(b), a + b;
    assert forall i :: 0 <= i < |Newest(x)| ==> Newest(x)[i] == Newest(y)[i];
  }

  /**
   * After any number of insertions into a consistent log, the log is still
   * consistent and lists exactly the newest MAX_LOG_ENTRIES entries of the
   * whole history, most recent first.
   */
  lemma {:induction false} InsertAllKeepsNewest(l: LogState, es: seq<Entry>)
    requires Valid(l)
    ensures Valid(InsertAll(l, es))
    ensures InsertAll(l, es).entries == Newest(Reverse(es) + l.entries)
    decreases |es|
  {
    if es == [] {
      assert Reverse(es) + l.entries == l.entries;
    } else {
      var e, rest := es[0], es[1..];
      var l' := Insert(l, e);
      InsertNewest(l, e);
      InsertAllKeepsNewest(l', rest);
      NewestOfNewest(Reverse(rest), [e] + l.entries);
      calc {
        Reverse(rest) + ([e] + l.entries);
        (Reverse(rest) + [e]) + l.entries;
        Reverse(es) + l.entries;
      }
    }
  }
}
