/**
 * The `chat_sessions` and `chat_messages` tables: their rows, the role CHECK
 * constraint, the foreign key from a message to its session with its cascade,
 * and the creation-time order a session's messages are read back in.
 *
 * The message table is kept as a sequence in insertion order. Rows get their
 * creation time from a clock that never runs backwards, so insertion order is
 * a creation-time order and reading a session "ordered by creation_dt" is a
 * filter of the sequence.
 */
module ChatRecords {
  /** Width of the `cht_name` column. */
  const NameWidth: nat := 240

  /** The roles the `check_msg_role` constraint admits. */
  const Roles: set<string> := {"system", "user", "assistant", "tool_input", "tool_response"}

  datatype ChatSession = ChatSession(
    id: string,
    name: string,
    agentId: string,
    createdBy: string,
    lastUpdatedBy: string,
    created: int)

  datatype ChatMessage = ChatMessage(
    id: string,
    sessionId: string,
    agentName: string,
    role: string,
    content: string,
    createdBy: string,
    lastUpdatedBy: string,
    created: int)

  /** Creation times never decrease along the table, and no two rows share an id. */
  predicate Chronological(ms: seq<ChatMessage>) {
    forall i, j :: 0 <= i < j < |ms| ==> ms[i].created <= ms[j].created && ms[i].id != ms[j].id
  }

  /**
   * The table invariants: sessions are keyed by their id and their names fit
   * the column; every message has an admitted role and belongs to an existing
   * session; the message table is chronological.
   */
  predicate WellFormed(sessions: map<string, ChatSession>, ms: seq<ChatMessage>) {
    && (forall k :: k in sessions ==> sessions[k].id == k && |sessions[k].name| <= NameWidth)
    && (forall m :: m in ms ==> m.role in Roles && m.sessionId in sessions)
    && Chronological(ms)
  }

  /** The row filters the endpoints apply to the message table. */
  datatype Criterion =
    | InSession(sid: string)
    | OutsideSession(sid: string)
    | NotAfter(sid: string, at: int)
    | OtherThan(mid: string)

  predicate Keeps(c: Criterion, m: ChatMessage) {
    match c
    case InSession(sid) => m.sessionId == sid
    case OutsideSession(sid) => m.sessionId != sid
    case NotAfter(sid, at) => !(m.sessionId == sid && m.created > at)
    case OtherThan(mid) => m.id != mid
  }

  /** The rows a filter keeps, in table order. */
  function Select(ms: seq<ChatMessage>, c: Criterion): (r: seq<ChatMessage>)
    ensures |r| <= |ms|
    ensures forall m :: m in r <==> m in ms && Keeps(c, m)
  {
    if ms == [] then []
    else (if Keeps(c, ms[0]) then [ms[0]] else []) + Select(ms[1..], c)
  }

  /** A session's messages, ordered by creation time. */
  function SessionMessages(ms: seq<ChatMessage>, sid: string): seq<ChatMessage> {
    Select(ms, InSession(sid))
  }

  /** Filtering a table split in two filters each part. */
  lemma {:induction false} SelectAppend(a: seq<ChatMessage>, b: seq<ChatMessage>, c: Criterion)
    ensures Select(a + b, c) == Select(a, c) + Select(b, c)
  {
    if a == [] {
      assert a + b == b;
    } else {
      assert (a + b)[0] == a[0];
      assert (a + b)[1..] == a[1..] + b;
      SelectAppend(a[1..], b, c);
    }
  }

  /** A filter that keeps every row changes nothing. */
  lemma {:induction false} SelectAll(ms: seq<ChatMessage>, c: Criterion)
    requires forall m :: m in ms ==> Keeps(c, m)
    ensures Select(ms, c) == ms
  {
    if ms != [] {
      assert ms[1..] + [] == ms[1..];
      assert forall m :: m in ms[1..] ==> m in ms;
      SelectAll(ms[1..], c);
    }
  }

  /** A filter that keeps no row gives the empty table. */
  lemma SelectNone(ms: seq<ChatMessage>, c: Criterion)
    requires forall m :: m in ms ==> !Keeps(c, m)
    ensures Select(ms, c) == []
  {
  }

  /** Two filters can be applied in either order. */
  lemma {:induction false} SelectCommutes(ms: seq<ChatMessage>, c: Criterion, d: Criterion)
    ensures Select(Select(ms, c), d) == Select(Select(ms, d), c)
  {
    if ms != [] {
      var h := if Keeps(c, ms[0]) then [ms[0]] else [];
      var g := if Keeps(d, ms[0]) then [ms[0]] else [];
      SelectAppend(h, Select(ms[1..], c), d);
      SelectAppend(g, Select(ms[1..], d), c);
      SelectCommutes(ms[1..], c, d);
      if Keeps(c, ms[0]) {
        assert Select(h, d) == g by { assert h[1..] == []; }
      } else {
        assert Select(h, d) == [];
      }
      if Keeps(d, ms[0]) {
        assert Select(g, c) == h by { assert g[1..] == []; }
      } else {
        assert Select(g, c) == [];
      }
    }
  }

  /** Replacing a row that the filter drops by another row it drops leaves the result as it was. */
  lemma {:induction false} SelectIgnoresDropped(ms: seq<ChatMessage>, i: nat, e: ChatMessage, c: Criterion)
    requires i < |ms| && !Keeps(c, ms[i]) && !Keeps(c, e)
    ensures Select(ms[i := e], c) == Select(ms, c)
  {
    if i == 0 {
      assert ms[i := e][1..] == ms[1..];
    } else {
      assert ms[i := e][0] == ms[0];
      assert ms[i := e][1..] == ms[1..][i - 1 := e];
      SelectIgnoresDropped(ms[1..], i - 1, e, c);
    }
  }

  lemma ChronologicalCons(h: ChatMessage, rest: seq<ChatMessage>)
    requires Chronological(rest)
    requires forall m :: m in rest ==> h.created <= m.created && h.id != m.id
    ensures Chronological([h] + rest)
  {
    var s := [h] + rest;
    forall i, j | 0 <= i < j < |s|
      ensures s[i].created <= s[j].created && s[i].id != s[j].id
    {
      assert s[j] == rest[j - 1];
      if i > 0 {
        assert s[i] == rest[i - 1];
      }
    }
  }

  /** A filtered table is still chronological. */
  lemma {:induction false} SelectChronological(ms: seq<ChatMessage>, c: Criterion)
    requires Chronological(ms)
    ensures Chronological(Select(ms, c))
  {
    if ms != [] {
      assert Chronological(ms[1..]);
      SelectChronological(ms[1..], c);
      var rest := Select(ms[1..], c);
      forall m | m in rest
        ensures ms[0].created <= m.created && ms[0].id != m.id
      {
        var j :| 0 <= j < |ms[1..]| && ms[1..][j] == m;
        assert m == ms[j + 1];
      }
      if Keeps(c, ms[0]) {
        ChronologicalCons(ms[0], rest);
      } else {
        assert Select(ms, c) == rest;
      }
    }
  }

  /** A row stamped no earlier than every other and with a new id can be appended. */
  lemma ChronologicalAppend(ms: seq<ChatMessage>, m: ChatMessage)
    requires Chronological(ms)
    requires forall x :: x in ms ==> x.created <= m.created && x.id != m.id
    ensures Chronological(ms + [m])
  {
    var s := ms + [m];
    forall i, j | 0 <= i < j < |s|
      ensures s[i].created <= s[j].created && s[i].id != s[j].id
    {
      assert s[i] == ms[i];
      if j < |ms| {
        assert s[j] == ms[j];
      } else {
        assert ms[i] in ms;
      }
    }
  }

  /** Removing a row whose id occurs once shortens the table by exactly one. */
  lemma {:induction false} SelectRemovesOne(ms: seq<ChatMessage>, i: nat)
    requires Chronological(ms) && i < |ms|
    ensures |Select(ms, OtherThan(ms[i].id))| == |ms| - 1
  {
    var c := OtherThan(ms[i].id);
    assert Chronological(ms[1..]);
    if i == 0 {
      forall m | m in ms[1..]
        ensures Keeps(c, m)
      {
        var j :| 0 <= j < |ms[1..]| && ms[1..][j] == m;
        assert m == ms[j + 1];
      }
      SelectAll(ms[1..], c);
    } else {
      assert ms[0].id != ms[i].id;
      assert ms[1..][i - 1] == ms[i];
      SelectRemovesOne(ms[1..], i - 1);
    }
  }

  /**
   * The cascade from a session to its messages: deleting a session removes all
   * and only its messages, and the tables stay well formed.
   */
  lemma CascadeDelete(sessions: map<string, ChatSession>, ms: seq<ChatMessage>, sid: string)
    requires WellFormed(sessions, ms)
    ensures var rest := Select(ms, OutsideSession(sid));
      && WellFormed(sessions - {sid}, rest)
      && (forall m :: m in rest <==> m in ms && m.sessionId != sid)
      && SessionMessages(rest, sid) == []
  {
    var rest := Select(ms, OutsideSession(sid));
    SelectChronological(ms, OutsideSession(sid));
    SelectNone(rest, InSession(sid));
  }

  /** A session's messages come back in creation order. */
  lemma SessionMessagesOrdered(ms: seq<ChatMessage>, sid: string)
    requires Chronological(ms)
    ensures var h := SessionMessages(ms, sid);
      && Chronological(h)
      && (forall i :: 0 <= i < |h| ==> h[i].sessionId == sid)
  {
    SelectChronological(ms, InSession(sid));
    var h := SessionMessages(ms, sid);
    forall i | 0 <= i < |h|
      ensures h[i].sessionId == sid
    {
      assert h[i] in h;
    }
  }
}
