/** The recommendations table as rows of sessions, and the replacement of
    one session's rows by a new set. */
module StoredRows {
  import opened Outcomes

  /** A stored recommendation: the session it belongs to, the finding's
      category, a priority, the finding's savings and the recommended
      program, as a federal or a state program identifier. The text is not
      modelled. */
  datatype Recommendation = Recommendation(sessionId: string, category: string, priority: int, savings: int,
                                           federalProgramId: Option<int>, stateProgramId: Option<int>)

  /** The rows of every other session. */
  function Others(rows: seq<Recommendation>, sessionId: string): (r: seq<Recommendation>)
    ensures |r| <= |rows|
  {
    if rows == [] then []
    else (if rows[0].sessionId == sessionId then [] else [rows[0]]) + Others(rows[1..], sessionId)
  }

  /** The rows of one session. */
  function SessionRows(rows: seq<Recommendation>, sessionId: string): (r: seq<Recommendation>)
    ensures |r| <= |rows|
  {
    if rows == [] then []
    else (if rows[0].sessionId == sessionId then [rows[0]] else []) + SessionRows(rows[1..], sessionId)
  }

  /** The two filters split the rows by session. */
  lemma {:induction false} FilterMembers(rows: seq<Recommendation>, sessionId: string)
    ensures forall x :: x in Others(rows, sessionId) <==> x in rows && x.sessionId != sessionId
    ensures forall x :: x in SessionRows(rows, sessionId) <==> x in rows && x.sessionId == sessionId
  {
    if rows != [] {
      FilterMembers(rows[1..], sessionId);
      assert forall x :: x in rows <==> x == rows[0] || x in rows[1..];
    }
  }

  /** The session's rows replaced by `incoming`, everything else kept in order. */
  function Replaced(rows: seq<Recommendation>, sessionId: string, incoming: seq<Recommendation>): seq<Recommendation> {
    Others(rows, sessionId) + incoming
  }

  lemma {:induction false} OthersConcat(a: seq<Recommendation>, b: seq<Recommendation>, sessionId: string)
    ensures Others(a + b, sessionId) == Others(a, sessionId) + Others(b, sessionId)
  {
    if a != [] {
      OthersConcat(a[1..], b, sessionId);
      var head := if a[0].sessionId == sessionId then [] else [a[0]];
      assert (a + b)[1..] == a[1..] + b;
      assert Others(a + b, sessionId) == head + Others(a[1..] + b, sessionId);
      assert head + (Others(a[1..], sessionId) + Others(b, sessionId))
             == (head + Others(a[1..], sessionId)) + Others(b, sessionId);
    } else {
      assert a + b == b;
    }
  }

  lemma {:induction false} SessionRowsConcat(a: seq<Recommendation>, b: seq<Recommendation>, sessionId: string)
    ensures SessionRows(a + b, sessionId) == SessionRows(a, sessionId) + SessionRows(b, sessionId)
  {
    if a != [] {
      SessionRowsConcat(a[1..], b, sessionId);
      assert (a + b)[1..] == a[1..] + b;
    } else {
      assert a + b == b;
    }
  }

  /** Only the replaced session's rows change. */
  lemma ReplacedKeepsOtherSessions(rows: seq<Recommendation>, sessionId: string, incoming: seq<Recommendation>, other: string)
    requires forall r :: r in incoming ==> r.sessionId == sessionId
    requires other != sessionId
    ensures SessionRows(Replaced(rows, sessionId, incoming), other) == SessionRows(rows, other)
  {
    SessionRowsConcat(Others(rows, sessionId), incoming, other);
    SessionRowsOfOthers(rows, sessionId, other);
    assert SessionRows(incoming, other) == [] by {
      AllOfSession(incoming, sessionId, other);
    }
    assert SessionRows(rows, other) + [] == SessionRows(rows, other);
  }

  lemma {:induction false} SessionRowsOfOthers(rows: seq<Recommendation>, sessionId: string, other: string)
    requires other != sessionId
    ensures SessionRows(Others(rows, sessionId), other) == SessionRows(rows, other)
  {
    if rows != [] {
      SessionRowsOfOthers(rows[1..], sessionId, other);
      var head := if rows[0].sessionId == sessionId then [] else [rows[0]];
      SessionRowsConcat(head, Others(rows[1..], sessionId), other);
    }
  }

  lemma {:induction false} OthersTwice(rows: seq<Recommendation>, sessionId: string)
    ensures Others(Others(rows, sessionId), sessionId) == Others(rows, sessionId)
  {
    if rows != [] {
      OthersTwice(rows[1..], sessionId);
      var head := if rows[0].sessionId == sessionId then [] else [rows[0]];
      OthersConcat(head, Others(rows[1..], sessionId), sessionId);
    }
  }

  /** A second replacement wipes out the first: after replacing with
      `first` and then with `second`, the table is as if only `second` had
      been written. Nothing of `first` survives, whatever the two hold. */
  lemma ReplacedTwice(rows: seq<Recommendation>, sessionId: string, first: seq<Recommendation>, second: seq<Recommendation>)
    requires forall r :: r in first ==> r.sessionId == sessionId
    requires forall r :: r in second ==> r.sessionId == sessionId
    ensures Replaced(Replaced(rows, sessionId, first), sessionId, second) == Replaced(rows, sessionId, second)
  {
    OthersConcat(Others(rows, sessionId), first, sessionId);
    OthersTwice(rows, sessionId);
    AllOfSession(first, sessionId, sessionId);
    assert Others(rows, sessionId) + [] == Others(rows, sessionId);
  }

  /** Replacing with the same rows a second time changes nothing: the
      update replaces the session's rows rather than adding to them. */
  lemma ReplacedIdempotent(rows: seq<Recommendation>, sessionId: string, incoming: seq<Recommendation>)
    requires forall r :: r in incoming ==> r.sessionId == sessionId
    ensures Replaced(Replaced(rows, sessionId, incoming), sessionId, incoming) == Replaced(rows, sessionId, incoming)
  {
    ReplacedTwice(rows, sessionId, incoming, incoming);
  }

  /** After a replacement the session's rows are exactly the new ones, in
      their order: none of the session's earlier rows is left. */
  lemma ReplacedSessionRows(rows: seq<Recommendation>, sessionId: string, incoming: seq<Recommendation>)
    requires forall r :: r in incoming ==> r.sessionId == sessionId
    ensures SessionRows(Replaced(rows, sessionId, incoming), sessionId) == incoming
  {
    SessionRowsConcat(Others(rows, sessionId), incoming, sessionId);
    OthersLeaveNone(rows, sessionId);
    AllSessionRows(incoming, sessionId);
    assert [] + incoming == incoming;
  }

  /** The other sessions' rows hold none of this session's rows. */
  lemma {:induction false} OthersLeaveNone(rows: seq<Recommendation>, sessionId: string)
    ensures SessionRows(Others(rows, sessionId), sessionId) == []
  {
    if rows != [] {
      OthersLeaveNone(rows[1..], sessionId);
      var head := if rows[0].sessionId == sessionId then [] else [rows[0]];
      SessionRowsConcat(head, Others(rows[1..], sessionId), sessionId);
    }
  }

  /** Rows that all belong to one session are all that session's rows. */
  lemma {:induction false} AllSessionRows(rows: seq<Recommendation>, sessionId: string)
    requires forall r :: r in rows ==> r.sessionId == sessionId
    ensures SessionRows(rows, sessionId) == rows
  {
    if rows != [] {
      assert forall r :: r in rows[1..] ==> r in rows;
      AllSessionRows(rows[1..], sessionId);
      assert [rows[0]] + rows[1..] == rows;
    }
  }

  /** Rows that all belong to one session leave nothing for any other
      session and nothing once that session's rows are removed. */
  lemma {:induction false} AllOfSession(rows: seq<Recommendation>, sessionId: string, other: string)
    requires forall r :: r in rows ==> r.sessionId == sessionId
    ensures Others(rows, sessionId) == []
    ensures other != sessionId ==> SessionRows(rows, other) == []
  {
    if rows != [] {
      assert forall r :: r in rows[1..] ==> r in rows;
      AllOfSession(rows[1..], sessionId, other);
    }
  }
}
