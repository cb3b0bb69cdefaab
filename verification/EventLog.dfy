/** The append-only run event log and its delivery over a resumable stream. One table holds the events of
    every run; a client follows one run, may lose its connection at any point, and resumes from the last
    sequence number it received. */
module EventLog {
  import opened Domain
  import Identifiers

  datatype EventRow = EventRow(runId: nat, sequence: nat, body: string)

  // ----- Appending -------------------------------------------------------------------------------

  /** The events of one run, in the order they were written. */
  function LogOf(rows: seq<EventRow>, runId: nat): (log: seq<EventRow>)
    ensures forall e :: e in log <==> e in rows && e.runId == runId
  {
    if rows == [] then []
    else
      var init, last := rows[..|rows| - 1], rows[|rows| - 1];
      assert rows == init + [last];
      LogOf(init, runId) + (if last.runId == runId then [last] else [])
  }

  /** `MAX(sequence)` over the rows of one run, 0 when there is none. */
  function MaxSequence(rows: seq<EventRow>, runId: nat): nat {
    if rows == [] then 0
    else
      var rest := MaxSequence(rows[..|rows| - 1], runId);
      var last := rows[|rows| - 1];
      if last.runId == runId && last.sequence > rest then last.sequence else rest
  }

  function Appended(rows: seq<EventRow>, runId: nat, body: string): seq<EventRow> {
    rows + [EventRow(runId, MaxSequence(rows, runId) + 1, body)]
  }

  class EventTable {
    var rows: seq<EventRow>

    constructor ()
      ensures rows == []
    {
      rows := [];
    }

    /** The parent row is locked, so reading the maximum and inserting are one step. */
    method WriteEvent(runId: nat, body: string)
      modifies this
      ensures rows == Appended(old(rows), runId, body)
    {
      var max := 0;
      for i := 0 to |rows|
        invariant max == MaxSequence(rows[..i], runId)
      {
        assert rows[..i + 1][..i] == rows[..i];
        if rows[i].runId == runId && rows[i].sequence > max {
          max := rows[i].sequence;
        }
      }
      assert rows[..|rows|] == rows;
      rows := rows + [EventRow(runId, max + 1, body)];
    }
  }

  /** Sequence numbers 1, 2, ..., n. */
  ghost predicate Numbered(log: seq<EventRow>) {
    forall i :: 0 <= i < |log| ==> log[i].sequence == i + 1
  }

  ghost predicate Gapless(rows: seq<EventRow>) {
    forall runId: nat :: Numbered(LogOf(rows, runId))
  }

  lemma {:induction false} MaxIsLogLength(rows: seq<EventRow>, runId: nat)
    requires Numbered(LogOf(rows, runId))
    ensures MaxSequence(rows, runId) == |LogOf(rows, runId)|
  {
    if rows != [] {
      var init := rows[..|rows| - 1];
      assert LogOf(init, runId) <= LogOf(rows, runId);
      MaxIsLogLength(init, runId);
      if rows[|rows| - 1].runId == runId {
        assert LogOf(rows, runId)[|LogOf(init, runId)|] == rows[|rows| - 1];
      }
    }
  }

  lemma AppendExtendsOneLog(rows: seq<EventRow>, runId: nat, body: string, other: nat)
    ensures LogOf(Appended(rows, runId, body), other) == LogOf(rows, other) +
              (if other == runId then [EventRow(runId, MaxSequence(rows, runId) + 1, body)] else [])
  {
    assert Appended(rows, runId, body)[..|rows|] == rows;
  }

  /** Appending keeps every run's numbering gapless, for any interleaving of runs. */
  lemma AppendKeepsGapless(rows: seq<EventRow>, runId: nat, body: string)
    requires Gapless(rows)
    ensures Gapless(Appended(rows, runId, body))
  {
    MaxIsLogLength(rows, runId);
    forall other: nat ensures Numbered(LogOf(Appended(rows, runId, body), other)) {
      AppendExtendsOneLog(rows, runId, body, other);
      assert Numbered(LogOf(rows, other));
    }
  }

  // ----- Reading -----------------------------------------------------------------------------------

  /** The rows of one run past the cursor, in insertion order. */
  function Newer(rows: seq<EventRow>, runId: nat, cursor: nat): seq<EventRow> {
    if rows == [] then []
    else
      var last := rows[|rows| - 1];
      Newer(rows[..|rows| - 1], runId, cursor) +
      (if last.runId == runId && last.sequence > cursor then [last] else [])
  }

  function DropFirst<T>(s: seq<T>, n: nat): seq<T> {
    if n <= |s| then s[n..] else []
  }

  lemma {:induction false} NewerIsLogSuffix(rows: seq<EventRow>, runId: nat, cursor: nat)
    requires Numbered(LogOf(rows, runId))
    ensures Newer(rows, runId, cursor) == DropFirst(LogOf(rows, runId), cursor)
  {
    if rows != [] {
      var init := rows[..|rows| - 1];
      assert LogOf(init, runId) <= LogOf(rows, runId);
      NewerIsLogSuffix(init, runId, cursor);
      if rows[|rows| - 1].runId == runId {
        assert LogOf(rows, runId)[|LogOf(init, runId)|] == rows[|rows| - 1];
      }
    }
  }

  predicate SequenceLeq(a: EventRow, b: EventRow) { a.sequence <= b.sequence }

  /** `ORDER BY sequence` changes nothing: whatever order the rows come back in before sorting, the sorted
      answer is the part of the run's log after the cursor. */
  lemma OrderedQueryIsLogSuffix(rows: seq<EventRow>, runId: nat, cursor: nat, answer: seq<EventRow>)
    requires Gapless(rows)
    requires multiset(answer) == multiset(Newer(rows, runId, cursor))
    requires Identifiers.SortedBy(SequenceLeq, answer)
    ensures answer == DropFirst(LogOf(rows, runId), cursor)
  {
    NewerIsLogSuffix(rows, runId, cursor);
    var newer := Newer(rows, runId, cursor);
    forall i, j | 0 <= i < |newer| && i < j < |newer| ensures !SequenceLeq(newer[j], newer[i]) {
      assert newer[i] == LogOf(rows, runId)[cursor + i] && newer[j] == LogOf(rows, runId)[cursor + j];
    }
    assert Identifiers.PrefixPrecedes(SequenceLeq, newer, |newer|);
    Identifiers.SortedPermutationKeepsPrefix(SequenceLeq, newer, answer, |newer|);
    assert answer[..|newer|] == answer && newer[..|newer|] == newer;
  }

  /** What a `Last-Event-ID` header may hold. */
  datatype Header = Absent | Number(n: int) | NotANumber

  function CursorFrom(h: Header): nat {
    match h
    case Absent => 0
    case NotANumber => 0
    case Number(n) => if n < 0 then 0 else n
  }

  /** One open stream: the loop of `_stream`, sending what it reads and advancing its cursor with it. */
  class Stream {
    var cursor: nat
    var sent: seq<EventRow>

    constructor (h: Header)
      ensures cursor == CursorFrom(h) && sent == []
    {
      cursor := CursorFrom(h);
      sent := [];
    }

    /** Sends a batch event by event; the cursor is always the last number sent. */
    method SendBatch(events: seq<EventRow>)
      requires NumberedFrom(events, cursor)
      modifies this
      ensures sent == old(sent) + events && cursor == old(cursor) + |events|
    {
      for i := 0 to |events|
        invariant sent == old(sent) + events[..i]
        invariant cursor == old(cursor) + i
      {
        sent := sent + [events[i]];
        cursor := events[i].sequence;
      }
      assert events[..|events|] == events;
    }

    method SendRound(rows: seq<EventRow>, runId: nat)
      requires Numbered(LogOf(rows, runId))
      modifies this
      ensures sent == old(sent) + DropFirst(LogOf(rows, runId), old(cursor))
      ensures cursor == if |LogOf(rows, runId)| > old(cursor) then |LogOf(rows, runId)| else old(cursor)
    {
      NewerIsLogSuffix(rows, runId, cursor);
      SuffixIsNumbered(LogOf(rows, runId), cursor);
      var events := Newer(rows, runId, cursor);
      SendBatch(events);
    }
  }

  ghost predicate NumberedFrom(events: seq<EventRow>, cursor: nat) {
    forall i :: 0 <= i < |events| ==> events[i].sequence == cursor + i + 1
  }

  lemma SuffixIsNumbered(log: seq<EventRow>, cursor: nat)
    requires Numbered(log)
    ensures NumberedFrom(DropFirst(log, cursor), cursor)
    ensures |DropFirst(log, cursor)| == if |log| > cursor then |log| - cursor else 0
  {
  }

  // ----- Delivery ------------------------------------------------------------------------------------

  /** A connection: the batch read but not yet sent, and what was sent but not yet received. `polled` is
      the length of the run's log at the last poll. */
  datatype Connection = Connection(
    open: bool, cursor: nat, batch: seq<EventRow>, wire: seq<EventRow>, polled: Option<nat>)

  /** `terminal` is the run's status as the status query sees it. */
  datatype System = System(
    rows: seq<EventRow>, terminal: bool, received: seq<EventRow>, conn: Option<Connection>)

  datatype Action =
    | Append(runId: nat, body: string)  // any worker, any run
    | Finish                            // the followed run becomes terminal
    | Connect                           // resume with the last received id
    | Poll                              // read everything past the cursor
    | Send                              // yield the next event of the batch
    | Receive                           // the client gets the next event on the wire
    | CheckStatus                       // after a batch: stop if the run is terminal
    | Drop                              // the connection is lost with all it carried

  function LastReceivedId(received: seq<EventRow>): Header {
    if received == [] then Absent else Number(received[|received| - 1].sequence)
  }

  function Step(runId: nat, s: System, a: Action): System {
    match a
    case Append(r, body) => s.(rows := Appended(s.rows, r, body))
    case Finish => s.(terminal := true)
    case Connect =>
      s.(conn := Some(Connection(true, CursorFrom(LastReceivedId(s.received)), [], [], None)))
    case Poll =>
      if s.conn.Some? && s.conn.value.open && s.conn.value.batch == [] then
        s.(conn := Some(s.conn.value.(
          batch := Newer(s.rows, runId, s.conn.value.cursor), polled := Some(|LogOf(s.rows, runId)|))))
      else s
    case Send =>
      if s.conn.Some? && s.conn.value.open && s.conn.value.batch != [] then
        var c := s.conn.value;
        s.(conn := Some(c.(batch := c.batch[1..], wire := c.wire + [c.batch[0]], cursor := c.batch[0].sequence)))
      else s
    case Receive =>
      if s.conn.Some? && s.conn.value.wire != [] then
        s.(received := s.received + [s.conn.value.wire[0]], conn := Some(s.conn.value.(wire := s.conn.value.wire[1..])))
      else s
    case CheckStatus =>
      if s.conn.Some? && s.conn.value.batch == [] && s.conn.value.polled.Some? && s.terminal then
        s.(conn := Some(s.conn.value.(open := false)))
      else s
    case Drop => s.(conn := None)
  }

  function Run(runId: nat, s: System, actions: seq<Action>): System
    decreases |actions|
  {
    if actions == [] then s else Run(runId, Step(runId, s, actions[0]), actions[1..])
  }

  const START := System([], false, [], None)

  /** How far into the log a connection has read. */
  function ReadUpTo(c: Connection): nat {
    if c.polled.Some? then c.polled.value else c.cursor
  }

  /** Wire and batch are the consecutive stretches of the log after the `r` events received. */
  ghost predicate Carries(c: Connection, log: seq<EventRow>, r: nat) {
    && r <= c.cursor <= ReadUpTo(c) <= |log|
    && c.wire == log[r..c.cursor]
    && c.batch == log[c.cursor..ReadUpTo(c)]
    && (c.open || (c.polled.Some? && c.batch == []))
  }

  ghost predicate InOrder(runId: nat, s: System) {
    var log := LogOf(s.rows, runId);
    && Gapless(s.rows)
    && |s.received| <= |log| && s.received == log[..|s.received|]
    && (s.conn.Some? ==> Carries(s.conn.value, log, |s.received|))
  }

  lemma AppendKeepsOrder(runId: nat, s: System, r: nat, body: string)
    requires InOrder(runId, s)
    ensures InOrder(runId, Step(runId, s, Append(r, body)))
  {
    var log := LogOf(s.rows, runId);
    AppendKeepsGapless(s.rows, r, body);
    AppendExtendsOneLog(s.rows, r, body, runId);
    var log' := LogOf(Appended(s.rows, r, body), runId);
    assert log <= log';
    assert log'[..|s.received|] == log[..|s.received|];
    if s.conn.Some? {
      var c := s.conn.value;
      assert log'[|s.received|..c.cursor] == log[|s.received|..c.cursor];
      assert log'[c.cursor..ReadUpTo(c)] == log[c.cursor..ReadUpTo(c)];
    }
  }

  lemma PollKeepsOrder(runId: nat, s: System)
    requires InOrder(runId, s)
    ensures InOrder(runId, Step(runId, s, Poll))
  {
    if s.conn.Some? {
      NewerIsLogSuffix(s.rows, runId, s.conn.value.cursor);
    }
  }

  lemma ReceiveKeepsOrder(runId: nat, s: System)
    requires InOrder(runId, s)
    ensures InOrder(runId, Step(runId, s, Receive))
  {
    if s.conn.Some? && s.conn.value.wire != [] {
      var log, r := LogOf(s.rows, runId), |s.received|;
      assert s.conn.value.wire[0] == log[r];
      assert log[..r] + [log[r]] == log[..r + 1];
      assert log[r..s.conn.value.cursor][1..] == log[r + 1..s.conn.value.cursor];
    }
  }

  lemma SendKeepsOrder(runId: nat, s: System)
    requires InOrder(runId, s)
    ensures InOrder(runId, Step(runId, s, Send))
  {
    if s.conn.Some? && s.conn.value.batch != [] {
      var log, r, c := LogOf(s.rows, runId), |s.received|, s.conn.value;
      assert c.batch[0] == log[c.cursor] && log[c.cursor].sequence == c.cursor + 1;
      assert log[r..c.cursor] + [log[c.cursor]] == log[r..c.cursor + 1];
      assert log[c.cursor..ReadUpTo(c)][1..] == log[c.cursor + 1..ReadUpTo(c)];
    }
  }

  lemma ConnectKeepsOrder(runId: nat, s: System)
    requires InOrder(runId, s)
    ensures InOrder(runId, Step(runId, s, Connect))
    ensures Step(runId, s, Connect).conn.value.cursor == |s.received|
  {
    var log, r := LogOf(s.rows, runId), |s.received|;
    if r > 0 {
      assert s.received[r - 1] == log[r - 1] && log[r - 1].sequence == r;
    }
  }

  lemma StepKeepsOrder(runId: nat, s: System, a: Action)
    requires InOrder(runId, s)
    ensures InOrder(runId, Step(runId, s, a))
  {
    match a
    case Append(r, body) => AppendKeepsOrder(runId, s, r, body);
    case Poll => PollKeepsOrder(runId, s);
    case Connect => ConnectKeepsOrder(runId, s);
    case Send => SendKeepsOrder(runId, s);
    case Receive => ReceiveKeepsOrder(runId, s);
    case Finish =>
    case CheckStatus =>
    case Drop =>
  }

  /** Over any interleaving of appends, polls, losses and reconnects, the sequence numbers are gapless and
      what the client has received is a prefix of its run's log: each event once, in order. */
  lemma DeliveryIsAPrefix(runId: nat, actions: seq<Action>)
    ensures InOrder(runId, Run(runId, START, actions))
    ensures Run(runId, START, actions).received <= LogOf(Run(runId, START, actions).rows, runId)
  {
    assert forall r: nat :: LogOf([], r) == [];
    RunKeepsOrder(runId, START, actions);
  }

  lemma {:induction false} RunKeepsOrder(runId: nat, s: System, actions: seq<Action>)
    requires InOrder(runId, s)
    ensures InOrder(runId, Run(runId, s, actions))
    decreases |actions|
  {
    if actions != [] {
      StepKeepsOrder(runId, s, actions[0]);
      RunKeepsOrder(runId, Step(runId, s, actions[0]), actions[1..]);
    }
  }

  lemma RunCons(runId: nat, s: System, a: Action, rest: seq<Action>)
    ensures Run(runId, s, [a] + rest) == Run(runId, Step(runId, s, a), rest)
  {
    assert ([a] + rest)[1..] == rest;
  }

  /** Nothing is lost for good: from any reachable state, one reconnect, one poll and further deliveries
      bring the client level with the log. */
  lemma ReconnectCatchesUp(runId: nat, s: System) returns (deliveries: seq<Action>)
    requires InOrder(runId, s)
    ensures forall a :: a in deliveries ==> a == Send || a == Receive
    ensures Run(runId, Reconnected(runId, s), deliveries).received == LogOf(s.rows, runId)
  {
    var log, r := LogOf(s.rows, runId), |s.received|;
    ReconnectPolls(runId, s);
    deliveries := DrainDelivers(runId, Reconnected(runId, s));
    assert log[..r] + log[r..] == log;
  }

  /** The state after a reconnect and a poll. */
  function Reconnected(runId: nat, s: System): System {
    Step(runId, Step(runId, s, Connect), Poll)
  }

  lemma ReconnectPolls(runId: nat, s: System)
    requires InOrder(runId, s)
    ensures var t := Reconnected(runId, s);
            && t.received == s.received && t.conn.Some? && t.conn.value.open && t.conn.value.wire == []
            && t.conn.value.batch == LogOf(s.rows, runId)[|s.received|..]
  {
    ConnectKeepsOrder(runId, s);
    NewerIsLogSuffix(s.rows, runId, |s.received|);
  }

  /** One event of the batch goes out and arrives. */
  lemma DeliverOne(runId: nat, s: System)
    requires s.conn.Some? && s.conn.value.open && s.conn.value.wire == [] && s.conn.value.batch != []
    ensures var got := Step(runId, Step(runId, s, Send), Receive);
            && got.received == s.received + [s.conn.value.batch[0]] && got.conn.Some? && got.conn.value.open
            && got.conn.value.wire == [] && got.conn.value.batch == s.conn.value.batch[1..]
  {
  }

  lemma {:induction false} DrainDelivers(runId: nat, s: System) returns (deliveries: seq<Action>)
    requires s.conn.Some? && s.conn.value.open && s.conn.value.wire == []
    ensures forall a :: a in deliveries ==> a == Send || a == Receive
    ensures Run(runId, s, deliveries).received == s.received + s.conn.value.batch
    decreases |s.conn.value.batch|
  {
    var batch := s.conn.value.batch;
    if batch == [] {
      deliveries := [];
    } else {
      var sent := Step(runId, s, Send);
      var got := Step(runId, sent, Receive);
      DeliverOne(runId, s);
      var rest := DrainDelivers(runId, got);
      deliveries := [Send] + ([Receive] + rest);
      RunCons(runId, s, Send, [Receive] + rest);
      RunCons(runId, sent, Receive, rest);
      assert batch == [batch[0]] + batch[1..];
    }
  }

  predicate Streaming(s: System) {
    s.conn.Some? && s.conn.value.open
  }

  /** A stream ends exactly when the connection is lost, or when its status check comes after a poll whose
      events were all sent and finds the run terminal; only a reconnect opens it again. */
  lemma StreamEndsExactly(runId: nat, s: System, a: Action)
    ensures Streaming(s) ==>
              (!Streaming(Step(runId, s, a)) <==>
                 a == Drop || (a == CheckStatus && s.terminal && s.conn.value.polled.Some? && s.conn.value.batch == []))
    ensures !Streaming(s) ==> (Streaming(Step(runId, s, a)) <==> a == Connect)
  {
  }

  /** Over any history a stream that is still connected but closed belongs to a finished run. */
  lemma {:induction false} ClosedOnlyWhenTerminal(runId: nat, s: System, actions: seq<Action>)
    requires s.conn.Some? && !s.conn.value.open ==> s.terminal
    ensures var t := Run(runId, s, actions);
            t.conn.Some? && !t.conn.value.open ==> t.terminal && (s.terminal || Finish in actions)
    decreases |actions|
  {
    if actions != [] {
      ClosedOnlyWhenTerminal(runId, Step(runId, s, actions[0]), actions[1..]);
    }
  }

  /** A stream that closed has sent the whole log exactly when nothing was appended after its last poll:
      it reads events first and the status second, so it may close before the last event. */
  lemma ClosedStreamIsCompleteIff(runId: nat, s: System)
    requires InOrder(runId, s) && s.conn.Some? && !s.conn.value.open
    ensures s.received + s.conn.value.wire == LogOf(s.rows, runId)
       <==> s.conn.value.polled == Some(|LogOf(s.rows, runId)|)
  {
    var c, log := s.conn.value, LogOf(s.rows, runId);
    assert log[..|s.received|] + log[|s.received|..c.cursor] == log[..c.cursor];
    if c.cursor == |log| {
      assert log[..c.cursor] == log;
    }
  }

  /** And it does happen: the run finishes between the poll and the status check. */
  lemma StreamMayCloseEarly(runId: nat) returns (s: System)
    ensures s == Run(runId, START, [Append(runId, "started"), Connect, Poll, Send]
                                   + [Append(runId, "succeeded"), Finish, CheckStatus])
    ensures InOrder(runId, s) && s.conn.Some? && !s.conn.value.open
    ensures s.received + s.conn.value.wire != LogOf(s.rows, runId)
  {
    var row1, row2 := EventRow(runId, 1, "started"), EventRow(runId, 2, "succeeded");
    var first := [Append(runId, "started"), Connect, Poll, Send];
    var second := [Append(runId, "succeeded"), Finish, CheckStatus];
    LogsOfTwo(row1, row2);
    var s1 := System([row1], false, [], None);
    var s4 := s1.(conn := Some(Connection(true, 1, [], [row1], Some(1))));
    assert Step(runId, START, first[0]) == s1;
    var s2 := s1.(conn := Some(Connection(true, 0, [], [], None)));
    var s3 := s1.(conn := Some(Connection(true, 0, [row1], [], Some(1))));
    assert Step(runId, s1, Connect) == s2 && Step(runId, s2, Poll) == s3 && Step(runId, s3, Send) == s4;
    var s5 := s4.(rows := [row1, row2]);
    assert Step(runId, s4, second[0]) == s5 by { assert [row1] + [row2] == [row1, row2]; }
    s := s5.(terminal := true, conn := Some(Connection(false, 1, [], [row1], Some(1))));
    assert Step(runId, Step(runId, s5, Finish), CheckStatus) == s;
    RunFour(runId, START, first[0], Connect, Poll, Send, second);
    RunThree(runId, s4, second[0], Finish, CheckStatus);
    DeliveryIsAPrefix(runId, first + second);
  }

  lemma LogsOfTwo(row1: EventRow, row2: EventRow)
    requires row2.runId == row1.runId && row1.sequence == 1 && row2.sequence == 2
    ensures MaxSequence([], row1.runId) == 0 && MaxSequence([row1], row1.runId) == 1
    ensures LogOf([row1], row1.runId) == [row1] && LogOf([row1, row2], row1.runId) == [row1, row2]
    ensures Newer([row1], row1.runId, 0) == [row1]
  {
    assert [row1][..0] == [] && [row1, row2][..1] == [row1];
  }

  lemma RunThree(runId: nat, s: System, a: Action, b: Action, c: Action)
    ensures Run(runId, s, [a, b, c]) == Step(runId, Step(runId, Step(runId, s, a), b), c)
  {
    assert [a, b, c] == [a] + ([b] + ([c] + []));
    RunCons(runId, s, a, [b] + ([c] + []));
    RunCons(runId, Step(runId, s, a), b, [c] + []);
    RunCons(runId, Step(runId, Step(runId, s, a), b), c, []);
  }

  lemma RunFour(runId: nat, s: System, a: Action, b: Action, c: Action, d: Action, rest: seq<Action>)
    ensures Run(runId, s, [a, b, c, d] + rest)
         == Run(runId, Step(runId, Step(runId, Step(runId, Step(runId, s, a), b), c), d), rest)
  {
    assert [a, b, c, d] + rest == [a] + ([b] + ([c] + ([d] + rest)));
    RunCons(runId, s, a, [b] + ([c] + ([d] + rest)));
    RunCons(runId, Step(runId, s, a), b, [c] + ([d] + rest));
    RunCons(runId, Step(runId, Step(runId, s, a), b), c, [d] + rest);
    RunCons(runId, Step(runId, Step(runId, Step(runId, s, a), b), c), d, rest);
  }
}
