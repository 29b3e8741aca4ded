/** The build event stream: a reader that polls the event table with a cursor while
    the build is still writing to it (atc/db/build_event_source.go, atc/db/build.go).

    A run interleaves the atomic steps of the build (`Write`), of the consumer
    (`Consume`) and of the reader (`Read`) in any order.
    `BuildEventSource.CollectEvents` is the reader loop itself; every execution of it
    is shown to be such a run.
  */
module EventStream {

  datatype Event = Event(id: int, isFinal: bool, payload: string)

  /** Capacity of the events channel, which is also the size of one query batch. */
  const BATCH: nat := 2000

  /** The events and the `completed` flag of one build, and its event id sequence. */
  datatype Db = Db(events: seq<Event>, done: bool, seqNo: int)

  datatype Err = NoError | EndOfStream | StreamClosed | DbError

  /** The events channel: all that was ever sent, how much of it was taken. */
  datatype Channel = Channel(sent: seq<Event>, received: nat, stop: bool, closed: bool, err: Err) {
    predicate HasRoom() { |sent| - received < BATCH }
    function End(e: Err): Channel { this.(closed := true, err := e) }
  }

  /** Where the reader is inside its loop. */
  datatype Pc =
    | Top
    | ReadCompleted
    | Query
    | Emit(batch: seq<Event>, returned: nat)
    | Waiting
    | Ended

  datatype Reader = Reader(pc: Pc, cursor: int, completed: bool)

  datatype State = State(db: Db, ch: Channel, rd: Reader)

  // saveEvent; a saveEvent that was rolled back; refreshEventIdSeq; Finish
  datatype Write = SaveEvent(payload: string) | BurnId | RefreshSeq | Finish(payload: string)

  datatype Consume = Close | Receive

  datatype Read =
    | CheckStop | BeginFails
    | ReadFlag | ReadFails
    | RunQuery | QueryFails
    | Send | ScanFails | SendAborted
    | EndBatch | CommitFails
    | Wake | WaitAborted

  datatype Action = W(w: Write) | C(c: Consume) | R(r: Read)

  /** The events a reader that starts at `from` is to see. */
  function Wanted(events: seq<Event>, from: int): seq<Event> {
    if events == [] then []
    else (if events[0].id >= from then [events[0]] else []) + Wanted(events[1..], from)
  }

  function Take(s: seq<Event>, n: nat): seq<Event> {
    if |s| <= n then s else s[..n]
  }

  function MaxIdPlusOne(events: seq<Event>): int {
    if events == [] then 0 else events[|events| - 1].id + 1
  }

  // ---- the build ----

  /** Nothing is written once the build has completed. */
  predicate CanWrite(db: Db, w: Write) {
    w.SaveEvent? || w.Finish? ==> !db.done
  }

  function DoWrite(db: Db, w: Write): Db {
    match w
    case SaveEvent(p) => Db(db.events + [Event(db.seqNo, false, p)], db.done, db.seqNo + 1)
    case BurnId => db.(seqNo := db.seqNo + 1)
    case RefreshSeq => db.(seqNo := MaxIdPlusOne(db.events))
    case Finish(p) => Db(db.events + [Event(db.seqNo, true, p)], true, db.seqNo + 1)
  }

  // ---- the consumer ----

  predicate CanConsume(ch: Channel, c: Consume) {
    c.Receive? ==> ch.received < |ch.sent|
  }

  function DoConsume(ch: Channel, c: Consume): Channel {
    match c
    case Close => ch.(stop := true)
    case Receive => ch.(received := ch.received + 1)
  }

  // ---- the reader ----

  predicate CanRead(s: State, r: Read) {
    match r
    case CheckStop => s.rd.pc.Top?
    case BeginFails => s.rd.pc.Top? && !s.ch.stop
    case ReadFlag => s.rd.pc.ReadCompleted?
    case ReadFails => s.rd.pc.ReadCompleted? && !s.rd.completed
    case RunQuery => s.rd.pc.Query?
    case QueryFails => s.rd.pc.Query?
    case Send => s.rd.pc.Emit? && s.rd.pc.batch != [] && s.ch.HasRoom()
    case ScanFails => s.rd.pc.Emit? && s.rd.pc.batch != []
    case SendAborted => s.rd.pc.Emit? && s.rd.pc.batch != [] && s.ch.stop
    case EndBatch => s.rd.pc.Emit? && s.rd.pc.batch == []
    case CommitFails => s.rd.pc.Emit? && s.rd.pc.batch == []
    case Wake => s.rd.pc.Waiting?
    case WaitAborted => s.rd.pc.Waiting? && s.ch.stop
  }

  function NextReader(s: State, r: Read): Reader
    requires CanRead(s, r)
  {
    match r
    case CheckStop => s.rd.(pc := if s.ch.stop then Ended else ReadCompleted)
    case ReadFlag => s.rd.(pc := Query, completed := s.rd.completed || s.db.done)
    case RunQuery => s.rd.(pc := Emit(Take(Wanted(s.db.events, s.rd.cursor + 1), BATCH), 0))
    case Send =>
      s.rd.(pc := Emit(s.rd.pc.batch[1..], s.rd.pc.returned + 1), cursor := s.rd.pc.batch[0].id)
    case SendAborted => s.rd.(pc := Ended, cursor := s.rd.pc.batch[0].id)
    case EndBatch =>
      s.rd.(pc := if s.rd.pc.returned == BATCH then Top else if s.rd.completed then Ended else Waiting)
    case Wake => s.rd.(pc := Top)
    case BeginFails => s.rd.(pc := Ended)
    case ReadFails => s.rd.(pc := Ended)
    case QueryFails => s.rd.(pc := Ended)
    case ScanFails => s.rd.(pc := Ended)
    case CommitFails => s.rd.(pc := Ended)
    case WaitAborted => s.rd.(pc := Ended)
  }

  function NextChannel(s: State, r: Read): Channel
    requires CanRead(s, r)
  {
    match r
    case CheckStop => if s.ch.stop then s.ch.End(StreamClosed) else s.ch
    case ReadFlag => s.ch
    case RunQuery => s.ch
    case Send => s.ch.(sent := s.ch.sent + [s.rd.pc.batch[0]])
    case SendAborted => s.ch.End(StreamClosed)
    case EndBatch =>
      if s.rd.pc.returned != BATCH && s.rd.completed then s.ch.End(EndOfStream) else s.ch
    case Wake => s.ch
    // the goroutine returns without closing the channel
    case BeginFails => s.ch
    case ReadFails => s.ch.End(DbError)
    case QueryFails => s.ch.End(DbError)
    case ScanFails => s.ch.End(DbError)
    // the channel is closed with no error recorded
    case CommitFails => s.ch.End(NoError)
    case WaitAborted => s.ch.End(StreamClosed)
  }

  predicate Enabled(s: State, a: Action) {
    match a
    case W(w) => CanWrite(s.db, w)
    case C(c) => CanConsume(s.ch, c)
    case R(r) => CanRead(s, r)
  }

  function Apply(s: State, a: Action): State
    requires Enabled(s, a)
  {
    match a
    case W(w) => s.(db := DoWrite(s.db, w))
    case C(c) => s.(ch := DoConsume(s.ch, c))
    case R(r) => State(s.db, NextChannel(s, r), NextReader(s, r))
  }

  // ---- runs ----

  ghost predicate Increasing(events: seq<Event>) {
    forall i, j :: 0 <= i < j < |events| ==> events[i].id < events[j].id
  }

  ghost predicate DbOk(db: Db) {
    && Increasing(db.events)
    && (forall i :: 0 <= i < |db.events| ==> db.events[i].id < db.seqNo)
    && (db.done ==> db.events != [] && db.events[|db.events| - 1].isFinal)
  }

  /** A freshly opened source: `completed` was read when it was created, before now. */
  ghost predicate Init(s: State, from: nat) {
    && DbOk(s.db)
    && s.rd.pc.Top? && s.rd.cursor == from - 1 && (s.rd.completed ==> s.db.done)
    && s.ch.sent == [] && s.ch.received == 0 && !s.ch.closed && s.ch.err.NoError?
  }

  /** A run, newest step last. */
  datatype Run = Start(now: State) | Then(before: Run, a: Action, now: State)

  ghost predicate IsRun(r: Run, from: nat) {
    match r
    case Start(s) => Init(s, from)
    case Then(r', a, s) => IsRun(r', from) && Enabled(r'.now, a) && s == Apply(r'.now, a)
  }

  ghost function Origin(r: Run): State {
    match r
    case Start(s) => s
    case Then(r', _, _) => Origin(r')
  }

  /** `later` continues `r`. */
  ghost predicate Continues(later: Run, r: Run) {
    later == r || (later.Then? && Continues(later.before, r))
  }

  // ---- the invariant of every run ----

  ghost predicate ChannelOk(db: Db, ch: Channel, from: nat) {
    && ch.received <= |ch.sent| <= ch.received + BATCH
    && ch.sent <= Wanted(db.events, from)
    && (ch.err.EndOfStream? ==> ch.closed && db.done && ch.sent == Wanted(db.events, from))
  }

  /** The cursor splits the wanted events into those sent and those still to be read. */
  ghost predicate CursorOk(db: Db, sent: seq<Event>, cursor: int, from: nat) {
    && Wanted(db.events, from) == sent + Wanted(db.events, cursor + 1)
    && cursor == if sent == [] then from - 1 else sent[|sent| - 1].id
  }

  /** The flag was read before the query, so under it a short batch is the whole rest. */
  ghost predicate BatchOk(db: Db, rd: Reader) {
    rd.pc.Emit? ==>
      && rd.pc.batch <= Wanted(db.events, rd.cursor + 1)
      && rd.pc.returned + |rd.pc.batch| <= BATCH
      && (rd.completed && rd.pc.returned + |rd.pc.batch| < BATCH ==>
            rd.pc.batch == Wanted(db.events, rd.cursor + 1))
  }

  ghost predicate Inv(s: State, from: nat) {
    && DbOk(s.db)
    && (s.rd.completed ==> s.db.done)
    && (s.ch.err.EndOfStream? ==> s.rd.pc.Ended?)
    && ChannelOk(s.db, s.ch, from)
    && (!s.rd.pc.Ended? ==> CursorOk(s.db, s.ch.sent, s.rd.cursor, from))
    && BatchOk(s.db, s.rd)
  }

  lemma {:induction false} WantedAppend(events: seq<Event>, e: Event, from: int)
    ensures Wanted(events + [e], from) == Wanted(events, from) + (if e.id >= from then [e] else [])
  {
    if events != [] {
      WantedAppend(events[1..], e, from);
      assert (events + [e])[1..] == events[1..] + [e];
    }
  }

  lemma {:induction false} WantedMember(events: seq<Event>, from: int)
    ensures forall e :: e in Wanted(events, from) ==> e in events && e.id >= from
  {
    if events != [] {
      WantedMember(events[1..], from);
    }
  }

  /** The wanted events are those of the table from that id on, in the table's order. */
  lemma {:induction false} WantedExact(events: seq<Event>, from: int)
    requires Increasing(events)
    ensures forall e :: e in Wanted(events, from) <==> e in events && e.id >= from
    ensures Increasing(Wanted(events, from))
  {
    WantedMember(events, from);
    if events != [] {
      WantedExact(events[1..], from);
      assert events == [events[0]] + events[1..];
      forall e | e in Wanted(events[1..], from) ensures e.id > events[0].id { assert e in events[1..]; }
    }
  }

  lemma {:induction false} WantedAbove(events: seq<Event>, from: int, to: int)
    requires from <= to && forall i :: 0 <= i < |events| ==> events[i].id >= to
    ensures Wanted(events, from) == Wanted(events, to)
  {
    if events != [] {
      WantedAbove(events[1..], from, to);
    }
  }

  /** Moving the cursor to the first wanted event leaves exactly the others. */
  lemma {:induction false} WantedAdvance(events: seq<Event>, from: int)
    requires Increasing(events) && Wanted(events, from) != []
    ensures Wanted(events, Wanted(events, from)[0].id + 1) == Wanted(events, from)[1..]
  {
    if events[0].id >= from {
      WantedAbove(events[1..], from, events[0].id + 1);
    } else {
      WantedAdvance(events[1..], from);
      WantedMember(events[1..], from);
    }
  }

  /** A new event belongs to the stream exactly when it belongs to the unread part. */
  lemma NewEventIsUnread(s: State, from: nat)
    requires Inv(s, from) && !s.rd.pc.Ended?
    ensures s.db.seqNo >= from <==> s.db.seqNo >= s.rd.cursor + 1
  {
    if s.ch.sent != [] {
      WantedMember(s.db.events, from);
      assert s.ch.sent[|s.ch.sent| - 1] in Wanted(s.db.events, from);
    }
  }

  lemma WriteKeepsDb(db: Db, w: Write)
    requires DbOk(db) && CanWrite(db, w)
    ensures DbOk(DoWrite(db, w)) && (DoWrite(db, w).done <==> db.done || w.Finish?)
    ensures db.events <= DoWrite(db, w).events
    ensures var added := DoWrite(db, w).events[|db.events|..];
            if w.SaveEvent? || w.Finish?
            then |added| == 1 && added[0].payload == w.payload && added[0].isFinal == w.Finish?
                 && forall e :: e in db.events ==> e.id < added[0].id
            else added == []
  {
  }

  lemma AppendKeepsInv(s: State, e: Event, t: State, from: nat)
    requires Inv(s, from) && !s.db.done && e.id == s.db.seqNo
    requires DbOk(t.db) && t == s.(db := Db(s.db.events + [e], e.isFinal, s.db.seqNo + 1))
    ensures Inv(t, from)
  {
    var tail := if e.id >= from then [e] else [];
    WantedAppend(s.db.events, e, from);
    if !s.rd.pc.Ended? {
      NewEventIsUnread(s, from);
      WantedAppend(s.db.events, e, s.rd.cursor + 1);
      var rest := Wanted(s.db.events, s.rd.cursor + 1);
      assert s.ch.sent + rest + tail == s.ch.sent + (rest + tail);
      assert CursorOk(t.db, t.ch.sent, t.rd.cursor, from);
    }
    assert ChannelOk(t.db, t.ch, from);
  }

  lemma WriteKeepsInv(s: State, w: Write, from: nat)
    requires Inv(s, from) && CanWrite(s.db, w)
    ensures Inv(Apply(s, W(w)), from)
  {
    WriteKeepsDb(s.db, w);
    if w.SaveEvent? || w.Finish? {
      AppendKeepsInv(s, Event(s.db.seqNo, w.Finish?, w.payload), Apply(s, W(w)), from);
    }
  }

  lemma CursorAdvances(db: Db, sent: seq<Event>, cursor: int, from: nat)
    requires Increasing(db.events) && CursorOk(db, sent, cursor, from)
    requires Wanted(db.events, cursor + 1) != []
    ensures var e := Wanted(db.events, cursor + 1)[0];
            && CursorOk(db, sent + [e], e.id, from)
            && Wanted(db.events, e.id + 1) == Wanted(db.events, cursor + 1)[1..]
  {
    var rest := Wanted(db.events, cursor + 1);
    WantedAdvance(db.events, cursor + 1);
    assert sent + rest == (sent + [rest[0]]) + rest[1..];
  }

  lemma SendKeepsInv(s: State, from: nat)
    requires Inv(s, from) && CanRead(s, Send)
    ensures Inv(Apply(s, R(Send)), from)
  {
    CursorAdvances(s.db, s.ch.sent, s.rd.cursor, from);
    assert s.rd.pc.batch[0] == Wanted(s.db.events, s.rd.cursor + 1)[0];
  }

  lemma ReadKeepsInv(s: State, r: Read, from: nat)
    requires Inv(s, from) && CanRead(s, r)
    ensures Inv(Apply(s, R(r)), from)
  {
    if r.Send? { SendKeepsInv(s, from); }
  }

  lemma {:induction false} RunKeepsInv(r: Run, from: nat)
    requires IsRun(r, from)
    ensures Inv(r.now, from)
  {
    match r
    case Start(s) =>
      assert [] + Wanted(s.db.events, from) == Wanted(s.db.events, from);
    case Then(r', a, _) =>
      RunKeepsInv(r', from);
      match a
      case W(w) => WriteKeepsInv(r'.now, w, from);
      case C(_) =>
      case R(rd) => ReadKeepsInv(r'.now, rd, from);
  }

  /** What the consumer has taken is at every moment an initial segment of the wanted
      events of the table: in order, nothing missing, nothing twice. */
  lemma StreamIsPrefix(r: Run, from: nat)
    requires IsRun(r, from)
    ensures r.now.ch.received <= |r.now.ch.sent|
    ensures r.now.ch.sent[..r.now.ch.received] <= Wanted(r.now.db.events, from)
  {
    RunKeepsInv(r, from);
  }

  /** When the consumer is told the stream has ended, it has been given every wanted
      event there will ever be, the final status event among them. */
  lemma EndMeansEverything(r: Run, later: Run, from: nat)
    requires IsRun(r, from) && IsRun(later, from) && Continues(later, r)
    requires r.now.ch.closed && r.now.ch.err.EndOfStream?
    ensures r.now.db.done && r.now.ch.sent == Wanted(r.now.db.events, from)
    ensures later.now.db.events == r.now.db.events && later.now.ch.sent == r.now.ch.sent
    ensures r.now.db.events != [] && r.now.db.events[|r.now.db.events| - 1].isFinal
    ensures var last := r.now.db.events[|r.now.db.events| - 1];
            last.id >= from ==> r.now.ch.sent != [] && r.now.ch.sent[|r.now.ch.sent| - 1] == last
  {
    RunKeepsInv(r, from);
    var events := r.now.db.events;
    var last := events[|events| - 1];
    assert events == events[..|events| - 1] + [last];
    WantedAppend(events[..|events| - 1], last, from);
    EndIsStable(r, later, from);
  }

  // ---- nothing is held back ----

  /** The table as the reader's latest query found it. */
  ghost function LastQueried(r: Run): Db {
    match r
    case Start(s) => s.db
    case Then(r', a, s) => if a == R(RunQuery) then s.db else LastQueried(r')
  }

  /** What was sent and what is still in the batch are the wanted events the query found, as
      far as a batch goes; while waiting all of them have been sent. */
  ghost predicate QueryOk(rd: Reader, sent: seq<Event>, found: seq<Event>) {
    && (rd.pc.Emit? ==> sent + rd.pc.batch <= found)
    && (rd.pc.Emit? && rd.pc.returned + |rd.pc.batch| < BATCH ==> sent + rd.pc.batch == found)
    && (rd.pc.Waiting? ==> sent == found)
  }

  lemma QueryFindsRest(s: State, from: nat)
    requires Inv(s, from) && CanRead(s, RunQuery)
    ensures var t := Apply(s, R(RunQuery)); QueryOk(t.rd, t.ch.sent, Wanted(t.db.events, from))
  {
  }

  lemma StepKeepsQuery(s: State, a: Action, found: seq<Event>)
    requires Enabled(s, a) && a != R(RunQuery) && QueryOk(s.rd, s.ch.sent, found)
    requires s.rd.pc.Emit? ==> s.rd.pc.returned + |s.rd.pc.batch| <= BATCH
    ensures QueryOk(Apply(s, a).rd, Apply(s, a).ch.sent, found)
  {
    if a == R(Send) {
      assert (s.ch.sent + [s.rd.pc.batch[0]]) + s.rd.pc.batch[1..] == s.ch.sent + s.rd.pc.batch;
    }
  }

  lemma {:induction false} RunKeepsQuery(r: Run, from: nat)
    requires IsRun(r, from)
    ensures QueryOk(r.now.rd, r.now.ch.sent, Wanted(LastQueried(r).events, from))
  {
    if r.Then? {
      RunKeepsInv(r.before, from);
      if r.a == R(RunQuery) {
        QueryFindsRest(r.before.now, from);
      } else {
        RunKeepsQuery(r.before, from);
        StepKeepsQuery(r.before.now, r.a, Wanted(LastQueried(r).events, from));
      }
    }
  }

  /** Whenever the reader waits, it has sent exactly the wanted events that were in the table
      at its last query, whether the build has completed or not. */
  lemma WaitingMeansCaughtUp(r: Run, from: nat)
    requires IsRun(r, from) && r.now.rd.pc.Waiting?
    ensures r.now.ch.sent == Wanted(LastQueried(r).events, from)
    ensures forall e :: e in r.now.ch.sent <==> e in LastQueried(r).events && e.id >= from
  {
    RunKeepsQuery(r, from);
    QueriedIncreasing(r, from);
    WantedExact(LastQueried(r).events, from);
  }

  lemma {:induction false} QueriedIncreasing(r: Run, from: nat)
    requires IsRun(r, from)
    ensures Increasing(LastQueried(r).events)
  {
    RunKeepsInv(r, from);
    if r.Then? { QueriedIncreasing(r.before, from); }
  }

  lemma {:induction false} EndIsStable(r: Run, later: Run, from: nat)
    requires IsRun(r, from) && IsRun(later, from) && Continues(later, r)
    requires r.now.rd.pc.Ended? && r.now.db.done
    ensures later.now.rd.pc.Ended? && later.now.db.done
    ensures later.now.ch.sent == r.now.ch.sent && later.now.db.events == r.now.db.events
  {
    if later != r {
      EndIsStable(r, later.before, from);
    }
  }

  // ---- the reader loop ----

  /** The event source together with the tables it reads, which the build goes on
      changing between any two of the reader's own steps. */
  class BuildEventSource {
    const from: nat
    var db: Db
    var ch: Channel

    /** Every step taken since the source was opened. */
    ghost var run: Run

    ghost predicate At(pc: Pc, cursor: int, completed: bool)
      reads this
    {
      IsRun(run, from) && run.now == State(db, ch, Reader(pc, cursor, completed))
    }

    constructor (db: Db, from: nat)
      requires DbOk(db)
      ensures At(Top, from - 1, db.done) && this.db == db && this.from == from && ch.err.NoError?
    {
      this.db, this.from := db, from;
      ch := Channel([], 0, false, false, NoError);
      run := Start(State(db, Channel([], 0, false, false, NoError), Reader(Top, from - 1, db.done)));
    }

    ghost method Log(a: Action, pc: Pc, cursor: int, completed: bool)
      requires IsRun(run, from) && Enabled(run.now, a)
      requires State(db, ch, Reader(pc, cursor, completed)) == Apply(run.now, a)
      modifies this`run
      ensures At(pc, cursor, completed) && Origin(run) == old(Origin(run))
    {
      run := Then(run, a, Apply(run.now, a));
    }

    /** Any number of steps of the build and of the consumer. */
    method Interfere(ghost pc: Pc, ghost cursor: int, ghost completed: bool)
      requires At(pc, cursor, completed)
      modifies this
      ensures At(pc, cursor, completed) && Origin(run) == old(Origin(run))
      ensures ch.sent == old(ch.sent) && ch.closed == old(ch.closed) && ch.err == old(ch.err)
      ensures old(ch.stop) ==> ch.stop
    {
      var n: nat := *;
      while n > 0
        invariant At(pc, cursor, completed) && Origin(run) == old(Origin(run))
        invariant ch.sent == old(ch.sent) && ch.closed == old(ch.closed) && ch.err == old(ch.err)
        invariant old(ch.stop) ==> ch.stop
      {
        var w: Write, c: Consume := *, *;
        if CanWrite(db, w) {
          db := DoWrite(db, w);
          Log(W(w), pc, cursor, completed);
        }
        if CanConsume(ch, c) {
          ch := DoConsume(ch, c);
          Log(C(c), pc, cursor, completed);
        }
        n := n - 1;
      }
    }

    /** Sends one batch; `ok` is false when the reader has ended on the way. */
    method SendBatch(batch: seq<Event>, cursor0: int, ghost completed: bool)
      returns (ok: bool, cursor: int, rowsReturned: nat)
      requires At(Emit(batch, 0), cursor0, completed) && !ch.err.EndOfStream?
      modifies this
      ensures Origin(run) == old(Origin(run)) && !ch.err.EndOfStream?
      ensures ok ==> rowsReturned == |batch| && At(Emit([], rowsReturned), cursor, completed)
      ensures !ok ==> At(Ended, cursor, completed)
    {
      ok, cursor, rowsReturned := true, cursor0, 0;
      while ok && rowsReturned < |batch|
        invariant rowsReturned <= |batch| && Origin(run) == old(Origin(run)) && !ch.err.EndOfStream?
        invariant ok ==> At(Emit(batch[rowsReturned..], rowsReturned), cursor, completed)
        invariant !ok ==> At(Ended, cursor, completed)
        decreases ok, |batch| - rowsReturned
      {
        assert batch[rowsReturned..][1..] == batch[rowsReturned + 1..];
        ok, cursor := SendOne(batch[rowsReturned..], rowsReturned, cursor, completed);
        if ok { rowsReturned := rowsReturned + 1; }
      }
      if ok { assert batch[rowsReturned..] == []; }
    }

    /** Scans and sends the first event of what is left of a batch. */
    method SendOne(rest: seq<Event>, ghost returned: nat, cursor0: int, ghost completed: bool)
      returns (ok: bool, cursor: int)
      requires rest != [] && At(Emit(rest, returned), cursor0, completed) && !ch.err.EndOfStream?
      modifies this
      ensures Origin(run) == old(Origin(run)) && !ch.err.EndOfStream?
      ensures ok ==> cursor == rest[0].id && At(Emit(rest[1..], returned + 1), cursor, completed)
      ensures ok ==> ch.sent == old(ch.sent) + [rest[0]]
      ensures !ok ==> ch.sent == old(ch.sent) && At(Ended, cursor, completed)
      ensures !ok ==> ch.closed && (ch.err.DbError? || (ch.err.StreamClosed? && ch.stop))
    {
      ok, cursor := false, cursor0;
      Interfere(Emit(rest, returned), cursor, completed);
      var scanFails: bool, takeStop: bool := *, *;
      if scanFails {
        ch := ch.End(DbError);
        Log(R(ScanFails), Ended, cursor, completed);
        return;
      }
      if ch.stop && (takeStop || !ch.HasRoom()) {
        cursor := rest[0].id;
        ch := ch.End(StreamClosed);
        Log(R(SendAborted), Ended, cursor, completed);
        return;
      }
      if !ch.HasRoom() {
        // blocked on a full channel until the consumer takes one
        TakeOne(Emit(rest, returned), cursor, completed);
      }
      ok, cursor := true, rest[0].id;
      ch := ch.(sent := ch.sent + [rest[0]]);
      Log(R(Send), Emit(rest[1..], returned + 1), cursor, completed);
    }

    method TakeOne(ghost pc: Pc, ghost cursor: int, ghost completed: bool)
      requires At(pc, cursor, completed) && !ch.HasRoom()
      modifies this
      ensures At(pc, cursor, completed) && Origin(run) == old(Origin(run)) && ch.HasRoom()
      ensures ch == old(ch).(received := old(ch.received) + 1)
    {
      RunKeepsInv(run, from);
      ch := DoConsume(ch, Receive);
      Log(C(Receive), pc, cursor, completed);
    }

    /** From the top of the loop to the query: checks for Close, begins, reads the flag. */
    method BeginBatch(cursor: int, completed0: bool, mustStop: bool, beginFails: bool, flagFails: bool)
      returns (ok: bool, completed: bool)
      requires At(Top, cursor, completed0) && !ch.err.EndOfStream?
      modifies this
      ensures Origin(run) == old(Origin(run)) && !ch.err.EndOfStream? && ch.sent == old(ch.sent)
      ensures ok ==> At(Query, cursor, completed) && !mustStop && !beginFails
      ensures !ok ==> At(Ended, cursor, completed)
      ensures !ok ==> || (ch.closed && ch.err.StreamClosed? && ch.stop)
                      || (beginFails && ch.closed == old(ch.closed) && ch.err == old(ch.err))
                      || (flagFails && ch.closed && ch.err.DbError?)
    {
      ok, completed := false, completed0;
      Interfere(Top, cursor, completed);
      if mustStop {
        ch := DoConsume(ch, Close);
        Log(C(Close), Top, cursor, completed);
      }
      if ch.stop {
        ch := ch.End(StreamClosed);
        Log(R(CheckStop), Ended, cursor, completed);
        return;
      }
      if beginFails {
        Log(R(BeginFails), Ended, cursor, completed);
        return;
      }
      Log(R(CheckStop), ReadCompleted, cursor, completed);
      Interfere(ReadCompleted, cursor, completed);
      if !completed {
        if flagFails {
          ch := ch.End(DbError);
          Log(R(ReadFails), Ended, cursor, completed);
          return;
        }
        completed := db.done;
      }
      ok := true;
      Log(R(ReadFlag), Query, cursor, completed);
    }

    /** From the top of the loop to the query result, which is the next events above the
        cursor: a full batch of them, or all there are. */
    method FetchBatch(cursor: int, completed0: bool, mustStop: bool, beginFails: bool, flagFails: bool, queryFails: bool)
      returns (ok: bool, completed: bool, batch: seq<Event>)
      requires At(Top, cursor, completed0) && !ch.err.EndOfStream?
      modifies this
      ensures Origin(run) == old(Origin(run)) && !ch.err.EndOfStream? && ch.sent == old(ch.sent)
      ensures ok ==> At(Emit(batch, 0), cursor, completed) && !mustStop && !beginFails && !queryFails
      ensures ok ==> |batch| <= 2000 && batch <= Wanted(db.events, cursor + 1)
      ensures ok && |batch| < 2000 ==> batch == Wanted(db.events, cursor + 1)
      ensures !ok ==> At(Ended, cursor, completed)
      ensures !ok ==> || (ch.closed && ch.err.StreamClosed? && ch.stop)
                      || (beginFails && ch.closed == old(ch.closed) && ch.err == old(ch.err))
                      || ((flagFails || queryFails) && ch.closed && ch.err.DbError?)
    {
      batch := [];
      ok, completed := BeginBatch(cursor, completed0, mustStop, beginFails, flagFails);
      if !ok { return; }
      Interfere(Query, cursor, completed);
      if queryFails {
        ok, ch := false, ch.End(DbError);
        Log(R(QueryFails), Ended, cursor, completed);
        return;
      }
      batch := Take(Wanted(db.events, cursor + 1), BATCH);
      Log(R(RunQuery), Emit(batch, 0), cursor, completed);
    }

    /** From the end of a batch back to the top, or to the end of the reader: with the
        end-of-stream error exactly if a batch that was not full was committed and the
        build had completed before it was queried. */
    method FinishBatch(cursor: int, completed: bool, rowsReturned: nat, commitFails: bool) returns (again: bool)
      requires At(Emit([], rowsReturned), cursor, completed) && !ch.err.EndOfStream?
      modifies this
      ensures Origin(run) == old(Origin(run)) && ch.sent == old(ch.sent)
      ensures again ==> At(Top, cursor, completed) && !commitFails && (rowsReturned == BATCH || !completed)
      ensures !again ==> At(Ended, cursor, completed) && ch.closed
      ensures ch.err.EndOfStream? <==> !commitFails && rowsReturned != BATCH && completed
      ensures !again && !ch.err.EndOfStream? ==>
                if commitFails then ch.err.NoError? else ch.err.StreamClosed? && ch.stop && rowsReturned != BATCH
    {
      again := false;
      var notified: bool := *;
      if commitFails {
        ch := ch.End(NoError);
        Log(R(CommitFails), Ended, cursor, completed);
      } else if rowsReturned == BATCH {
        Log(R(EndBatch), Top, cursor, completed);
        again := true;
      } else if completed {
        ch := ch.End(EndOfStream);
        Log(R(EndBatch), Ended, cursor, completed);
      } else {
        Log(R(EndBatch), Waiting, cursor, completed);
        Interfere(Waiting, cursor, completed);
        if ch.stop && !notified {
          ch := ch.End(StreamClosed);
          Log(R(WaitAborted), Ended, cursor, completed);
        } else {
          Log(R(Wake), Top, cursor, completed);
          again := true;
        }
      }
    }

    /** collectEvents.  Close is called no later than the `patience`-th pass; everything
        else that is not the reader's own doing happens in Interfere or is chosen freely. */
    method CollectEvents(completed0: bool, patience: nat)
      requires At(Top, from - 1, completed0) && !ch.err.EndOfStream?
      modifies this
      ensures IsRun(run, from) && Origin(run) == old(Origin(run)) && run.now.rd.pc.Ended?
      ensures run.now.db == db && run.now.ch == ch
      ensures ch.sent <= Wanted(db.events, from)
      ensures ch.err.EndOfStream? ==> ch.closed && db.done && ch.sent == Wanted(db.events, from)
    {
      var cursor, completed, n := from - 1, completed0, patience;
      var again := true;
      while again
        invariant again ==> At(Top, cursor, completed) && !ch.err.EndOfStream?
        invariant !again ==> At(Ended, cursor, completed)
        invariant Origin(run) == old(Origin(run))
        decreases again, n
      {
        var beginFails: bool, flagFails: bool, queryFails: bool := *, *, *;
        var ok, flag, batch := FetchBatch(cursor, completed, n == 0, beginFails, flagFails, queryFails);
        completed, again := flag, ok;
        if ok {
          var sentAll, newCursor, rowsReturned := SendBatch(batch, cursor, completed);
          cursor, again := newCursor, sentAll;
          if sentAll {
            var commitFails: bool := *;
            again := FinishBatch(cursor, completed, rowsReturned, commitFails);
          }
          n := n - 1;
        }
      }
      RunKeepsInv(run, from);
    }
  }
}
