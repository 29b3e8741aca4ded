/** The LISTEN/NOTIFY listener: a loop that waits on one database connection, and callers
    that borrow the connection in turns over one unbuffered channel (atc/db/listener.go),
    behind the notifications bus (atc/db/notifications_bus.go).

    A run interleaves the steps of the loop, of the goroutine that waits for a
    notification and of at most one outstanding bus call.  A rendezvous on a channel is
    one step of both sides. */
module Listener {

  // ---- the registered sinks ----

  /** The sinks registered on each channel. */
  type Sinks = map<string, set<nat>>

  ghost predicate NoEmptySets(m: Sinks) {
    forall ch :: ch in m ==> m[ch] != {}
  }

  function SinksOf(m: Sinks, ch: string): set<nat> {
    if ch in m then m[ch] else {}
  }

  function Register(m: Sinks, ch: string, sink: nat): Sinks {
    m[ch := SinksOf(m, ch) + {sink}]
  }

  function Unregister(m: Sinks, ch: string, sink: nat): Sinks {
    var left := SinksOf(m, ch) - {sink};
    if left == {} then m - {ch} else m[ch := left]
  }

  class NotificationsMap {
    var notifications: Sinks

    constructor ()
      ensures notifications == map[]
    {
      notifications := map[];
    }

    method Empty(ch: string) returns (empty: bool)
      requires NoEmptySets(notifications)
      ensures empty <==> ch !in notifications
    {
      empty := |SinksOf(notifications, ch)| == 0;
    }

    method Add(ch: string, sink: nat)
      requires NoEmptySets(notifications)
      modifies this
      ensures NoEmptySets(notifications) && notifications == Register(old(notifications), ch, sink)
      ensures notifications.Keys == old(notifications).Keys + {ch} && sink in notifications[ch]
      ensures forall c, k :: c in notifications && (c != ch || k != sink) ==>
                (k in notifications[c] <==> c in old(notifications) && k in old(notifications)[c])
    {
      var sinks := {};
      if ch in notifications { sinks := notifications[ch]; }
      notifications := notifications[ch := sinks + {sink}];
    }

    method Remove(ch: string, sink: nat)
      requires NoEmptySets(notifications)
      modifies this
      ensures NoEmptySets(notifications) && notifications == Unregister(old(notifications), ch, sink)
      ensures forall c, k :: c in notifications && k in notifications[c] <==>
                c in old(notifications) && k in old(notifications)[c] && (c != ch || k != sink)
    {
      if ch !in notifications {
        assert notifications - {ch} == notifications;
        return;
      }
      notifications := notifications[ch := notifications[ch] - {sink}];
      if |notifications[ch]| == 0 { notifications := notifications - {ch}; }
    }
  }

  // ---- the state ----

  /** What a bus call wants of the connection. */
  datatype Op = Listen(ch: string, sink: nat) | Unlisten(ch: string) | Close

  datatype Caller =
    | Idle
    | Asking(op: Op)             // sending askingForTurn
    | AwaitingTurn(op: Op)       // receiving itsYourTurn
    | Using(op: Op)              // on the connection
    | GivingBack(op: Op, ok: bool)
    | Returning(op: Op, ok: bool)
    | Closing                    // connection released, comms not closed yet

  datatype Loop =
    | Top
    | AwaitingComms
    | CheckingConn
    | Selecting
    | Reconnecting
    | Draining(handOver: bool)   // waiting for the waiter to let go
    | HandingOver
    | Exited

  datatype Waiter =
    | Absent
    | Waiting                    // in WaitForNotification
    | Delivering(failed: bool)
    | Done(failed: bool)

  datatype State = State(
    loop: Loop, stillMyTurn: bool, waiter: Waiter, caller: Caller,
    hasConn: bool, commsClosed: bool,
    channels: set<string>,       // the listener's own record
    served: set<string>,         // what the connection really listens to
    sinks: Sinks,
    stale: set<string>,          // channels whose last LISTEN failed
    clean: bool)                 // no LISTEN or UNLISTEN has failed yet

  datatype Call = BusListen(ch: string, sink: nat) | BusUnlisten(ch: string, sink: nat) | BusClose

  datatype Action =
    | Begin(call: Call)
    | Ask | Turn | Exec(ok: bool) | Give | Return | CloseComms
    | LoopTop | SeeClosed | CheckConn | Notified | SelectClosed | Drained
    | Reconnect(relistened: set<string>)
    | WaitReturns(notified: bool, failed: bool) | Delivered

  ghost predicate Init(s: State) {
    s == State(Top, true, Absent, Idle, true, false, {}, {}, map[], {}, true)
  }

  ghost predicate Enabled(s: State, a: Action) {
    match a
    case Begin(_) => s.caller.Idle? && !s.commsClosed
    case Ask => s.caller.Asking? && s.loop.Selecting?
    case Turn => s.caller.AwaitingTurn? && s.loop.HandingOver?
    case Exec(_) => s.caller.Using?
    case Give => s.caller.GivingBack? && s.loop.AwaitingComms?
    case Return => s.caller.Returning?
    case CloseComms => s.caller.Closing?
    case LoopTop => s.loop.Top?
    case SeeClosed => s.loop.AwaitingComms? && s.commsClosed
    case CheckConn => s.loop.CheckingConn?
    case Notified => s.loop.Selecting? && s.waiter.Done?
    case SelectClosed => s.loop.Selecting? && s.commsClosed
    case Drained => s.loop.Draining? && s.waiter.Done?
    case Reconnect(relistened) => s.loop.Reconnecting? && relistened <= s.channels
    case WaitReturns(_, _) => s.waiter.Waiting?
    case Delivered => s.waiter.Delivering?
  }

  function BeginIn(s: State, call: Call): State {
    match call
    case BusListen(ch, sink) =>
      if ch in s.sinks then s.(sinks := Register(s.sinks, ch, sink)) else s.(caller := Asking(Listen(ch, sink)))
    case BusUnlisten(ch, sink) =>
      var left := Unregister(s.sinks, ch, sink);
      if ch in left then s.(sinks := left) else s.(sinks := left, caller := Asking(Unlisten(ch)))
    case BusClose => s.(caller := Asking(Close))
  }

  /** The caller's own part, with the turn in hand. */
  function ExecIn(s: State, op: Op, ok: bool): State {
    match op
    case Listen(ch, _) =>
      s.(caller := GivingBack(op, ok), channels := s.channels + {ch}, clean := s.clean && ok,
         served := if ok then s.served + {ch} else s.served,
         stale := if ok then s.stale - {ch} else s.stale + {ch})
    case Unlisten(ch) =>
      s.(caller := GivingBack(op, ok), channels := s.channels - {ch}, clean := s.clean && ok,
         served := if ok then s.served - {ch} else s.served,
         stale := s.stale - {ch})
    case Close => s.(caller := Closing, hasConn := false, served := {})
  }

  function ReturnIn(s: State, op: Op, ok: bool): State {
    if op.Listen? && ok then s.(caller := Idle, sinks := Register(s.sinks, op.ch, op.sink)) else s.(caller := Idle)
  }

  function Apply(s: State, a: Action): State
    requires Enabled(s, a)
  {
    match a
    case Begin(call) => BeginIn(s, call)
    case Ask => s.(caller := AwaitingTurn(s.caller.op), loop := Draining(true))
    case Turn => s.(caller := Using(s.caller.op), loop := Top, stillMyTurn := false)
    case Exec(ok) => ExecIn(s, s.caller.op, ok)
    case Give => s.(caller := Returning(s.caller.op, s.caller.ok), loop := CheckingConn, stillMyTurn := true)
    case Return => ReturnIn(s, s.caller.op, s.caller.ok)
    case CloseComms => s.(caller := Idle, commsClosed := true)
    case LoopTop => s.(loop := if s.stillMyTurn then CheckingConn else AwaitingComms)
    case SeeClosed => s.(loop := CheckingConn, stillMyTurn := true)
    case CheckConn => if s.hasConn then s.(loop := Selecting, waiter := Waiting) else s.(loop := Exited)
    case Notified => s.(waiter := Absent, loop := if s.waiter.failed then Reconnecting else Top)
    case SelectClosed => s.(loop := Draining(false))
    case Drained => s.(waiter := Absent, stillMyTurn := true, loop := if s.loop.handOver then HandingOver else Top)
    case Reconnect(relistened) => s.(loop := Top, served := relistened, clean := s.clean && relistened == s.channels)
    case WaitReturns(notified, failed) => s.(waiter := if notified then Delivering(failed) else Done(failed))
    case Delivered => s.(waiter := Done(s.waiter.failed))
  }

  datatype Run = Start(now: State) | Then(before: Run, a: Action, now: State)

  ghost predicate IsRun(r: Run) {
    match r
    case Start(now) => Init(now)
    case Then(before, a, now) => IsRun(before) && Enabled(before.now, a) && now == Apply(before.now, a)
  }

  // ---- turns ----

  /** The loop's side is on the connection. */
  predicate LoopUsesConn(s: State) {
    s.waiter.Waiting? || s.loop.Reconnecting?
  }

  predicate CallerUsesConn(s: State) {
    s.caller.Using?
  }

  /** The caller has the turn, from the hand-over until it gives it back or has closed. */
  predicate CallerHasTurn(s: State) {
    s.caller.Using? || s.caller.GivingBack? || s.caller.Closing? || s.commsClosed
  }

  ghost predicate TurnInv(s: State) {
    && (s.waiter.Absent? <==> !(s.loop.Selecting? || s.loop.Draining?))
    && (s.caller.AwaitingTurn? <==> s.loop.HandingOver? || s.loop == Draining(true))
    && s.loop != Draining(false)
    && (s.caller.GivingBack? || s.caller.Returning? ==> !s.caller.op.Close?)
    && (s.commsClosed ==> s.caller.Idle?)
    && (s.hasConn <==> !(s.caller.Closing? || s.commsClosed))
    && (s.loop.AwaitingComms? ==> !s.stillMyTurn)
    && (CallerHasTurn(s) ==>
          || ((s.loop.Top? || s.loop.AwaitingComms?) && !s.stillMyTurn)
          || (s.commsClosed && (s.loop.CheckingConn? || s.loop.Exited?)))
    && (!CallerHasTurn(s) ==> !s.loop.Exited? && s.stillMyTurn)
  }

  lemma StepKeepsTurns(s: State, a: Action)
    requires TurnInv(s) && Enabled(s, a)
    ensures TurnInv(Apply(s, a))
  {
  }

  lemma {:induction false} RunKeepsTurns(r: Run)
    requires IsRun(r)
    ensures TurnInv(r.now)
  {
    if r.Then? {
      RunKeepsTurns(r.before);
      StepKeepsTurns(r.before.now, r.a);
    }
  }

  /** The loop's side and a caller are never on the connection together; nobody is on it
      once it has been released, and the loop does not touch it after Close. */
  lemma NeverTogether(r: Run)
    requires IsRun(r)
    ensures !(LoopUsesConn(r.now) && CallerUsesConn(r.now))
    ensures !r.now.hasConn ==> !LoopUsesConn(r.now) && !CallerUsesConn(r.now)
    ensures r.now.loop.Exited? ==> r.now.commsClosed && r.now.waiter.Absent?
  {
    RunKeepsTurns(r);
  }

  /** Steps the loop still takes once comms is closed. */
  function ToExit(loop: Loop): nat {
    match loop
    case Top => 3
    case AwaitingComms => 2
    case CheckingConn => 1
    case _ => 0
  }

  /** After Close the loop can only go on to its exit, and nothing holds it up. */
  lemma CloseEndsLoop(r: Run)
    requires IsRun(r) && r.now.commsClosed
    ensures ToExit(r.now.loop) == 0 <==> r.now.loop.Exited?
    ensures !r.now.loop.Exited? ==> exists a :: Enabled(r.now, a)
    ensures forall a :: Enabled(r.now, a) ==> ToExit(Apply(r.now, a).loop) < ToExit(r.now.loop) && Apply(r.now, a).commsClosed
  {
    RunKeepsTurns(r);
    var s := r.now;
    if s.loop.Top? { assert Enabled(s, LoopTop); }
    else if s.loop.AwaitingComms? { assert Enabled(s, SeeClosed); }
    else if s.loop.CheckingConn? { assert Enabled(s, CheckConn); }
  }

  /** An outstanding call is never stuck: some step other than a new call can be taken. */
  lemma NeverStuck(r: Run)
    requires IsRun(r) && !r.now.caller.Idle?
    ensures exists a: Action :: !a.Begin? && Enabled(r.now, a)
  {
    RunKeepsTurns(r);
    var s := r.now;
    if s.caller.Using? { assert Enabled(s, Exec(true)); }
    else if s.caller.Returning? { assert Enabled(s, Return); }
    else if s.caller.Closing? { assert Enabled(s, CloseComms); }
    else if s.loop.Top? { assert Enabled(s, LoopTop); }
    else if s.loop.CheckingConn? { assert Enabled(s, CheckConn); }
    else if s.loop.Reconnecting? { assert Enabled(s, Reconnect({})); }
    else if s.loop.AwaitingComms? { assert Enabled(s, Give); }
    else if s.loop.HandingOver? { assert Enabled(s, Turn); }
    else if s.waiter.Waiting? { assert Enabled(s, WaitReturns(false, false)); }
    else if s.waiter.Delivering? { assert Enabled(s, Delivered); }
    else if s.loop.Draining? { assert Enabled(s, Drained); }
    else { assert Enabled(s, Notified); }
  }

  // ---- channels ----

  /** The channel the outstanding call is about to start or stop listening to. */
  function InFlight(caller: Caller): set<string> {
    match caller
    case Asking(Unlisten(ch)) => {ch}
    case AwaitingTurn(Unlisten(ch)) => {ch}
    case Using(Unlisten(ch)) => {ch}
    case GivingBack(Listen(ch, _), true) => {ch}
    case Returning(Listen(ch, _), true) => {ch}
    case _ => {}
  }

  /** The channel the outstanding call is about; it has no registered sink meanwhile. */
  function Concerned(caller: Caller): set<string> {
    if caller.Idle? || caller.Closing? || caller.op.Close? then {} else {caller.op.ch}
  }

  ghost predicate ChannelInv(s: State) {
    && NoEmptySets(s.sinks)
    && s.sinks.Keys + s.stale <= s.channels <= s.sinks.Keys + s.stale + InFlight(s.caller)
    && Concerned(s.caller) !! s.sinks.Keys
    && (s.caller.GivingBack? || s.caller.Returning? ==>
          (s.caller.op.Listen? && s.caller.ok ==> s.caller.op.ch in s.channels && s.caller.op.ch !in s.stale))
    && (s.stale !! s.sinks.Keys)
    && (s.clean ==> s.stale == {} && (s.hasConn ==> s.served == s.channels))
  }

  lemma RegisterKeys(m: Sinks, ch: string, sink: nat)
    requires NoEmptySets(m)
    ensures NoEmptySets(Register(m, ch, sink)) && Register(m, ch, sink).Keys == m.Keys + {ch}
    ensures NoEmptySets(Unregister(m, ch, sink))
    ensures Unregister(m, ch, sink).Keys == m.Keys || Unregister(m, ch, sink).Keys == m.Keys - {ch}
  {
  }

  lemma BeginListenKeeps(s: State, ch: string, sink: nat)
    requires ChannelInv(s) && s.caller.Idle?
    ensures ChannelInv(BeginIn(s, BusListen(ch, sink)))
  {
    if ch in s.sinks {
      RegisterKeys(s.sinks, ch, sink);
      assert Register(s.sinks, ch, sink).Keys == s.sinks.Keys;
    }
  }

  lemma BeginUnlistenKeeps(s: State, ch: string, sink: nat)
    requires ChannelInv(s) && s.caller.Idle?
    ensures ChannelInv(BeginIn(s, BusUnlisten(ch, sink)))
  {
    RegisterKeys(s.sinks, ch, sink);
    var left := Unregister(s.sinks, ch, sink);
    assert ch in left ==> left.Keys == s.sinks.Keys;
    assert ch !in left ==> left.Keys == s.sinks.Keys - {ch};
  }

  lemma ExecListenKeeps(s: State, ok: bool)
    requires ChannelInv(s) && s.caller.Using? && s.caller.op.Listen?
    ensures ChannelInv(ExecIn(s, s.caller.op, ok))
  {
    assert s.caller.op.ch in Concerned(s.caller);
  }

  lemma ExecUnlistenKeeps(s: State, ok: bool)
    requires ChannelInv(s) && s.caller.Using? && s.caller.op.Unlisten?
    ensures ChannelInv(ExecIn(s, s.caller.op, ok))
  {
  }

  lemma StepKeepsChannels(s: State, a: Action)
    requires ChannelInv(s) && TurnInv(s) && Enabled(s, a)
    ensures ChannelInv(Apply(s, a))
  {
    match a
    case Begin(BusListen(ch, sink)) => BeginListenKeeps(s, ch, sink);
    case Begin(BusUnlisten(ch, sink)) => BeginUnlistenKeeps(s, ch, sink);
    case Exec(ok) =>
      if s.caller.op.Listen? { ExecListenKeeps(s, ok); } else if s.caller.op.Unlisten? { ExecUnlistenKeeps(s, ok); }
    case Return => if s.caller.op.Listen? { RegisterKeys(s.sinks, s.caller.op.ch, s.caller.op.sink); }
    case _ =>
  }

  lemma {:induction false} RunKeepsChannels(r: Run)
    requires IsRun(r)
    ensures ChannelInv(r.now)
  {
    if r.Then? {
      RunKeepsChannels(r.before);
      RunKeepsTurns(r.before);
      StepKeepsChannels(r.before.now, r.a);
    }
  }

  /** Between calls the listener's channels are those with a registered sink and those
      whose last LISTEN failed; so they are exactly the registered ones if and only if no
      LISTEN failure is left over. */
  lemma ChannelsAreRegistered(r: Run)
    requires IsRun(r) && r.now.caller.Idle?
    ensures r.now.channels == r.now.sinks.Keys + r.now.stale
    ensures r.now.channels == r.now.sinks.Keys <==> r.now.stale == {}
  {
    RunKeepsChannels(r);
    if r.now.stale != {} {
      var ch :| ch in r.now.stale;
      assert ch in r.now.channels && ch !in r.now.sinks.Keys;
    }
  }

  /** As long as nothing has failed, the connection listens to exactly the channels with a
      registered sink, whatever was unlistened. */
  lemma ServedAreRegistered(r: Run)
    requires IsRun(r) && r.now.caller.Idle? && !r.now.commsClosed && r.now.clean
    ensures r.now.served == r.now.sinks.Keys
  {
    RunKeepsChannels(r);
    RunKeepsTurns(r);
  }

  // ---- who is registered ----

  ghost predicate HasSink(m: Sinks, ch: string, sink: nat) {
    ch in m && sink in m[ch]
  }

  /** The last call about the sink to take effect was one to listen: a LISTEN that came back
      without error, or a call on a channel that others listened to already. */
  ghost predicate Listens(r: Run, ch: string, sink: nat) {
    match r
    case Start(_) => false
    case Then(before, a, _) =>
      if a == Begin(BusUnlisten(ch, sink)) then false
      else if a == Begin(BusListen(ch, sink)) && exists k: nat :: Listens(before, ch, k) then true
      else if a == Return && before.now.caller == Returning(Listen(ch, sink), true) then true
      else Listens(before, ch, sink)
  }

  lemma RegisterAdds(m: Sinks, ch: string, sink: nat, c: string, k: nat)
    ensures HasSink(Register(m, ch, sink), c, k) <==> HasSink(m, c, k) || (c == ch && k == sink)
    ensures HasSink(Unregister(m, ch, sink), c, k) <==> HasSink(m, c, k) && !(c == ch && k == sink)
  {
    assert k in SinksOf(m, ch) - {sink} <==> HasSink(m, ch, k) && k != sink;
  }

  /** What a step does to the registration of one sink. */
  lemma StepRegisters(s: State, a: Action, ch: string, sink: nat)
    requires Enabled(s, a)
    ensures HasSink(Apply(s, a).sinks, ch, sink) <==>
            if a == Begin(BusUnlisten(ch, sink)) then false
            else if a == Begin(BusListen(ch, sink)) && ch in s.sinks then true
            else if a == Return && s.caller == Returning(Listen(ch, sink), true) then true
            else HasSink(s.sinks, ch, sink)
  {
    match a
    case Begin(BusListen(c, k)) => RegisterAdds(s.sinks, c, k, ch, sink);
    case Begin(BusUnlisten(c, k)) => RegisterAdds(s.sinks, c, k, ch, sink);
    case Return => if s.caller.op.Listen? { RegisterAdds(s.sinks, s.caller.op.ch, s.caller.op.sink, ch, sink); }
    case _ =>
  }

  /** A sink is registered exactly if it listens. */
  lemma {:induction false} SinksListen(r: Run, ch: string, sink: nat)
    requires IsRun(r)
    ensures HasSink(r.now.sinks, ch, sink) <==> Listens(r, ch, sink)
  {
    if r.Then? {
      RunKeepsChannels(r.before);
      forall k: nat ensures HasSink(r.before.now.sinks, ch, k) <==> Listens(r.before, ch, k) { SinksListen(r.before, ch, k); }
      SomeSink(r.before, ch);
      StepRegisters(r.before.now, r.a, ch, sink);
    }
  }

  lemma SomeSink(r: Run, ch: string)
    requires NoEmptySets(r.now.sinks) && forall k: nat :: HasSink(r.now.sinks, ch, k) <==> Listens(r, ch, k)
    ensures ch in r.now.sinks <==> exists k: nat :: Listens(r, ch, k)
  {
    if ch in r.now.sinks {
      var k: nat :| k in r.now.sinks[ch];
      assert HasSink(r.now.sinks, ch, k) && Listens(r, ch, k);
    }
    if k: nat :| Listens(r, ch, k) { assert HasSink(r.now.sinks, ch, k); }
  }
}
