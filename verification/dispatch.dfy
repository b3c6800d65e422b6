/** ReadAndDispatchMessage, NotifyError and the draining loop of OnHandleReady. */
module Dispatch {
  import opened Zx
  import opened Protocol
  import opened LauncherState
  import opened Accumulate
  import opened LaunchCommit

  /** A connection: its accumulation state, whether it still owns its channel, the replies it
      wrote, the statuses it reported to the error handler, and whether one is installed. */
  datatype Connection = Connection(
    state: State,
    channelOpen: bool,
    sent: seq<Reply>,
    reported: seq<Status>,
    hasErrorHandler: bool)

  /** NotifyError: Reset, drop the channel, report the error once to the handler if there is one. */
  function NotifyError(c: Connection, error: Status): (r: Connection)
    ensures r.state == Empty && !r.channelOpen
    ensures r.reported == if c.hasErrorHandler then c.reported + [error] else c.reported
    ensures r.sent == c.sent && r.hasErrorHandler == c.hasErrorHandler
  {
    c.(state := Empty,
       channelOpen := false,
       reported := if c.hasErrorHandler then c.reported + [error] else c.reported)
  }

  /** The effect of handling one message: new state, status, and the reply written if any. */
  datatype Dispatched = Dispatched(state: State, status: Status, reply: Option<Reply>)

  predicate DecodeFails(m: Message)
  {
    match m
    case Framed(_, LaunchRequest(d)) => d.DecodeFailed?
    case Framed(_, AddArgsRequest(d)) => d.DecodeFailed?
    case Framed(_, AddEnvironsRequest(d)) => d.DecodeFailed?
    case Framed(_, AddNamesRequest(d)) => d.DecodeFailed?
    case Framed(_, AddHandlesRequest(d)) => d.DecodeFailed?
    case _ => false
  }

  function DecodeStatus(m: Message): ErrorStatus
    requires DecodeFails(m)
  {
    match m
    case Framed(_, LaunchRequest(d)) => d.status
    case Framed(_, AddArgsRequest(d)) => d.status
    case Framed(_, AddEnvironsRequest(d)) => d.status
    case Framed(_, AddNamesRequest(d)) => d.status
    case Framed(_, AddHandlesRequest(d)) => d.status
  }

  function FromHandled(h: Handled): Dispatched
  {
    Dispatched(h.state, h.status, None)
  }

  /** ReadAndDispatchMessage: read one message and route it by ordinal. */
  function ReadAndDispatch(s: State, next: Inbound): (r: Dispatched)
    ensures next.ReadFails? ==> r == Dispatched(s, next.status, None)
    ensures next.Arrives? && next.message.Headerless? ==> r == Dispatched(s, ErrInvalidArgs, None)
    ensures next.Arrives? && next.message.Framed? && next.message.request.UnknownOrdinal? ==>
      r == Dispatched(s, ErrNotSupported, None)
    ensures next.Arrives? && DecodeFails(next.message) ==>
      r == Dispatched(s, DecodeStatus(next.message), None)
    ensures r.reply.Some? ==>
      next.Arrives? && next.message.Framed? && next.message.request.LaunchRequest?
      && r.reply.value.txid == next.message.txid
    ensures r.status == Ok || r.state == s || r.state == Empty
  {
    match next
    case ReadFails(e) => Dispatched(s, e, None)
    case Arrives(Headerless, _) => Dispatched(s, ErrInvalidArgs, None)
    case Arrives(Framed(txid, request), fx) =>
      match request
      case LaunchRequest(d) =>
        var l := Launch(s, txid, d, fx);
        Dispatched(l.state, l.status, l.reply)
      case AddArgsRequest(d) => FromHandled(AddArgs(s, d))
      case AddEnvironsRequest(d) => FromHandled(AddEnvirons(s, d))
      case AddNamesRequest(d) => FromHandled(AddNames(s, d))
      case AddHandlesRequest(d) => FromHandled(AddHandles(s, d))
      case UnknownOrdinal(_) => Dispatched(s, ErrNotSupported, None)
  }

  /** A framed request with a known ordinal reaches its handler, and the handler's outcome
      is the dispatch's. */
  lemma DispatchRoutes(s: State, txid: Uint32, request: Request, fx: Effects)
    ensures var r := ReadAndDispatch(s, Arrives(Framed(txid, request), fx));
      && (request.LaunchRequest? ==>
            var l := Launch(s, txid, request.info, fx);
            r == Dispatched(l.state, l.status, l.reply))
      && (request.AddArgsRequest? ==> r == FromHandled(AddArgs(s, request.args)))
      && (request.AddEnvironsRequest? ==> r == FromHandled(AddEnvirons(s, request.environs)))
      && (request.AddNamesRequest? ==> r == FromHandled(AddNames(s, request.names)))
      && (request.AddHandlesRequest? ==> r == FromHandled(AddHandles(s, request.handles)))
  {
  }

  /** Every handler keeps the state invariant. */
  lemma DispatchKeepsValid(s: State, next: Inbound)
    requires Valid(s)
    ensures Valid(ReadAndDispatch(s, next).state)
  {
    match next
    case ReadFails(_) =>
    case Arrives(Headerless, _) =>
    case Arrives(Framed(txid, request), fx) =>
      match request
      case LaunchRequest(d) => EmptyIsValid();
      case AddArgsRequest(d) => AddArgsKeepsValid(s, d);
      case AddEnvironsRequest(d) => AddArgsKeepsValid(s, d);
      case AddNamesRequest(d) => AddNamesKeepsValid(s, d);
      case AddHandlesRequest(d) => AddHandlesKeepsValid(s, d);
      case UnknownOrdinal(_) =>
  }

  // ------------------------------------------------------------- the draining loop

  /** The next read: the head of what is queued, or ZX_ERR_SHOULD_WAIT once nothing is. */
  function Head(inbox: seq<Inbound>): Inbound
  {
    if inbox == [] then ReadFails(ErrShouldWait) else inbox[0]
  }

  /** What is still queued after one read. */
  function Tail(inbox: seq<Inbound>): seq<Inbound>
  {
    if inbox == [] then [] else inbox[1..]
  }

  /** A message handler of ReadAndDispatchMessage's shape. The loop and the callback are
      written over any such handler; the launcher's own is ReadAndDispatch. */
  type Dispatcher = (State, Inbound) -> Dispatched

  /** Why the loop stopped: it used up signal->count, a read said ZX_ERR_SHOULD_WAIT,
      or a dispatch failed with another status. */
  datatype Stop = Exhausted | WouldBlock | Fatal(status: Status)

  datatype Drained = Drained(conn: Connection, stop: Stop, dispatched: nat)

  function Apply(c: Connection, d: Dispatched): Connection
  {
    c.(state := d.state, sent := match d.reply case Some(rep) => c.sent + [rep] case None => c.sent)
  }

  /** The loop body of OnHandleReady, run for at most `budget` messages. */
  function Drain(dispatch: Dispatcher, c: Connection, inbox: seq<Inbound>, budget: nat): (r: Drained)
    ensures r.dispatched <= budget
    ensures r.stop.Exhausted? ==> r.dispatched == budget
    ensures r.stop.Fatal? ==> r.stop.status != Ok && r.stop.status != ErrShouldWait
    ensures !r.stop.Exhausted? ==> 1 <= r.dispatched
    decreases budget
  {
    if budget == 0 then Drained(c, Exhausted, 0)
    else
      var d := dispatch(c.state, Head(inbox));
      var c' := Apply(c, d);
      if d.status == ErrShouldWait then Drained(c', WouldBlock, 1)
      else if d.status != Ok then Drained(c', Fatal(d.status), 1)
      else
        var rest := Drain(dispatch, c', Tail(inbox), budget - 1);
        Drained(rest.conn, rest.stop, rest.dispatched + 1)
  }

  /** A zx_packet_signal_t: which signals were observed and how many messages were queued. */
  datatype Signal = Signal(readable: bool, peerClosed: bool, count: nat)

  /** After a readiness callback: the connection, whether the wait was registered again,
      and how many reads were dispatched. */
  datatype Ready = Ready(conn: Connection, rearmed: bool, dispatched: nat)

  /** OnHandleReady. `inbox` is what the channel yields to successive reads and `begin`
      the status wait_.Begin returns when the wait is registered again. */
  function HandleReady(dispatch: Dispatcher, c: Connection, waitStatus: Status, signal: Signal,
                       inbox: seq<Inbound>, begin: Status): (r: Ready)
    ensures r.dispatched <= signal.count
    ensures r.dispatched > 0 ==> waitStatus == Ok && signal.readable
    ensures r.rearmed ==> waitStatus == Ok && signal.readable && begin == Ok
    ensures r.rearmed ==> r.conn.reported == c.reported && r.conn.channelOpen == c.channelOpen
    ensures !r.rearmed ==>
      && r.conn.state == Empty
      && !r.conn.channelOpen
      && |r.conn.reported| == |c.reported| + (if c.hasErrorHandler then 1 else 0)
    ensures waitStatus == Ok && !signal.readable ==>
      r == Ready(NotifyError(c, ErrPeerClosed), false, 0)
    ensures r.conn.hasErrorHandler == c.hasErrorHandler
    ensures waitStatus != Ok ==> r == Ready(NotifyError(c, waitStatus), false, 0)
    ensures waitStatus == Ok && signal.readable ==>
      var d := Drain(dispatch, c, inbox, signal.count);
      && r.dispatched == d.dispatched
      && (d.stop.Fatal? ==> r == Ready(NotifyError(d.conn, d.stop.status), false, d.dispatched))
      && (!d.stop.Fatal? && begin != Ok ==> r == Ready(NotifyError(d.conn, begin), false, d.dispatched))
      && (!d.stop.Fatal? && begin == Ok ==> r == Ready(d.conn, true, d.dispatched))
  {
    if waitStatus != Ok then Ready(NotifyError(c, waitStatus), false, 0)
    else if signal.readable then
      DrainKeepsChannel(dispatch, c, inbox, signal.count);
      var d := Drain(dispatch, c, inbox, signal.count);
      if d.stop.Fatal? then Ready(NotifyError(d.conn, d.stop.status), false, d.dispatched)
      else if begin != Ok then Ready(NotifyError(d.conn, begin), false, d.dispatched)
      else Ready(d.conn, true, d.dispatched)
    else
      // Only peer closure is left: the queued messages were drained by earlier callbacks.
      Ready(NotifyError(c, ErrPeerClosed), false, 0)
  }

  lemma {:induction false} DrainKeepsChannel(dispatch: Dispatcher, c: Connection, inbox: seq<Inbound>, budget: nat)
    ensures var r := Drain(dispatch, c, inbox, budget);
      r.conn.channelOpen == c.channelOpen && r.conn.reported == c.reported
      && r.conn.hasErrorHandler == c.hasErrorHandler
    decreases budget
  {
    if budget > 0 {
      var d := dispatch(c.state, Head(inbox));
      DrainKeepsChannel(dispatch, Apply(c, d), Tail(inbox), budget - 1);
    }
  }

  /** The for-loop of OnHandleReady: read and dispatch until the budget is spent,
      a read would block, or a dispatch fails. */
  method DrainLoop(dispatch: Dispatcher, c: Connection, inbox: seq<Inbound>, budget: nat)
    returns (cur: Connection, stop: Stop, i: nat)
    ensures Drained(cur, stop, i) == Drain(dispatch, c, inbox, budget)
  {
    cur := c;
    i := 0;
    var queued := inbox;
    while i < budget
      invariant i <= budget
      invariant var rest := Drain(dispatch, cur, queued, budget - i);
        Drain(dispatch, c, inbox, budget) == Drained(rest.conn, rest.stop, rest.dispatched + i)
    {
      var d := dispatch(cur.state, Head(queued));
      queued := Tail(queued);
      cur := Apply(cur, d);
      i := i + 1;
      if d.status == ErrShouldWait {
        return cur, WouldBlock, i;
      }
      if d.status != Ok {
        return cur, Fatal(d.status), i;
      }
    }
    return cur, Exhausted, i;
  }

  /** The readiness callback. */
  method OnHandleReady(dispatch: Dispatcher, c: Connection, waitStatus: Status, signal: Signal,
                       inbox: seq<Inbound>, begin: Status)
    returns (r: Connection, rearmed: bool, dispatched: nat)
    ensures Ready(r, rearmed, dispatched) == HandleReady(dispatch, c, waitStatus, signal, inbox, begin)
  {
    if waitStatus != Ok {
      return NotifyError(c, waitStatus), false, 0;
    }
    if !signal.readable {
      return NotifyError(c, ErrPeerClosed), false, 0;
    }
    var cur, stop, i := DrainLoop(dispatch, c, inbox, signal.count);
    if stop.Fatal? {
      return NotifyError(cur, stop.status), false, i;
    }
    if begin != Ok {
      return NotifyError(cur, begin), false, i;
    }
    return cur, true, i;
  }

  /** One successful read-and-dispatch, then the rest of the loop with one message less budget. */
  lemma DrainContinues(dispatch: Dispatcher, c: Connection, inbox: seq<Inbound>, budget: nat)
    requires budget > 0
    requires dispatch(c.state, Head(inbox)).status == Ok
    ensures var rest := Drain(dispatch, Apply(c, dispatch(c.state, Head(inbox))), Tail(inbox), budget - 1);
      Drain(dispatch, c, inbox, budget) == Drained(rest.conn, rest.stop, rest.dispatched + 1)
  {
  }

  // ------------------------------------------------------- the loop without its exits

  /** The k-th read of the channel, counting from 0. */
  function ReadAt(inbox: seq<Inbound>, k: nat): Inbound
  {
    if k < |inbox| then inbox[k] else ReadFails(ErrShouldWait)
  }

  /** The connection after n reads, each dispatched against the state the previous one left,
      whatever the statuses were. */
  function Replay(dispatch: Dispatcher, c: Connection, inbox: seq<Inbound>, n: nat): Connection
    decreases n
  {
    if n == 0 then c
    else
      var p := Replay(dispatch, c, inbox, n - 1);
      Apply(p, dispatch(p.state, ReadAt(inbox, n - 1)))
  }

  /** The status the handler returns for the k-th read on that run. */
  function StatusAt(dispatch: Dispatcher, c: Connection, inbox: seq<Inbound>, k: nat): Status
  {
    dispatch(Replay(dispatch, c, inbox, k).state, ReadAt(inbox, k)).status
  }

  /** The run after the first read is the run from the connection that read left. */
  lemma {:induction false} ReplayShift(dispatch: Dispatcher, c: Connection, inbox: seq<Inbound>, n: nat)
    ensures Replay(dispatch, c, inbox, n + 1)
         == Replay(dispatch, Apply(c, dispatch(c.state, Head(inbox))), Tail(inbox), n)
    decreases n
  {
    var c1 := Apply(c, dispatch(c.state, Head(inbox)));
    if n == 0 {
      assert ReadAt(inbox, 0) == Head(inbox);
    } else {
      ReplayShift(dispatch, c, inbox, n - 1);
      var p := Replay(dispatch, c, inbox, n);
      assert p == Replay(dispatch, c1, Tail(inbox), n - 1);
      assert ReadAt(Tail(inbox), n - 1) == ReadAt(inbox, n);
      assert Replay(dispatch, c, inbox, n + 1) == Apply(p, dispatch(p.state, ReadAt(inbox, n)));
    }
  }

  lemma StatusShift(dispatch: Dispatcher, c: Connection, inbox: seq<Inbound>, k: nat)
    ensures StatusAt(dispatch, c, inbox, k + 1)
         == StatusAt(dispatch, Apply(c, dispatch(c.state, Head(inbox))), Tail(inbox), k)
  {
    ReplayShift(dispatch, c, inbox, k);
    assert ReadAt(Tail(inbox), k) == ReadAt(inbox, k + 1);
  }

  /** A read whose dispatch did not return ZX_OK ends the loop after that one message. */
  lemma DrainStops(dispatch: Dispatcher, c: Connection, inbox: seq<Inbound>, budget: nat)
    requires budget > 0
    requires dispatch(c.state, Head(inbox)).status != Ok
    ensures var r := Drain(dispatch, c, inbox, budget);
      r.conn == Apply(c, dispatch(c.state, Head(inbox))) && r.dispatched == 1
  {
  }

  /** The connection the draining loop leaves is the run without exits, cut after the
      messages the loop dispatched. */
  lemma {:induction false} DrainIsReplay(dispatch: Dispatcher, c: Connection, inbox: seq<Inbound>, budget: nat)
    ensures var r := Drain(dispatch, c, inbox, budget);
      r.conn == Replay(dispatch, c, inbox, r.dispatched)
    decreases budget
  {
    if budget > 0 {
      var d := dispatch(c.state, Head(inbox));
      var c1 := Apply(c, d);
      if d.status == Ok {
        DrainContinues(dispatch, c, inbox, budget);
        var rest := Drain(dispatch, c1, Tail(inbox), budget - 1);
        DrainIsReplay(dispatch, c1, Tail(inbox), budget - 1);
        ReplayShift(dispatch, c, inbox, rest.dispatched);
      } else {
        DrainStops(dispatch, c, inbox, budget);
        assert Replay(dispatch, c, inbox, 1) == c1 by {
          assert ReadAt(inbox, 0) == Head(inbox);
        }
      }
    }
  }

  /** A first dispatch that returned ZX_OK, followed by n more from the connection it left. */
  lemma AllOkShift(dispatch: Dispatcher, c: Connection, inbox: seq<Inbound>, n: nat)
    requires StatusAt(dispatch, c, inbox, 0) == Ok
    requires forall k :: 0 <= k < n ==>
      StatusAt(dispatch, Apply(c, dispatch(c.state, Head(inbox))), Tail(inbox), k) == Ok
    ensures forall k :: 0 <= k < n + 1 ==> StatusAt(dispatch, c, inbox, k) == Ok
  {
    forall k | 1 <= k < n + 1
      ensures StatusAt(dispatch, c, inbox, k) == Ok
    {
      StatusShift(dispatch, c, inbox, k - 1);
    }
  }

  /** Every dispatch before the one that stopped the loop returned ZX_OK (all of them, when
      the budget ran out). */
  lemma {:induction false} DrainPrefixOk(dispatch: Dispatcher, c: Connection, inbox: seq<Inbound>, budget: nat)
    ensures var r := Drain(dispatch, c, inbox, budget);
      forall k :: 0 <= k < r.dispatched - (if r.stop.Exhausted? then 0 else 1) ==>
        StatusAt(dispatch, c, inbox, k) == Ok
    decreases budget
  {
    if budget > 0 {
      var d := dispatch(c.state, Head(inbox));
      assert ReadAt(inbox, 0) == Head(inbox);
      assert StatusAt(dispatch, c, inbox, 0) == d.status;
      if d.status == Ok {
        DrainContinues(dispatch, c, inbox, budget);
        var rest := Drain(dispatch, Apply(c, d), Tail(inbox), budget - 1);
        DrainPrefixOk(dispatch, Apply(c, d), Tail(inbox), budget - 1);
        AllOkShift(dispatch, c, inbox, rest.dispatched - (if rest.stop.Exhausted? then 0 else 1));
      }
    }
  }

  /** The dispatch that stopped the loop early did not return ZX_OK, and its status alone
      decides whether the loop stopped on a blocking read or on an error. */
  lemma {:induction false} DrainLastStatus(dispatch: Dispatcher, c: Connection, inbox: seq<Inbound>, budget: nat)
    ensures var r := Drain(dispatch, c, inbox, budget);
      !r.stop.Exhausted? ==>
        var last := StatusAt(dispatch, c, inbox, r.dispatched - 1);
        last != Ok && r.stop == (if last == ErrShouldWait then WouldBlock else Fatal(last))
    decreases budget
  {
    if budget > 0 {
      var d := dispatch(c.state, Head(inbox));
      assert ReadAt(inbox, 0) == Head(inbox);
      assert StatusAt(dispatch, c, inbox, 0) == d.status;
      if d.status == Ok {
        DrainContinues(dispatch, c, inbox, budget);
        var rest := Drain(dispatch, Apply(c, d), Tail(inbox), budget - 1);
        DrainLastStatus(dispatch, Apply(c, d), Tail(inbox), budget - 1);
        if !rest.stop.Exhausted? {
          StatusShift(dispatch, c, inbox, rest.dispatched - 1);
        }
      }
    }
  }

  /** The draining loop stops at the first dispatch that does not return ZX_OK: every
      earlier dispatch returned ZX_OK, and that last status alone decides whether the loop
      stopped on a blocking read or on an error; with no such dispatch the whole budget is
      spent. */
  lemma DrainStopsAtFirstFailure(dispatch: Dispatcher, c: Connection, inbox: seq<Inbound>, budget: nat)
    ensures var r := Drain(dispatch, c, inbox, budget);
      && (r.stop.Exhausted? ==>
            r.dispatched == budget && forall k :: 0 <= k < budget ==> StatusAt(dispatch, c, inbox, k) == Ok)
      && (!r.stop.Exhausted? ==>
            && 1 <= r.dispatched <= budget
            && (forall k :: 0 <= k < r.dispatched - 1 ==> StatusAt(dispatch, c, inbox, k) == Ok)
            && var last := StatusAt(dispatch, c, inbox, r.dispatched - 1);
               last != Ok && r.stop == (if last == ErrShouldWait then WouldBlock else Fatal(last)))
  {
    DrainPrefixOk(dispatch, c, inbox, budget);
    DrainLastStatus(dispatch, c, inbox, budget);
  }

  /** What one readiness callback on a readable channel amounts to: the messages are
      dispatched in order until the first failure; the wait is registered again exactly when
      no dispatch failed with a status other than ZX_ERR_SHOULD_WAIT and Begin succeeded;
      otherwise the connection is torn down and the handler gets the first failure. */
  lemma CallbackOutcome(dispatch: Dispatcher, c: Connection, signal: Signal, inbox: seq<Inbound>, begin: Status)
    requires signal.readable
    ensures var r := HandleReady(dispatch, c, Ok, signal, inbox, begin);
      && r.dispatched <= signal.count
      && r.conn.sent == Replay(dispatch, c, inbox, r.dispatched).sent
      && (forall k :: 0 <= k < r.dispatched - 1 ==> StatusAt(dispatch, c, inbox, k) == Ok)
      && var failed := 0 < r.dispatched && StatusAt(dispatch, c, inbox, r.dispatched - 1) != Ok
                       && StatusAt(dispatch, c, inbox, r.dispatched - 1) != ErrShouldWait;
         && (r.rearmed <==> !failed && begin == Ok)
         && (!r.rearmed ==>
               && r.conn.state == Empty && !r.conn.channelOpen
               && r.conn.reported == c.reported
                    + (if !c.hasErrorHandler then []
                       else if failed then [StatusAt(dispatch, c, inbox, r.dispatched - 1)]
                       else [begin]))
  {
    DrainIsReplay(dispatch, c, inbox, signal.count);
    DrainStopsAtFirstFailure(dispatch, c, inbox, signal.count);
    DrainKeepsChannel(dispatch, c, inbox, signal.count);
  }

  // ------------------------------------------------- the launcher's own handler

  /** A handler that never breaks the state invariant. */
  ghost predicate KeepsValid(dispatch: Dispatcher)
  {
    forall s, m :: Valid(s) ==> Valid(dispatch(s, m).state)
  }

  lemma {:induction false} DrainKeepsValid(dispatch: Dispatcher, c: Connection, inbox: seq<Inbound>, budget: nat)
    requires KeepsValid(dispatch)
    requires Valid(c.state)
    ensures Valid(Drain(dispatch, c, inbox, budget).conn.state)
    decreases budget
  {
    if budget > 0 {
      var d := dispatch(c.state, Head(inbox));
      if d.status == Ok {
        DrainContinues(dispatch, c, inbox, budget);
        DrainKeepsValid(dispatch, Apply(c, d), Tail(inbox), budget - 1);
      }
    }
  }

  /** A readiness callback never breaks the state invariant. */
  lemma HandleReadyKeepsValid(c: Connection, waitStatus: Status, signal: Signal, inbox: seq<Inbound>, begin: Status)
    requires Valid(c.state)
    ensures Valid(HandleReady(ReadAndDispatch, c, waitStatus, signal, inbox, begin).conn.state)
  {
    EmptyIsValid();
    forall s, m | Valid(s)
      ensures Valid(ReadAndDispatch(s, m).state)
    {
      DispatchKeepsValid(s, m);
    }
    if waitStatus == Ok && signal.readable {
      DrainKeepsValid(ReadAndDispatch, c, inbox, signal.count);
    }
  }

  /** Applying a dispatch never takes back a reply. */
  lemma ApplyKeepsSent(c: Connection, d: Dispatched)
    ensures c.sent <= Apply(c, d).sent
  {
  }

  /** Replies already written stay written, in order. */
  lemma {:induction false} DrainKeepsSent(dispatch: Dispatcher, c: Connection, inbox: seq<Inbound>, budget: nat)
    ensures c.sent <= Drain(dispatch, c, inbox, budget).conn.sent
    decreases budget
  {
    if budget > 0 {
      var d := dispatch(c.state, Head(inbox));
      var c1 := Apply(c, d);
      ApplyKeepsSent(c, d);
      if d.status == Ok {
        DrainContinues(dispatch, c, inbox, budget);
        DrainKeepsSent(dispatch, c1, Tail(inbox), budget - 1);
      }
    }
  }

  /** A reply written by the first dispatch survives the rest of the loop, at the position
      it was written. */
  lemma DrainKeepsFirstReply(dispatch: Dispatcher, c: Connection, inbox: seq<Inbound>, budget: nat, rep: Reply)
    requires budget >= 1
    requires dispatch(c.state, Head(inbox)).status == Ok
    requires dispatch(c.state, Head(inbox)).reply == Some(rep)
    ensures var r := Drain(dispatch, c, inbox, budget);
      |r.conn.sent| > |c.sent| && r.conn.sent[|c.sent|] == rep
  {
    var c1 := Apply(c, dispatch(c.state, Head(inbox)));
    assert c1.sent == c.sent + [rep];
    DrainContinues(dispatch, c, inbox, budget);
    DrainKeepsSent(dispatch, c1, Tail(inbox), budget - 1);
  }

  /** A decodable Launch at the head of the queue, whose reply can be written, is answered
      by the draining loop. */
  lemma DrainAnswersLaunch(c: Connection, inbox: seq<Inbound>, budget: nat, txid: Uint32, info: LaunchInfo, fx: Effects)
    requires budget >= 1
    requires inbox != [] && inbox[0] == Arrives(Framed(txid, LaunchRequest(Decoded(info))), fx)
    requires fx.encode == Ok && fx.write == Ok
    ensures var r := Drain(ReadAndDispatch, c, inbox, budget);
      |r.conn.sent| > |c.sent| && r.conn.sent[|c.sent|] == Reply(txid, ResultFor(SetupFor(c.state, info), fx))
  {
    var rep := Reply(txid, ResultFor(SetupFor(c.state, info), fx));
    var l := Launch(c.state, txid, Decoded(info), fx);
    assert l.reply == Some(rep) && l.status == Ok;
    assert ReadAndDispatch(c.state, Head(inbox)) == Dispatched(l.state, l.status, l.reply);
    DrainKeepsFirstReply(ReadAndDispatch, c, inbox, budget, rep);
  }

  /** A decodable Launch at the head of a readable channel is answered in the same callback
      when its reply can be written: the callback dispatches queued messages before it looks
      at peer closure. */
  lemma PendingLaunchAnswered(
    c: Connection, signal: Signal, inbox: seq<Inbound>, begin: Status,
    txid: Uint32, info: LaunchInfo, fx: Effects)
    requires signal.readable && signal.count >= 1
    requires inbox != [] && inbox[0] == Arrives(Framed(txid, LaunchRequest(Decoded(info))), fx)
    requires fx.encode == Ok && fx.write == Ok
    ensures var r := HandleReady(ReadAndDispatch, c, Ok, signal, inbox, begin);
      |r.conn.sent| > |c.sent|
      && r.conn.sent[|c.sent|] == Reply(txid, ResultFor(SetupFor(c.state, info), fx))
  {
    DrainAnswersLaunch(c, inbox, signal.count, txid, info, fx);
    var d := Drain(ReadAndDispatch, c, inbox, signal.count);
    assert HandleReady(ReadAndDispatch, c, Ok, signal, inbox, begin).conn.sent == d.conn.sent;
  }

  /** A Launch request that does not decode tears the connection down at once: nothing is
      written for it, no later message is dispatched, and the wait is not registered again. */
  lemma MalformedLaunchTearsDown(
    c: Connection, signal: Signal, inbox: seq<Inbound>, begin: Status,
    txid: Uint32, e: ErrorStatus, fx: Effects)
    requires signal.readable && signal.count >= 1
    requires inbox != [] && inbox[0] == Arrives(Framed(txid, LaunchRequest(DecodeFailed(e))), fx)
    requires e != ErrShouldWait
    ensures var r := HandleReady(ReadAndDispatch, c, Ok, signal, inbox, begin);
      && !r.rearmed
      && r.dispatched == 1
      && r.conn.sent == c.sent
      && r.conn.state == Empty
      && r.conn.reported == (if c.hasErrorHandler then c.reported + [e] else c.reported)
  {
    assert ReadAndDispatch(c.state, Head(inbox)) == Dispatched(c.state, e, None);
  }

  /** A client that sends Launch and closes its end before the reply is written: the Launch is
      still dispatched and its setup consumed, but the write fails with ZX_ERR_PEER_CLOSED, so
      nothing is sent, that status is reported, and the wait is not registered again. */
  lemma PeerClosedLaunchTearsDown(
    c: Connection, signal: Signal, inbox: seq<Inbound>, begin: Status,
    txid: Uint32, info: LaunchInfo, fx: Effects)
    requires signal.readable && signal.peerClosed && signal.count >= 1
    requires inbox != [] && inbox[0] == Arrives(Framed(txid, LaunchRequest(Decoded(info))), fx)
    requires fx.encode == Ok && fx.write == ErrPeerClosed
    ensures var r := HandleReady(ReadAndDispatch, c, Ok, signal, inbox, begin);
      && !r.rearmed
      && r.dispatched == 1
      && r.conn.sent == c.sent
      && r.conn.state == Empty
      && r.conn.reported == (if c.hasErrorHandler then c.reported + [ErrPeerClosed] else c.reported)
  {
    var l := Launch(c.state, txid, Decoded(info), fx);
    assert l.state == Empty && l.status == ErrPeerClosed && l.reply.None?;
    assert ReadAndDispatch(c.state, Head(inbox)) == Dispatched(Empty, ErrPeerClosed, None);
  }
}
