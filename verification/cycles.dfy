/** Properties of whole accumulate-then-launch cycles on one connection. */
module Cycles {
  import opened Zx
  import opened Protocol
  import opened LauncherState
  import opened Accumulate
  import opened LaunchCommit
  import opened Dispatch

  /** A queued message that decodes and only adds to the state. */
  predicate IsAccumulation(m: Inbound)
  {
    && m.Arrives?
    && m.message.Framed?
    && match m.message.request
       case AddArgsRequest(d) => d.Decoded?
       case AddEnvironsRequest(d) => d.Decoded?
       case AddNamesRequest(d) => d.Decoded?
       case AddHandlesRequest(d) => d.Decoded?
       case _ => false
  }

  predicate AllAccumulations(inbox: seq<Inbound>)
  {
    forall k :: 0 <= k < |inbox| ==> IsAccumulation(inbox[k])
  }

  /** What one message adds to each sequence of the state (empty for other kinds). */
  function ArgsIn(m: Inbound): seq<string>
  {
    match m
    case Arrives(Framed(_, AddArgsRequest(Decoded(strs))), _) => strs
    case _ => []
  }

  function EnvironsIn(m: Inbound): seq<string>
  {
    match m
    case Arrives(Framed(_, AddEnvironsRequest(Decoded(strs))), _) => strs
    case _ => []
  }

  function PathsIn(m: Inbound): seq<string>
  {
    match m
    case Arrives(Framed(_, AddNamesRequest(Decoded(names))), _) => Paths(names)
    case _ => []
  }

  function HandleEntriesIn(m: Inbound): seq<HandleInfo>
  {
    match m
    case Arrives(Framed(_, AddHandlesRequest(Decoded(entries))), _) => entries
    case _ => []
  }

  /** The AddArgs payloads of a message sequence, concatenated in arrival order. */
  function ArgsOf(inbox: seq<Inbound>): seq<string>
  {
    if inbox == [] then [] else ArgsIn(inbox[0]) + ArgsOf(inbox[1..])
  }

  /** The AddEnvirons payloads, concatenated in arrival order. */
  function EnvironsOf(inbox: seq<Inbound>): seq<string>
  {
    if inbox == [] then [] else EnvironsIn(inbox[0]) + EnvironsOf(inbox[1..])
  }

  /** The AddNames paths, concatenated in arrival order. */
  function PathsOf(inbox: seq<Inbound>): seq<string>
  {
    if inbox == [] then [] else PathsIn(inbox[0]) + PathsOf(inbox[1..])
  }

  /** The AddHandles entries, concatenated in arrival order. */
  function HandleEntriesOf(inbox: seq<Inbound>): seq<HandleInfo>
  {
    if inbox == [] then [] else HandleEntriesIn(inbox[0]) + HandleEntriesOf(inbox[1..])
  }

  /** The loader slot after two payloads is the slot after the second, starting from the first's. */
  lemma {:induction false} LastLoaderAppend(a: seq<HandleInfo>, b: seq<HandleInfo>, prior: Option<Handle>)
    ensures LastLoader(a + b, prior) == LastLoader(b, LastLoader(a, prior))
    decreases |b|
  {
    if b == [] {
      assert a + b == a;
    } else {
      var n := |b|;
      assert (a + b)[..|a + b| - 1] == a + b[..n - 1];
      LastLoaderAppend(a, b[..n - 1], prior);
    }
  }

  /** One accumulation message, dispatched. */
  lemma DispatchAccumulation(s: State, m: Inbound)
    requires IsAccumulation(m)
    ensures var d := ReadAndDispatch(s, m);
      && d.status == Ok && d.reply.None?
      && d.state.args == s.args + ArgsIn(m)
      && d.state.environs == s.environs + EnvironsIn(m)
      && d.state.nametable == s.nametable + PathsIn(m)
      && d.state.ldsvc == LastLoader(HandleEntriesIn(m), s.ldsvc)
  {
  }

  /** Growth by the first message and then by the rest is growth by the whole queue. */
  lemma AccumulatedChain(s: State, s1: State, s2: State, inbox: seq<Inbound>)
    requires inbox != []
    requires s1.args == s.args + ArgsIn(inbox[0]) && s2.args == s1.args + ArgsOf(inbox[1..])
    requires s1.environs == s.environs + EnvironsIn(inbox[0]) && s2.environs == s1.environs + EnvironsOf(inbox[1..])
    requires s1.nametable == s.nametable + PathsIn(inbox[0]) && s2.nametable == s1.nametable + PathsOf(inbox[1..])
    requires s1.ldsvc == LastLoader(HandleEntriesIn(inbox[0]), s.ldsvc)
    requires s2.ldsvc == LastLoader(HandleEntriesOf(inbox[1..]), s1.ldsvc)
    ensures s2.args == s.args + ArgsOf(inbox)
    ensures s2.environs == s.environs + EnvironsOf(inbox)
    ensures s2.nametable == s.nametable + PathsOf(inbox)
    ensures s2.ldsvc == LastLoader(HandleEntriesOf(inbox), s.ldsvc)
  {
    var m, rest := inbox[0], inbox[1..];
    assert ArgsOf(inbox) == ArgsIn(m) + ArgsOf(rest);
    AppendAssoc(s.args, ArgsIn(m), ArgsOf(rest));
    assert EnvironsOf(inbox) == EnvironsIn(m) + EnvironsOf(rest);
    AppendAssoc(s.environs, EnvironsIn(m), EnvironsOf(rest));
    assert PathsOf(inbox) == PathsIn(m) + PathsOf(rest);
    AppendAssoc(s.nametable, PathsIn(m), PathsOf(rest));
    assert HandleEntriesOf(inbox) == HandleEntriesIn(m) + HandleEntriesOf(rest);
    LastLoaderAppend(HandleEntriesIn(m), HandleEntriesOf(rest), s.ldsvc);
  }

  /** Draining a queue of accumulation messages, with budget to spare, dispatches each of
      them and stops at the empty channel; every sequence of the state has grown by the
      payloads in arrival order, and the loader slot holds the last loader entry sent. */
  lemma {:induction false} DrainAccumulates(c: Connection, inbox: seq<Inbound>, budget: nat)
    requires AllAccumulations(inbox)
    requires budget > |inbox|
    ensures var r := Drain(ReadAndDispatch, c, inbox, budget);
      && r.stop == WouldBlock
      && r.dispatched == |inbox| + 1
      && r.conn.sent == c.sent
      && r.conn.state.args == c.state.args + ArgsOf(inbox)
      && r.conn.state.environs == c.state.environs + EnvironsOf(inbox)
      && r.conn.state.nametable == c.state.nametable + PathsOf(inbox)
      && r.conn.state.ldsvc == LastLoader(HandleEntriesOf(inbox), c.state.ldsvc)
    decreases |inbox|
  {
    if inbox == [] {
      assert ReadAndDispatch(c.state, Head(inbox)) == Dispatched(c.state, ErrShouldWait, None);
    } else {
      var m := inbox[0];
      assert Head(inbox) == m && Tail(inbox) == inbox[1..];
      var d := ReadAndDispatch(c.state, m);
      DispatchAccumulation(c.state, m);
      var c1 := Apply(c, d);
      DrainContinues(ReadAndDispatch, c, inbox, budget);
      var rest := Drain(ReadAndDispatch, c1, inbox[1..], budget - 1);
      assert Drain(ReadAndDispatch, c, inbox, budget) == Drained(rest.conn, rest.stop, rest.dispatched + 1);
      assert AllAccumulations(inbox[1..]) by {
        forall k | 0 <= k < |inbox[1..]| ensures IsAccumulation(inbox[1..][k]) {
          assert inbox[1..][k] == inbox[k + 1];
        }
      }
      DrainAccumulates(c1, inbox[1..], budget - 1);
      AccumulatedChain(c.state, c1.state, rest.conn.state, inbox);
    }
  }

  /** A launch that follows a cycle begun from the empty state hands the builder exactly the
      concatenated arguments, environment and namespace paths of the cycle, in call order,
      and leaves the connection empty again for the next cycle. */
  lemma LaunchSeesWholeCycle(
    c: Connection, inbox: seq<Inbound>, budget: nat, txid: Uint32, info: LaunchInfo, fx: Effects)
    requires c.state == Empty
    requires AllAccumulations(inbox) && budget > |inbox|
    ensures var s := Drain(ReadAndDispatch, c, inbox, budget).conn.state;
      var l := Launch(s, txid, Decoded(info), fx);
      && l.setup.Some?
      && l.setup.value.argv == CStrs(ArgsOf(inbox))
      && l.setup.value.environ == CStrs(EnvironsOf(inbox)) + [None]
      && l.setup.value.nametable == CStrs(PathsOf(inbox))
      && l.state == Empty
  {
    DrainAccumulates(c, inbox, budget);
    var s := Drain(ReadAndDispatch, c, inbox, budget).conn.state;
    assert s.args == ArgsOf(inbox) by {
      assert s.args == [] + ArgsOf(inbox);
    }
    assert s.environs == EnvironsOf(inbox) by {
      assert s.environs == [] + EnvironsOf(inbox);
    }
    assert s.nametable == PathsOf(inbox) by {
      assert s.nametable == [] + PathsOf(inbox);
    }
    var setup := SetupFor(s, info);
    assert Launch(s, txid, Decoded(info), fx).setup == Some(setup);
  }

  /** A cycle that never sends the loader id fails its launch with ZX_ERR_INVALID_ARGS and
      a diagnostic, and starts nothing. */
  lemma LaunchWithoutLoaderFails(
    c: Connection, inbox: seq<Inbound>, budget: nat, txid: Uint32, info: LaunchInfo, fx: Effects)
    requires c.state == Empty
    requires AllAccumulations(inbox) && budget > |inbox|
    requires forall e :: e in HandleEntriesOf(inbox) ==> e.id != LoaderId
    requires fx.encode == Ok && fx.write == Ok
    ensures var s := Drain(ReadAndDispatch, c, inbox, budget).conn.state;
      var l := Launch(s, txid, Decoded(info), fx);
      l.reply == Some(Reply(txid,
        match fx.create
        case Some(f) => LaunchResult(f.status, None, None, Some(f.message))
        case None => LaunchResult(ErrInvalidArgs, None, None, Some(NeedLoaderMessage))))
  {
    DrainAccumulates(c, inbox, budget);
    NoLoaderKeepsPrior(HandleEntriesOf(inbox), None);
  }

  /** A minimal session: one AddArgs, one AddEnvirons, one loader handle, then a Launch. */
  function Session(args: seq<string>, environs: seq<string>, loader: Handle, info: LaunchInfo,
                   quiet: Effects, launch: Effects): seq<Inbound>
  {
    [ Arrives(Framed(1, AddArgsRequest(Decoded(args))), quiet),
      Arrives(Framed(2, AddEnvironsRequest(Decoded(environs))), quiet),
      Arrives(Framed(3, AddHandlesRequest(Decoded([HandleInfo(loader, LoaderId)]))), quiet),
      Arrives(Framed(4, LaunchRequest(Decoded(info))), launch) ]
  }

  lemma SessionAccumulates(m3: Inbound, loader: Handle, s: State)
    requires m3.Arrives? && m3.message == Framed(3, AddHandlesRequest(Decoded([HandleInfo(loader, LoaderId)])))
    ensures ReadAndDispatch(s, m3) == Dispatched(s.(ldsvc := Some(loader)), Ok, None)
  {
    assert LastLoader([HandleInfo(loader, LoaderId)], s.ldsvc) == Some(loader);
    assert Unreserved([HandleInfo(loader, LoaderId)]) == [];
    assert s.ids + IdsOf([]) == s.ids;
    assert s.handles + HandlesOf([]) == s.handles;
  }

  /** A session that supplies a loader and whose builder succeeds, such as
      AddArgs(["/bin/sh", "-c", "echo hi"]), AddEnvirons(["HOME=/"]), the loader handle and
      Launch(job, "sh", image), writes one reply: ZX_OK with the process and the root VMAR
      handle and no diagnostic; the connection is empty afterwards. */
  lemma SuccessfulSession(
    c: Connection, args: seq<string>, environs: seq<string>, loader: Handle, info: LaunchInfo,
    quiet: Effects, process: Handle, vmar: Handle)
    requires c.state == Empty
    ensures
      var launch := Effects(None, None, Duplicated(vmar), Started(process), Ok, Ok);
      var r := Drain(ReadAndDispatch, c, Session(args, environs, loader, info, quiet, launch), 4);
      && r.stop == Exhausted
      && r.conn.sent == c.sent + [Reply(4, LaunchResult(Ok, Some(process), Some(vmar), None))]
      && r.conn.state == Empty
  {
    var launch := Effects(None, None, Duplicated(vmar), Started(process), Ok, Ok);
    var inbox := Session(args, environs, loader, info, quiet, launch);
    var m1, m2, m3, m4 := inbox[0], inbox[1], inbox[2], inbox[3];
    assert inbox == [m1, m2, m3, m4];
    var reply := Reply(4, LaunchResult(Ok, Some(process), Some(vmar), None));
    var s1 := Empty.(args := args);
    var s2 := s1.(environs := environs);
    var s3 := s2.(ldsvc := Some(loader));
    assert ReadAndDispatch(Empty, m1) == Dispatched(s1, Ok, None);
    assert ReadAndDispatch(s1, m2) == Dispatched(s2, Ok, None);
    SessionAccumulates(m3, loader, s2);
    assert ReadAndDispatch(s3, m4) == Dispatched(Empty, Ok, Some(reply)) by {
      assert ResultFor(SetupFor(s3, info), launch) == reply.result;
    }
    var c1 := c.(state := s1);
    var c2 := c.(state := s2);
    var c3 := c.(state := s3);
    var c4 := c.(state := Empty, sent := c.sent + [reply]);
    assert Tail([m1, m2, m3, m4]) == [m2, m3, m4];
    assert Tail([m2, m3, m4]) == [m3, m4];
    assert Tail([m3, m4]) == [m4];
    assert Drain(ReadAndDispatch, c4, [], 0) == Drained(c4, Exhausted, 0);
    DrainContinues(ReadAndDispatch, c3, [m4], 1);
    DrainContinues(ReadAndDispatch, c2, [m3, m4], 2);
    DrainContinues(ReadAndDispatch, c1, [m2, m3, m4], 3);
    DrainContinues(ReadAndDispatch, c, [m1, m2, m3, m4], 4);
  }
}
