/** The four accumulation handlers: AddArgs, AddEnvirons, AddNames and AddHandles.
    Each decodes its payload; on failure it returns the decoder's status and changes nothing,
    otherwise it appends to the state entry by entry, in payload order, and returns ZX_OK. */
module Accumulate {
  import opened Zx
  import opened Protocol
  import opened LauncherState

  /** The state after a handler and the status it returns to the dispatcher. */
  datatype Handled = Handled(state: State, status: Status)

  /** PushStrings: appends each decoded string to the target, one at a time. */
  function PushStrings(target: seq<string>, input: seq<string>): (r: seq<string>)
    ensures r == target + input
    decreases |input|
  {
    if input == [] then target
    else
      assert target + input == (target + [input[0]]) + input[1..];
      PushStrings(target + [input[0]], input[1..])
  }

  function AddArgs(s: State, request: Decoding<seq<string>>): (r: Handled)
    ensures request.DecodeFailed? ==> r == Handled(s, request.status)
    ensures request.Decoded? ==> r.status == Ok && r.state == s.(args := s.args + request.payload)
  {
    match request
    case DecodeFailed(e) => Handled(s, e)
    case Decoded(strs) => Handled(s.(args := PushStrings(s.args, strs)), Ok)
  }

  function AddEnvirons(s: State, request: Decoding<seq<string>>): (r: Handled)
    ensures request.DecodeFailed? ==> r == Handled(s, request.status)
    ensures request.Decoded? ==> r.status == Ok && r.state == s.(environs := s.environs + request.payload)
  {
    match request
    case DecodeFailed(e) => Handled(s, e)
    case Decoded(strs) => Handled(s.(environs := PushStrings(s.environs, strs)), Ok)
  }

  // ---------------------------------------------------------------- AddNames

  function Paths(names: seq<NameInfo>): seq<string>
  {
    seq(|names|, k requires 0 <= k < |names| => names[k].path)
  }

  function Directories(names: seq<NameInfo>): seq<Handle>
  {
    seq(|names|, k requires 0 <= k < |names| => names[k].directory)
  }

  /** PA_HND(PA_NS_DIR, first), ..., PA_HND(PA_NS_DIR, first + n - 1). */
  function NsDirIds(first: nat, n: nat): seq<HandleId>
  {
    seq(n, k requires 0 <= k < n => NsDir(first + k))
  }

  /** Reference for AddNames: entry k of the payload gets slot |nametable_| + k, its directory
      handle lands at the matching position of handles_, and its path at the end of nametable_. */
  function NamesAppended(s: State, names: seq<NameInfo>): State
  {
    s.(ids := s.ids + NsDirIds(|s.nametable|, |names|),
       handles := s.handles + Directories(names),
       nametable := s.nametable + Paths(names))
  }

  /** One iteration of the AddNames loop. */
  function PushName(s: State, name: NameInfo): State
  {
    s.(ids := s.ids + [NsDir(|s.nametable|)],
       handles := s.handles + [name.directory],
       nametable := s.nametable + [name.path])
  }

  lemma NamesAppendedStep(s: State, names: seq<NameInfo>)
    requires names != []
    ensures NamesAppended(s, names) == NamesAppended(PushName(s, names[0]), names[1..])
  {
    var s' := PushName(s, names[0]);
    var n := |names|;
    var a := NamesAppended(s, names);
    var b := NamesAppended(s', names[1..]);
    assert NsDirIds(|s.nametable|, n) == [NsDir(|s.nametable|)] + NsDirIds(|s'.nametable|, n - 1);
    assert Directories(names) == [names[0].directory] + Directories(names[1..]);
    assert Paths(names) == [names[0].path] + Paths(names[1..]);
    assert a.ids == b.ids;
    assert a.handles == b.handles;
    assert a.nametable == b.nametable;
  }

  /** The AddNames loop, entry by entry. */
  function PushNames(s: State, names: seq<NameInfo>): (r: State)
    ensures r == NamesAppended(s, names)
    decreases |names|
  {
    if names == [] then
      assert NamesAppended(s, names) == s;
      s
    else
      NamesAppendedStep(s, names);
      PushNames(PushName(s, names[0]), names[1..])
  }

  function AddNames(s: State, request: Decoding<seq<NameInfo>>): (r: Handled)
    ensures request.DecodeFailed? ==> r == Handled(s, request.status)
    ensures request.Decoded? ==> r.status == Ok
    ensures request.Decoded? ==>
      var names := request.payload;
      && r.state.args == s.args && r.state.environs == s.environs && r.state.ldsvc == s.ldsvc
      && r.state.nametable == s.nametable + Paths(names)
      && r.state.handles == s.handles + Directories(names)
      && r.state.ids == s.ids + NsDirIds(|s.nametable|, |names|)
  {
    match request
    case DecodeFailed(e) => Handled(s, e)
    case Decoded(names) => Handled(PushNames(s, names), Ok)
  }

  lemma {:induction false} NsSlotsOfNsDirIds(first: nat, n: nat)
    ensures NsSlots(NsDirIds(first, n)) == Range(first, n)
    decreases n
  {
    if n > 0 {
      assert NsDirIds(first, n) == [NsDir(first)] + NsDirIds(first + 1, n - 1);
      NsSlotsAppend([NsDir(first)], NsDirIds(first + 1, n - 1));
      NsSlotsOfNsDirIds(first + 1, n - 1);
      assert Range(first, n) == [first] + Range(first + 1, n - 1);
    }
  }

  /** Namespace slots stay consecutive across AddNames calls: the new entries take the slots
      right after the existing ones, so Valid is kept. */
  lemma AddNamesKeepsValid(s: State, request: Decoding<seq<NameInfo>>)
    requires Valid(s)
    ensures Valid(AddNames(s, request).state)
  {
    if request.Decoded? {
      var names := request.payload;
      var r := AddNames(s, request).state;
      NsSlotsAppend(s.ids, NsDirIds(|s.nametable|, |names|));
      NsSlotsOfNsDirIds(|s.nametable|, |names|);
      RangeSplit(0, |s.nametable|, |names|);
      assert Numbered(LoaderId) !in NsDirIds(|s.nametable|, |names|);
    }
  }

  // -------------------------------------------------------------- AddHandles

  /** The payload entries that go to the generic table, in payload order. */
  function Unreserved(entries: seq<HandleInfo>): seq<HandleInfo>
  {
    if entries == [] then []
    else (if entries[0].id == LoaderId then [] else [entries[0]]) + Unreserved(entries[1..])
  }

  function IdsOf(entries: seq<HandleInfo>): seq<HandleId>
  {
    seq(|entries|, k requires 0 <= k < |entries| => Numbered(entries[k].id))
  }

  function HandlesOf(entries: seq<HandleInfo>): seq<Handle>
  {
    seq(|entries|, k requires 0 <= k < |entries| => entries[k].handle)
  }

  /** The loader handle after the payload: the handle of the LAST loader entry, or the prior
      one if the payload has none. Defined from the back of the payload. */
  function LastLoader(entries: seq<HandleInfo>, prior: Option<Handle>): Option<Handle>
  {
    if entries == [] then prior
    else if entries[|entries| - 1].id == LoaderId then Some(entries[|entries| - 1].handle)
    else LastLoader(entries[..|entries| - 1], prior)
  }

  /** Reference for AddHandles. */
  function HandlesRouted(s: State, entries: seq<HandleInfo>): State
  {
    s.(ids := s.ids + IdsOf(Unreserved(entries)),
       handles := s.handles + HandlesOf(Unreserved(entries)),
       ldsvc := LastLoader(entries, s.ldsvc))
  }

  /** One iteration of the AddHandles loop. */
  function PushHandle(s: State, entry: HandleInfo): State
  {
    if entry.id == LoaderId then s.(ldsvc := Some(entry.handle))
    else s.(ids := s.ids + [Numbered(entry.id)], handles := s.handles + [entry.handle])
  }

  lemma {:induction false} LastLoaderFront(entries: seq<HandleInfo>, prior: Option<Handle>)
    requires entries != []
    ensures LastLoader(entries, prior) ==
      LastLoader(entries[1..], if entries[0].id == LoaderId then Some(entries[0].handle) else prior)
    decreases |entries|
  {
    var n := |entries|;
    if n > 1 && entries[n - 1].id != LoaderId {
      assert entries[..n - 1][1..] == entries[1..][..n - 2];
      LastLoaderFront(entries[..n - 1], prior);
    }
  }

  lemma IdsOfCons(e: HandleInfo, u: seq<HandleInfo>)
    ensures IdsOf([e] + u) == [Numbered(e.id)] + IdsOf(u)
    ensures HandlesOf([e] + u) == [e.handle] + HandlesOf(u)
  {
  }

  lemma HandlesRoutedStep(s: State, entries: seq<HandleInfo>)
    requires entries != []
    ensures HandlesRouted(s, entries) == HandlesRouted(PushHandle(s, entries[0]), entries[1..])
  {
    var e := entries[0];
    var rest := entries[1..];
    var s' := PushHandle(s, e);
    var u := Unreserved(rest);
    var a := HandlesRouted(s, entries);
    var b := HandlesRouted(s', rest);
    LastLoaderFront(entries, s.ldsvc);
    assert a.ldsvc == b.ldsvc;
    if e.id == LoaderId {
      assert Unreserved(entries) == [] + u;
      assert [] + u == u;
      assert a.ids == b.ids;
      assert a.handles == b.handles;
    } else {
      assert Unreserved(entries) == [e] + u;
      IdsOfCons(e, u);
      AppendAssoc(s.ids, [Numbered(e.id)], IdsOf(u));
      AppendAssoc(s.handles, [e.handle], HandlesOf(u));
      assert a.ids == b.ids;
      assert a.handles == b.handles;
    }
  }

  /** The AddHandles loop, entry by entry. */
  function PushHandles(s: State, entries: seq<HandleInfo>): (r: State)
    ensures r == HandlesRouted(s, entries)
    decreases |entries|
  {
    if entries == [] then
      assert HandlesRouted(s, entries) == s;
      s
    else
      HandlesRoutedStep(s, entries);
      PushHandles(PushHandle(s, entries[0]), entries[1..])
  }

  function AddHandles(s: State, request: Decoding<seq<HandleInfo>>): (r: Handled)
    ensures request.DecodeFailed? ==> r == Handled(s, request.status)
    ensures request.Decoded? ==> r.status == Ok
    ensures request.Decoded? ==>
      var entries := request.payload;
      && r.state.args == s.args && r.state.environs == s.environs && r.state.nametable == s.nametable
      && r.state.ids == s.ids + IdsOf(Unreserved(entries))
      && r.state.handles == s.handles + HandlesOf(Unreserved(entries))
      && r.state.ldsvc == LastLoader(entries, s.ldsvc)
  {
    match request
    case DecodeFailed(e) => Handled(s, e)
    case Decoded(entries) => Handled(PushHandles(s, entries), Ok)
  }

  /** Unreserved keeps exactly the non-loader entries ... */
  lemma {:induction false} UnreservedMembers(entries: seq<HandleInfo>, e: HandleInfo)
    ensures e in Unreserved(entries) <==> e in entries && e.id != LoaderId
    decreases |entries|
  {
    if entries != [] {
      UnreservedMembers(entries[1..], e);
      assert entries == [entries[0]] + entries[1..];
    }
  }

  /** ... and keeps them in payload order across any split of the payload. */
  lemma {:induction false} UnreservedAppend(a: seq<HandleInfo>, b: seq<HandleInfo>)
    ensures Unreserved(a + b) == Unreserved(a) + Unreserved(b)
    decreases |a|
  {
    if a == [] {
      assert a + b == b;
    } else {
      assert (a + b)[1..] == a[1..] + b;
      UnreservedAppend(a[1..], b);
    }
  }

  /** Of several loader entries the last one wins, whatever came before it. */
  lemma {:induction false} LoaderLastWriteWins(
    before: seq<HandleInfo>, h: Handle, after: seq<HandleInfo>, prior: Option<Handle>)
    requires forall e :: e in after ==> e.id != LoaderId
    ensures LastLoader(before + [HandleInfo(h, LoaderId)] + after, prior) == Some(h)
    decreases |after|
  {
    var all := before + [HandleInfo(h, LoaderId)] + after;
    if after != [] {
      var n := |after|;
      assert all[|all| - 1] == after[n - 1];
      assert all[..|all| - 1] == before + [HandleInfo(h, LoaderId)] + after[..n - 1];
      LoaderLastWriteWins(before, h, after[..n - 1], prior);
    }
  }

  /** A payload without loader entries leaves the loader slot alone. */
  lemma {:induction false} NoLoaderKeepsPrior(entries: seq<HandleInfo>, prior: Option<Handle>)
    requires forall e :: e in entries ==> e.id != LoaderId
    ensures LastLoader(entries, prior) == prior
    decreases |entries|
  {
    if entries != [] {
      NoLoaderKeepsPrior(entries[..|entries| - 1], prior);
    }
  }

  /** AddHandles never lets the loader id into ids_, and it keeps the parallel tables
      and the namespace slots intact. */
  lemma AddHandlesKeepsValid(s: State, request: Decoding<seq<HandleInfo>>)
    requires Valid(s)
    ensures Valid(AddHandles(s, request).state)
  {
    if request.Decoded? {
      var u := Unreserved(request.payload);
      forall e | e in u ensures e.id != LoaderId {
        UnreservedMembers(request.payload, e);
      }
      assert Numbered(LoaderId) !in IdsOf(u);
      NsSlotsAppend(s.ids, IdsOf(u));
      NoNsSlotsInIds(u);
    }
  }

  lemma {:induction false} NoNsSlotsInIds(entries: seq<HandleInfo>)
    ensures NsSlots(IdsOf(entries)) == []
    decreases |entries|
  {
    if entries != [] {
      assert IdsOf(entries) == [Numbered(entries[0].id)] + IdsOf(entries[1..]);
      NsSlotsAppend([Numbered(entries[0].id)], IdsOf(entries[1..]));
      NoNsSlotsInIds(entries[1..]);
    }
  }

  lemma AddArgsKeepsValid(s: State, request: Decoding<seq<string>>)
    requires Valid(s)
    ensures Valid(AddArgs(s, request).state) && Valid(AddEnvirons(s, request).state)
  {
  }
}
