/** The Launch handler: it hands the accumulated state to the launchpad builder, commits,
    builds the LaunchResult, clears the state and writes the reply. */
module LaunchCommit {
  import opened Zx
  import opened Protocol
  import opened LauncherState

  /** A `const char*` slot of a flat string array; None is the terminating null. */
  type CStr = Option<string>

  /** What a reader of `c_str()` sees: the characters before the first NUL. An fbl::String
      built from a FIDL string keeps any NUL it carries, but launchpad stops there. */
  function CPrefix(str: string): (r: string)
    ensures r <= str
    ensures '\0' !in r
    ensures |r| < |str| ==> str[|r|] == '\0'
    ensures '\0' !in str ==> r == str
  {
    if str == [] || str[0] == '\0' then [] else [str[0]] + CPrefix(str[1..])
  }

  /** The C-string view of a string sequence, element for element. */
  function CStrs(strs: seq<string>): seq<CStr>
  {
    seq(|strs|, k requires 0 <= k < |strs| => Some(CPrefix(strs[k])))
  }

  /** PushCStrs: appends a c_str() for each source string to the target array. */
  function PushCStrs(source: seq<string>, target: seq<CStr>): (r: seq<CStr>)
    ensures r == target + CStrs(source)
    decreases |source|
  {
    if source == [] then
      assert CStrs(source) == [];
      target
    else
      assert CStrs(source) == [Some(CPrefix(source[0]))] + CStrs(source[1..]);
      PushCStrs(source[1..], target + [Some(CPrefix(source[0]))])
  }

  /** Strings without an embedded NUL reach the builder whole. */
  lemma CStrsWithoutNul(strs: seq<string>)
    requires forall k :: 0 <= k < |strs| ==> '\0' !in strs[k]
    ensures |CStrs(strs)| == |strs|
    ensures forall k :: 0 <= k < |strs| ==> CStrs(strs)[k] == Some(strs[k])
  {
  }

  /** Everything the launchpad builder is given before it commits. */
  datatype LaunchSetup = LaunchSetup(
    job: Handle,
    name: string,
    executable: Handle,
    loader: Option<Handle>,
    argv: seq<CStr>,
    environ: seq<CStr>,
    nametable: seq<CStr>,
    ids: seq<HandleId>,
    handles: seq<Handle>)

  function SetupFor(s: State, info: LaunchInfo): (r: LaunchSetup)
    ensures r.job == info.job && r.executable == info.executable
    ensures r.name == CPrefix(info.name)
    ensures r.loader == s.ldsvc
    ensures r.argv == CStrs(s.args) && r.nametable == CStrs(s.nametable)
    ensures r.environ == CStrs(s.environs) + [None]
    ensures r.ids == s.ids && r.handles == s.handles
  {
    var args := PushCStrs(s.args, []);
    var environs := PushCStrs(s.environs, []);
    var nametable := PushCStrs(s.nametable, []);
    LaunchSetup(info.job, CPrefix(info.name), info.executable, s.ldsvc,
                args, environs + [None], nametable,
                s.ids, s.handles)
  }

  /** The process name reaches the builder whole exactly when it carries no NUL. */
  lemma NameWithoutNul(s: State, info: LaunchInfo)
    ensures SetupFor(s, info).name == info.name <==> '\0' !in info.name
  {
  }

  /** The launchpad builder: its setup and the first failure recorded on it, if any. */
  datatype Builder = Builder(setup: LaunchSetup, failure: Option<BuildFailure>)

  /** launchpad_abort: the builder keeps the first failure recorded on it. */
  function Abort(b: Builder, status: ErrorStatus, message: string): Builder
  {
    if b.failure.Some? then b else b.(failure := Some(BuildFailure(status, message)))
  }

  /** launchpad_go: an aborted builder reports its recorded failure and starts nothing;
      otherwise the outcome is the commit's. */
  function Go(b: Builder, commit: Commit): Commit
  {
    match b.failure
    case Some(f) => CommitFailed(f.status, Some(f.message))
    case None => commit
  }

  const NeedLoaderMessage: string := "need ldsvc to load PT_INTERP"
  const RootVmarMessage: string := "failed to get root vmar"

  /** The LaunchResult built from the builder's outcome. A builder whose creation failed
      (line 133, whose status is not checked) carries that failure; it is then aborted, in
      this order, for a missing loader (line 136), by a failing load or set/add call (lines
      145-149) and for a failed root-VMAR duplication (line 161); the first failure wins. */
  function ResultFor(setup: LaunchSetup, fx: Effects): (r: LaunchResult)
    ensures r.status == Ok <==>
      && fx.create.None? && setup.loader.Some? && fx.loading.None?
      && fx.rootVmar.Duplicated? && fx.commit.Started?
    ensures r.status == Ok ==>
      r == LaunchResult(Ok, Some(fx.commit.process), Some(fx.rootVmar.copy), None)
    ensures r.status != Ok ==> r.process.None? && r.rootVmar.None?
    ensures fx.create.Some? ==>
      r == LaunchResult(fx.create.value.status, None, None, Some(fx.create.value.message))
    ensures fx.create.None? && setup.loader.None? ==>
      r == LaunchResult(ErrInvalidArgs, None, None, Some(NeedLoaderMessage))
    ensures fx.create.None? && setup.loader.Some? && fx.loading.Some? ==>
      r == LaunchResult(fx.loading.value.status, None, None, Some(fx.loading.value.message))
    ensures fx.create.None? && setup.loader.Some? && fx.loading.None? && fx.rootVmar.DuplicateFailed? ==>
      r == LaunchResult(fx.rootVmar.status, None, None, Some(RootVmarMessage))
    ensures
      && fx.create.None? && setup.loader.Some? && fx.loading.None?
      && fx.rootVmar.Duplicated? && fx.commit.CommitFailed? ==>
      r == LaunchResult(fx.commit.status, None, None, fx.commit.message)
  {
    var b0 := Builder(setup, fx.create);
    var b1 := if setup.loader.None? then Abort(b0, ErrInvalidArgs, NeedLoaderMessage) else b0;
    var b2 := match fx.loading
      case Some(f) => Abort(b1, f.status, f.message)
      case None => b1;
    var b3 := match fx.rootVmar
      case DuplicateFailed(e) => Abort(b2, e, RootVmarMessage)
      case Duplicated(_) => b2;
    var rootVmar := match fx.rootVmar
      case Duplicated(h) => Some(h)
      case DuplicateFailed(_) => None;
    match Go(b3, fx.commit)
    case Started(p) => LaunchResult(Ok, Some(p), rootVmar, None)
    case CommitFailed(e, message) => LaunchResult(e, None, None, message)
  }

  /** The state after a Launch, its status for the dispatcher, the reply written (if the
      write succeeded), the setup given to the builder (once decoding succeeded), and the
      handles that Reset closes because handles_ still owns them. */
  datatype Launched = Launched(
    state: State,
    status: Status,
    reply: Option<Reply>,
    setup: Option<LaunchSetup>,
    closedByReset: seq<Handle>)

  /** The Launch handler, corrected so that every handle is released from handles_ as it is
      handed to the builder (line 149 does not do this), so that Reset closes none of them.
      In every other respect it is the handler as written; see LaunchAsWritten. */
  function Launch(s: State, txid: Uint32, request: Decoding<LaunchInfo>, fx: Effects): (r: Launched)
    ensures request.DecodeFailed? ==> r == Launched(s, request.status, None, None, [])
    ensures request.Decoded? ==>
      && r.state == Empty
      && r.status == (if fx.encode != Ok then fx.encode else fx.write)
      && r.setup == Some(SetupFor(s, request.payload))
    ensures r.reply.Some? <==> request.Decoded? && fx.encode == Ok && fx.write == Ok
    ensures r.reply.Some? ==> r.reply.value == Reply(txid, ResultFor(r.setup.value, fx))
  {
    match request
    case DecodeFailed(e) => Launched(s, e, None, None, [])
    case Decoded(info) =>
      var setup := SetupFor(s, info);
      var reply := Reply(txid, ResultFor(setup, fx));
      // Reset() runs before the reply is encoded and written.
      var cleared := Empty;
      if fx.encode != Ok then Launched(cleared, fx.encode, None, Some(setup), [])
      else if fx.write != Ok then Launched(cleared, fx.write, None, Some(setup), [])
      else Launched(cleared, Ok, Some(reply), Some(setup), [])
  }

  /** Corrected, every handle of handles_ has exactly one owner: the builder gets all of
      them, and Reset closes none of them. */
  lemma LaunchHandsOverOnce(s: State, txid: Uint32, info: LaunchInfo, fx: Effects)
    ensures var r := Launch(s, txid, Decoded(info), fx);
      && r.setup.value.handles == s.handles
      && forall h :: h in r.setup.value.handles ==> h !in r.closedByReset
  {
  }

  /** Launch as written: the same handler, except that handles_ is not released when its raw
      values go to launchpad_add_handles (which takes ownership of them), so Reset closes
      every one of them. */
  function LaunchAsWritten(s: State, txid: Uint32, request: Decoding<LaunchInfo>, fx: Effects): (r: Launched)
    ensures request.Decoded? ==> r.closedByReset == s.handles
    ensures r.(closedByReset := []) == Launch(s, txid, request, fx)
  {
    var released := Launch(s, txid, request, fx);
    if request.Decoded? then released.(closedByReset := s.handles) else released
  }

  /** As written, a non-empty handles_ leaves a handle with two owners: the builder, which
      consumes it, and Reset, which closes it again. */
  lemma LaunchAsWrittenClosesHandedOver(s: State, txid: Uint32, info: LaunchInfo, fx: Effects)
    requires s.handles != []
    ensures var r := LaunchAsWritten(s, txid, Decoded(info), fx);
      s.handles[0] in r.setup.value.handles && s.handles[0] in r.closedByReset
  {
  }

  /** The builder sees ids_ and handles_ side by side: one handle per id. */
  lemma SetupTablesParallel(s: State, info: LaunchInfo)
    requires Valid(s)
    ensures |SetupFor(s, info).ids| == |SetupFor(s, info).handles|
    ensures Numbered(LoaderId) !in SetupFor(s, info).ids
  {
  }
}
