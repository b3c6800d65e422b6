/** The messages of the fuchsia.process.Launcher protocol, as the launcher sees them once decoded. */
module Protocol {
  import opened Zx

  /** An entry of the processargs id table handed to the new process.
      The PA_HND packing is kept symbolic: NsDir(k) stands for PA_HND(PA_NS_DIR, k) and is
      distinct for distinct k; Numbered(n) is an id a client chose in AddHandles. */
  datatype HandleId = NsDir(slot: nat) | Numbered(id: Uint32)

  /** PA_SVC_LOADER: the id that routes a handle to the loader-service slot. */
  const LoaderId: Uint32 := 0x10

  datatype NameInfo = NameInfo(path: string, directory: Handle)

  datatype HandleInfo = HandleInfo(handle: Handle, id: Uint32)

  datatype LaunchInfo = LaunchInfo(executable: Handle, job: Handle, name: string)

  /** The outcome of decoding a request body against its table. */
  datatype Decoding<T> = Decoded(payload: T) | DecodeFailed(status: ErrorStatus)

  /** A request, one variant per ordinal; any other ordinal is UnknownOrdinal. */
  datatype Request =
    | LaunchRequest(info: Decoding<LaunchInfo>)
    | AddArgsRequest(args: Decoding<seq<string>>)
    | AddEnvironsRequest(environs: Decoding<seq<string>>)
    | AddNamesRequest(names: Decoding<seq<NameInfo>>)
    | AddHandlesRequest(handles: Decoding<seq<HandleInfo>>)
    | UnknownOrdinal(ordinal: Uint32)

  /** A message read from the channel: too short to carry a header, or a header and a request. */
  datatype Message = Headerless | Framed(txid: Uint32, request: Request)

  /** What zx_handle_duplicate did to the new process's root VMAR handle. */
  datatype Duplication = Duplicated(copy: Handle) | DuplicateFailed(status: ErrorStatus)

  /** What launchpad_go reports for a builder that no earlier call aborted:
      the process started, or it failed with a status and perhaps a message. */
  datatype Commit = Started(process: Handle) | CommitFailed(status: ErrorStatus, message: Option<string>)

  /** A failure recorded on the launchpad builder: its status and diagnostic. */
  datatype BuildFailure = BuildFailure(status: ErrorStatus, message: string)

  /** Outcomes of the calls a Launch makes into code outside this model, in call order:
      a failure of launchpad_create_with_jobs (if any), the first failure among
      launchpad_load_from_vmo and the set/add calls (if any), the
      root-VMAR duplication, launchpad_go on a builder that was not aborted, and the encode
      and write of the reply. */
  datatype Effects = Effects(
    create: Option<BuildFailure>,
    loading: Option<BuildFailure>,
    rootVmar: Duplication,
    commit: Commit,
    encode: Status,
    write: Status)

  /** One read from the channel: it fails with a status, or a message arrives (together with
      the outcomes its handling would meet outside the model). */
  datatype Inbound = ReadFails(status: ErrorStatus) | Arrives(message: Message, effects: Effects)

  /** fuchsia.process.LaunchResult; absent handles are ZX_HANDLE_INVALID on the wire. */
  datatype LaunchResult = LaunchResult(
    status: Status,
    process: Option<Handle>,
    rootVmar: Option<Handle>,
    errorMessage: Option<string>)

  /** The response to a Launch: the request's transaction id and the result. */
  datatype Reply = Reply(txid: Uint32, result: LaunchResult)

}
