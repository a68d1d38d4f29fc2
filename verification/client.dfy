/** The client program as the sequence of protocol actions it performs.
    Every call whose outcome the client cannot decide (opening the gate,
    opening the input file, creating, sizing and mapping segments, the value
    the server leaves in the record) is an input of the run; the integers
    parsed from the file are given as a sequence.

    The actions are checked against an independent description of the
    client's obligations, `Allowed`: what it must hold before each action and
    what it must have released by the time it exits. */
module Client {
  import opened Common

  datatype Action =
    | OpenGate                          // sem_open of the admission gate
    | CloseGate                         // sem_close of the gate handle
    | OpenFile | CloseFile              // the input file
    | CreateChannel(name: string)       // shm_open(O_CREAT | O_EXCL) of the data channel
    | SizeChannel(bytes: nat)           // ftruncate
    | MapChannel(bytes: nat)            // mmap
    | FillChannel                       // the second pass copies the integers in
    | UnmapChannel(bytes: nat)          // munmap
    | CloseChannel                      // close of the descriptor
    | UnlinkChannel(name: string)       // shm_unlink
    | WaitGate | PostGate               // sem_wait / sem_post on the gate
    | OpenQuery | MapQuery | UnmapQuery | CloseQuery
    | WriteName(field: seq<char>)       // the record's name field
    | WriteSize(size: int)              // the record's data_size
    | WriteType(kind: FindType)         // the record's type
    | PostStart | WaitStop              // the record's two semaphores
    | ReadResult(value: Int32)          // return_value

  /** What the environment decides during one run. */
  datatype Env = Env(
    gateExists: bool,
    fileOpens: bool,
    values: seq<Int32>,
    pid: Int32,
    createFails: bool,
    sizeFails: bool,
    mapFails: bool,
    queryOpenFails: bool,
    queryMapFails: bool,
    serverResult: Int32)

  datatype Run = Run(trace: seq<Action>, exitCode: int, output: Option<Int32>)

  /** The only operation tokens accepted. */
  predicate ValidOp(token: string)
  {
    token == "min" || token == "max"
  }

  /** The kind written into the record: `min` for the token `min`, `max` for anything else. */
  function OpKind(token: string): (kind: FindType)
    ensures kind == Min <==> token == "min"
  {
    if token == "min" then Min else Max
  }

  const ChannelPrefix: string := "/shm_data_"

  /** `snprintf(buf, 30, "/shm_data_%d", pid)`. */
  function ChannelName(pid: Int32): string
  {
    Truncate(ChannelPrefix + FormatInt(pid), ShmNameSize)
  }

  /** Every process id fits: the name is never cut, has no NUL, and two
      processes always get different names. */
  lemma {:induction false} ChannelNameFits(pid: Int32, other: Int32)
    ensures ChannelName(pid) == ChannelPrefix + FormatInt(pid)
    ensures |ChannelName(pid)| <= 21 && '\0' !in ChannelName(pid)
    ensures ChannelName(pid) == ChannelName(other) <==> pid == other
  {
    FormatInt32Length(pid);
    FormatInt32Length(other);
    if ChannelName(pid) == ChannelName(other) {
      assert FormatInt(pid) == ChannelName(pid)[|ChannelPrefix|..];
      assert FormatInt(other) == ChannelName(other)[|ChannelPrefix|..];
      FormatIntInjective(pid, other);
    }
  }

  // ---------------------------------------------------------------------
  // The client's obligations

  /** What the rules are checked against: the channel's name, the element
      count and the requested kind of this run. */
  datatype Params = Params(name: string, count: nat, kind: FindType)

  /** `num_of_data * sizeof(int32_t)`. */
  function Bytes(p: Params): nat
  {
    p.count * ElementBytes
  }

  /** The client's use of the admission gate: the handle, and how many
      times it waited on and posted the gate. */
  datatype GateUse = GateUse(open: bool, waits: nat, posts: nat)

  /** The data channel: ever created, still linked under its name, open
      descriptor, mapped, filled with the integers. */
  datatype ChannelUse = ChannelUse(created: bool, linked: bool, fd: bool, mapped: bool, filled: bool)

  /** The query record: open descriptor, mapped. */
  datatype RecordUse = RecordUse(open: bool, mapped: bool)

  /** How far the request got: the three fields written, `sem_start`
      posted, `sem_stop` taken, the result read. */
  datatype Progress = Progress(name: bool, size: bool, kind: bool, started: bool, stopped: bool, read: bool)

  /** What the client holds and has done so far. */
  datatype Holdings = Holdings(gate: GateUse, file: bool, channel: ChannelUse,
                               record: RecordUse, progress: Progress)

  const NoChannel := ChannelUse(false, false, false, false, false)
  const NoRecord := RecordUse(false, false)
  const NoProgress := Progress(false, false, false, false, false, false)
  const Nothing := Holdings(GateUse(false, 0, 0), false, NoChannel, NoRecord, NoProgress)

  predicate Holding(h: Holdings)
  {
    h.gate.waits > h.gate.posts
  }

  /** The record's name field holds the channel's name, terminated within
      its 30 bytes. */
  predicate NameField(field: seq<char>, name: string)
  {
    |field| == ShmNameSize && field[ShmNameSize - 1] == '\0' && CString(field) == name
  }

  /** The rule each action must satisfy in the state it is taken in. */
  predicate Allowed(p: Params, h: Holdings, a: Action)
  {
    match a
    case OpenGate => !h.gate.open && h.gate.waits == 0
    // The gate handle is closed only once the gate is released.
    case CloseGate => h.gate.open && !Holding(h)
    case OpenFile => h.gate.open && !h.file && !h.channel.filled
    case CloseFile => h.file
    // A channel is created at most once, under this run's name, and only
    // after the input produced at least one integer.
    case CreateChannel(name) => h.file && !h.channel.created && name == p.name && p.count > 0
    // Sizing, mapping and unmapping all use the size the count asks for.
    case SizeChannel(bytes) => h.channel.fd && bytes == Bytes(p)
    case MapChannel(bytes) => h.channel.fd && !h.channel.mapped && bytes == Bytes(p)
    case FillChannel => h.channel.mapped && h.file
    case UnmapChannel(bytes) => h.channel.mapped && bytes == Bytes(p)
    case CloseChannel => h.channel.fd
    case UnlinkChannel(name) => h.channel.linked && name == p.name
    // The gate is waited on once, only after the channel is filled and the
    // file is closed.
    case WaitGate => h.gate.open && h.channel.linked && h.channel.filled && !h.file && h.gate.waits == 0
    case PostGate => Holding(h)
    // The record is touched only while the gate is held.
    case OpenQuery => Holding(h) && !h.record.open
    case MapQuery => Holding(h) && h.record.open && !h.record.mapped
    case UnmapQuery => h.record.mapped
    case CloseQuery => h.record.open
    // The name field is terminated within its 30 bytes and reads back as
    // the channel's name.
    case WriteName(field) =>
      Holding(h) && h.record.mapped && !h.progress.started && NameField(field, p.name)
    case WriteSize(size) => Holding(h) && h.record.mapped && !h.progress.started && size == p.count
    case WriteType(kind) => Holding(h) && h.record.mapped && !h.progress.started && kind == p.kind
    // The request is complete before the server is signalled.
    case PostStart =>
      Holding(h) && h.progress.name && h.progress.size && h.progress.kind && !h.progress.started
    case WaitStop => Holding(h) && h.progress.started && !h.progress.stopped
    // The result is read only after the server signalled completion.
    case ReadResult(_) => Holding(h) && h.progress.stopped && h.record.mapped && !h.progress.read
  }

  /** The holdings after an action. */
  function Next(h: Holdings, a: Action): Holdings
  {
    match a
    case OpenGate => h.(gate := h.gate.(open := true))
    case CloseGate => h.(gate := h.gate.(open := false))
    case OpenFile => h.(file := true)
    case CloseFile => h.(file := false)
    case CreateChannel(_) => h.(channel := h.channel.(created := true, linked := true, fd := true))
    case SizeChannel(_) => h
    case MapChannel(_) => h.(channel := h.channel.(mapped := true))
    case FillChannel => h.(channel := h.channel.(filled := true))
    case UnmapChannel(_) => h.(channel := h.channel.(mapped := false))
    case CloseChannel => h.(channel := h.channel.(fd := false))
    case UnlinkChannel(_) => h.(channel := h.channel.(linked := false))
    case WaitGate => h.(gate := h.gate.(waits := h.gate.waits + 1))
    case PostGate => h.(gate := h.gate.(posts := h.gate.posts + 1))
    case OpenQuery => h.(record := h.record.(open := true))
    case MapQuery => h.(record := h.record.(mapped := true))
    case UnmapQuery => h.(record := h.record.(mapped := false))
    case CloseQuery => h.(record := h.record.(open := false))
    case WriteName(_) => h.(progress := h.progress.(name := true))
    case WriteSize(_) => h.(progress := h.progress.(size := true))
    case WriteType(_) => h.(progress := h.progress.(kind := true))
    case PostStart => h.(progress := h.progress.(started := true))
    case WaitStop => h.(progress := h.progress.(stopped := true))
    case ReadResult(_) => h.(progress := h.progress.(read := true))
  }

  /** Replays a trace from the empty holdings; `None` as soon as one action
      breaks its rule. */
  function Replay(p: Params, t: seq<Action>): Option<Holdings>
    decreases |t|
  {
    if |t| == 0 then Some(Nothing)
    else
      match Replay(p, t[..|t| - 1])
      case None => None
      case Some(h) =>
        if Allowed(p, h, t[|t| - 1]) then Some(Next(h, t[|t| - 1])) else None
  }

  /** A client that exits has released everything: the gate was posted as
      many times as it was waited on, and no handle, mapping or channel is
      left behind. */
  predicate Released(h: Holdings)
  {
    && !h.gate.open && !h.file && !h.channel.linked && !h.channel.fd && !h.channel.mapped
    && !h.record.open && !h.record.mapped && h.gate.posts == h.gate.waits
  }

  /** Appends an action that is allowed after the trace so far. */
  function Emit(p: Params, t: seq<Action>, a: Action): (t': seq<Action>)
    requires Replay(p, t).Some? && Allowed(p, Replay(p, t).value, a)
    ensures t' == t + [a]
    ensures Replay(p, t') == Some(Next(Replay(p, t).value, a))
  {
    assert (t + [a])[..|t|] == t;
    t + [a]
  }

  /** An action sets `created` exactly when it creates a channel, and bumps
      `waits` exactly when it waits on the gate. */
  lemma {:induction false} NextTracks(h: Holdings, a: Action)
    ensures Next(h, a).channel.created <==> h.channel.created || a.CreateChannel?
    ensures Next(h, a).gate.waits == h.gate.waits + (if a == WaitGate then 1 else 0)
  {
    match a
    case CreateChannel(_) =>
    case WaitGate =>
    case _ =>
  }

  /** The only channel a client may create is its own. */
  lemma {:induction false} CreatesOwnChannel(p: Params, h: Holdings, a: Action)
    requires Allowed(p, h, a)
    ensures a.CreateChannel? ==> a.name == p.name
  {
  }

  /** The holdings remember whether a channel was created and whether the
      gate was waited on; and every channel a run creates is its own. */
  lemma {:induction false} ReplayRecords(p: Params, t: seq<Action>)
    requires Replay(p, t).Some?
    ensures !Replay(p, t).value.channel.created <==> forall i :: 0 <= i < |t| ==> !t[i].CreateChannel?
    ensures forall i :: 0 <= i < |t| && t[i].CreateChannel? ==> t[i].name == p.name
    ensures Replay(p, t).value.gate.waits == 0 <==> WaitGate !in t
    decreases |t|
  {
    if |t| > 0 {
      var u := t[..|t| - 1];
      var a := t[|t| - 1];
      ReplayRecords(p, u);
      var h := Replay(p, u).value;
      assert Allowed(p, h, a);
      CreatesOwnChannel(p, h, a);
      NextTracks(h, a);
      assert t == u + [a];
      assert forall i :: 0 <= i < |u| ==> t[i] == u[i];
    }
  }

  // ---------------------------------------------------------------------
  // The cleanup ladder: each rung releases one layer and hands over to the
  // rung below; a failure enters at the rung matching what it holds.

  /** Everything but the gate handle is released. */
  function LeaveGate(p: Params, t: seq<Action>): (t': seq<Action>)
    requires Replay(p, t).Some?
    requires var h := Replay(p, t).value;
      && h.gate.open && !h.file && !h.channel.linked && !h.channel.fd && !h.channel.mapped
      && h.record == NoRecord && h.gate.posts == h.gate.waits
    ensures Replay(p, t').Some? && Released(Replay(p, t').value)
    ensures Replay(p, t').value.channel.created == Replay(p, t).value.channel.created
    ensures Replay(p, t').value.gate.waits == Replay(p, t).value.gate.waits
    ensures t < t'
  {
    Emit(p, t, CloseGate)
  }

  /** The input file is still open; no channel exists. */
  function LeaveFile(p: Params, t: seq<Action>): (t': seq<Action>)
    requires Replay(p, t).Some?
    requires var h := Replay(p, t).value;
      && h.gate.open && h.file && !h.channel.linked && !h.channel.fd && !h.channel.mapped
      && h.record == NoRecord && h.gate.posts == h.gate.waits
    ensures Replay(p, t').Some? && Released(Replay(p, t').value)
    ensures Replay(p, t').value.channel.created == Replay(p, t).value.channel.created
    ensures Replay(p, t').value.gate.waits == Replay(p, t).value.gate.waits
    ensures t < t'
  {
    LeaveGate(p, Emit(p, t, CloseFile))
  }

  /** The channel exists and is open but not mapped; the file is open. */
  function LeaveChannel(p: Params, t: seq<Action>): (t': seq<Action>)
    requires Replay(p, t).Some?
    requires var h := Replay(p, t).value;
      && h.gate.open && h.file && h.channel.linked && h.channel.fd && !h.channel.mapped
      && h.record == NoRecord && h.gate.posts == h.gate.waits
    ensures Replay(p, t').Some? && Released(Replay(p, t').value)
    ensures t < t'
  {
    LeaveFile(p, Emit(p, Emit(p, t, CloseChannel), UnlinkChannel(p.name)))
  }

  /** The gate is held and the channel mapped, but the record is not open:
      unmap and close the channel, then unlink it and give the gate back. */
  function LeaveHeld(p: Params, t: seq<Action>): (t': seq<Action>)
    requires Replay(p, t).Some?
    requires var h := Replay(p, t).value;
      && h.gate.open && !h.file && h.channel.linked && h.channel.fd && h.channel.mapped
      && h.record == NoRecord && h.gate.waits == h.gate.posts + 1
    ensures Replay(p, t').Some? && Released(Replay(p, t').value)
    ensures t < t'
  {
    LeaveLinked(p, Emit(p, Emit(p, t, UnmapChannel(Bytes(p))), CloseChannel))
  }

  /** The gate is held and the channel, closed and unmapped, still linked. */
  function LeaveLinked(p: Params, t: seq<Action>): (t': seq<Action>)
    requires Replay(p, t).Some?
    requires var h := Replay(p, t).value;
      && h.gate.open && !h.file && h.channel.linked && !h.channel.fd && !h.channel.mapped
      && h.record == NoRecord && h.gate.waits == h.gate.posts + 1
    ensures Replay(p, t').Some? && Released(Replay(p, t').value)
    ensures t < t'
  {
    LeaveGate(p, Emit(p, Emit(p, t, UnlinkChannel(p.name)), PostGate))
  }

  /** The gate is given back and the record released; the channel is still
      mapped. */
  function LeaveMapped(p: Params, t: seq<Action>): (t': seq<Action>)
    requires Replay(p, t).Some?
    requires var h := Replay(p, t).value;
      && h.gate.open && !h.file && h.channel.linked && h.channel.fd && h.channel.mapped
      && h.record == NoRecord && h.gate.posts == h.gate.waits
    ensures Replay(p, t').Some? && Released(Replay(p, t').value)
    ensures t < t'
  {
    LeaveUnmapped(p, Emit(p, Emit(p, t, UnmapChannel(Bytes(p))), CloseChannel))
  }

  /** Only the gate handle and the channel's name are left. */
  function LeaveUnmapped(p: Params, t: seq<Action>): (t': seq<Action>)
    requires Replay(p, t).Some?
    requires var h := Replay(p, t).value;
      && h.gate.open && !h.file && h.channel.linked && !h.channel.fd && !h.channel.mapped
      && h.record == NoRecord && h.gate.posts == h.gate.waits
    ensures Replay(p, t').Some? && Released(Replay(p, t').value)
    ensures t < t'
  {
    LeaveGate(p, Emit(p, t, UnlinkChannel(p.name)))
  }

  // ---------------------------------------------------------------------
  // The phases of a run

  /** The holdings once the gate handle and the input file are open. */
  const Connected := Nothing.(gate := GateUse(true, 0, 0), file := true)

  /** The holdings once the channel is created. */
  const Created := Connected.(channel := ChannelUse(true, true, true, false, false))

  /** The holdings once the channel is mapped. */
  const Filling := Connected.(channel := ChannelUse(true, true, true, true, false))

  /** The holdings once the channel is filled, the file closed and the gate taken. */
  const Admitted := Holdings(GateUse(true, 1, 0), false, ChannelUse(true, true, true, true, true),
                             NoRecord, NoProgress)

  /** The holdings with the record mapped and the gate held. */
  const Mapped := Admitted.(record := RecordUse(true, true))

  /** The holdings once the request is written. */
  const Written := Mapped.(progress := Progress(true, true, true, false, false, false))

  /** The holdings once the result has been read. */
  const Answered := Mapped.(progress := Progress(true, true, true, true, true, true))

  /** The facts every phase of a run relies on. */
  predicate Fits(p: Params, env: Env)
  {
    p.count == |env.values| && p.name == ChannelName(env.pid) && p.count <= MaxInt32
  }

  /** What a successful run promises about its result. */
  predicate Answers(r: Run, env: Env)
  {
    && (r.exitCode == 0 ==> r.output == Some(env.serverResult) && ReadResult(env.serverResult) in r.trace)
    && (r.exitCode != 0 ==> r.output == None)
  }

  /** The data-channel phase: from the open input file to holding the gate,
      or to an exit that releases what was acquired. */
  function DataPhase(p: Params, env: Env, t: seq<Action>): (r: Run)
    requires Replay(p, t) == Some(Connected) && Fits(p, env)
    ensures Replay(p, r.trace).Some? && Released(Replay(p, r.trace).value)
    ensures p.count == 0 ==>
      r.exitCode == 1 && !Replay(p, r.trace).value.channel.created && Replay(p, r.trace).value.gate.waits == 0
    ensures r.exitCode == 0 || r.exitCode == 1
    ensures r.exitCode == 0 <==>
      && p.count > 0 && !env.createFails && !env.sizeFails && !env.mapFails
      && !env.queryOpenFails && !env.queryMapFails
    ensures Answers(r, env)
  {
    if p.count == 0 || env.createFails then Run(LeaveFile(p, t), 1, None)
    else ChannelPhase(p, env, Emit(p, t, CreateChannel(p.name)))
  }

  /** Size and map the new channel, or remove it when either fails. */
  function ChannelPhase(p: Params, env: Env, t: seq<Action>): (r: Run)
    requires Replay(p, t) == Some(Created) && Fits(p, env)
    ensures Replay(p, r.trace).Some? && Released(Replay(p, r.trace).value)
    ensures r.exitCode == 0 || r.exitCode == 1
    ensures r.exitCode == 0 <==>
      !env.sizeFails && !env.mapFails && !env.queryOpenFails && !env.queryMapFails
    ensures Answers(r, env)
    ensures t < r.trace
  {
    if env.sizeFails then Run(LeaveChannel(p, t), 1, None)
    else
      var t := Emit(p, t, SizeChannel(Bytes(p)));
      if env.mapFails then Run(LeaveChannel(p, t), 1, None)
      else FillPhase(p, env, Emit(p, t, MapChannel(Bytes(p))))
  }

  /** Copy the integers in, close the file and wait for the gate. */
  function FillPhase(p: Params, env: Env, t: seq<Action>): (r: Run)
    requires Replay(p, t) == Some(Filling) && Fits(p, env)
    ensures Replay(p, r.trace).Some? && Released(Replay(p, r.trace).value)
    ensures r.exitCode == 0 || r.exitCode == 1
    ensures r.exitCode == 0 <==> !env.queryOpenFails && !env.queryMapFails
    ensures Answers(r, env)
    ensures t < r.trace
  {
    var t' := Emit(p, Emit(p, Emit(p, t, FillChannel), CloseFile), WaitGate);
    RequestPhase(p, env, t')
  }

  /** The request phase: with the gate held, open and map the query record
      and hand over the request; or release everything when the record
      cannot be opened or mapped. */
  function RequestPhase(p: Params, env: Env, t: seq<Action>): (r: Run)
    requires Replay(p, t) == Some(Admitted) && Fits(p, env)
    ensures Replay(p, r.trace).Some? && Released(Replay(p, r.trace).value)
    ensures r.exitCode == 0 || r.exitCode == 1
    ensures r.exitCode == 0 <==> !env.queryOpenFails && !env.queryMapFails
    ensures Answers(r, env)
    ensures t < r.trace
  {
    if env.queryOpenFails then Run(LeaveHeld(p, t), 1, None)
    else
      var t := Emit(p, t, OpenQuery);
      if env.queryMapFails then Run(LeaveHeld(p, Emit(p, t, CloseQuery)), 1, None)
      else
        var t := Signal(p, env, WriteRequest(p, env, Emit(p, t, MapQuery)));
        var t' := Teardown(p, t);
        assert ReadResult(env.serverResult) in t';
        Run(t', 0, Some(env.serverResult))
  }

  /** Write the three request fields. */
  function WriteRequest(p: Params, env: Env, t: seq<Action>): (t': seq<Action>)
    requires Replay(p, t) == Some(Mapped) && Fits(p, env)
    ensures Replay(p, t') == Some(Written)
    ensures t < t'
  {
    ChannelNameFits(env.pid, env.pid);
    StoreNameReadsBack(p.name);
    assert NameField(StoreName(p.name), p.name);
    Emit(p, Emit(p, Emit(p, t, WriteName(StoreName(p.name))), WriteSize(p.count)), WriteType(p.kind))
  }

  /** Post `sem_start`, wait on `sem_stop` and read the result. */
  function Signal(p: Params, env: Env, t: seq<Action>): (t': seq<Action>)
    requires Replay(p, t) == Some(Written)
    ensures Replay(p, t') == Some(Answered)
    ensures ReadResult(env.serverResult) in t'
  {
    var t' := Emit(p, Emit(p, Emit(p, t, PostStart), WaitStop), ReadResult(env.serverResult));
    assert t'[|t'| - 1] == ReadResult(env.serverResult);
    t'
  }

  /** Release the gate and the record, then the channel. */
  function Teardown(p: Params, t: seq<Action>): (t': seq<Action>)
    requires Replay(p, t) == Some(Answered)
    ensures Replay(p, t').Some? && Released(Replay(p, t').value)
    ensures t < t'
  {
    LeaveRecord(p, Emit(p, t, PostGate))
  }

  /** The gate is given back; the record is still open and mapped. */
  function LeaveRecord(p: Params, t: seq<Action>): (t': seq<Action>)
    requires Replay(p, t).Some?
    requires var h := Replay(p, t).value;
      && h.gate.open && !h.file && h.channel.linked && h.channel.fd && h.channel.mapped
      && h.record == RecordUse(true, true) && h.gate.posts == h.gate.waits
    ensures Replay(p, t').Some? && Released(Replay(p, t').value)
    ensures t < t'
  {
    LeaveMapped(p, Emit(p, Emit(p, t, UnmapQuery), CloseQuery))
  }

  /** The obligations a run is checked against. */
  function RunParams(argv: seq<string>, env: Env): Params
    requires |argv| == 3
    ensures |argv| == 3 && |env.values| <= MaxInt32 ==> Fits(RunParams(argv, env), env)
  {
    Params(ChannelName(env.pid), |env.values|, OpKind(argv[2]))
  }

  /** From opening the gate handle to exit, for valid arguments. */
  function Session(p: Params, env: Env): (r: Run)
    requires Fits(p, env)
    ensures Replay(p, r.trace).Some? && Released(Replay(p, r.trace).value)
    ensures !env.gateExists ==> r.trace == [] && r.exitCode == 1
    ensures p.count == 0 ==>
      r.exitCode == 1 && !Replay(p, r.trace).value.channel.created && Replay(p, r.trace).value.gate.waits == 0
    ensures r.exitCode == 0 || r.exitCode == 1
    ensures r.exitCode == 0 <==>
      && env.gateExists && env.fileOpens
      && p.count > 0 && !env.createFails && !env.sizeFails && !env.mapFails
      && !env.queryOpenFails && !env.queryMapFails
    ensures Answers(r, env)
  {
    if !env.gateExists then Run([], 1, None)
    else
      var t := Emit(p, [], OpenGate);
      if !env.fileOpens then Run(LeaveGate(p, t), 1, None)
      else DataPhase(p, env, Emit(p, t, OpenFile))
  }

  /** The client program, from argument checking to cleanup. */
  function ClientMain(argv: seq<string>, env: Env): (r: Run)
    requires |env.values| <= MaxInt32
    // A wrong argument count or operation token fails before anything is opened.
    ensures (|argv| != 3 || !ValidOp(argv[2])) ==> r.trace == [] && r.exitCode == 1
    // No server: the client fails holding nothing.
    ensures !env.gateExists ==> r.trace == [] && r.exitCode == 1
    // Zero integers: fail before any channel exists, without touching the gate.
    ensures |env.values| == 0 ==>
      && r.exitCode == 1
      && (forall i :: 0 <= i < |r.trace| ==> !r.trace[i].CreateChannel?)
      && WaitGate !in r.trace
    // Success exactly when every step succeeded; the value printed is the
    // one the server left in the record, read from the record.
    ensures r.exitCode == 0 || r.exitCode == 1
    ensures r.exitCode == 0 <==>
      && |argv| == 3 && ValidOp(argv[2]) && env.gateExists && env.fileOpens
      && |env.values| > 0 && !env.createFails && !env.sizeFails && !env.mapFails
      && !env.queryOpenFails && !env.queryMapFails
    ensures Answers(r, env)
    // Every run keeps the client's obligations and releases everything.
    ensures |argv| == 3 ==>
      && Replay(RunParams(argv, env), r.trace).Some?
      && Released(Replay(RunParams(argv, env), r.trace).value)
  {
    if |argv| != 3 || !ValidOp(argv[2]) then Run([], 1, None)
    else
      var p := RunParams(argv, env);
      var r := Session(p, env);
      ReplayRecords(p, r.trace);
      r
  }
}
