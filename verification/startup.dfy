/** The server's main function as the sequence of resource actions it
    performs: create the admission gate closed, create, size and map the
    query record, initialise its two semaphores, start both threads, open
    the gate, and after both threads have finished tear everything down.
    Which creation step fails, if any, is an input of the run.

    The actions are checked against an independent description of the
    server's obligations, `Allowed`, in the same way as the client's. */
module Startup {
  import opened Common

  datatype Action =
    | CreateGate(initial: nat)        // sem_open(O_CREAT | O_EXCL) with its initial value
    | CreateSegment                   // shm_open(O_CREAT | O_EXCL) of the query record
    | SizeSegment                     // ftruncate to the record's size
    | MapSegment                      // mmap
    | InitStart(initial: nat)         // sem_init of the record's start semaphore
    | InitStop(initial: nat)          // sem_init of the record's stop semaphore
    | StartUi | StartProcessing       // pthread_create of the two threads
    | PostGate                        // sem_post on the gate: clients may now enter
    | JoinThreads                     // both threads have returned
    | DestroyStart | DestroyStop      // sem_destroy
    | UnmapSegment | CloseSegment | UnlinkSegment
    | CloseGate | UnlinkGate

  /** The creation steps that can fail. A failure to start the processing
      thread is not part of this model. */
  datatype SetupFailure =
    | GateFails | SegmentFails | SizeFails | MapFails
    | StartInitFails | StopInitFails | UiThreadFails

  datatype Run = Run(trace: seq<Action>, exitCode: int)

  /** What the server holds and has done so far. */
  datatype Holdings = Holdings(
    gate: bool,            // the named gate exists
    gateHandle: bool,
    gateValue: nat,
    segment: bool,         // the named segment exists
    segmentFd: bool,
    sized: bool,
    mapped: bool,
    startInit: bool,
    stopInit: bool,
    uiThread: bool,
    processingThread: bool,
    joined: bool,
    gatePosted: bool)

  const Nothing := Holdings(false, false, 0, false, false, false, false,
                            false, false, false, false, false, false)

  /** Some thread may still be using the record. */
  predicate ThreadsRunning(h: Holdings)
  {
    (h.uiThread || h.processingThread) && !h.joined
  }

  predicate Allowed(h: Holdings, a: Action)
  {
    match a
    // The gate is the first object created, and it is created closed so
    // that no client enters during setup.
    case CreateGate(initial) => h == Nothing && initial == 0
    case CreateSegment => h.gateHandle && !h.segment
    case SizeSegment => h.segmentFd && !h.mapped
    case MapSegment => h.segmentFd && h.sized && !h.mapped
    // Both semaphores of the record start at zero: no request, no answer.
    case InitStart(initial) => h.mapped && !h.startInit && initial == 0
    case InitStop(initial) => h.mapped && !h.stopInit && initial == 0
    // The threads use both semaphores, so they start only after both exist.
    case StartUi => h.startInit && h.stopInit && !h.uiThread
    case StartProcessing => h.startInit && h.stopInit && !h.processingThread
    // The gate opens once, only when the record is ready and both threads run.
    case PostGate =>
      && h.gate && h.gateHandle && !h.gatePosted
      && h.startInit && h.stopInit && h.uiThread && h.processingThread
    case JoinThreads => h.uiThread && h.processingThread && !h.joined
    // Nothing is destroyed or unmapped while a thread may still use it.
    case DestroyStart => h.startInit && !ThreadsRunning(h)
    case DestroyStop => h.stopInit && !ThreadsRunning(h)
    case UnmapSegment => h.mapped && !ThreadsRunning(h)
    case CloseSegment => h.segmentFd
    case UnlinkSegment => h.segment && !ThreadsRunning(h)
    case CloseGate => h.gateHandle
    case UnlinkGate => h.gate
  }

  function Next(h: Holdings, a: Action): Holdings
  {
    match a
    case CreateGate(initial) => h.(gate := true, gateHandle := true, gateValue := initial)
    case CreateSegment => h.(segment := true, segmentFd := true)
    case SizeSegment => h.(sized := true)
    case MapSegment => h.(mapped := true)
    case InitStart(_) => h.(startInit := true)
    case InitStop(_) => h.(stopInit := true)
    case StartUi => h.(uiThread := true)
    case StartProcessing => h.(processingThread := true)
    case PostGate => h.(gateValue := h.gateValue + 1, gatePosted := true)
    case JoinThreads => h.(joined := true)
    case DestroyStart => h.(startInit := false)
    case DestroyStop => h.(stopInit := false)
    case UnmapSegment => h.(mapped := false)
    case CloseSegment => h.(segmentFd := false)
    case UnlinkSegment => h.(segment := false)
    case CloseGate => h.(gateHandle := false)
    case UnlinkGate => h.(gate := false)
  }

  function Replay(t: seq<Action>): Option<Holdings>
    decreases |t|
  {
    if |t| == 0 then Some(Nothing)
    else
      match Replay(t[..|t| - 1])
      case None => None
      case Some(h) =>
        if Allowed(h, t[|t| - 1]) then Some(Next(h, t[|t| - 1])) else None
  }

  /** When the server exits, neither name is left in the system, no mapping
      remains and no thread is running. */
  predicate Released(h: Holdings)
  {
    !h.gate && !h.gateHandle && !h.segment && !h.segmentFd && !h.mapped && !ThreadsRunning(h)
  }

  function Emit(t: seq<Action>, a: Action): (t': seq<Action>)
    requires Replay(t).Some? && Allowed(Replay(t).value, a)
    ensures t' == t + [a]
    ensures Replay(t') == Some(Next(Replay(t).value, a))
  {
    assert (t + [a])[..|t|] == t;
    t + [a]
  }

  /** The holdings once the record is mapped. */
  const Mapped := Nothing.(gate := true, gateHandle := true, segment := true, segmentFd := true,
                           sized := true, mapped := true)

  /** The holdings once both semaphores exist and both threads run. */
  const Running := Mapped.(startInit := true, stopInit := true, uiThread := true,
                           processingThread := true)

  /** The failures that happen once the record is mapped. */
  predicate AfterMapping(failure: Option<SetupFailure>)
  {
    match failure
    case Some(StartInitFails) => true
    case Some(StopInitFails) => true
    case Some(UiThreadFails) => true
    case _ => false
  }

  /** What a rung of the cleanup ladder leaves alone: the record's
      semaphores, the threads, and whether the gate was ever opened. */
  predicate KeepsSetup(h: Holdings, h': Holdings)
  {
    && h'.startInit == h.startInit && h'.stopInit == h.stopInit
    && h'.uiThread == h.uiThread && h'.processingThread == h.processingThread
    && h'.joined == h.joined && h'.gatePosted == h.gatePosted
  }

  /** The cleanup ladder of the main function. Each rung undoes one layer
      of setup and hands over to the rung below it; a failure enters the
      ladder at the rung matching what exists at that point. */
  function ReleaseGate(t: seq<Action>): (t': seq<Action>)
    requires Replay(t).Some?
    requires var h := Replay(t).value;
      h.gate && h.gateHandle && !h.segment && !h.segmentFd && !h.mapped && !ThreadsRunning(h)
    ensures Replay(t').Some? && Released(Replay(t').value)
    ensures KeepsSetup(Replay(t).value, Replay(t').value)
    ensures t < t'
  {
    Emit(Emit(t, CloseGate), UnlinkGate)
  }

  function ReleaseSegment(t: seq<Action>): (t': seq<Action>)
    requires Replay(t).Some?
    requires var h := Replay(t).value;
      h.gate && h.gateHandle && h.segment && h.segmentFd && !h.mapped && !ThreadsRunning(h)
    ensures Replay(t').Some? && Released(Replay(t').value)
    ensures KeepsSetup(Replay(t).value, Replay(t').value)
    ensures t < t'
  {
    ReleaseGate(Emit(Emit(t, CloseSegment), UnlinkSegment))
  }

  function ReleaseMapping(t: seq<Action>): (t': seq<Action>)
    requires Replay(t).Some?
    requires var h := Replay(t).value;
      h.gate && h.gateHandle && h.segment && h.segmentFd && h.mapped && !ThreadsRunning(h)
    ensures Replay(t').Some? && Released(Replay(t').value)
    ensures KeepsSetup(Replay(t).value, Replay(t').value)
    ensures t < t'
  {
    ReleaseSegment(Emit(t, UnmapSegment))
  }

  function ReleaseSemaphores(t: seq<Action>): (t': seq<Action>)
    requires Replay(t).Some?
    requires var h := Replay(t).value;
      && h.gate && h.gateHandle && h.segment && h.segmentFd && h.mapped
      && h.startInit && h.stopInit && !ThreadsRunning(h)
    ensures Replay(t').Some? && Released(Replay(t').value)
    ensures var h, h' := Replay(t).value, Replay(t').value;
      && !h'.startInit && !h'.stopInit
      && KeepsSetup(h.(startInit := false, stopInit := false), h')
    ensures t < t'
  {
    ReleaseMapping(Emit(Emit(t, DestroyStart), DestroyStop))
  }

  /** Create the gate closed and the query record. */
  function CreateObjects(failure: Option<SetupFailure>): (r: Run)
    ensures r.exitCode == 0 <==> failure.None? || AfterMapping(failure)
    ensures r.exitCode == 0 ==> Replay(r.trace) == Some(Mapped)
    ensures r.exitCode != 0 ==>
      && r.exitCode == 1 && Replay(r.trace).Some? && Released(Replay(r.trace).value)
      && !Replay(r.trace).value.gatePosted
      && !Replay(r.trace).value.startInit && !Replay(r.trace).value.stopInit
    ensures failure == Some(GateFails) ==> r.trace == []
    ensures failure != Some(GateFails) ==> |r.trace| > 0 && r.trace[0] == CreateGate(0)
  {
    if failure == Some(GateFails) then Run([], 1)
    else
      var t := Emit([], CreateGate(0));
      assert t[0] == CreateGate(0);
      if failure == Some(SegmentFails) then Run(ReleaseGate(t), 1)
      else
        var t := Emit(t, CreateSegment);
        if failure == Some(SizeFails) then Run(ReleaseSegment(t), 1)
        else
          var t := Emit(t, SizeSegment);
          if failure == Some(MapFails) then Run(ReleaseSegment(t), 1)
          else Run(Emit(t, MapSegment), 0)
  }

  /** Initialise the semaphores, start the threads and open the gate; or
      undo the setup when a step fails. */
  function StartServing(failure: Option<SetupFailure>, t: seq<Action>): (r: Run)
    requires Replay(t) == Some(Mapped)
    requires failure.None? || AfterMapping(failure)
    ensures r.exitCode == 0 <==> failure.None?
    ensures r.exitCode == 0 ==> Replay(r.trace) == Some(Running.(gateValue := 1, gatePosted := true))
    ensures r.exitCode != 0 ==>
      && r.exitCode == 1 && Replay(r.trace).Some? && Released(Replay(r.trace).value)
      && !Replay(r.trace).value.gatePosted
      && !Replay(r.trace).value.uiThread && !Replay(r.trace).value.processingThread
    // Both semaphores are destroyed on a failed thread start, but a failed
    // stop initialisation leaves the start semaphore initialised.
    ensures r.exitCode != 0 ==> !Replay(r.trace).value.stopInit
    ensures r.exitCode != 0 ==>
      (Replay(r.trace).value.startInit <==> failure == Some(StopInitFails))
    ensures t < r.trace
  {
    if failure == Some(StartInitFails) then Run(ReleaseMapping(t), 1)
    else FinishSetup(failure, Emit(t, InitStart(0)))
  }

  /** With the start semaphore initialised: initialise the stop semaphore,
      then start the threads. */
  function FinishSetup(failure: Option<SetupFailure>, t: seq<Action>): (r: Run)
    requires Replay(t) == Some(Mapped.(startInit := true))
    requires failure.None? || failure == Some(StopInitFails) || failure == Some(UiThreadFails)
    ensures r.exitCode == 0 <==> failure.None?
    ensures r.exitCode == 0 ==> Replay(r.trace) == Some(Running.(gateValue := 1, gatePosted := true))
    ensures r.exitCode != 0 ==>
      && r.exitCode == 1 && Replay(r.trace).Some? && Released(Replay(r.trace).value)
      && !Replay(r.trace).value.gatePosted
      && !Replay(r.trace).value.uiThread && !Replay(r.trace).value.processingThread
      && !Replay(r.trace).value.stopInit
      && (Replay(r.trace).value.startInit <==> failure == Some(StopInitFails))
    ensures t < r.trace
  {
    // A failed stop initialisation takes the same exit as a failed start
    // one, so the start semaphore it leaves initialised is not destroyed.
    if failure == Some(StopInitFails) then Run(ReleaseMapping(t), 1)
    else StartThreads(failure, Emit(t, InitStop(0)))
  }

  /** With both semaphores initialised: start the threads and open the gate,
      or undo everything when the user-interface thread cannot start. */
  function StartThreads(failure: Option<SetupFailure>, t: seq<Action>): (r: Run)
    requires Replay(t) == Some(Mapped.(startInit := true, stopInit := true))
    requires failure.None? || failure == Some(UiThreadFails)
    ensures r.exitCode == 0 <==> failure.None?
    ensures r.exitCode == 0 ==> Replay(r.trace) == Some(Running.(gateValue := 1, gatePosted := true))
    ensures r.exitCode != 0 ==>
      && r.exitCode == 1 && Replay(r.trace).Some? && Released(Replay(r.trace).value)
      && !Replay(r.trace).value.gatePosted
      && !Replay(r.trace).value.startInit && !Replay(r.trace).value.stopInit
      && !Replay(r.trace).value.uiThread && !Replay(r.trace).value.processingThread
    // The user-interface thread is started before the processing thread.
    ensures r.exitCode == 0 ==> r.trace == t + [StartUi, StartProcessing, PostGate]
    ensures t < r.trace
  {
    if failure == Some(UiThreadFails) then Run(ReleaseSemaphores(t), 1)
    else Run(OpenGate(t), 0)
  }

  /** Start both threads, then let the first client in. */
  function OpenGate(t: seq<Action>): (t': seq<Action>)
    requires Replay(t) == Some(Mapped.(startInit := true, stopInit := true))
    ensures Replay(t') == Some(Running.(gateValue := 1, gatePosted := true))
    ensures t' == t + [StartUi, StartProcessing, PostGate]
  {
    var t1 := Emit(t, StartUi);
    var t2 := Emit(t1, StartProcessing);
    Emit(t2, PostGate)
  }

  /** After both threads return: destroy, unmap, close and unlink everything. */
  function Shutdown(t: seq<Action>): (t': seq<Action>)
    requires Replay(t) == Some(Running.(gateValue := 1, gatePosted := true))
    ensures Replay(t').Some? && Released(Replay(t').value) && Replay(t').value.gatePosted
    // Both threads are joined before anything is destroyed, and both
    // semaphores are destroyed.
    ensures t < t' && t'[|t|] == JoinThreads
    ensures !Replay(t').value.startInit && !Replay(t').value.stopInit
  {
    ReleaseSemaphores(Emit(t, JoinThreads))
  }

  /** The server's main function. */
  function ServerMain(failure: Option<SetupFailure>): (r: Run)
    // Exit status 0 exactly when setup succeeded.
    ensures r.exitCode == 0 <==> failure.None?
    ensures r.exitCode == 0 || r.exitCode == 1
    // If the gate cannot be created nothing else is attempted; otherwise it
    // is the first object created, and it is created with value 0.
    ensures failure == Some(GateFails) ==> r.trace == []
    ensures failure != Some(GateFails) ==> |r.trace| > 0 && r.trace[0] == CreateGate(0)
    // The gate is opened exactly when setup succeeded.
    ensures PostGate in r.trace <==> failure.None?
    // Every run keeps the server's obligations and leaves nothing behind.
    ensures Replay(r.trace).Some? && Released(Replay(r.trace).value)
    // Both record semaphores are destroyed on every exit except a failed
    // stop initialisation, which leaves the start semaphore initialised.
    ensures !Replay(r.trace).value.stopInit
    ensures Replay(r.trace).value.startInit <==> failure == Some(StopInitFails)
  {
    var created := CreateObjects(failure);
    if created.exitCode != 0 then
      PostedRecorded(created.trace);
      created
    else
      var serving := StartServing(failure, created.trace);
      PostedRecorded(serving.trace);
      if serving.exitCode != 0 then Run(serving.trace, 1)
      else
        var t := Shutdown(serving.trace);
        PostedRecorded(t);
        Run(t, 0)
  }

  /** The holdings remember whether the gate was ever posted. */
  lemma {:induction false} PostedRecorded(t: seq<Action>)
    requires Replay(t).Some?
    ensures Replay(t).value.gatePosted <==> PostGate in t
    decreases |t|
  {
    if |t| > 0 {
      var u := t[..|t| - 1];
      var a := t[|t| - 1];
      PostedRecorded(u);
      NextRecordsPost(Replay(u).value, a);
      assert t == u + [a];
    }
  }

  /** Only posting the gate sets `gatePosted`, and nothing clears it. */
  lemma {:induction false} NextRecordsPost(h: Holdings, a: Action)
    ensures Next(h, a).gatePosted <==> h.gatePosted || a == PostGate
  {
    match a
    case PostGate =>
    case _ =>
  }

  /** The server's own contribution to the gate is one token at most: the
      gate is created at zero and the server posts it at most once. */
  lemma {:induction false} GateAtMostOne(t: seq<Action>)
    requires Replay(t).Some?
    ensures Replay(t).value.gateValue == (if Replay(t).value.gatePosted then 1 else 0)
    decreases |t|
  {
    if |t| > 0 {
      var u := t[..|t| - 1];
      GateAtMostOne(u);
      var h := Replay(u).value;
      var a := t[|t| - 1];
      assert Allowed(h, a);
      GateStep(h, a);
    }
  }

  lemma {:induction false} GateStep(h: Holdings, a: Action)
    requires Allowed(h, a)
    requires h.gateValue == (if h.gatePosted then 1 else 0)
    ensures Next(h, a).gateValue == (if Next(h, a).gatePosted then 1 else 0)
  {
    match a
    case CreateGate(_) =>
    case PostGate =>
    case _ =>
  }
}
