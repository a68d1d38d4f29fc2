/** The request/response handshake between clients and the server, as a
    transition system in which every step of every party may interleave.

    Three semaphores carry the protocol: the named admission gate
    (`/sem_free`), and the `sem_start` and `sem_stop` semaphores inside the
    query record. They are modelled as plain counters: a post adds one, a
    wait is a step that is enabled only while the counter is positive and
    takes one. The clients run the part of their main function between
    filling their data channel and unlinking it; the server runs its
    processing loop (one wake per step) and its user-interface thread (one
    command per step), and opens the gate once at startup.

    The inductive invariant `Inv` shows that the gate admits one client at a
    time, that each request is answered exactly once, that the record a
    waiting client reads was written by that client, and that the answer it
    reads is the extremum of its own data whenever the server could map
    the channel. */
module Handshake {
  import opened Common
  import opened Reduction
  import opened Processing
  import opened Control

  /** Where a client is in its main function. */
  datatype ClientPc =
    | Fresh      // before creating its data channel
    | Ready      // data channel created and filled, not yet admitted
    | Holding    // admitted through the gate, record not yet written
    | Waiting    // request posted on `sem_start`, waiting on `sem_stop`
    | Got        // result read, gate not yet given back
    | Done       // gate given back (or never taken) and channel unlinked

  /** A client's fixed request: the operation, the name of its data channel
      and the numbers in it. */
  datatype Request = Request(kind: FindType, name: string, data: seq<Int32>)

  /** What a client read from the record, and whether the server mapped a
      channel to produce it. */
  datatype Answer = Answer(value: Int32, mapped: bool)

  datatype ServerPc = Serving | Exited

  datatype System = System(
    up: bool,                         // the server has opened the gate
    gate: nat,                        // value of `/sem_free`
    start: nat,                       // value of `sem_start`
    stop: nat,                        // value of `sem_stop`
    query: Query,                     // the shared record
    stats: Stats,
    terminate: bool,
    uiRunning: bool,
    server: ServerPc,                 // the processing thread
    lastMapped: bool,                 // the last served wake mapped a channel
    channels: map<string, seq<Int32>>,  // the data channels that exist
    requests: seq<Request>,
    pcs: seq<ClientPc>,
    answers: seq<Option<Answer>>)

  datatype Step =
    | OpenGate                        // the server's `sem_post(sem_server)`
    | Create(i: nat)                  // client i creates and fills its channel
    | Acquire(i: nat)                 // client i passes `sem_wait(sem_server)`
    | Abort(i: nat)                   // client i cannot reach the record: gives the gate back
    | Post(i: nat)                    // client i writes its request and posts `sem_start`
    | Collect(i: nat)                 // client i passes `sem_wait(&sem_stop)` and reads the result
    | Release(i: nat)                 // client i posts the gate and unlinks its channel
    | Serve(opens: bool)              // one wake of the processing thread
    | Command(cmd: Command)            // one command of the user-interface thread

  // ---------------------------------------------------------------------
  // Clients

  /** A request as a real client makes it: at least one number (a client
      with none exits before creating its channel), a count that fits the
      record's `int` field, and a channel name that fits the record. */
  predicate ValidRequest(r: Request)
  {
    0 < |r.data| <= MaxInt32 && |r.name| < ShmNameSize && '\0' !in r.name
  }

  /** Channel names carry the client's process id, so no two clients share one. */
  predicate DistinctNames(rs: seq<Request>)
  {
    forall i, j :: 0 <= i < j < |rs| ==> rs[i].name != rs[j].name
  }

  /** Number of clients whose position is in `which`. */
  function Count(pcs: seq<ClientPc>, which: set<ClientPc>): (n: nat)
    ensures n <= |pcs|
  {
    if |pcs| == 0 then 0
    else (if pcs[0] in which then 1 else 0) + Count(pcs[1..], which)
  }

  /** The positions in which a client holds the gate's token. */
  const Holders: set<ClientPc> := {Holding, Waiting, Got}

  /** The positions in which a client's channel exists. */
  const Linked: set<ClientPc> := {Ready, Holding, Waiting, Got}

  // ---------------------------------------------------------------------
  // The system

  /** Just after the server created its objects: the gate exists but is
      closed, both record semaphores are zero, nothing is counted, and no
      client has started. */
  predicate Initial(s: System)
  {
    && !s.up && s.gate == 0 && s.start == 0 && s.stop == 0
    && s.query == ZeroQuery() && s.stats == Stats(0, 0)
    && !s.terminate && s.uiRunning && s.server == Serving && !s.lastMapped
    && s.channels == map[]
    && |s.pcs| == |s.requests| && |s.answers| == |s.requests|
    && (forall i :: 0 <= i < |s.requests| ==> ValidRequest(s.requests[i]))
    && DistinctNames(s.requests)
    && (forall i :: 0 <= i < |s.pcs| ==> s.pcs[i] == Fresh)
    && (forall i :: 0 <= i < |s.answers| ==> s.answers[i] == None)
  }

  /** What the server finds when it opens and maps the channel named in
      the record. `opens` says whether the environment lets the open
      succeed at all. A channel whose size disagrees with the record is
      treated as a failed mapping. */
  function Lookup(s: System, opens: bool): (a: Access)
    ensures AccessFits(s.query, a)
    ensures a.Mapped? ==> CString(s.query.name) in s.channels
                          && a.data == s.channels[CString(s.query.name)]
    ensures a.Mapped? <==>
      && opens && CString(s.query.name) in s.channels
      && |s.channels[CString(s.query.name)]|
         == (if s.query.dataSize > 0 then s.query.dataSize as nat else 0)
  {
    var name := CString(s.query.name);
    if !opens || name !in s.channels then OpenFailed
    else if |s.channels[name]| != (if s.query.dataSize > 0 then s.query.dataSize as nat else 0) then MapFailed
    else Mapped(s.channels[name])
  }

  predicate Enabled(s: System, st: Step)
  {
    && |s.pcs| == |s.requests| && |s.answers| == |s.requests|
    && match st
       case OpenGate => !s.up
       case Create(i) => i < |s.pcs| && s.pcs[i] == Fresh
       case Acquire(i) => i < |s.pcs| && s.pcs[i] == Ready && s.gate > 0
       case Abort(i) => i < |s.pcs| && s.pcs[i] == Holding
       // The last two conjuncts follow from the invariant; they make the
       // record write well defined on every state.
       case Post(i) => i < |s.pcs| && s.pcs[i] == Holding && |s.requests[i].data| <= MaxInt32
                       && '\0' !in s.requests[i].name
       case Collect(i) => i < |s.pcs| && s.pcs[i] == Waiting && s.stop > 0
       case Release(i) => i < |s.pcs| && s.pcs[i] == Got
       case Serve(_) => s.server == Serving && s.start > 0
       case Command(_) => s.uiRunning
  }

  function Apply(s: System, st: Step): (s': System)
    requires Enabled(s, st)
  {
    match st
    case OpenGate => s.(up := true, gate := s.gate + 1)
    case Create(i) =>
      s.(channels := s.channels[s.requests[i].name := s.requests[i].data], pcs := s.pcs[i := Ready])
    case Acquire(i) => s.(gate := s.gate - 1, pcs := s.pcs[i := Holding])
    case Abort(i) =>
      s.(gate := s.gate + 1, channels := s.channels - {s.requests[i].name}, pcs := s.pcs[i := Done])
    case Post(i) =>
      var r := s.requests[i];
      s.(query := WriteRequest(s.query, r.kind, StoreName(r.name), |r.data|),
         start := s.start + 1, pcs := s.pcs[i := Waiting])
    case Collect(i) =>
      s.(stop := s.stop - 1, pcs := s.pcs[i := Got],
         answers := s.answers[i := Some(Answer(s.query.returnValue, s.lastMapped))])
    case Release(i) =>
      s.(gate := s.gate + 1, channels := s.channels - {s.requests[i].name}, pcs := s.pcs[i := Done])
    case Serve(opens) =>
      var a := Lookup(s, opens);
      var w := ProcessWake(s.query, s.stats, s.terminate, a);
      s.(start := s.start - 1, stop := s.stop + w.stopPosts, query := w.query, stats := w.stats,
         server := if w.exited then Exited else Serving,
         lastMapped := if w.exited then s.lastMapped else a.Mapped?)
    case Command(cmd) =>
      var r := Execute(UiState(s.stats, s.terminate, 0), cmd);
      s.(stats := r.state.stats, terminate := r.state.terminate,
         start := s.start + r.state.startPosts, uiRunning := r.running)
  }

  /** Runs a schedule of steps; `None` when some step is not enabled. */
  function Run(s: System, steps: seq<Step>): Option<System>
    decreases |steps|
  {
    if |steps| == 0 then Some(s)
    else if !Enabled(s, steps[0]) then None
    else Run(Apply(s, steps[0]), steps[1..])
  }

  // ---------------------------------------------------------------------
  // The invariant

  function HolderCount(s: System): nat { Count(s.pcs, Holders) }
  function WaiterCount(s: System): nat { Count(s.pcs, {Waiting}) }

  /** The client requests never change, and stay valid and distinct. */
  predicate Shape(s: System)
  {
    && |s.pcs| == |s.requests| && |s.answers| == |s.requests|
    && (forall i :: 0 <= i < |s.requests| ==> ValidRequest(s.requests[i]))
    && DistinctNames(s.requests)
  }

  /** The gate's token is either in the semaphore or with one client, once
      the server has opened it. */
  predicate GateInv(s: System)
  {
    s.gate + HolderCount(s) == (if s.up then 1 else 0)
  }

  /** Every token of `sem_start` and `sem_stop` comes from the waiting
      client's post or from `quit`: the waiting client's token is in
      `sem_start`, or answered in `sem_stop`, or was taken by a wake that
      found the flag set; the `quit` token is in `sem_start` or was taken
      by the wake that exited. */
  predicate TokenInv(s: System)
  {
    && s.start + s.stop + (if s.server == Exited then 1 else 0)
       == WaiterCount(s) + (if s.terminate then 1 else 0)
    && s.stop <= 1
    && (s.stop > 0 ==> WaiterCount(s) == 1)
    && (s.server == Exited ==> s.terminate)
    && (s.uiRunning <==> !s.terminate)
  }

  /** The record holds the waiting client's request. */
  predicate RecordInv(s: System)
    requires Shape(s)
  {
    forall i :: 0 <= i < |s.pcs| && s.pcs[i] == Waiting ==>
      && s.query.kind == s.requests[i].kind
      && s.query.name == StoreName(s.requests[i].name)
      && s.query.dataSize == |s.requests[i].data|
  }

  /** A client's channel exists, with its numbers, from its creation until
      it unlinks it. */
  predicate ChannelInv(s: System)
    requires Shape(s)
  {
    forall i :: 0 <= i < |s.pcs| && s.pcs[i] in Linked ==>
      s.requests[i].name in s.channels && s.channels[s.requests[i].name] == s.requests[i].data
  }

  /** The value a client reads: the extremum of its own numbers when the
      server mapped its channel, and 0 when it could not. */
  function Expected(r: Request, mapped: bool): int
    requires |r.data| > 0
  {
    if mapped then Extremum(r.kind, r.data) else 0
  }

  /** A posted answer is the waiting client's, and a read answer stays right. */
  predicate AnswerInv(s: System)
    requires Shape(s)
  {
    && (forall i :: 0 <= i < |s.pcs| && s.pcs[i] == Waiting && s.stop > 0 ==>
          s.query.returnValue == Expected(s.requests[i], s.lastMapped))
    && (forall i :: 0 <= i < |s.answers| && s.answers[i].Some? ==>
          s.answers[i].value.value == Expected(s.requests[i], s.answers[i].value.mapped))
  }

  predicate Inv(s: System)
  {
    && Shape(s) && GateInv(s) && TokenInv(s)
    && RecordInv(s) && ChannelInv(s) && AnswerInv(s)
  }

  // ---------------------------------------------------------------------
  // Counting clients

  lemma {:induction false} CountUpdate(pcs: seq<ClientPc>, i: nat, pc: ClientPc, which: set<ClientPc>)
    requires i < |pcs|
    ensures Count(pcs[i := pc], which)
            == Count(pcs, which) - (if pcs[i] in which then 1 else 0) + (if pc in which then 1 else 0)
    decreases |pcs|
  {
    if i == 0 {
      assert pcs[i := pc][1..] == pcs[1..];
    } else {
      assert pcs[i := pc][1..] == pcs[1..][i - 1 := pc];
      CountUpdate(pcs[1..], i - 1, pc, which);
    }
  }

  lemma {:induction false} CountMember(pcs: seq<ClientPc>, i: nat, which: set<ClientPc>)
    requires i < |pcs| && pcs[i] in which
    ensures Count(pcs, which) >= 1
    decreases |pcs|
  {
    if i > 0 {
      CountMember(pcs[1..], i - 1, which);
    }
  }

  lemma {:induction false} CountTwo(pcs: seq<ClientPc>, i: nat, j: nat, which: set<ClientPc>)
    requires i < j < |pcs| && pcs[i] in which && pcs[j] in which
    ensures Count(pcs, which) >= 2
    decreases |pcs|
  {
    if i == 0 {
      CountMember(pcs[1..], j - 1, which);
    } else {
      CountTwo(pcs[1..], i - 1, j - 1, which);
    }
  }

  lemma {:induction false} CountSubset(pcs: seq<ClientPc>, small: set<ClientPc>, large: set<ClientPc>)
    requires small <= large
    ensures Count(pcs, small) <= Count(pcs, large)
    decreases |pcs|
  {
    if |pcs| > 0 {
      CountSubset(pcs[1..], small, large);
    }
  }

  /** At most one client holds the gate, so at most one waits. */
  lemma {:induction false} UniqueHolder(s: System, i: nat, j: nat)
    requires Inv(s)
    requires i < |s.pcs| && j < |s.pcs| && s.pcs[i] in Holders && s.pcs[j] in Holders
    ensures i == j
  {
    if i < j {
      CountTwo(s.pcs, i, j, Holders);
    } else if j < i {
      CountTwo(s.pcs, j, i, Holders);
    }
  }

  lemma {:induction false} WaitersBelowHolders(s: System)
    requires Inv(s)
    ensures WaiterCount(s) <= HolderCount(s) <= 1
  {
    CountSubset(s.pcs, {Waiting}, Holders);
  }

  // ---------------------------------------------------------------------
  // Preservation

  lemma {:induction false} InitialInv(s: System)
    requires Initial(s)
    ensures Inv(s)
  {
    assert Count(s.pcs, Holders) == 0 by { NoneCounted(s.pcs, Holders); }
    assert Count(s.pcs, {Waiting}) == 0 by { NoneCounted(s.pcs, {Waiting}); }
  }

  lemma {:induction false} NoneCounted(pcs: seq<ClientPc>, which: set<ClientPc>)
    requires forall i :: 0 <= i < |pcs| ==> pcs[i] == Fresh
    requires Fresh !in which
    ensures Count(pcs, which) == 0
    decreases |pcs|
  {
    if |pcs| > 0 {
      NoneCounted(pcs[1..], which);
    }
  }

  /** Every enabled step, of any party, keeps the invariant. */
  lemma {:induction false} StepInv(s: System, st: Step)
    requires Inv(s) && Enabled(s, st)
    ensures Inv(Apply(s, st))
  {
    match st
    case OpenGate => OpenGateInv(s);
    case Create(i) => CreateInv(s, i);
    case Acquire(i) => AcquireInv(s, i);
    case Abort(i) => AbortInv(s, i);
    case Post(i) => PostInv(s, i);
    case Collect(i) => CollectInv(s, i);
    case Release(i) => ReleaseInv(s, i);
    case Serve(opens) => ServeInv(s, opens);
    case Command(cmd) => CommandInv(s, cmd);
  }

  lemma {:induction false} OpenGateInv(s: System)
    requires Inv(s) && Enabled(s, OpenGate)
    ensures Inv(Apply(s, OpenGate))
  {
    var s' := Apply(s, OpenGate);
    assert HolderCount(s) == 0;
    assert s'.pcs == s.pcs;
  }

  lemma {:induction false} CreateInv(s: System, i: nat)
    requires Inv(s) && Enabled(s, Create(i))
    ensures Inv(Apply(s, Create(i)))
  {
    var s' := Apply(s, Create(i));
    CountUpdate(s.pcs, i, Ready, Holders);
    CountUpdate(s.pcs, i, Ready, {Waiting});
    forall j | 0 <= j < |s'.pcs| && s'.pcs[j] in Linked
      ensures s.requests[j].name in s'.channels && s'.channels[s.requests[j].name] == s.requests[j].data
    {
      if j != i {
        assert s.requests[j].name != s.requests[i].name by { NamesDiffer(s, i, j); }
      }
    }
  }

  lemma {:induction false} NamesDiffer(s: System, i: nat, j: nat)
    requires Shape(s) && i < |s.requests| && j < |s.requests| && i != j
    ensures s.requests[i].name != s.requests[j].name
  {
    if i < j {
      assert s.requests[i].name != s.requests[j].name;
    } else {
      assert s.requests[j].name != s.requests[i].name;
    }
  }

  lemma {:induction false} AcquireInv(s: System, i: nat)
    requires Inv(s) && Enabled(s, Acquire(i))
    ensures Inv(Apply(s, Acquire(i)))
  {
    CountUpdate(s.pcs, i, Holding, Holders);
    CountUpdate(s.pcs, i, Holding, {Waiting});
  }

  lemma {:induction false} AbortInv(s: System, i: nat)
    requires Inv(s) && Enabled(s, Abort(i))
    ensures Inv(Apply(s, Abort(i)))
  {
    var s' := Apply(s, Abort(i));
    CountUpdate(s.pcs, i, Done, Holders);
    CountUpdate(s.pcs, i, Done, {Waiting});
    forall j | 0 <= j < |s'.pcs| && s'.pcs[j] in Linked
      ensures s.requests[j].name in s'.channels && s'.channels[s.requests[j].name] == s.requests[j].data
    {
      assert j != i;
      NamesDiffer(s, i, j);
    }
  }

  lemma {:induction false} PostInv(s: System, i: nat)
    requires Inv(s) && Enabled(s, Post(i))
    ensures Inv(Apply(s, Post(i)))
  {
    var s' := Apply(s, Post(i));
    CountUpdate(s.pcs, i, Waiting, Holders);
    CountUpdate(s.pcs, i, Waiting, {Waiting});
    // No other client waits, since client i holds the gate.
    forall j | 0 <= j < |s.pcs| && s.pcs[j] == Waiting
      ensures false
    {
      UniqueHolder(s, i, j);
    }
    assert WaiterCount(s) == 0 by {
      WaitersBelowHolders(s);
      if WaiterCount(s) > 0 {
        var j := SomeCounted(s.pcs, {Waiting});
      }
    }
  }

  /** A position counted by `Count`. */
  lemma {:induction false} SomeCounted(pcs: seq<ClientPc>, which: set<ClientPc>) returns (j: nat)
    requires Count(pcs, which) > 0
    ensures j < |pcs| && pcs[j] in which
    decreases |pcs|
  {
    if pcs[0] in which {
      j := 0;
    } else {
      var k := SomeCounted(pcs[1..], which);
      j := k + 1;
    }
  }

  lemma {:induction false} CollectInv(s: System, i: nat)
    requires Inv(s) && Enabled(s, Collect(i))
    ensures Inv(Apply(s, Collect(i)))
  {
    CountUpdate(s.pcs, i, Got, Holders);
    CountUpdate(s.pcs, i, Got, {Waiting});
  }

  lemma {:induction false} ReleaseInv(s: System, i: nat)
    requires Inv(s) && Enabled(s, Release(i))
    ensures Inv(Apply(s, Release(i)))
  {
    var s' := Apply(s, Release(i));
    CountUpdate(s.pcs, i, Done, Holders);
    CountUpdate(s.pcs, i, Done, {Waiting});
    forall j | 0 <= j < |s'.pcs| && s'.pcs[j] in Linked
      ensures s.requests[j].name in s'.channels && s'.channels[s.requests[j].name] == s.requests[j].data
    {
      assert j != i;
      NamesDiffer(s, i, j);
    }
  }

  /** While a client waits, the record names its channel and carries its
      element count, and the channel exists with exactly that many numbers.
      So a server that can open the channel always maps it: the size
      mismatch `Lookup` reports as a failed mapping never arises. */
  lemma {:induction false} WaitingChannelMatches(s: System, i: nat)
    requires Inv(s) && i < |s.pcs| && s.pcs[i] == Waiting
    ensures Lookup(s, true) == Mapped(s.requests[i].data)
  {
    var name := s.requests[i].name;
    StoreNameReadsBack(name);
    assert CString(s.query.name) == name;
  }

  lemma {:induction false} ServeInv(s: System, opens: bool)
    requires Inv(s) && Enabled(s, Serve(opens))
    ensures Inv(Apply(s, Serve(opens)))
  {
    var s' := Apply(s, Serve(opens));
    if !s.terminate {
      // The token taken is the waiting client's, so the record is its request.
      WaitersBelowHolders(s);
      var i := SomeCounted(s.pcs, {Waiting});
      var r := s.requests[i];
      StoreNameReadsBack(r.name);
      assert CString(s.query.name) == r.name;
      forall j | 0 <= j < |s'.pcs| && s'.pcs[j] == Waiting
        ensures s'.query.returnValue == Expected(s.requests[j], s'.lastMapped)
      {
        UniqueHolder(s, i, j);
      }
    }
  }

  lemma {:induction false} CommandInv(s: System, cmd: Command)
    requires Inv(s) && Enabled(s, Command(cmd))
    ensures Inv(Apply(s, Command(cmd)))
  {
  }

  // ---------------------------------------------------------------------
  // Consequences

  /** Every state any schedule reaches from the initial one keeps the invariant. */
  lemma {:induction false} RunKeepsInv(s: System, steps: seq<Step>)
    requires Inv(s)
    requires Run(s, steps).Some?
    ensures Inv(Run(s, steps).value)
    ensures Run(s, steps).value.requests == s.requests
    decreases |steps|
  {
    if |steps| > 0 {
      StepInv(s, steps[0]);
      RunKeepsInv(Apply(s, steps[0]), steps[1..]);
    }
  }

  /** Mutual exclusion, under any interleaving: no two clients are between
      their wait on the gate and their post of it at the same time. */
  lemma {:induction false} OneClientAtATime(init: System, steps: seq<Step>, i: nat, j: nat)
    requires Initial(init) && Run(init, steps).Some?
    requires var s := Run(init, steps).value;
      i < |s.pcs| && j < |s.pcs| && s.pcs[i] in Holders && s.pcs[j] in Holders
    ensures i == j
  {
    InitialInv(init);
    RunKeepsInv(init, steps);
    UniqueHolder(Run(init, steps).value, i, j);
  }

  /** Until `quit`, all three semaphores only ever hold 0 or 1. */
  lemma {:induction false} SemaphoresStayBinary(init: System, steps: seq<Step>)
    requires Initial(init) && Run(init, steps).Some?
    ensures var s := Run(init, steps).value;
      !s.terminate ==> s.gate <= 1 && s.start <= 1 && s.stop <= 1
  {
    InitialInv(init);
    RunKeepsInv(init, steps);
    WaitersBelowHolders(Run(init, steps).value);
  }

  /** A client never reads another client's result: what it reads is the
      extremum of its own numbers, or 0 when the server could not map its
      channel. */
  lemma {:induction false} AnswersAreOwn(init: System, steps: seq<Step>, i: nat)
    requires Initial(init) && Run(init, steps).Some? && i < |init.requests|
    ensures var answers := Run(init, steps).value.answers;
      var r := init.requests[i];
      i < |answers| && answers[i].Some? ==>
        && (answers[i].value.mapped ==> answers[i].value.value == Extremum(r.kind, r.data))
        && (!answers[i].value.mapped ==> answers[i].value.value == 0)
  {
    InitialInv(init);
    RunKeepsInv(init, steps);
  }

  /** A wake that takes a client's token, with the flag clear, posts
      `sem_stop` exactly once; a wake that finds the flag set posts nothing
      and ends the thread. */
  lemma {:induction false} WakeAnswersOnce(s: System, opens: bool)
    requires Inv(s) && Enabled(s, Serve(opens))
    ensures !s.terminate ==> Apply(s, Serve(opens)).stop == s.stop + 1
                             && Apply(s, Serve(opens)).server == Serving
    ensures s.terminate ==> Apply(s, Serve(opens)).stop == s.stop
                            && Apply(s, Serve(opens)).server == Exited
  {
  }

  /** A wake that takes a client's token after `quit` ends the thread
      without answering: the client stays blocked on `sem_stop`, and no
      party can post it any more. */
  lemma {:induction false} QuitStrandsWaitingClient(init: System)
    requires Initial(init) && |init.requests| == 1
    ensures var steps := [OpenGate, Create(0), Acquire(0), Post(0), Command(Quit), Serve(true)];
      && Run(init, steps).Some?
      && var s := Run(init, steps).value;
      && s.pcs[0] == Waiting && s.server == Exited && s.stop == 0 && !s.uiRunning
      && !Enabled(s, Collect(0)) && !Enabled(s, Serve(true)) && !Enabled(s, Serve(false))
  {
    var s0 := init;
    var s1 := Apply(s0, OpenGate);
    var s2 := Apply(s1, Create(0));
    var s3 := Apply(s2, Acquire(0));
    var s4 := Apply(s3, Post(0));
    var s5 := Apply(s4, Command(Quit));
    var s6 := Apply(s5, Serve(true));
    assert s6.pcs[0] == Waiting && s6.server == Exited;
    var steps := [OpenGate, Create(0), Acquire(0), Post(0), Command(Quit), Serve(true)];
    assert Run(s5, steps[5..]) == Some(s6);
    assert Run(s4, steps[4..]) == Some(s6);
    assert Run(s3, steps[3..]) == Some(s6);
    assert Run(s2, steps[2..]) == Some(s6);
    assert Run(s1, steps[1..]) == Some(s6);
  }
}
