/** The server's processing thread: one wake of its loop (termination check,
    the two failure paths of opening and mapping the client's data channel,
    the reduction, the statistics update and the completion signal), and the
    loop itself as a run over the sequence of wakes it receives. */
module Processing {
  import opened Common
  import opened Reduction

  /** The shared statistics: how many MIN and how many MAX requests were served. */
  datatype Stats = Stats(minCount: nat, maxCount: nat)

  /** What opening and mapping the data channel named in the record yields. */
  datatype Access = OpenFailed | MapFailed | Mapped(data: seq<Int32>)

  /** A successful mapping exposes `data_size` elements, none when the size is
      not positive (the scan is then skipped and nothing is read). */
  predicate AccessFits(q: Query, a: Access)
  {
    a.Mapped? ==> |a.data| == (if q.dataSize > 0 then q.dataSize as nat else 0)
  }

  /** The statistics after one served request of the given kind. */
  function Bump(s: Stats, kind: FindType): Stats
  {
    match kind
    case Min => s.(minCount := s.minCount + 1)
    case Max => s.(maxCount := s.maxCount + 1)
  }

  /** Effect of one wake of the processing thread: the record as the client
      will read it, the statistics, how many times `sem_stop` was posted, and
      whether the thread left its loop. */
  datatype Wake = Wake(query: Query, stats: Stats, stopPosts: nat, exited: bool)

  /** True when a wake runs the scan: the thread kept going, the channel was
      mapped and the record asks for at least one element. */
  predicate Serves(q: Query, terminate: bool, a: Access)
  {
    !terminate && a.Mapped? && q.dataSize > 0
  }

  /** One pass through the body of the processing loop, after `sem_start`
      has been taken. */
  function ProcessWake(q: Query, s: Stats, terminate: bool, a: Access): (w: Wake)
    requires AccessFits(q, a)
    // A wake with the termination flag set leaves the loop and posts nothing.
    ensures terminate ==> w.exited && w.stopPosts == 0 && w.query == q && w.stats == s
    // Any other wake posts `sem_stop` exactly once, whatever happened.
    ensures !terminate ==> !w.exited && w.stopPosts == 1
    // The request fields are never written by the server.
    ensures w.query.kind == q.kind && w.query.name == q.name && w.query.dataSize == q.dataSize
    // Open or map failure: the result reads 0 and no counter moves.
    ensures !terminate && !a.Mapped? ==> w.query.returnValue == 0 && w.stats == s
    // An empty request: the result keeps whatever the previous request left.
    ensures !terminate && a.Mapped? && q.dataSize <= 0 ==> w.query == q && w.stats == s
    // A served request: the result is the leftmost extremum of the channel,
    // and exactly the counter matching the kind goes up by one.
    ensures Serves(q, terminate, a) ==>
      && w.query.returnValue in a.data
      && w.query.returnValue == a.data[ExtremumIndex(q.kind, a.data)]
      && (forall j :: 0 <= j < |a.data| ==> !Beats(q.kind, a.data[j], w.query.returnValue))
      && w.stats.minCount + w.stats.maxCount == s.minCount + s.maxCount + 1
      && (q.kind == Min ==> w.stats.minCount == s.minCount + 1)
      && (q.kind == Max ==> w.stats.maxCount == s.maxCount + 1)
  {
    if terminate then Wake(q, s, 0, true)
    else
      match a
      case OpenFailed => Wake(q.(returnValue := 0), s, 1, false)
      case MapFailed => Wake(q.(returnValue := 0), s, 1, false)
      case Mapped(data) =>
        if q.dataSize > 0 then
          Wake(q.(returnValue := Extremum(q.kind, data)), Bump(s, q.kind), 1, false)
        else
          Wake(q, s, 1, false)
  }

  /** What one wake finds: the termination flag, the request fields the
      record holds at that moment, and the outcome of opening the channel. */
  datatype WakeInput = WakeInput(terminate: bool, kind: FindType, name: seq<char>, size: Int32, access: Access)

  predicate InputFits(w: WakeInput)
  {
    w.access.Mapped? ==> |w.access.data| == (if w.size > 0 then w.size as nat else 0)
  }

  predicate AllFit(wakes: seq<WakeInput>)
  {
    forall i :: 0 <= i < |wakes| ==> InputFits(wakes[i])
  }

  /** The outcome of the whole loop. */
  datatype LoopResult = LoopResult(query: Query, stats: Stats, stopPosts: nat, exited: bool)

  /** The processing loop driven by a sequence of wakes: each wake finds the
      request fields in the record (the result slot persists from earlier
      wakes), and the loop stops at the first wake that sees the flag set. */
  function ProcessingLoop(q: Query, s: Stats, wakes: seq<WakeInput>): (r: LoopResult)
    requires AllFit(wakes)
    decreases |wakes|
  {
    if |wakes| == 0 then LoopResult(q, s, 0, false)
    else
      var w := wakes[0];
      var q1 := WriteRequest(q, w.kind, w.name, w.size);
      var step := ProcessWake(q1, s, w.terminate, w.access);
      if step.exited then LoopResult(step.query, step.stats, 0, true)
      else
        var rest := ProcessingLoop(step.query, step.stats, wakes[1..]);
        LoopResult(rest.query, rest.stats, rest.stopPosts + step.stopPosts, rest.exited)
  }

  /** Number of wakes before the first one that sees the termination flag. */
  function WakesBeforeQuit(wakes: seq<WakeInput>): (n: nat)
    ensures n <= |wakes|
    ensures forall i :: 0 <= i < n ==> !wakes[i].terminate
    ensures n < |wakes| ==> wakes[n].terminate
  {
    if |wakes| == 0 || wakes[0].terminate then 0 else 1 + WakesBeforeQuit(wakes[1..])
  }

  /** Number of wakes that serve a non-empty request of the given kind. */
  function ServedCount(wakes: seq<WakeInput>, kind: FindType): nat
  {
    if |wakes| == 0 then 0
    else
      var w := wakes[0];
      (if !w.terminate && w.access.Mapped? && w.size > 0 && w.kind == kind then 1 else 0)
        + ServedCount(wakes[1..], kind)
  }

  /** Accounting of the loop: it posts `sem_stop` once for every wake before
      the first one that sees the flag, leaves the loop exactly when such a
      wake arrives, and each counter ends at its start value plus the number
      of served requests of its kind. */
  lemma {:induction false} LoopAccounting(q: Query, s: Stats, wakes: seq<WakeInput>)
    requires AllFit(wakes)
    ensures ProcessingLoop(q, s, wakes).stopPosts == WakesBeforeQuit(wakes)
    ensures ProcessingLoop(q, s, wakes).exited <==> WakesBeforeQuit(wakes) < |wakes|
    ensures ProcessingLoop(q, s, wakes).stats.minCount
            == s.minCount + ServedCount(wakes[..WakesBeforeQuit(wakes)], Min)
    ensures ProcessingLoop(q, s, wakes).stats.maxCount
            == s.maxCount + ServedCount(wakes[..WakesBeforeQuit(wakes)], Max)
    decreases |wakes|
  {
    if |wakes| > 0 && !wakes[0].terminate {
      var w := wakes[0];
      var q1 := WriteRequest(q, w.kind, w.name, w.size);
      var step := ProcessWake(q1, s, w.terminate, w.access);
      assert AllFit(wakes[1..]) by {
        forall i | 0 <= i < |wakes[1..]|
          ensures InputFits(wakes[1..][i])
        {
          assert wakes[1..][i] == wakes[i + 1];
        }
      }
      LoopAccounting(step.query, step.stats, wakes[1..]);
      var n := WakesBeforeQuit(wakes);
      assert wakes[..n][1..] == wakes[1..][..n - 1];
    }
  }

  /** With no quit ever observed and every request served, the counters
      count exactly the MIN and MAX requests (starting from zero, K MIN and
      M MAX requests leave the counters at K and M). */
  lemma {:induction false} CountersCountRequests(q: Query, wakes: seq<WakeInput>)
    requires AllFit(wakes)
    requires forall i :: 0 <= i < |wakes| ==> !wakes[i].terminate
    ensures !ProcessingLoop(q, Stats(0, 0), wakes).exited
    ensures ProcessingLoop(q, Stats(0, 0), wakes).stopPosts == |wakes|
    ensures ProcessingLoop(q, Stats(0, 0), wakes).stats
            == Stats(ServedCount(wakes, Min), ServedCount(wakes, Max))
  {
    LoopAccounting(q, Stats(0, 0), wakes);
    assert wakes[..|wakes|] == wakes;
  }
}
