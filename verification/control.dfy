/** The server's user-interface thread: it reads command tokens and acts on
    the statistics, the termination flag and the `sem_start` semaphore. */
module Control {
  import opened Common
  import opened Processing

  datatype Command = Stat | Reset | Quit | Unknown(token: string)

  /** Tokens are compared with the three command words exactly. */
  function ParseCommand(token: string): (c: Command)
    ensures c == Quit <==> token == "quit"
    ensures c == Stat <==> token == "stat"
    ensures c == Reset <==> token == "reset"
    ensures c.Unknown? ==> c.token == token
  {
    if token == "quit" then Quit
    else if token == "stat" then Stat
    else if token == "reset" then Reset
    else Unknown(token)
  }

  /** The part of the server state the thread touches: the statistics, the
      termination flag, and how many times it has posted `sem_start`. */
  datatype UiState = UiState(stats: Stats, terminate: bool, startPosts: nat)

  /** One command's effect: the new state, whether the loop goes on, and the
      counters reported to the operator (only `stat` reports them). */
  datatype UiStep = UiStep(state: UiState, running: bool, shown: Option<Stats>)

  function Execute(st: UiState, cmd: Command): (r: UiStep)
    // `quit` raises the flag, posts `sem_start` once and ends the loop.
    ensures cmd == Quit ==>
      && r.state.terminate && r.state.startPosts == st.startPosts + 1
      && r.state.stats == st.stats && !r.running
    // `reset` zeroes both counters and nothing else.
    ensures cmd == Reset ==>
      && r.state.stats.minCount == 0 && r.state.stats.maxCount == 0
      && r.state.terminate == st.terminate && r.state.startPosts == st.startPosts
    // `stat` reports the counters; it and unknown words change nothing.
    ensures (cmd == Stat || cmd.Unknown?) ==> r.state == st
    ensures cmd == Stat ==> r.shown == Some(st.stats)
    ensures cmd != Stat ==> r.shown == None
    ensures r.running <==> cmd != Quit
  {
    match cmd
    case Quit => UiStep(st.(terminate := true, startPosts := st.startPosts + 1), false, None)
    case Stat => UiStep(st, true, Some(st.stats))
    case Reset => UiStep(st.(stats := Stats(0, 0)), true, None)
    case Unknown(_) => UiStep(st, true, None)
  }

  /** The thread's loop over the tokens it reads, up to and including the
      first `quit`. Returns the final state and how many tokens it consumed. */
  function RunUi(st: UiState, tokens: seq<string>): (r: (UiState, nat))
    ensures r.1 <= |tokens|
    decreases |tokens|
  {
    if |tokens| == 0 then (st, 0)
    else
      var step := Execute(st, ParseCommand(tokens[0]));
      if !step.running then (step.state, 1)
      else
        var rest := RunUi(step.state, tokens[1..]);
        (rest.0, rest.1 + 1)
  }

  /** The thread posts `sem_start` once if it ever reads `quit` and never
      otherwise; it raises the flag exactly then; it stops reading right
      after the first `quit`; and the counters it leaves are zero if a
      `reset` came before that point and untouched otherwise. */
  lemma {:induction false} UiRunEffects(st: UiState, tokens: seq<string>)
    ensures RunUi(st, tokens).0.startPosts == st.startPosts + (if "quit" in tokens then 1 else 0)
    ensures RunUi(st, tokens).0.terminate <==> st.terminate || "quit" in tokens
    ensures "quit" in tokens ==>
      var n := RunUi(st, tokens).1;
      n > 0 && tokens[n - 1] == "quit" && "quit" !in tokens[..n - 1]
    ensures "quit" !in tokens ==> RunUi(st, tokens).1 == |tokens|
    ensures RunUi(st, tokens).0.stats
            == (if "reset" in tokens[..RunUi(st, tokens).1] then Stats(0, 0) else st.stats)
    decreases |tokens|
  {
    if |tokens| > 0 {
      var step := Execute(st, ParseCommand(tokens[0]));
      if step.running {
        UiRunEffects(step.state, tokens[1..]);
        var n := RunUi(st, tokens).1;
        assert tokens == [tokens[0]] + tokens[1..];
        assert tokens[..n] == [tokens[0]] + tokens[1..][..n - 1];
        if "quit" in tokens {
          assert tokens[0] != "quit";
          assert "quit" in tokens[1..];
          assert tokens[..n - 1] == [tokens[0]] + tokens[1..][..n - 2];
        }
      } else {
        assert tokens[..1] == [tokens[0]];
      }
    }
  }
}
