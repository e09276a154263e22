/** The line-driven state machine shared by both document parsers: every
    line goes to the handler of the current state, whose result names the
    next state, keeps the current one, or stops the parse; afterwards the
    finishing hook runs once with the last line handled. */
module Engine {

  /** What a state handler returns: the name of the next state, nothing
      (`None` in Python: stay), or `False` (stop). */
  datatype Transition<S> = Goto(next: S) | Stay | Stop

  /** Where the loop over the lines ended: the record state built so far,
      the current state, how many lines were handed to a handler, and
      whether a handler stopped the loop. */
  datatype Halt<C, S> = Halt(config: C, state: S, handled: nat, stopped: bool)

  /** The outcome of a whole parse. With no lines at all the loop variable
      is never bound and the call of the finishing hook fails. */
  datatype Outcome<C> = Finished(config: C) | LineUnbound

  /** The state after applying a handler's result to state `s`. */
  function Next<S>(s: S, t: Transition<S>): S
  {
    if t.Goto? then t.next else s
  }

  /** The loop over `lines[i..]` in state `s` with record state `c`. */
  function Drive<C, S>(step: (C, S, string) -> (C, Transition<S>), c: C, s: S, lines: seq<string>, i: nat): (h: Halt<C, S>)
    requires i <= |lines|
    ensures i <= h.handled <= |lines|
    ensures i < |lines| ==> i < h.handled
    ensures !h.stopped ==> h.handled == |lines|
    decreases |lines| - i
  {
    if i == |lines| then Halt(c, s, i, false)
    else
      var (c', t) := step(c, s, lines[i]);
      if t.Stop? then Halt(c', s, i + 1, true)
      else Drive(step, c', Next(s, t), lines, i + 1)
  }

  /** One turn of the loop. */
  lemma DriveTurn<C, S>(step: (C, S, string) -> (C, Transition<S>), c: C, s: S, lines: seq<string>, i: nat)
    requires i < |lines|
    ensures var (c', t) := step(c, s, lines[i]);
            Drive(step, c, s, lines, i)
              == if t.Stop? then Halt(c', s, i + 1, true) else Drive(step, c', Next(s, t), lines, i + 1)
  {
  }

  /** The whole parse from state `start`: the loop, then the finishing hook
      with the last line handled, whether the loop ran out of lines or was
      stopped (after a stop, that is the line whose handler returned
      `False`). */
  function Run<C, S>(step: (C, S, string) -> (C, Transition<S>), finish: (C, string) -> C,
                     c: C, start: S, lines: seq<string>): (r: Outcome<C>)
    ensures r.LineUnbound? <==> lines == []
  {
    if lines == [] then LineUnbound
    else
      var h := Drive(step, c, start, lines, 0);
      Finished(finish(h.config, lines[h.handled - 1]))
  }

  /** Once a handler has stopped the loop, no later line reaches any
      handler: lines appended to the input change nothing. */
  lemma {:induction false} StopIgnoresLaterLines<C, S>(step: (C, S, string) -> (C, Transition<S>),
                                                       c: C, s: S, lines: seq<string>, more: seq<string>, i: nat)
    requires i <= |lines| && Drive(step, c, s, lines, i).stopped
    ensures Drive(step, c, s, lines + more, i) == Drive(step, c, s, lines, i)
    decreases |lines| - i
  {
    assert (lines + more)[i] == lines[i];
    var (c', t) := step(c, s, lines[i]);
    if !t.Stop? {
      StopIgnoresLaterLines(step, c', Next(s, t), lines, more, i + 1);
    }
  }

  /** The same for the whole parse, finishing hook included. */
  lemma RunStopIgnoresLaterLines<C, S>(step: (C, S, string) -> (C, Transition<S>), finish: (C, string) -> C,
                                       c: C, start: S, lines: seq<string>, more: seq<string>)
    requires lines != [] && Drive(step, c, start, lines, 0).stopped
    ensures Run(step, finish, c, start, lines + more) == Run(step, finish, c, start, lines)
  {
    StopIgnoresLaterLines(step, c, start, lines, more, 0);
    var h := Drive(step, c, start, lines, 0);
    assert (lines + more)[h.handled - 1] == lines[h.handled - 1];
  }

  /** A machine none of whose handlers ever stops hands every line to a
      handler. */
  lemma {:induction false} NeverStopsHandlesAll<C, S>(step: (C, S, string) -> (C, Transition<S>),
                                                      c: C, s: S, lines: seq<string>, i: nat)
    requires i <= |lines|
    requires forall c0, s0, l0 :: !step(c0, s0, l0).1.Stop?
    ensures Drive(step, c, s, lines, i).handled == |lines| && !Drive(step, c, s, lines, i).stopped
    decreases |lines| - i
  {
    if i < |lines| {
      var (c', t) := step(c, s, lines[i]);
      NeverStopsHandlesAll(step, c', Next(s, t), lines, i + 1);
    }
  }

  /** Lines on which the handler of `s` keeps both the record state and the
      state can be skipped. */
  lemma {:induction false} SkipIgnoredLines<C, S>(step: (C, S, string) -> (C, Transition<S>),
                                                  c: C, s: S, lines: seq<string>, i: nat, j: nat)
    requires i <= j <= |lines|
    requires forall k :: i <= k < j ==> step(c, s, lines[k]) == (c, Stay)
    ensures Drive(step, c, s, lines, i) == Drive(step, c, s, lines, j)
    decreases j - i
  {
    if i < j {
      SkipIgnoredLines(step, c, s, lines, i + 1, j);
    }
  }

  /** An invariant of record state and state that every handler keeps
      holds where the loop ends. */
  lemma {:induction false} DriveKeeps<C, S>(step: (C, S, string) -> (C, Transition<S>), inv: (C, S) -> bool,
                                            c: C, s: S, lines: seq<string>, i: nat)
    requires i <= |lines| && inv(c, s)
    requires forall c0, s0, l0 :: inv(c0, s0) ==> inv(step(c0, s0, l0).0, Next(s0, step(c0, s0, l0).1))
    ensures inv(Drive(step, c, s, lines, i).config, Drive(step, c, s, lines, i).state)
    decreases |lines| - i
  {
    if i < |lines| {
      var (c', t) := step(c, s, lines[i]);
      assert inv(c', Next(s, t));
      if !t.Stop? {
        DriveKeeps(step, inv, c', Next(s, t), lines, i + 1);
      }
    }
  }
}
