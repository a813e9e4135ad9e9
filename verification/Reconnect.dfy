/** One run of the realtime effect: a socket, a retry timer, and the handlers between them. */
module Reconnect {
  import opened Division
  import opened Options
  import Runs

  const RECONNECT_MIN_MS: nat := 1000
  const RECONNECT_MAX_MS: nat := 30000

  datatype Readiness = Connecting | Open | Closing

  /**
   * `sockets` are those made whose close has not been delivered, `timers` the timeouts pending.
   * `made` and `armed` count both over the run; `waits` records the delays since the last ready.
   */
  datatype Run = Run(
    closed: bool, delay: nat, retry: Option<nat>, socketRef: Option<nat>, connected: bool,
    sockets: map<nat, Readiness>, timers: set<nat>, made: nat, armed: nat, waits: seq<nat>)

  /** What the browser may do next. A token is looked up whenever a connection is tried. */
  datatype Event =
    | Opened(socket: nat)
    | Ready(socket: nat)
    | OtherFrame(socket: nat)
    | Errored(socket: nat)
    | Closed(socket: nat)
    | Fired(timer: nat, token: bool)
    | CleanUp

  function Min(a: nat, b: nat): nat { if a < b then a else b }

  function Fresh(): Run {
    Run(false, RECONNECT_MIN_MS, None, None, false, map[], {}, 0, 0, [])
  }

  function Connect(s: Run, token: bool): Run {
    if s.closed || !token then s
    else s.(sockets := s.sockets[s.made := Connecting], socketRef := Some(s.made), made := s.made + 1)
  }

  /** A retry after the current delay, and twice the delay for the next one. */
  function Arm(s: Run): Run {
    s.(retry := Some(s.armed), timers := s.timers + {s.armed}, armed := s.armed + 1,
       delay := Min(s.delay * 2, RECONNECT_MAX_MS), waits := s.waits + [s.delay])
  }

  /** Frames reach only an open socket, a close only an outstanding one, a timer fires once. */
  predicate Enabled(s: Run, e: Event) {
    match e
    case Opened(i) => i in s.sockets && s.sockets[i] == Connecting
    case Ready(i) => i in s.sockets && s.sockets[i] == Open
    case OtherFrame(i) => i in s.sockets && s.sockets[i] == Open
    case Errored(i) => i in s.sockets
    case Closed(i) => i in s.sockets
    case Fired(t, _) => t in s.timers
    case CleanUp => !s.closed
  }

  function Shut(s: Run, socket: Option<nat>): map<nat, Readiness> {
    if socket.Some? && socket.value in s.sockets then s.sockets[socket.value := Closing] else s.sockets
  }

  function Step(s: Run, e: Event): Run
    requires Enabled(s, e)
  {
    match e
    case Opened(i) => s.(sockets := s.sockets[i := Open])
    case Ready(_) => s.(connected := true, delay := RECONNECT_MIN_MS, waits := [])
    case OtherFrame(_) => s
    case Errored(i) => s.(sockets := s.sockets[i := Closing])
    case Closed(i) =>
      var t := s.(connected := false, socketRef := None, sockets := s.sockets - {i});
      if s.closed then t else Arm(t)
    case Fired(t, token) => Connect(s.(timers := s.timers - {t}), token)
    case CleanUp =>
      Run(true, s.delay, s.retry, None, false, Shut(s, s.socketRef),
          if s.retry.Some? then s.timers - {s.retry.value} else s.timers, s.made, s.armed, s.waits)
  }

  // --- what each event leaves ------------------------------------------------

  /** A socket moves from connecting through open to closing, and is gone once its close is delivered. */
  lemma SocketsMove(s: Run, e: Event)
    requires Enabled(s, e)
    ensures var next := Step(s, e);
            match e
            case Opened(i) => next == s.(sockets := s.sockets[i := Open])
            case Errored(i) => next == s.(sockets := s.sockets[i := Closing])
            case OtherFrame(_) => next == s
            case Ready(_) => next == s.(connected := true, delay := 1000, waits := [])
            case Closed(i) =>
              && next.sockets == s.sockets - {i} && next.socketRef == None && !next.connected
              && next.closed == s.closed && next.made == s.made
              && (s.closed ==> next.timers == s.timers && next.delay == s.delay)
              && (!s.closed ==>
                    && next.timers == s.timers + {s.armed} && next.retry == Some(s.armed) && next.armed == s.armed + 1
                    && next.waits == s.waits + [s.delay]
                    && next.delay == if s.delay * 2 < 30000 then s.delay * 2 else 30000)
            case Fired(t, token) =>
              && next.timers == s.timers - {t} && next.delay == s.delay && next.closed == s.closed
              && (if token && !s.closed then
                    next.sockets == s.sockets[s.made := Connecting] && next.socketRef == Some(s.made) &&
                    next.made == s.made + 1
                  else next.sockets == s.sockets && next.made == s.made)
            case CleanUp =>
              && next.closed && !next.connected && next.socketRef == None
              && next.timers == (if s.retry.Some? then s.timers - {s.retry.value} else s.timers)
              && next.sockets == (if s.socketRef.Some? && s.socketRef.value in s.sockets
                                  then s.sockets[s.socketRef.value := Closing] else s.sockets)
  {}

  // --- whole runs ------------------------------------------------------------

  function Attempt(s: Run, e: Event): Option<Run> {
    if Enabled(s, e) then Some(Step(s, e)) else None
  }

  /** The effect's first attempt and then a history of events; nothing when one could not happen. */
  function Play(token: bool, events: seq<Event>): Option<Run> {
    Runs.Play(Attempt, Connect(Fresh(), token), events)
  }

  predicate Possible(token: bool, events: seq<Event>) {
    Play(token, events).Some?
  }

  function After(token: bool, events: seq<Event>): Run
    requires Possible(token, events)
  {
    Play(token, events).value
  }

  ghost predicate Linked(s: Run) {
    exists i :: s.sockets.Keys == {i} && s.socketRef == Some(i) && s.timers == {}
  }

  ghost predicate Waiting(s: Run) {
    exists t :: s.timers == {t} && s.retry == Some(t) && s.sockets == map[] && s.socketRef == None
  }

  ghost predicate Stopped(s: Run) {
    s.timers == {} && s.socketRef == None &&
    (s.sockets == map[] || (s.closed && exists i :: s.sockets == map[i := Closing]))
  }

  ghost predicate Sound(s: Run) {
    && (Linked(s) || Waiting(s) || Stopped(s))
    && (s.closed ==> Stopped(s) && !s.connected)
    && (s.connected ==> exists i :: i in s.sockets && s.sockets[i] != Connecting)
    && (forall i :: i in s.sockets ==> i < s.made)
    && (forall t :: t in s.timers ==> t < s.armed)
    && |s.timers| + |s.sockets| <= 1
  }

  lemma StepKeepsSound(s: Run, e: Event)
    requires Sound(s) && Enabled(s, e)
    ensures Sound(Step(s, e))
  {
    var next := Step(s, e);
    match e {
      case Opened(i) =>
        assert next.sockets.Keys == s.sockets.Keys;
      case Ready(i) =>
        assert i in next.sockets;
      case OtherFrame(_) =>
      case Errored(i) =>
        ErrorKeepsSound(s, i);
      case Closed(i) =>
        CloseKeepsSound(s, i);
      case Fired(t, token) =>
        assert s.timers == {t};
        assert s.timers - {t} == {};
        if token { assert next.sockets.Keys == {s.made}; }
      case CleanUp =>
        CleanUpKeepsSound(s);
    }
  }

  lemma ErrorKeepsSound(s: Run, i: nat)
    requires Sound(s) && i in s.sockets
    ensures Sound(Step(s, Errored(i)))
  {
    var next := Step(s, Errored(i));
    assert next.sockets.Keys == s.sockets.Keys;
    if !Linked(s) {
      assert Stopped(s);
      var j :| s.sockets == map[j := Closing];
      assert next.sockets == map[i := Closing];
    }
  }

  lemma CloseKeepsSound(s: Run, i: nat)
    requires Sound(s) && i in s.sockets
    ensures Sound(Step(s, Closed(i)))
  {
    var next := Step(s, Closed(i));
    assert !Waiting(s);
    assert s.sockets.Keys == {i};
    assert next.sockets == map[];
    if !s.closed {
      assert s.timers == {};
      assert next.timers == {s.armed};
    }
  }

  lemma CleanUpKeepsSound(s: Run)
    requires Sound(s) && !s.closed
    ensures Sound(Step(s, CleanUp))
  {
    var next := Step(s, CleanUp);
    if Linked(s) {
      var i :| s.sockets.Keys == {i} && s.socketRef == Some(i) && s.timers == {};
      assert next.sockets == map[i := Closing];
    } else if Waiting(s) {
      assert next.timers == {};
    }
  }

  lemma {:induction false} RunIsSound(token: bool, events: seq<Event>)
    requires Possible(token, events)
    ensures Sound(After(token, events))
  {
    if |events| == 0 {
      if token { assert After(token, events).sockets.Keys == {0}; }
    } else {
      RunIsSound(token, events[..|events| - 1]);
      StepKeepsSound(After(token, events[..|events| - 1]), events[|events| - 1]);
    }
  }

  /**
   * Whatever the browser does, a run has one socket outstanding, or one retry pending, or has
   * stopped, and never two of these at once.
   */
  lemma ExactlyOnePhase(token: bool, events: seq<Event>)
    requires Possible(token, events)
    ensures var s := After(token, events);
            && (Linked(s) || Waiting(s) || Stopped(s))
            && !(Linked(s) && Waiting(s)) && !(Linked(s) && Stopped(s)) && !(Waiting(s) && Stopped(s))
            && |s.timers| + |s.sockets| <= 1
  {
    RunIsSound(token, events);
  }

  /** The token found by the last attempt to connect, where nothing has closed since. */
  function LastAttempt(token: bool, events: seq<Event>): Option<bool> {
    if |events| == 0 then Some(token)
    else
      match events[|events| - 1]
      case Fired(_, found) => Some(found)
      case Closed(_) => None
      case _ => LastAttempt(token, events[..|events| - 1])
  }

  /** A run that is not cleaned up and yet has stopped found no token at its last attempt. */
  lemma {:induction false} StopsOnlyForWantOfToken(token: bool, events: seq<Event>)
    requires Possible(token, events)
    requires Stopped(After(token, events)) && !After(token, events).closed
    ensures LastAttempt(token, events) == Some(false)
  {
    if |events| > 0 {
      RunIsSound(token, events[..|events| - 1]);
    }
  }

  // --- after cleanup ---------------------------------------------------------

  lemma {:induction false} CleanedUpIsClosed(token: bool, events: seq<Event>, rest: seq<Event>)
    requires Possible(token, events + [CleanUp] + rest)
    ensures Possible(token, events) && Possible(token, events + [CleanUp])
    ensures After(token, events + [CleanUp] + rest).closed
    ensures After(token, events + [CleanUp] + rest).made == After(token, events).made
    ensures After(token, events + [CleanUp] + rest).armed == After(token, events).armed
  {
    var all := events + [CleanUp] + rest;
    if |rest| == 0 {
      assert all == events + [CleanUp];
      assert all[..|all| - 1] == events;
    } else {
      assert all[..|all| - 1] == events + [CleanUp] + rest[..|rest| - 1];
      CleanedUpIsClosed(token, events, rest[..|rest| - 1]);
    }
  }

  /** Once cleaned up, a run makes no socket, arms no timer and shows no connection, whatever follows. */
  lemma NothingAfterCleanUp(token: bool, events: seq<Event>, rest: seq<Event>)
    requires Possible(token, events + [CleanUp] + rest)
    ensures Possible(token, events)
    ensures var s := After(token, events + [CleanUp] + rest);
            && s.made == After(token, events).made
            && s.armed == After(token, events).armed
            && s.timers == {} && s.socketRef == None && !s.connected
  {
    CleanedUpIsClosed(token, events, rest);
    RunIsSound(token, events + [CleanUp] + rest);
  }

  // --- backoff ---------------------------------------------------------------

  /** The wait after the `n`-th close in a row without a ready. */
  function Wait(n: nat): nat
    requires n >= 1
  {
    Min(RECONNECT_MIN_MS * Pow2(n - 1), RECONNECT_MAX_MS)
  }

  lemma {:induction false} PowersPass32(n: nat)
    requires n >= 5
    ensures Pow2(n) >= 32
  {
    PowGrows(5, n);
    SmallPowers();
  }

  lemma WaitDoubles(n: nat)
    requires n >= 1
    ensures Min(Wait(n) * 2, RECONNECT_MAX_MS) == Wait(n + 1)
  {}

  /** Closes since the last ready, counted on the history. */
  function Refused(events: seq<Event>): nat {
    if |events| == 0 then 0
    else
      match events[|events| - 1]
      case Closed(_) => Refused(events[..|events| - 1]) + 1
      case Ready(_) => 0
      case _ => Refused(events[..|events| - 1])
  }

  ghost predicate Backing(s: Run) {
    && s.delay == Wait(|s.waits| + 1)
    && forall i :: 0 <= i < |s.waits| ==> s.waits[i] == Wait(i + 1)
  }

  lemma StepKeepsBacking(s: Run, e: Event)
    requires Enabled(s, e) && Backing(s)
    ensures Backing(Step(s, e))
  {
    WaitDoubles(|s.waits| + 1);
  }

  /** Every wait of a run is the one its count of refusals calls for; opening alone resets nothing. */
  lemma {:induction false} WaitsFollowRefusals(token: bool, events: seq<Event>)
    requires Possible(token, events) && !After(token, events).closed
    ensures |After(token, events).waits| == Refused(events)
    ensures Backing(After(token, events))
  {
    if |events| > 0 {
      var before := After(token, events[..|events| - 1]);
      if !before.closed {
        WaitsFollowRefusals(token, events[..|events| - 1]);
        StepKeepsBacking(before, events[|events| - 1]);
      }
    }
  }

  function Sum(waits: seq<nat>): nat {
    if |waits| == 0 then 0 else Sum(waits[..|waits| - 1]) + waits[|waits| - 1]
  }

  lemma {:induction false} SumOfWaits(waits: seq<nat>)
    requires forall i :: 0 <= i < |waits| ==> waits[i] == Wait(i + 1)
    ensures |waits| <= 5 ==> Sum(waits) == RECONNECT_MIN_MS * (Pow2(|waits|) - 1)
    ensures |waits| >= 5 ==> Sum(waits) == 31000 + RECONNECT_MAX_MS * (|waits| - 5)
  {
    var n := |waits|;
    if n > 0 {
      SumOfWaits(waits[..n - 1]);
      if n <= 5 {
        SmallPowers();
      } else {
        PowersPass32(n - 1);
      }
      if n == 5 { SmallPowers(); }
    }
  }

  lemma SmallPowers()
    ensures Pow2(0) == 1 && Pow2(1) == 2 && Pow2(2) == 4 && Pow2(3) == 8 && Pow2(4) == 16 && Pow2(5) == 32
  {}

  /** What `n` refused attempts in a row cost in waiting, exactly. */
  lemma CostOfRefusals(token: bool, events: seq<Event>)
    requires Possible(token, events) && !After(token, events).closed
    ensures var n := Refused(events);
            Sum(After(token, events).waits) ==
            if n <= 5 then RECONNECT_MIN_MS * (Pow2(n) - 1) else 31000 + RECONNECT_MAX_MS * (n - 5)
  {
    WaitsFollowRefusals(token, events);
    SumOfWaits(After(token, events).waits);
  }

  // --- the handlers ----------------------------------------------------------

  /** The run is where this history leads. */
  ghost predicate Follows(token: bool, events: seq<Event>, s: Run) {
    Possible(token, events) && s == After(token, events)
  }

  lemma OneMore(token: bool, events: seq<Event>, s: Run, e: Event)
    requires Follows(token, events, s) && Enabled(s, e)
    ensures Follows(token, events + [e], Step(s, e))
  {
    assert (events + [e])[..|events|] == events;
  }

  /** The effect's variables, the handlers that share them, and what has happened so far. */
  class EffectRun {
    var closed: bool
    var delay: nat
    var retry: Option<nat>
    var socketRef: Option<nat>
    var connected: bool
    var sockets: map<nat, Readiness>
    var timers: set<nat>
    var made: nat
    var armed: nat
    ghost var waits: seq<nat>
    ghost const first: bool
    ghost var history: seq<Event>

    ghost function View(): Run
      reads this
    {
      Run(closed, delay, retry, socketRef, connected, sockets, timers, made, armed, waits)
    }

    ghost predicate Valid()
      reads this
    {
      Follows(first, history, View())
    }

    constructor (token: bool)
      ensures Valid() && first == token && history == []
    {
      closed, delay, retry, socketRef, connected := false, RECONNECT_MIN_MS, None, None, false;
      sockets, timers, made, armed, waits := map[], {}, 0, 0, [];
      first, history := token, [];
      new;
      TryConnect(token);
    }

    method TryConnect(token: bool)
      modifies `sockets, `socketRef, `made
      ensures View() == Connect(old(View()), token)
    {
      if closed {
        return;
      }
      if !token {
        return;
      }
      sockets := sockets[made := Connecting];
      socketRef := Some(made);
      made := made + 1;
    }

    method OnOpen(socket: nat)
      requires Valid() && Enabled(View(), Opened(socket))
      modifies this
      ensures Valid() && history == old(history) + [Opened(socket)]
      ensures View() == old(View()).(sockets := old(sockets)[socket := Open])
    {
      OneMore(first, history, View(), Opened(socket));
      sockets := sockets[socket := Open];
      history := history + [Opened(socket)];
    }

    method OnReady(socket: nat)
      requires Valid() && Enabled(View(), Ready(socket))
      modifies this
      ensures Valid() && history == old(history) + [Ready(socket)]
      ensures View() == old(View()).(connected := true, delay := 1000, waits := [])
    {
      OneMore(first, history, View(), Ready(socket));
      connected := true;
      delay := RECONNECT_MIN_MS;
      waits := [];
      history := history + [Ready(socket)];
    }

    method OnError(socket: nat)
      requires Valid() && Enabled(View(), Errored(socket))
      modifies this
      ensures Valid() && history == old(history) + [Errored(socket)]
      ensures View() == old(View()).(sockets := old(sockets)[socket := Closing])
    {
      OneMore(first, history, View(), Errored(socket));
      sockets := sockets[socket := Closing];
      history := history + [Errored(socket)];
    }

    /** Unless the run is over, the socket gives way to one timer, set for what the refusals so far call for. */
    method OnClose(socket: nat)
      requires Valid() && Enabled(View(), Closed(socket))
      modifies this
      ensures Valid() && history == old(history) + [Closed(socket)]
      ensures closed == old(closed) && !connected
      ensures !closed ==> Waiting(View()) && old(delay) == Wait(Refused(history))
      ensures closed ==> sockets == old(sockets) - {socket} && timers == old(timers) && made == old(made)
    {
      OneMore(first, history, View(), Closed(socket));
      ClosedWaits(first, history, View(), socket);
      sockets := sockets - {socket};
      connected := false;
      socketRef := None;
      history := history + [Closed(socket)];
      if !closed {
        ArmRetry();
      }
    }

    method ArmRetry()
      modifies `retry, `timers, `armed, `waits, `delay
      ensures View() == Arm(old(View()))
    {
      retry, timers, armed := Some(armed), timers + {armed}, armed + 1;
      waits := waits + [delay];
      delay := Min(delay * 2, RECONNECT_MAX_MS);
    }

    /** A run that finds a token has a socket again; one that does not has stopped for good. */
    method OnTimer(timer: nat, token: bool)
      requires Valid() && Enabled(View(), Fired(timer, token))
      modifies this
      ensures Valid() && history == old(history) + [Fired(timer, token)]
      ensures if token then Linked(View()) else Stopped(View())
      ensures token ==> socketRef == Some(old(made)) && sockets[old(made)] == Connecting
    {
      OneMore(first, history, View(), Fired(timer, token));
      FiredConnects(first, history, View(), timer, token);
      timers := timers - {timer};
      TryConnect(token);
      history := history + [Fired(timer, token)];
    }

    /** The effect's cleanup. */
    method Dispose()
      requires Valid() && Enabled(View(), CleanUp)
      modifies this
      ensures Valid() && history == old(history) + [CleanUp]
      ensures closed && Stopped(View()) && timers == {} && made == old(made) && armed == old(armed)
      ensures !connected && forall i :: i in sockets ==> sockets[i] == Closing
    {
      OneMore(first, history, View(), CleanUp);
      CleanedUpStops(first, history, View());
      closed := true;
      if retry.Some? {
        timers := timers - {retry.value};
      }
      if socketRef.Some? && socketRef.value in sockets {
        sockets := sockets[socketRef.value := Closing];
      }
      socketRef := None;
      connected := false;
      history := history + [CleanUp];
    }
  }

  lemma ClosedWaits(token: bool, events: seq<Event>, s: Run, socket: nat)
    requires Follows(token, events, s) && Enabled(s, Closed(socket))
    ensures !s.closed ==> Waiting(Step(s, Closed(socket))) && s.delay == Wait(Refused(events + [Closed(socket)]))
  {
    assert (events + [Closed(socket)])[..|events|] == events;
    RunIsSound(token, events);
    if !s.closed {
      WaitsFollowRefusals(token, events);
      CloseArms(s, socket);
    }
  }

  lemma CloseArms(s: Run, socket: nat)
    requires Sound(s) && !s.closed && socket in s.sockets
    ensures Waiting(Step(s, Closed(socket)))
  {
    assert s.sockets.Keys == {socket};
    var next := Step(s, Closed(socket));
    assert next.sockets == map[];
    assert next.timers == {s.armed};
  }

  lemma CleanedUpStops(token: bool, events: seq<Event>, s: Run)
    requires Follows(token, events, s) && Enabled(s, CleanUp)
    ensures Stopped(Step(s, CleanUp)) && Step(s, CleanUp).timers == {}
  {
    RunIsSound(token, events);
    CleanUpKeepsSound(s);
  }

  lemma FiredConnects(token: bool, events: seq<Event>, s: Run, timer: nat, found: bool)
    requires Follows(token, events, s) && Enabled(s, Fired(timer, found))
    ensures var next := Step(s, Fired(timer, found)); if found then Linked(next) else Stopped(next)
    ensures !s.closed
  {
    RunIsSound(token, events);
    var next := Step(s, Fired(timer, found));
    assert s.timers == {timer};
    assert s.timers - {timer} == {};
    if found { assert next.sockets.Keys == {s.made}; }
  }
}
