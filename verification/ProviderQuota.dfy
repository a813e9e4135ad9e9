/** Daily provider allowances, reserved by any number of workers in any interleaving. */
module ProviderQuota {
  import opened Options
  import Runs

  /** One provider's one day: the primary key of the usage table. */
  type Key = (string, int)

  /** What a worker asks for. A limit of zero or less means no ceiling. */
  datatype Claim = Claim(key: Key, limit: int, count: nat)

  /**
   * Where a worker is in `reserve`: about to run the conditional update, to look for a row after
   * the update matched none, to insert after finding none, or to update again after its insert lost.
   */
  datatype Pc =
    | Idle
    | Updating(claim: Claim)
    | Looking(claim: Claim, sawRow: bool)
    | Inserting(claim: Claim)
    | Retrying(claim: Claim)

  datatype Answer = Granted(claim: Claim) | Refused(claim: Claim)

  /** The usage table, the workers, and every answer given so far. */
  datatype World = World(used: map<Key, nat>, workers: map<nat, Pc>, answers: seq<Answer>)

  datatype Event =
    | Ask(worker: nat, claim: Claim)
    | Run(worker: nat)

  predicate Unlimited(c: Claim) {
    c.limit <= 0
  }

  predicate Enabled(w: World, e: Event) {
    match e
    case Ask(i, _) => i in w.workers && w.workers[i].Idle?
    case Run(i) => i in w.workers && !w.workers[i].Idle?
  }

  /** `used <= limit - count`, on the row there is. */
  predicate HasRoom(used: map<Key, nat>, c: Claim) {
    c.key in used && (Unlimited(c) || used[c.key] <= c.limit - c.count)
  }

  function Answered(w: World, i: nat, a: Answer): World {
    w.(workers := w.workers[i := Idle], answers := w.answers + [a])
  }

  function Goto(w: World, i: nat, pc: Pc): World {
    w.(workers := w.workers[i := pc])
  }

  function Add(w: World, c: Claim): World
    requires c.key in w.used
  {
    w.(used := w.used[c.key := w.used[c.key] + c.count])
  }

  /** One database statement of a worker. */
  function Statement(w: World, i: nat): World
    requires i in w.workers && !w.workers[i].Idle?
  {
    match w.workers[i]
    case Updating(c) =>
      if HasRoom(w.used, c) then Answered(Add(w, c), i, Granted(c))
      else if Unlimited(c) then Goto(w, i, Inserting(c))
      else Goto(w, i, Looking(c, c.key in w.used))
    case Looking(c, _) =>
      if c.key in w.used || c.count > c.limit then Answered(w, i, Refused(c)) else Goto(w, i, Inserting(c))
    case Inserting(c) =>
      if c.key in w.used then Goto(w, i, Retrying(c))
      else Answered(w.(used := w.used[c.key := c.count]), i, Granted(c))
    case Retrying(c) =>
      if HasRoom(w.used, c) then Answered(Add(w, c), i, Granted(c)) else Answered(w, i, Refused(c))
    case Idle => w
  }

  function Step(w: World, e: Event): World
    requires Enabled(w, e)
  {
    match e
    case Ask(i, c) =>
      if !Unlimited(c) && c.count == 0 then Answered(w, i, Granted(c)) else Goto(w, i, Updating(c))
    case Run(i) => Statement(w, i)
  }

  /**
   * One statement after the other: the conditional update, the look for a row, the insert, and the
   * update again after an insert that lost.
   */
  lemma StatementsRead(w: World, i: nat)
    requires i in w.workers && !w.workers[i].Idle?
    ensures var next := Statement(w, i);
            match w.workers[i]
            case Updating(c) =>
              if c.key in w.used && (c.limit <= 0 || w.used[c.key] + c.count <= c.limit) then
                next == World(w.used[c.key := w.used[c.key] + c.count], w.workers[i := Idle], w.answers + [Granted(c)])
              else next == w.(workers :=
                     w.workers[i := if c.limit <= 0 then Inserting(c) else Looking(c, c.key in w.used)])
            case Looking(c, _) =>
              if c.key in w.used || c.count > c.limit then
                next == World(w.used, w.workers[i := Idle], w.answers + [Refused(c)])
              else next == w.(workers := w.workers[i := Inserting(c)])
            case Inserting(c) =>
              if c.key in w.used then next == w.(workers := w.workers[i := Retrying(c)])
              else next == World(w.used[c.key := c.count], w.workers[i := Idle], w.answers + [Granted(c)])
            case Retrying(c) =>
              if c.key in w.used && (c.limit <= 0 || w.used[c.key] + c.count <= c.limit) then
                next == World(w.used[c.key := w.used[c.key] + c.count], w.workers[i := Idle], w.answers + [Granted(c)])
              else next == World(w.used, w.workers[i := Idle], w.answers + [Refused(c)])
            case Idle => true
  {}

  function Attempt(w: World, e: Event): Option<World> {
    if Enabled(w, e) then Some(Step(w, e)) else None
  }

  function Play(w: World, events: seq<Event>): Option<World> {
    Runs.Play(Attempt, w, events)
  }

  // --- never overspent, never under-recorded ---------------------------------

  /** How much has been granted against a key. */
  function Total(answers: seq<Answer>, key: Key): nat {
    if |answers| == 0 then 0
    else
      var a := answers[|answers| - 1];
      Total(answers[..|answers| - 1], key) + (if a.Granted? && a.claim.key == key then a.claim.count else 0)
  }

  function Recorded(used: map<Key, nat>, key: Key): nat {
    if key in used then used[key] else 0
  }

  lemma TotalSnoc(answers: seq<Answer>, a: Answer, key: Key)
    ensures Total(answers + [a], key) ==
            Total(answers, key) + if a.Granted? && a.claim.key == key then a.claim.count else 0
  {
    assert (answers + [a])[..|answers|] == answers;
  }

  function Pending(pc: Pc): Option<Claim> {
    match pc
    case Idle => None
    case Updating(c) => Some(c)
    case Looking(c, _) => Some(c)
    case Inserting(c) => Some(c)
    case Retrying(c) => Some(c)
  }

  /** Every claim in hand respects its provider's limit. */
  ghost predicate Within(w: World, limits: map<Key, int>) {
    && (forall i :: i in w.workers && Pending(w.workers[i]).Some? ==>
          var c := Pending(w.workers[i]).value; c.key in limits ==> c.limit == limits[c.key])
    && (forall i :: i in w.workers && w.workers[i].Inserting? && !Unlimited(w.workers[i].claim) ==>
          w.workers[i].claim.count <= w.workers[i].claim.limit)
  }

  ghost predicate Respects(e: Event, limits: map<Key, int>) {
    e.Ask? && e.claim.key in limits ==> e.claim.limit == limits[e.claim.key]
  }

  ghost predicate Exact(w: World, before: map<Key, nat>) {
    forall key :: Recorded(w.used, key) == Recorded(before, key) + Total(w.answers, key)
  }

  ghost predicate Capped(w: World, limits: map<Key, int>) {
    forall key :: key in limits && limits[key] > 0 && key in w.used ==> w.used[key] <= limits[key]
  }

  /** A step answers at most one claim, and records what it grants and nothing else. */
  lemma StepRecordsItsGrant(w: World, e: Event)
    requires Enabled(w, e)
    ensures var next := Step(w, e);
            || (next.answers == w.answers && next.used == w.used)
            || (|next.answers| == |w.answers| + 1 && next.answers == w.answers + [next.answers[|w.answers|]]
                && var a := next.answers[|w.answers|];
                   forall key :: Recorded(next.used, key) ==
                     Recorded(w.used, key) + if a.Granted? && a.claim.key == key then a.claim.count else 0)
  {}

  lemma StepStaysExact(w: World, e: Event, before: map<Key, nat>)
    requires Enabled(w, e) && Exact(w, before)
    ensures Exact(Step(w, e), before)
  {
    var next := Step(w, e);
    StepRecordsItsGrant(w, e);
    if |next.answers| == |w.answers| + 1 {
      var a := next.answers[|w.answers|];
      forall key ensures Recorded(next.used, key) == Recorded(before, key) + Total(next.answers, key) {
        TotalSnoc(w.answers, a, key);
      }
    }
  }

  lemma StepStaysCapped(w: World, e: Event, limits: map<Key, int>)
    requires Enabled(w, e) && Within(w, limits) && Respects(e, limits) && Capped(w, limits)
    ensures Within(Step(w, e), limits) && Capped(Step(w, e), limits)
  {
    var next := Step(w, e);
    var i := e.worker;
    if e.Run? {
      assert Pending(w.workers[i]).Some?;
      assert Pending(next.workers[i]).Some? ==> Pending(next.workers[i]) == Pending(w.workers[i]);
    }
  }

  /**
   * However the workers' statements interleave, what is recorded against a day is exactly what has
   * been granted against it, and never more than its limit.
   */
  lemma {:induction false} AllowanceHolds(w: World, events: seq<Event>, limits: map<Key, int>)
    requires Play(w, events).Some? && w.answers == [] && Capped(w, limits)
    requires forall i :: i in w.workers ==> w.workers[i].Idle?
    requires forall k :: 0 <= k < |events| ==> Respects(events[k], limits)
    ensures var r := Play(w, events).value;
            && Exact(r, w.used) && Within(r, limits) && Capped(r, limits)
  {
    if |events| > 0 {
      var last := |events| - 1;
      AllowanceHolds(w, events[..last], limits);
      StepStaysExact(Play(w, events[..last]).value, events[last], w.used);
      StepStaysCapped(Play(w, events[..last]).value, events[last], limits);
    }
  }

  // --- when a reservation is refused -----------------------------------------

  /** A reservation with nobody else's statements in between. */
  function Alone(w: World, i: nat, c: Claim): World
    requires i in w.workers && w.workers[i].Idle?
  {
    Settle(Step(w, Ask(i, c)), i, 4)
  }

  function Settle(w: World, i: nat, steps: nat): World
    requires i in w.workers
    decreases steps
  {
    if steps == 0 || w.workers[i].Idle? then w else Settle(Statement(w, i), i, steps - 1)
  }

  /** It is refused exactly when it would take the day past its limit, and then nothing changes. */
  lemma AloneIsRefusedIff(w: World, i: nat, c: Claim)
    requires i in w.workers && w.workers[i].Idle?
    ensures var r := Alone(w, i, c);
            var over := c.limit > 0 && c.count > 0 && Recorded(w.used, c.key) + c.count > c.limit;
            && r.answers == w.answers + [if over then Refused(c) else Granted(c)]
            && r.used == (if over || (c.count == 0 && c.limit > 0) then w.used
                          else w.used[c.key := Recorded(w.used, c.key) + c.count])
  {
    var a := Step(w, Ask(i, c));
    if !a.workers[i].Idle? {
      var b := Statement(a, i);
      assert Settle(a, i, 4) == Settle(b, i, 3);
      if !b.workers[i].Idle? {
        var d := Statement(b, i);
        assert Settle(b, i, 3) == Settle(d, i, 2);
        if !d.workers[i].Idle? {
          assert Settle(d, i, 2) == Settle(Statement(d, i), i, 1);
        }
      }
    }
  }

  /** A worker that missed because of a full row has seen one that is still full. */
  ghost predicate MissedForGood(w: World) {
    forall i :: i in w.workers && w.workers[i].Looking? && w.workers[i].sawRow ==>
      !Unlimited(w.workers[i].claim) && w.workers[i].claim.key in w.used && !HasRoom(w.used, w.workers[i].claim)
  }

  /** A refusal that the day had room for. */
  predicate Needless(w: World, i: nat)
    requires i in w.workers && !w.workers[i].Idle?
  {
    var c := Pending(w.workers[i]).value;
    HasRoom(w.used, c) && Statement(w, i).answers == w.answers + [Refused(c)]
  }

  lemma {:induction false} RowsStayFull(w: World, events: seq<Event>)
    requires Play(w, events).Some? && forall i :: i in w.workers ==> w.workers[i].Idle?
    ensures MissedForGood(Play(w, events).value)
  {
    if |events| > 0 {
      var last := |events| - 1;
      RowsStayFull(w, events[..last]);
      FullStaysFull(Play(w, events[..last]).value, events[last]);
    }
  }

  lemma FullStaysFull(w: World, e: Event)
    requires Enabled(w, e) && MissedForGood(w)
    ensures MissedForGood(Step(w, e))
  {}

  /**
   * Among concurrent workers a refusal is needless exactly when the worker's update found no row
   * for the day, another worker has since written one, and that row still has room.
   */
  lemma NeedlessIff(w: World, events: seq<Event>, i: nat)
    requires Play(w, events).Some? && forall k :: k in w.workers ==> w.workers[k].Idle?
    requires i in Play(w, events).value.workers && !Play(w, events).value.workers[i].Idle?
    ensures var r := Play(w, events).value;
            Needless(r, i) <==>
            (r.workers[i].Looking? && !r.workers[i].sawRow && HasRoom(r.used, r.workers[i].claim))
  {
    RowsStayFull(w, events);
    var r := Play(w, events).value;
    var c := Pending(r.workers[i]).value;
    if HasRoom(r.used, c) && !r.workers[i].Looking? {
      var s := Statement(r, i);
      assert s.answers == r.answers || s.answers == r.answers + [Granted(c)];
      assert (r.answers + [Refused(c)])[|r.answers|] == Refused(c);
      if s.answers == r.answers + [Granted(c)] { assert s.answers[|r.answers|] == Granted(c); }
    }
  }

  /** What a worker that asked once the day was open is doing: never about to give up for want of a row. */
  ghost predicate AskedOpen(w: World, i: nat, c: Claim) {
    && c.key in w.used && i in w.workers
    && (w.workers[i].Idle? || (Pending(w.workers[i]) == Some(c) && (w.workers[i].Looking? ==> w.workers[i].sawRow)))
  }

  predicate AsksNoMore(events: seq<Event>, i: nat) {
    forall k :: 0 <= k < |events| ==> !(events[k].Ask? && events[k].worker == i)
  }

  lemma {:induction false} StaysAskedOpen(w: World, events: seq<Event>, i: nat, c: Claim)
    requires Play(w, events).Some? && AskedOpen(w, i, c) && AsksNoMore(events, i)
    ensures AskedOpen(Play(w, events).value, i, c)
  {
    if |events| > 0 {
      StaysAskedOpen(w, events[..|events| - 1], i, c);
      StepStaysAskedOpen(Play(w, events[..|events| - 1]).value, events[|events| - 1], i, c);
    }
  }

  lemma StepStaysAskedOpen(w: World, e: Event, i: nat, c: Claim)
    requires Enabled(w, e) && AskedOpen(w, i, c) && !(e.Ask? && e.worker == i)
    ensures AskedOpen(Step(w, e), i, c)
  {}

  /**
   * If the day's row is there when a claim is asked for, that claim is never refused needlessly,
   * whatever the other workers do before and meanwhile.
   */
  lemma OpenDaysRefuseNothingNeedlessly(w: World, before: seq<Event>, i: nat, c: Claim, after: seq<Event>)
    requires forall k :: k in w.workers ==> w.workers[k].Idle?
    requires Play(w, before).Some? && c.key in Play(w, before).value.used
    requires Play(w, before + [Ask(i, c)] + after).Some? && AsksNoMore(after, i)
    ensures var r := Play(w, before + [Ask(i, c)] + after).value;
            i in r.workers && (!r.workers[i].Idle? ==> !Needless(r, i))
  {
    var open := Play(w, before).value;
    Runs.PlayConcat(Attempt, w, before, [Ask(i, c)] + after);
    assert before + [Ask(i, c)] + after == before + ([Ask(i, c)] + after);
    AskPlaysFirst(open, i, c, after);
    var asked := Step(open, Ask(i, c));
    StaysAskedOpen(asked, after, i, c);
    var r := Play(asked, after).value;
    if !r.workers[i].Idle? {
      NeedlessIff(w, before + [Ask(i, c)] + after, i);
    }
  }

  lemma AskPlaysFirst(w: World, i: nat, c: Claim, after: seq<Event>)
    requires Play(w, [Ask(i, c)] + after).Some?
    ensures Enabled(w, Ask(i, c)) && Play(w, [Ask(i, c)] + after) == Play(Step(w, Ask(i, c)), after)
  {
    Runs.PlayOne(Attempt, w, Ask(i, c));
    if Enabled(w, Ask(i, c)) {
      Runs.PlayConcat(Attempt, w, [Ask(i, c)], after);
    } else {
      Runs.PlayStops(Attempt, w, [Ask(i, c)], after);
    }
  }

  lemma PlayTwo(w: World, e: Event, f: Event)
    requires Enabled(w, e) && Enabled(Step(w, e), f)
    ensures Play(w, [e] + [f]) == Some(Step(Step(w, e), f))
  {
    Runs.PlayOne(Attempt, w, e);
    assert ([e] + [f])[..1] == [e];
  }

  /** Both ask, both miss, the second writes the day's row, and the first looks and gives up. */
  function RaceEvents(i: nat, j: nat, c: Claim, d: Claim): seq<Event> {
    [Ask(i, c)] + RaceAfterAsk(i, j, d) + [Run(i)]
  }

  function RaceAfterAsk(i: nat, j: nat, d: Claim): seq<Event> {
    [Ask(j, d)] + ([Run(i)] + [Run(j)]) + ([Run(j)] + [Run(j)])
  }

  /** Two claims against one day's limit that fit together. */
  predicate FitTogether(c: Claim, d: Claim) {
    c.key == d.key && c.limit == d.limit && c.count > 0 && d.count > 0 && c.count + d.count <= c.limit
  }

  /** The world once the second worker has written the row the first did not find. */
  function Raced(w: World, i: nat, j: nat, c: Claim, d: Claim): World {
    World(w.used[c.key := d.count], w.workers[i := Looking(c, false)][j := Idle], w.answers + [Granted(d)])
  }

  lemma RaceToWrite(w: World, i: nat, j: nat, c: Claim, d: Claim)
    requires i in w.workers && j in w.workers && i != j && w.workers[i].Idle? && w.workers[j].Idle?
    requires c.key !in w.used && FitTogether(c, d)
    ensures Play(Step(w, Ask(i, c)), RaceAfterAsk(i, j, d)) == Some(Raced(w, i, j, c, d))
  {
    var asked := Step(w, Ask(i, c));
    var a := Step(asked, Ask(j, d));
    var b := Step(Step(a, Run(i)), Run(j));
    var r := Step(Step(b, Run(j)), Run(j));
    Runs.PlayOne(Attempt, asked, Ask(j, d));
    PlayTwo(a, Run(i), Run(j));
    PlayTwo(b, Run(j), Run(j));
    Runs.PlayConcat(Attempt, asked, [Ask(j, d)], [Run(i)] + [Run(j)]);
    Runs.PlayConcat(Attempt, asked, [Ask(j, d)] + ([Run(i)] + [Run(j)]), [Run(j)] + [Run(j)]);
    assert b.workers[j] == Looking(d, false) && b.used == w.used && b.answers == w.answers;
    assert r.workers == Raced(w, i, j, c, d).workers;
  }

  /**
   * It does happen, wherever the day is not open and two workers are free: they ask for claims that
   * fit together and one is refused with room to spare.
   */
  lemma FirstCallsCanRace(w: World, i: nat, j: nat, c: Claim, d: Claim)
    requires i in w.workers && j in w.workers && i != j && w.workers[i].Idle? && w.workers[j].Idle?
    requires c.key !in w.used && FitTogether(c, d)
    ensures Play(w, RaceEvents(i, j, c, d)).Some?
    ensures var r := Play(w, RaceEvents(i, j, c, d)).value;
            r.answers == w.answers + [Granted(d)] + [Refused(c)] && r.used == w.used[c.key := d.count]
  {
    var raced := Raced(w, i, j, c, d);
    RaceToWrite(w, i, j, c, d);
    Runs.PlayOne(Attempt, w, Ask(i, c));
    Runs.PlayConcat(Attempt, w, [Ask(i, c)], RaceAfterAsk(i, j, d));
    Runs.PlayOne(Attempt, raced, Run(i));
    Runs.PlayConcat(Attempt, w, [Ask(i, c)] + RaceAfterAsk(i, j, d), [Run(i)]);
  }

  /** Some way for the others to go on in which this claim, asked for now, is about to be refused needlessly. */
  ghost predicate MayBeRefusedNeedlessly(w: World, i: nat, c: Claim) {
    exists after :: RefusedAfter(w, i, c, after)
  }

  ghost predicate RefusedAfter(w: World, i: nat, c: Claim, after: seq<Event>) {
    && Play(w, [Ask(i, c)] + after).Some? && AsksNoMore(after, i)
    && var r := Play(w, [Ask(i, c)] + after).value;
       i in r.workers && !r.workers[i].Idle? && Needless(r, i)
  }

  /** A claim short of the whole limit risks that exactly when the day is not open as it is asked for. */
  lemma NeedlessRefusalIffDayNotOpen(w: World, i: nat, j: nat, c: Claim)
    requires forall k :: k in w.workers ==> w.workers[k].Idle?
    requires i in w.workers && j in w.workers && i != j && 0 < c.count < c.limit
    ensures MayBeRefusedNeedlessly(w, i, c) <==> c.key !in w.used
  {
    if c.key in w.used {
      forall after ensures !RefusedAfter(w, i, c, after) {
        if Play(w, [Ask(i, c)] + after).Some? && AsksNoMore(after, i) {
          assert [] + [Ask(i, c)] + after == [Ask(i, c)] + after;
          OpenDaysRefuseNothingNeedlessly(w, [], i, c, after);
        }
      }
    } else {
      var d := Claim(c.key, c.limit, 1);
      RaceToWrite(w, i, j, c, d);
      Runs.PlayOne(Attempt, w, Ask(i, c));
      Runs.PlayConcat(Attempt, w, [Ask(i, c)], RaceAfterAsk(i, j, d));
      assert RefusedAfter(w, i, c, RaceAfterAsk(i, j, d));
    }
  }

  // --- the store -------------------------------------------------------------

  /** The usage table and one worker's undisturbed use of it. */
  class UsageTable {
    var used: map<Key, nat>

    constructor ()
      ensures used == map[]
    {
      used := map[];
    }

    method Reserve(c: Claim) returns (granted: bool)
      modifies this
      ensures granted <==> c.limit <= 0 || c.count == 0 || Recorded(old(used), c.key) + c.count <= c.limit
      ensures Recorded(used, c.key) ==
              Recorded(old(used), c.key) + if granted then c.count else 0
      ensures forall key :: key != c.key ==> Recorded(used, key) == Recorded(old(used), key)
      ensures forall w: World, i: nat :: i in w.workers && w.workers[i].Idle? && w.used == old(used) ==>
                Alone(w, i, c).answers == w.answers + [if granted then Granted(c) else Refused(c)]
    {
      forall w: World, i: nat | i in w.workers && w.workers[i].Idle? && w.used == old(used)
        ensures Alone(w, i, c).answers ==
                w.answers + [if !Unlimited(c) && c.count > 0 && Recorded(w.used, c.key) + c.count > c.limit
                             then Refused(c) else Granted(c)]
      {
        AloneIsRefusedIff(w, i, c);
      }
      if Unlimited(c) {
        used := used[c.key := Recorded(used, c.key) + c.count];
        return true;
      }
      if c.count == 0 {
        return true;
      }
      if c.key in used && used[c.key] <= c.limit - c.count {
        used := used[c.key := used[c.key] + c.count];
        return true;
      }
      if c.key in used || c.count > c.limit {
        return false;
      }
      used := used[c.key := c.count];
      granted := true;
    }
  }
}
