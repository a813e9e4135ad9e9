/** Leader election by a database lease: any number of schedulers, any interleaving of their statements. */
module LeaderLease {
  import opened Options
  import Runs

  /** The one row of the lease table for a role. */
  datatype Lease = Lease(holder: nat, expiresAt: int)

  /**
   * Where a scheduler is in `acquire`: outside it, about to run the conditional update, to look for
   * a row after the update matched none, or to insert after finding none. `asOf` is the clock it
   * read on entry.
   */
  datatype Pc = Outside | Updating(asOf: int) | Looking(asOf: int) | Inserting(asOf: int)

  /** A scheduler, and until when its last successful `acquire` told it that it leads. */
  datatype Scheduler = Scheduler(pc: Pc, leadsUntil: Option<int>)

  datatype World = World(now: int, lease: Option<Lease>, schedulers: map<nat, Scheduler>)

  /** One atomic database statement or local step. The time to live is each scheduler's own. */
  datatype Event =
    | Elapse(seconds: nat)
    | Enter(who: nat)
    | Update(who: nat, ttl: nat)
    | Look(who: nat)
    | Insert(who: nat, ttl: nat)
    | Release(who: nat)

  predicate Enabled(w: World, e: Event) {
    match e
    case Elapse(_) => true
    case Enter(p) => p in w.schedulers && w.schedulers[p].pc.Outside?
    case Update(p, _) => p in w.schedulers && w.schedulers[p].pc.Updating?
    case Look(p) => p in w.schedulers && w.schedulers[p].pc.Looking?
    case Insert(p, _) => p in w.schedulers && w.schedulers[p].pc.Inserting?
    case Release(p) => p in w.schedulers && w.schedulers[p].pc.Outside?
  }

  function Move(w: World, p: nat, pc: Pc): World
    requires p in w.schedulers
  {
    w.(schedulers := w.schedulers[p := w.schedulers[p].(pc := pc)])
  }

  /** `acquire` returns true, having written the row. */
  function Won(w: World, p: nat, until: int): World {
    w.(lease := Some(Lease(p, until)), schedulers := w.schedulers[p := Scheduler(Outside, Some(until))])
  }

  /** `acquire` returns false. */
  function Lost(w: World, p: nat): World {
    w.(schedulers := w.schedulers[p := Scheduler(Outside, None)])
  }

  /** The row is this scheduler's own, or has run out by the clock it read. */
  predicate Takeable(lease: Option<Lease>, p: nat, asOf: int) {
    lease.Some? && (lease.value.holder == p || lease.value.expiresAt <= asOf)
  }

  function Step(w: World, e: Event): World
    requires Enabled(w, e)
  {
    match e
    case Elapse(seconds) => w.(now := w.now + seconds)
    case Enter(p) => Move(w, p, Updating(w.now))
    case Update(p, ttl) =>
      var asOf := w.schedulers[p].pc.asOf;
      if Takeable(w.lease, p, asOf) then Won(w, p, asOf + ttl) else Move(w, p, Looking(asOf))
    case Look(p) =>
      if w.lease.Some? then Lost(w, p) else Move(w, p, Inserting(w.schedulers[p].pc.asOf))
    case Insert(p, ttl) =>
      if w.lease.Some? then Lost(w, p) else Won(w, p, w.schedulers[p].pc.asOf + ttl)
    case Release(p) =>
      var t := w.(schedulers := w.schedulers[p := Scheduler(Outside, None)]);
      if w.lease.Some? && w.lease.value.holder == p then t.(lease := None) else t
  }

  /**
   * The update takes or renews a row that is the scheduler's own or had run out by the clock read on
   * entry, for a term from that reading; the insert takes a role nobody holds; a release gives up the
   * row only where it is the scheduler's own.
   */
  lemma StatementsRead(w: World, e: Event)
    requires Enabled(w, e)
    ensures var next := Step(w, e);
            match e
            case Elapse(seconds) => next == w.(now := w.now + seconds)
            case Enter(p) => next == w.(schedulers := w.schedulers[p := w.schedulers[p].(pc := Updating(w.now))])
            case Update(p, ttl) =>
              var asOf := w.schedulers[p].pc.asOf;
              if w.lease.Some? && (w.lease.value.holder == p || w.lease.value.expiresAt <= asOf) then
                next == World(w.now, Some(Lease(p, asOf + ttl)),
                              w.schedulers[p := Scheduler(Outside, Some(asOf + ttl))])
              else next == w.(schedulers := w.schedulers[p := w.schedulers[p].(pc := Looking(asOf))])
            case Look(p) =>
              if w.lease.Some? then next == w.(schedulers := w.schedulers[p := Scheduler(Outside, None)])
              else next == w.(schedulers :=
                     w.schedulers[p := w.schedulers[p].(pc := Inserting(w.schedulers[p].pc.asOf))])
            case Insert(p, ttl) =>
              var until := w.schedulers[p].pc.asOf + ttl;
              if w.lease.Some? then next == w.(schedulers := w.schedulers[p := Scheduler(Outside, None)])
              else next == World(w.now, Some(Lease(p, until)), w.schedulers[p := Scheduler(Outside, Some(until))])
            case Release(p) =>
              next == World(w.now, if w.lease.Some? && w.lease.value.holder == p then None else w.lease,
                            w.schedulers[p := Scheduler(Outside, None)])
  {}

  function Try(w: World, e: Event): Option<World> {
    if Enabled(w, e) then Some(Step(w, e)) else None
  }

  function Run(w: World, events: seq<Event>): Option<World> {
    Runs.Play(Try, w, events)
  }

  /** A scheduler that may act as leader now. */
  predicate Leads(w: World, p: nat) {
    p in w.schedulers && w.schedulers[p].leadsUntil.Some? && w.schedulers[p].leadsUntil.value > w.now
  }

  ghost predicate AtMostOneLeader(w: World) {
    forall p, q :: Leads(w, p) && Leads(w, q) ==> p == q
  }

  /** Whoever leads owns the row, to the second; and nobody's clock reading is ahead of time. */
  ghost predicate Sound(w: World) {
    && (forall p :: Leads(w, p) ==> w.lease == Some(Lease(p, w.schedulers[p].leadsUntil.value)))
    && (forall p :: p in w.schedulers && !w.schedulers[p].pc.Outside? ==> w.schedulers[p].pc.asOf <= w.now)
  }

  lemma StepKeepsSound(w: World, e: Event)
    requires Sound(w) && Enabled(w, e)
    ensures Sound(Step(w, e))
  {
    var next := Step(w, e);
    forall p | Leads(next, p)
      ensures next.lease == Some(Lease(p, next.schedulers[p].leadsUntil.value))
    {
      if !Leads(w, p) {
        assert next.schedulers[p] != w.schedulers[p] || e.Elapse?;
      }
    }
  }

  lemma {:induction false} RunKeepsSound(w: World, events: seq<Event>)
    requires Sound(w) && Run(w, events).Some?
    ensures Sound(Run(w, events).value)
  {
    if |events| > 0 {
      RunKeepsSound(w, events[..|events| - 1]);
      StepKeepsSound(Run(w, events[..|events| - 1]).value, events[|events| - 1]);
    }
  }

  /** Schedulers as they start: outside `acquire`, none told that it leads, whatever row is there. */
  predicate Starting(w: World) {
    forall p :: p in w.schedulers ==> w.schedulers[p] == Scheduler(Outside, None)
  }

  /**
   * However many schedulers there are and however their statements interleave, no two lead at once,
   * and the leader is the holder the table names.
   */
  lemma OneLeaderAtATime(w: World, events: seq<Event>)
    requires Starting(w) && Run(w, events).Some?
    ensures AtMostOneLeader(Run(w, events).value)
    ensures forall p :: Leads(Run(w, events).value, p) ==>
              Run(w, events).value.lease.Some? && Run(w, events).value.lease.value.holder == p
  {
    RunKeepsSound(w, events);
  }

  // --- one undisturbed attempt -----------------------------------------------

  /** `acquire` with nobody else's statements in between. */
  function Attempt(w: World, p: nat, ttl: nat): World
    requires Enabled(w, Enter(p))
  {
    var a := Step(w, Enter(p));
    var b := Step(a, Update(p, ttl));
    if b.schedulers[p].pc.Outside? then b
    else
      var c := Step(b, Look(p));
      if c.schedulers[p].pc.Outside? then c else Step(c, Insert(p, ttl))
  }

  /** It succeeds exactly when the row is free, its own, or run out, and then for a full term. */
  lemma AttemptSucceedsIff(w: World, p: nat, ttl: nat)
    requires Enabled(w, Enter(p))
    ensures var free := w.lease == None || w.lease.value.holder == p || w.lease.value.expiresAt <= w.now;
            && Attempt(w, p, ttl).schedulers[p].leadsUntil == (if free then Some(w.now + ttl) else None)
            && Attempt(w, p, ttl).lease == (if free then Some(Lease(p, w.now + ttl)) else w.lease)
  {}

  /** A leader that renews in time keeps leading; one that releases can be followed at once. */
  lemma RenewalAndHandover(w: World, p: nat, q: nat, ttl: nat)
    requires Sound(w) && Leads(w, p) && p != q && q in w.schedulers
    requires w.schedulers[p].pc.Outside? && w.schedulers[q].pc.Outside? && ttl > 0
    ensures Leads(Attempt(w, p, ttl), p)
    ensures !Leads(Attempt(w, q, ttl), q) && Attempt(w, q, ttl).lease == w.lease
    ensures Leads(Attempt(Step(w, Release(p)), q, ttl), q)
  {
    AttemptSucceedsIff(w, p, ttl);
    AttemptSucceedsIff(w, q, ttl);
    AttemptSucceedsIff(Step(w, Release(p)), q, ttl);
  }

  // --- the holder ------------------------------------------------------------

  /** The lease table, and one scheduler's undisturbed use of it. */
  class LeaseHolder {
    const holder: nat
    const ttl: nat
    var lease: Option<Lease>

    constructor (holder: nat, ttl: nat, lease: Option<Lease>)
      ensures this.holder == holder && this.ttl == ttl && this.lease == lease
    {
      this.holder, this.ttl, this.lease := holder, ttl, lease;
    }

    method Acquire(now: int) returns (held: bool)
      modifies `lease
      ensures held <==> old(lease) == None || old(lease).value.holder == holder || old(lease).value.expiresAt <= now
      ensures lease == if held then Some(Lease(holder, now + ttl)) else old(lease)
      ensures forall w: World :: Enabled(w, Enter(holder)) && w.lease == old(lease) && w.now == now ==>
                var r := Attempt(w, holder, ttl); r.lease == lease && (r.schedulers[holder].leadsUntil.Some? <==> held)
    {
      if lease.Some? && (lease.value.holder == holder || lease.value.expiresAt <= now) {
        lease := Some(Lease(holder, now + ttl));
        return true;
      }
      if lease.Some? {
        return false;
      }
      lease := Some(Lease(holder, now + ttl));
      held := true;
    }

    method GiveUp() returns (removed: bool)
      modifies `lease
      ensures removed <==> old(lease).Some? && old(lease).value.holder == holder
      ensures lease == if removed then None else old(lease)
    {
      removed := lease.Some? && lease.value.holder == holder;
      if removed {
        lease := None;
      }
    }
  }
}
