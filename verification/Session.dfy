/** The stored session token: its expiry, the requests that carry it, and the event its end fires. */
module Session {
  import opened Options

  /** The stored expiry text as `Date.parse` sees it; an empty text is never looked at. */
  datatype Expiry = Empty | Unparseable | At(ms: int)

  /** A request as it left: when, and the token and expiry it was sent under. */
  datatype Sent = Sent(at: int, bearer: Option<string>, expiry: Option<Expiry>)

  /**
   * `token` and `expiry` are the two storage keys, `now` the clock; `signedIn` and `notice` what the
   * provider shows. `stores`, `fired` and `sent` record the run.
   */
  datatype State = State(
    token: Option<string>, expiry: Option<Expiry>, now: int, signedIn: bool, notice: bool,
    stores: nat, fired: nat, sent: seq<Sent>)

  /**
   * Time passing, the idle check, requests and responses, a login's token being stored, the answer
   * about the stored token at start-up and after a login, and signing out.
   */
  datatype Event =
    | Elapse(ms: nat)
    | Check
    | Request
    | Response(unauthorized: bool)
    | LoggedIn(token: string, expiry: Expiry)
    | Verified(found: bool)
    | SignedIn(found: bool)
    | SignOut

  predicate HasToken(s: State) {
    s.token.Some? && s.token.value != ""
  }

  predicate Expired(s: State) {
    s.expiry.Some? && s.expiry.value.At? && s.expiry.value.ms <= s.now
  }

  function Clear(s: State): State {
    s.(token := None, expiry := None)
  }

  /** The event reaches the provider's listener as it is dispatched. */
  function Fire(s: State): State {
    s.(fired := s.fired + 1, signedIn := false, notice := true)
  }

  /** What looking the token up does, and what it finds. */
  function StoredToken(s: State): (State, Option<string>) {
    if !HasToken(s) then (s, None)
    else if Expired(s) then (Fire(Clear(s)), None)
    else (s, s.token)
  }

  function Step(s: State, e: Event): State {
    match e
    case Elapse(ms) => s.(now := s.now + ms)
    case Check => StoredToken(s).0
    case Request =>
      var (t, found) := StoredToken(s);
      t.(sent := t.sent + [Sent(t.now, found, t.expiry)])
    case Response(unauthorized) =>
      if !unauthorized then s
      else
        var (t, found) := StoredToken(s);
        if found.Some? then Fire(Clear(t)) else t
    case LoggedIn(token, expiry) => s.(token := Some(token), expiry := Some(expiry), stores := s.stores + 1)
    case Verified(found) => if found then s.(signedIn := true) else Clear(s)
    case SignedIn(found) => if found then s.(signedIn := true, notice := false) else Clear(s)
    case SignOut => Clear(s).(signedIn := false, notice := false)
  }

  function Run(s: State, events: seq<Event>): State {
    if |events| == 0 then s else Step(Run(s, events[..|events| - 1]), events[|events| - 1])
  }

  // --- the expiry event ------------------------------------------------------

  function Held(s: State): nat {
    if HasToken(s) then 1 else 0
  }

  /** One step fires at most once, only at a token's end, and then storage is empty. */
  lemma FiringEmptiesStorage(s: State, e: Event)
    ensures Step(s, e).fired == s.fired || Step(s, e).fired == s.fired + 1
    ensures Step(s, e).fired > s.fired ==>
              && HasToken(s) && (Expired(s) || e == Response(true))
              && Step(s, e).token == None && Step(s, e).expiry == None
              && !Step(s, e).signedIn && Step(s, e).notice
    ensures HasToken(s) && !HasToken(Step(s, e)) ==>
              || Step(s, e).fired == s.fired + 1 || e == SignOut || e == Verified(false) || e == SignedIn(false)
              || (e.LoggedIn? && e.token == "")
  {}

  lemma StepSpendsToken(s: State, e: Event)
    ensures Step(s, e).fired + Held(Step(s, e)) + s.stores <= s.fired + Held(s) + Step(s, e).stores
  {}

  /** On any run the event has fired no more often than tokens have been stored. */
  lemma {:induction false} FiresOncePerToken(s: State, events: seq<Event>)
    ensures Run(s, events).fired - s.fired + Held(Run(s, events)) <= Run(s, events).stores - s.stores + Held(s)
  {
    if |events| > 0 {
      FiresOncePerToken(s, events[..|events| - 1]);
      StepSpendsToken(Run(s, events[..|events| - 1]), events[|events| - 1]);
    }
  }

  /** Between two firings a new token is stored: after one, none can follow until a sign-in. */
  lemma QuietUntilNextSignIn(s: State, e: Event, events: seq<Event>)
    requires Step(s, e).fired > s.fired
    requires Run(Step(s, e), events).stores == Step(s, e).stores
    ensures Run(Step(s, e), events).fired == Step(s, e).fired
  {
    FiringEmptiesStorage(s, e);
    FiresOncePerToken(Step(s, e), events);
    FiredNeverFalls(Step(s, e), events);
  }

  lemma {:induction false} FiredNeverFalls(s: State, events: seq<Event>)
    ensures Run(s, events).fired >= s.fired
  {
    if |events| > 0 {
      FiredNeverFalls(s, events[..|events| - 1]);
    }
  }

  /** A session with nothing stored yet. */
  function Blank(now: int): State {
    State(None, None, now, false, false, 0, 0, [])
  }

  // --- what each event does to storage ----------------------------------------

  /** The two keys change only by a login, by clearing, and by a look at a token that has run out. */
  lemma StorageChangesOnly(s: State, e: Event)
    ensures var next := Step(s, e);
            match e
            case LoggedIn(token, expiry) => next.token == Some(token) && next.expiry == Some(expiry)
            case SignOut => next.token == None && next.expiry == None
            case Verified(found) =>
              if found then next.token == s.token && next.expiry == s.expiry
              else next.token == None && next.expiry == None
            case SignedIn(found) =>
              if found then next.token == s.token && next.expiry == s.expiry
              else next.token == None && next.expiry == None
            case Elapse(_) => next.token == s.token && next.expiry == s.expiry
            case Response(unauthorized) =>
              if unauthorized && s.token.Some? && s.token.value != "" then next.token == None && next.expiry == None
              else next.token == s.token && next.expiry == s.expiry
            case _ =>
              if s.token.Some? && s.token.value != "" &&
                 s.expiry.Some? && s.expiry.value.At? && s.expiry.value.ms <= s.now
              then next.token == None && next.expiry == None
              else next.token == s.token && next.expiry == s.expiry
  {}

  /** What the reader sees: signed in only by an answer, noticed only by an expiry. */
  lemma DisplayChangesOnly(s: State, e: Event)
    ensures var next := Step(s, e);
            match e
            case SignedIn(true) => next.signedIn && !next.notice
            case Verified(true) => next.signedIn && next.notice == s.notice
            case SignOut => !next.signedIn && !next.notice
            case _ =>
              if next.fired > s.fired then !next.signedIn && next.notice
              else next.signedIn == s.signedIn && next.notice == s.notice
    ensures Step(s, e).now == s.now + if e.Elapse? then e.ms else 0
    ensures Step(s, e).stores == s.stores + if e.LoggedIn? then 1 else 0
    ensures Step(s, e).sent == s.sent ||
            (e.Request? && |Step(s, e).sent| == |s.sent| + 1 && s.sent <= Step(s, e).sent)
  {}

  /** The last login of a history. */
  function LastLogin(events: seq<Event>): Option<Event> {
    if |events| == 0 then None
    else if events[|events| - 1].LoggedIn? then Some(events[|events| - 1])
    else LastLogin(events[..|events| - 1])
  }

  /** The time a history takes. */
  function Elapsed(events: seq<Event>): nat {
    if |events| == 0 then 0
    else Elapsed(events[..|events| - 1]) + if events[|events| - 1].Elapse? then events[|events| - 1].ms else 0
  }

  /** Whatever is stored is the last login's token with the expiry it came with. */
  lemma {:induction false} StorageIsTheLastLogin(start: int, events: seq<Event>)
    ensures var s := Run(Blank(start), events);
            && s.now == start + Elapsed(events)
            && (s.token.Some? ==>
                  && LastLogin(events).Some? && LastLogin(events).value.LoggedIn?
                  && s.token == Some(LastLogin(events).value.token)
                  && s.expiry == Some(LastLogin(events).value.expiry))
  {
    if |events| > 0 {
      StorageIsTheLastLogin(start, events[..|events| - 1]);
      StorageChangesOnly(Run(Blank(start), events[..|events| - 1]), events[|events| - 1]);
    }
  }

  /**
   * Every token a request carries is the last login's, sent before the expiry that login gave; and
   * where that expiry has passed, or no token is left, the request carries none.
   */
  lemma NoExpiredTokenIsSent(start: int, events: seq<Event>)
    ensures var s := Run(Blank(start), events);
            var next := Run(Blank(start), events + [Request]);
            var now := start + Elapsed(events);
            && |next.sent| == |s.sent| + 1 && next.sent[|s.sent|].at == now
            && var bearer := next.sent[|s.sent|].bearer;
               && (bearer.Some? ==>
                     && LastLogin(events).Some? && LastLogin(events).value.LoggedIn?
                     && bearer == Some(LastLogin(events).value.token) && bearer.value != ""
                     && (LastLogin(events).value.expiry.At? ==> now < LastLogin(events).value.expiry.ms))
               && (bearer == None ==> !HasToken(next))
  {
    assert (events + [Request])[..|events|] == events;
    StorageIsTheLastLogin(start, events);
  }

  // --- the requests ----------------------------------------------------------

  /** A request that carries a token carries one whose expiry, where it can be read, is still ahead. */
  predicate Timely(r: Sent) {
    r.bearer.Some? ==>
      r.bearer.value != "" && !(r.expiry.Some? && r.expiry.value.At? && r.expiry.value.ms <= r.at)
  }

  lemma {:induction false} SentRecordsAreTimely(s: State, events: seq<Event>)
    requires forall i :: 0 <= i < |s.sent| ==> Timely(s.sent[i])
    ensures forall i :: 0 <= i < |Run(s, events).sent| ==> Timely(Run(s, events).sent[i])
  {
    if |events| > 0 {
      SentRecordsAreTimely(s, events[..|events| - 1]);
    }
  }

  /** Looking a token up twice is looking it up once: the second look finds what the first left. */
  lemma LookupSettles(s: State)
    ensures StoredToken(StoredToken(s).0) == StoredToken(s)
    ensures !(HasToken(StoredToken(s).0) && Expired(StoredToken(s).0))
    ensures StoredToken(s).1.Some? <==> HasToken(s) && !Expired(s)
  {}

  // --- the store -------------------------------------------------------------

  /** What holds of a session at every moment, whatever has happened since it was blank. */
  ghost predicate InOrder(start: int, events: seq<Event>, s: State) {
    && s == Run(Blank(start), events)
    && s.fired + Held(s) <= s.stores
    && forall i :: 0 <= i < |s.sent| ==> Timely(s.sent[i])
  }

  lemma SessionsAreInOrder(start: int, events: seq<Event>)
    ensures InOrder(start, events, Run(Blank(start), events))
  {
    FiresOncePerToken(Blank(start), events);
    SentRecordsAreTimely(Blank(start), events);
  }

  lemma OneMore(start: int, events: seq<Event>, s: State, e: Event)
    requires InOrder(start, events, s)
    ensures InOrder(start, events + [e], Step(s, e))
  {
    assert (events + [e])[..|events|] == events;
    SessionsAreInOrder(start, events + [e]);
  }

  /** The browser storage, the provider's state beside it, and what has happened so far. */
  class TokenStore {
    var token: Option<string>
    var expiry: Option<Expiry>
    var now: int
    var signedIn: bool
    var notice: bool
    ghost var stores: nat
    ghost var fired: nat
    ghost var sent: seq<Sent>
    ghost const start: int
    ghost var history: seq<Event>

    ghost function View(): State
      reads this
    {
      State(token, expiry, now, signedIn, notice, stores, fired, sent)
    }

    ghost predicate Valid()
      reads this
    {
      InOrder(start, history, View())
    }

    constructor (now: int)
      ensures Valid() && start == now && history == []
    {
      token, expiry, this.now, signedIn, notice := None, None, now, false, false;
      stores, fired, sent := 0, 0, [];
      start, history := now, [];
      new;
      SessionsAreInOrder(now, []);
    }

    method ClearToken()
      modifies `token, `expiry
      ensures View() == Clear(old(View()))
    {
      token, expiry := None, None;
    }

    method Dispatch()
      modifies `fired, `signedIn, `notice
      ensures View() == Fire(old(View()))
    {
      fired := fired + 1;
      signedIn, notice := false, true;
    }

    method Lookup() returns (found: Option<string>)
      modifies `token, `expiry, `fired, `signedIn, `notice
      ensures (View(), found) == StoredToken(old(View()))
    {
      if token == None || token == Some("") {
        return None;
      }
      if expiry.Some? && expiry.value.At? && expiry.value.ms <= now {
        ClearToken();
        Dispatch();
        return None;
      }
      found := token;
    }

    /** The idle check: a session that has run out is over, and nothing else is touched. */
    method OnCheck()
      requires Valid()
      modifies this
      ensures Valid() && history == old(history) + [Check]
      ensures var was := old(View());
              View() == if HasToken(was) && Expired(was)
                        then was.(token := None, expiry := None, signedIn := false, notice := true,
                                  fired := was.fired + 1)
                        else was
    {
      OneMore(start, history, View(), Check);
      var found := Lookup();
      history := history + [Check];
    }

    method Store(token: string, expiry: Expiry)
      requires Valid()
      modifies this
      ensures Valid() && history == old(history) + [LoggedIn(token, expiry)]
      ensures View() == old(View()).(token := Some(token), expiry := Some(expiry), stores := old(stores) + 1)
    {
      OneMore(start, history, View(), LoggedIn(token, expiry));
      this.token, this.expiry := Some(token), Some(expiry);
      stores := stores + 1;
      history := history + [LoggedIn(token, expiry)];
    }

    /** The token a request leaves with is the stored one, and has not run out. */
    method OnRequest() returns (bearer: Option<string>)
      requires Valid()
      modifies this
      ensures Valid() && history == old(history) + [Request]
      ensures bearer.Some? <==> HasToken(old(View())) && !Expired(old(View()))
      ensures bearer.Some? ==>
                && bearer == old(token)
                && View() == old(View()).(sent := old(sent) + [Sent(old(now), bearer, old(expiry))])
      ensures bearer == None ==>
                !HasToken(View()) && fired == old(fired) + if HasToken(old(View())) then 1 else 0
    {
      OneMore(start, history, View(), Request);
      bearer := Lookup();
      sent := sent + [Sent(now, bearer, expiry)];
      history := history + [Request];
    }

    /** A refusal ends the session if there is one, once; any other answer leaves it alone. */
    method OnResponse(status: nat)
      requires Valid()
      modifies this
      ensures Valid() && history == old(history) + [Response(status == 401)]
      ensures var was := old(View());
              View() == if status == 401 && HasToken(was)
                        then was.(token := None, expiry := None, signedIn := false, notice := true,
                                  fired := was.fired + 1)
                        else was
    {
      OneMore(start, history, View(), Response(status == 401));
      if status == 401 {
        var found := Lookup();
        if found.Some? {
          ClearToken();
          Dispatch();
        }
      }
      history := history + [Response(status == 401)];
    }

    /** The answer about the token found at start-up; a cancelled one is never delivered. */
    method OnVerified(found: bool)
      requires Valid()
      modifies this
      ensures Valid() && history == old(history) + [Verified(found)]
      ensures View() == if found then old(View()).(signedIn := true)
                        else old(View()).(token := None, expiry := None)
    {
      OneMore(start, history, View(), Verified(found));
      if found {
        signedIn := true;
      } else {
        ClearToken();
      }
      history := history + [Verified(found)];
    }

    /** The answer that completes a login: the stored token and its expiry stay as they were stored. */
    method OnSignedIn(found: bool)
      requires Valid()
      modifies this
      ensures Valid() && history == old(history) + [SignedIn(found)]
      ensures View() == if found then old(View()).(signedIn := true, notice := false)
                        else old(View()).(token := None, expiry := None)
    {
      OneMore(start, history, View(), SignedIn(found));
      history := history + [SignedIn(found)];
      if !found {
        ClearToken();
        return;
      }
      signedIn, notice := true, false;
    }

    /** Leaving on purpose fires nothing and leaves nothing behind. */
    method LeaveSession()
      requires Valid()
      modifies this
      ensures Valid() && history == old(history) + [SignOut]
      ensures View() == old(View()).(token := None, expiry := None, signedIn := false, notice := false)
    {
      OneMore(start, history, View(), SignOut);
      ClearToken();
      signedIn, notice := false, false;
      history := history + [SignOut];
    }
  }
}
