/** Runs of a machine whose events may be impossible where it stands. */
module Runs {
  import opened Options

  /** The state after a history of events; nothing when one of them could not happen. */
  function Play<S, E>(attempt: (S, E) -> Option<S>, s: S, events: seq<E>): Option<S> {
    if |events| == 0 then Some(s)
    else
      match Play(attempt, s, events[..|events| - 1])
      case None => None
      case Some(before) => attempt(before, events[|events| - 1])
  }

  lemma {:induction false} PlayConcat<S, E>(attempt: (S, E) -> Option<S>, s: S, a: seq<E>, b: seq<E>)
    requires Play(attempt, s, a).Some?
    ensures Play(attempt, s, a + b) == Play(attempt, Play(attempt, s, a).value, b)
  {
    if |b| == 0 {
      assert a + b == a;
    } else {
      assert (a + b)[..|a + b| - 1] == a + b[..|b| - 1];
      PlayConcat(attempt, s, a, b[..|b| - 1]);
    }
  }

  lemma {:induction false} PlayStops<S, E>(attempt: (S, E) -> Option<S>, s: S, a: seq<E>, b: seq<E>)
    requires Play(attempt, s, a) == None
    ensures Play(attempt, s, a + b) == None
  {
    if |b| == 0 {
      assert a + b == a;
    } else {
      assert (a + b)[..|a + b| - 1] == a + b[..|b| - 1];
      PlayStops(attempt, s, a, b[..|b| - 1]);
    }
  }

  lemma PlayOne<S, E>(attempt: (S, E) -> Option<S>, s: S, e: E)
    ensures Play(attempt, s, [e]) == attempt(s, e)
  {
    assert [e][..0] == [];
  }
}
