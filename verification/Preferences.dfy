/** What the platform remembers about how an investor invests, and whose word counts. */
module Preferences {
  import opened Options

  datatype Source = Stated | Inferred

  datatype Row = Row(value: string, source: Source)

  /** One `remember` call: a key of one user's, and what is said about it. */
  datatype Saying = Saying(user: nat, key: string, value: string, source: Source)

  type Rows = map<(nat, string), Row>

  const DEFAULTS: map<string, string> := map[
    "investment_horizon" := "medium",
    "risk_appetite" := "moderate",
    "experience_level" := "intermediate",
    "explanation_depth" := "standard",
    "privacy_mode" := "standard"
  ]

  // --- remembering -----------------------------------------------------------

  function Remembered(rows: Rows, w: Saying): Rows {
    var id := (w.user, w.key);
    if id in rows && rows[id].source == Stated && w.source == Inferred then rows
    else rows[id := Row(w.value, w.source)]
  }

  function RememberedAll(rows: Rows, ws: seq<Saying>): Rows {
    if |ws| == 0 then rows else Remembered(RememberedAll(rows, ws[..|ws| - 1]), ws[|ws| - 1])
  }

  /** The last thing said about a key from one source, if anything. */
  function LastSaid(ws: seq<Saying>, user: nat, key: string, source: Source): Option<string> {
    if |ws| == 0 then None
    else
      var w := ws[|ws| - 1];
      if w.user == user && w.key == key && w.source == source then Some(w.value)
      else LastSaid(ws[..|ws| - 1], user, key, source)
  }

  /**
   * Whatever was said and in whatever order, what is stored under a key is the last stated value,
   * or the last inferred one where nothing was ever stated, or nothing.
   */
  lemma {:induction false} StatedOutranksInferred(ws: seq<Saying>, user: nat, key: string)
    ensures var rows := RememberedAll(map[], ws);
            var stated, inferred := LastSaid(ws, user, key, Stated), LastSaid(ws, user, key, Inferred);
            if stated.Some? then (user, key) in rows && rows[(user, key)] == Row(stated.value, Stated)
            else if inferred.Some? then (user, key) in rows && rows[(user, key)] == Row(inferred.value, Inferred)
            else (user, key) !in rows
  {
    if |ws| > 0 {
      StatedOutranksInferred(ws[..|ws| - 1], user, key);
    }
  }

  /** One user's words never touch another's rows. */
  lemma {:induction false} UsersAreApart(rows: Rows, ws: seq<Saying>, user: nat, key: string)
    requires forall i :: 0 <= i < |ws| ==> ws[i].user != user
    ensures (user, key) in RememberedAll(rows, ws) <==> (user, key) in rows
    ensures (user, key) in rows ==> RememberedAll(rows, ws)[(user, key)] == rows[(user, key)]
  {
    if |ws| > 0 {
      UsersAreApart(rows, ws[..|ws| - 1], user, key);
    }
  }

  // --- loading ---------------------------------------------------------------

  /** A user's stored values, leaving out the rows in `left`. */
  function Own(rows: Rows, user: nat, left: set<(nat, string)>): map<string, string> {
    map id | id in rows && id.0 == user && id !in left :: id.1 := rows[id].value
  }

  /** The preferences analysis starts from: a stored value where there is one, else the default. */
  function Loaded(rows: Rows, user: nat): map<string, string> {
    DEFAULTS + Own(rows, user, {})
  }

  /** An analysis for nobody in particular starts from these, and so does a new user's. */
  lemma DefaultsAreUnremarkable(user: nat)
    ensures Loaded(map[], user) == map[
      "investment_horizon" := "medium", "risk_appetite" := "moderate", "experience_level" := "intermediate",
      "explanation_depth" := "standard", "privacy_mode" := "standard"]
  {}

  /** Preferences of a known user are theirs; an anonymous analysis gets the defaults. */
  lemma LoadedReads(rows: Rows, user: nat, key: string)
    ensures key in Loaded(rows, user) <==> key in DEFAULTS || (user, key) in rows
    ensures (user, key) in rows ==> Loaded(rows, user)[key] == rows[(user, key)].value
    ensures key in DEFAULTS && (user, key) !in rows ==> Loaded(rows, user)[key] == DEFAULTS[key]
  {
    if (user, key) in rows {
      assert (user, key).1 == key && (user, key).0 == user;
    }
  }

  /** The rows hold, under every key of every user, the last stated value or else the last inferred. */
  ghost predicate Recalls(rows: Rows, ws: seq<Saying>) {
    && rows == RememberedAll(map[], ws)
    && forall user, key :: Recalled(rows, ws, user, key)
  }

  ghost predicate Recalled(rows: Rows, ws: seq<Saying>, user: nat, key: string) {
    var stated, inferred := LastSaid(ws, user, key, Stated), LastSaid(ws, user, key, Inferred);
    if stated.Some? then (user, key) in rows && rows[(user, key)] == Row(stated.value, Stated)
    else if inferred.Some? then (user, key) in rows && rows[(user, key)] == Row(inferred.value, Inferred)
    else (user, key) !in rows
  }

  lemma SayingsAreRecalled(ws: seq<Saying>)
    ensures Recalls(RememberedAll(map[], ws), ws)
  {
    forall user, key ensures Recalled(RememberedAll(map[], ws), ws, user, key) {
      StatedOutranksInferred(ws, user, key);
    }
  }

  lemma OneMore(ws: seq<Saying>, w: Saying)
    ensures Recalls(Remembered(RememberedAll(map[], ws), w), ws + [w])
  {
    assert (ws + [w])[..|ws|] == ws;
    SayingsAreRecalled(ws + [w]);
  }

  class MemoryManager {
    var rows: Rows
    /** Everything said so far. */
    ghost var said: seq<Saying>

    ghost predicate Valid()
      reads this
    {
      Recalls(rows, said)
    }

    constructor ()
      ensures Valid() && said == []
    {
      rows, said := map[], [];
      new;
      SayingsAreRecalled([]);
    }

    /** Whatever has been said before, a stated value is what is stored now; a guess only where none was stated. */
    method Remember(w: Saying)
      requires Valid()
      modifies this
      ensures Valid() && said == old(said) + [w]
      ensures w.source == Stated ==> (w.user, w.key) in rows && rows[(w.user, w.key)] == Row(w.value, Stated)
      ensures w.source == Inferred ==>
                var stated := LastSaid(old(said), w.user, w.key, Stated);
                (w.user, w.key) in rows &&
                rows[(w.user, w.key)] == if stated.Some? then Row(stated.value, Stated) else Row(w.value, Inferred)
      ensures forall id :: id != (w.user, w.key) ==>
                (id in rows <==> id in old(rows)) && (id in rows ==> rows[id] == old(rows)[id])
    {
      OneMore(said, w);
      assert Recalled(rows, said, w.user, w.key);
      said := said + [w];
      var id := (w.user, w.key);
      if id in rows {
        if rows[id].source == Stated && w.source == Inferred {
          return;
        }
      }
      rows := rows[id := Row(w.value, w.source)];
    }

    /** Overlays the user's rows, in whatever order the database returns them, on the defaults. */
    method Load(user: Option<nat>) returns (preferences: map<string, string>)
      ensures user.Some? ==> preferences == Loaded(rows, user.value)
      ensures user == None ==> preferences == map[
                "investment_horizon" := "medium", "risk_appetite" := "moderate",
                "experience_level" := "intermediate", "explanation_depth" := "standard",
                "privacy_mode" := "standard"]
    {
      preferences := DEFAULTS;
      if user == None {
        return;
      }
      var left := set id | id in rows && id.0 == user.value;
      OwnNone(rows, user.value, left);
      while left != {}
        invariant left <= set id | id in rows && id.0 == user.value
        invariant preferences == DEFAULTS + Own(rows, user.value, left)
        decreases |left|
      {
        var id :| id in left;
        OwnOneMore(rows, user.value, left, id);
        preferences := preferences[id.1 := rows[id].value];
        left := left - {id};
      }
    }
  }

  lemma OwnNone(rows: Rows, user: nat, left: set<(nat, string)>)
    requires left == set id | id in rows && id.0 == user
    ensures Own(rows, user, left) == map[]
  {}

  lemma OwnOneMore(rows: Rows, user: nat, left: set<(nat, string)>, id: (nat, string))
    requires id in left && id in rows && id.0 == user
    ensures Own(rows, user, left - {id}) == Own(rows, user, left)[id.1 := rows[id].value]
    ensures DEFAULTS + Own(rows, user, left - {id}) == (DEFAULTS + Own(rows, user, left))[id.1 := rows[id].value]
  {
    var before, after := Own(rows, user, left), Own(rows, user, left - {id});
    forall k ensures k in after <==> k == id.1 || k in before {
      if k in after { assert (user, k) in rows && (user, k) !in left - {id}; }
      if k in before { assert (user, k) in rows && (user, k) !in left; }
      if k == id.1 { assert id == (user, k); }
    }
  }
}
