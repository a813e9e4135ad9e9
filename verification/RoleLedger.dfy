/** The operator's role commands and the audit log they append to. */
module RoleLedger {
  import opened Ascii

  datatype Role = Viewer | Investor | Admin

  datatype User = User(id: nat, role: Role)

  /** One audited role change. */
  datatype Entry = Entry(userId: nat, before: Role, after: Role)

  /** Accounts by stored address, and the log, oldest first. */
  datatype Ledger = Ledger(users: map<string, User>, log: seq<Entry>)

  /** A command line: which role to set, for the address as typed; `commits` says whether it gets through. */
  datatype Command = Command(typed: string, role: Role, commits: bool)

  /** The commands the tool is started with. */
  datatype Invocation = ListUsers | GrantAdmin(email: string) | RevokeAdmin(email: string)

  datatype Outcome = Missing | Already | Changed | Failed

  // --- one command -----------------------------------------------------------

  /** What Python's `strip` takes off. */
  predicate IsSpace(c: char) {
    c in {' ', '\U{0085}', '\U{00A0}', '\U{1680}', '\U{2028}', '\U{2029}', '\U{202F}', '\U{205F}', '\U{3000}'}
    || '\U{0009}' <= c <= '\U{000D}' || '\U{001C}' <= c <= '\U{001F}' || '\U{2000}' <= c <= '\U{200A}'
  }

  /** By code point. */
  lemma StrippedCharacters(c: char)
    ensures IsSpace(c) <==>
            c as int in {9, 10, 11, 12, 13, 28, 29, 30, 31, 32, 133, 160, 5760, 8192, 8193, 8194, 8195, 8196, 8197,
                         8198, 8199, 8200, 8201, 8202, 8232, 8233, 8239, 8287, 12288}
  {}

  function Strip(s: string): string {
    if |s| > 0 && IsSpace(s[0]) then Strip(s[1..])
    else if |s| > 0 && IsSpace(s[|s| - 1]) then Strip(s[..|s| - 1])
    else s
  }

  function Address(typed: string): string {
    Lowercase(Strip(typed))
  }

  predicate Spaces(s: string) {
    forall i :: 0 <= i < |s| ==> IsSpace(s[i])
  }

  /** No white space at either end. */
  predicate Tight(s: string) {
    |s| > 0 ==> !IsSpace(s[0]) && !IsSpace(s[|s| - 1])
  }

  /** The text is the address as someone may type it: in any case, with white space around it. */
  ghost predicate TypedFor(typed: string, email: string) {
    exists before, t, after :: TypedAs(typed, email, before, t, after)
  }

  predicate TypedAs(typed: string, email: string, before: string, t: string, after: string) {
    typed == before + t + after && Spaces(before) && Spaces(after) && Tight(email) && Lowercase(t) == email
  }

  lemma FoldedSpaces(s: string)
    ensures |Lowercase(s)| == |s|
    ensures forall i :: 0 <= i < |s| ==> (IsSpace(Lowercase(s)[i]) <==> IsSpace(s[i]))
  {}

  lemma {:induction false} StripIs(before: string, t: string, after: string)
    requires Spaces(before) && Spaces(after) && Tight(t)
    ensures Strip(before + t + after) == t
    decreases |before| + |after|
  {
    var s := before + t + after;
    if |before| > 0 {
      assert s[1..] == before[1..] + t + after;
      StripIs(before[1..], t, after);
    } else if |after| > 0 {
      if |t| == 0 {
        assert s == after && s[1..] == [] + t + after[1..];
        StripIs([], t, after[1..]);
      } else {
        assert s[0] == t[0];
        assert s[..|s| - 1] == [] + t + after[..|after| - 1];
        StripIs([], t, after[..|after| - 1]);
      }
    } else {
      assert s == t;
    }
  }

  lemma {:induction false} StripFinds(typed: string) returns (before: string, after: string)
    ensures typed == before + Strip(typed) + after && Spaces(before) && Spaces(after) && Tight(Strip(typed))
  {
    before, after := "", "";
    if |typed| > 0 && IsSpace(typed[0]) {
      before, after := StripFinds(typed[1..]);
      FrontJoins(typed, before, Strip(typed[1..]), after);
      before := [typed[0]] + before;
    } else if |typed| > 0 && IsSpace(typed[|typed| - 1]) {
      before, after := StripFinds(typed[..|typed| - 1]);
      BackJoins(typed, before, Strip(typed[..|typed| - 1]), after);
      after := after + [typed[|typed| - 1]];
    }
  }

  lemma FrontJoins(typed: string, before: string, t: string, after: string)
    requires |typed| > 0 && typed[1..] == before + t + after && IsSpace(typed[0]) && Spaces(before)
    ensures typed == [typed[0]] + before + t + after && Spaces([typed[0]] + before)
  {}

  lemma BackJoins(typed: string, before: string, t: string, after: string)
    requires |typed| > 0 && typed[..|typed| - 1] == before + t + after
    requires IsSpace(typed[|typed| - 1]) && Spaces(after)
    ensures typed == before + t + (after + [typed[|typed| - 1]]) && Spaces(after + [typed[|typed| - 1]])
  {}

  /** Every text is typed for exactly one address. */
  lemma TypedForIff(typed: string, email: string)
    ensures TypedFor(typed, email) <==> email == Address(typed)
  {
    if TypedFor(typed, email) {
      var before, t, after :| TypedAs(typed, email, before, t, after);
      FoldedSpaces(t);
      StripIs(before, t, after);
    }
    var before, after := StripFinds(typed);
    FoldedSpaces(Strip(typed));
    assert TypedAs(typed, Address(typed), before, Strip(typed), after);
  }

  function Judge(l: Ledger, c: Command): Outcome {
    var email := Address(c.typed);
    if email !in l.users then Missing
    else if l.users[email].role == c.role then Already
    else if c.commits then Changed
    else Failed
  }

  function Apply(l: Ledger, c: Command): Ledger {
    if Judge(l, c) != Changed then l
    else
      var email := Address(c.typed);
      var user := l.users[email];
      Ledger(l.users[email := user.(role := c.role)], l.log + [Entry(user.id, user.role, c.role)])
  }

  /** What a command typed for an address does to the account stored under it, and to nothing else. */
  lemma CommandActsOnItsAddress(l: Ledger, c: Command, email: string)
    requires TypedFor(c.typed, email)
    ensures if email in l.users && l.users[email].role != c.role && c.commits then
              var user := l.users[email];
              Apply(l, c) == Ledger(l.users[email := User(user.id, c.role)],
                                    l.log + [Entry(user.id, user.role, c.role)])
            else Apply(l, c) == l
  {
    TypedForIff(c.typed, email);
  }

  function ApplyAll(l: Ledger, cs: seq<Command>): Ledger {
    if |cs| == 0 then l else Apply(ApplyAll(l, cs[..|cs| - 1]), cs[|cs| - 1])
  }

  /** Every account has an id of its own. */
  ghost predicate DistinctIds(l: Ledger) {
    forall a, b :: a in l.users && b in l.users && l.users[a].id == l.users[b].id ==> a == b
  }

  lemma {:induction false} AccountsStay(l: Ledger, cs: seq<Command>)
    ensures ApplyAll(l, cs).users.Keys == l.users.Keys
    ensures forall a :: a in l.users ==> ApplyAll(l, cs).users[a].id == l.users[a].id
  {
    if |cs| > 0 {
      AccountsStay(l, cs[..|cs| - 1]);
    }
  }

  // --- replaying the log -----------------------------------------------------

  /** The roles an entry leaves, whoever it names. */
  function Replayed(users: map<string, User>, e: Entry): map<string, User> {
    map a | a in users :: if users[a].id == e.userId then users[a].(role := e.after) else users[a]
  }

  function Replay(users: map<string, User>, log: seq<Entry>): map<string, User> {
    if |log| == 0 then users else Replayed(Replay(users, log[..|log| - 1]), log[|log| - 1])
  }

  lemma ReplaySnoc(users: map<string, User>, log: seq<Entry>, e: Entry)
    ensures Replay(users, log + [e]) == Replayed(Replay(users, log), e)
  {
    assert (log + [e])[..|log|] == log;
  }

  /** The entry a change writes. */
  function Written(l: Ledger, c: Command): Entry
    requires Judge(l, c) == Changed
  {
    var user := l.users[Address(c.typed)];
    Entry(user.id, user.role, c.role)
  }

  /** A change is the entry it writes: one account's role, and the entry at the end of the log. */
  lemma ChangeReplays(l: Ledger, c: Command)
    requires DistinctIds(l) && Judge(l, c) == Changed
    ensures Apply(l, c) == Ledger(Replayed(l.users, Written(l, c)), l.log + [Written(l, c)])
  {
    assert Apply(l, c).users == Replayed(l.users, Written(l, c));
  }

  /** Only entries are added, and replaying them over the roles at the start gives the roles now. */
  lemma {:induction false} LogReplaysToTheRoles(l: Ledger, cs: seq<Command>)
    requires DistinctIds(l)
    ensures l.log <= ApplyAll(l, cs).log
    ensures Replay(l.users, ApplyAll(l, cs).log[|l.log|..]) == ApplyAll(l, cs).users
  {
    var now := ApplyAll(l, cs);
    if |cs| == 0 {
      assert now.log[|l.log|..] == [];
    } else {
      var before := ApplyAll(l, cs[..|cs| - 1]);
      var c := cs[|cs| - 1];
      LogReplaysToTheRoles(l, cs[..|cs| - 1]);
      AccountsStay(l, cs[..|cs| - 1]);
      if Judge(before, c) == Changed {
        var e := Written(before, c);
        ChangeReplays(before, c);
        assert now.log[|l.log|..] == before.log[|l.log|..] + [e];
        ReplaySnoc(l.users, before.log[|l.log|..], e);
      }
    }
  }

  // --- one account's history -------------------------------------------------

  /** The entries about one account. */
  function History(log: seq<Entry>, id: nat): seq<Entry> {
    if |log| == 0 then []
    else History(log[..|log| - 1], id) + (if log[|log| - 1].userId == id then [log[|log| - 1]] else [])
  }

  lemma HistorySnoc(log: seq<Entry>, e: Entry, id: nat)
    ensures History(log + [e], id) == History(log, id) + (if e.userId == id then [e] else [])
  {
    assert (log + [e])[..|log|] == log;
  }

  /** The role the first `i` entries leave. */
  function Ended(first: Role, history: seq<Entry>, i: nat): Role
    requires i <= |history|
  {
    if i == 0 then first else history[i - 1].after
  }

  /** Each entry starts where the one before it ended, and ends somewhere else. */
  ghost predicate Chained(first: Role, history: seq<Entry>, last: Role) {
    && (forall i :: 0 <= i < |history| ==> history[i].before == Ended(first, history, i))
    && (forall i :: 0 <= i < |history| ==> history[i].before != history[i].after)
    && last == Ended(first, history, |history|)
  }

  lemma ChainGrows(first: Role, history: seq<Entry>, e: Entry)
    requires Chained(first, history, e.before) && e.before != e.after
    ensures Chained(first, history + [e], e.after)
  {
    var longer := history + [e];
    forall i | 0 <= i <= |history| ensures Ended(first, longer, i) == Ended(first, history, i) {
      if i > 0 { assert longer[i - 1] == history[i - 1]; }
    }
    forall i | 0 <= i < |longer|
      ensures longer[i].before == Ended(first, longer, i) && longer[i].before != longer[i].after
    {
      if i < |history| { assert longer[i] == history[i]; }
    }
  }

  ghost predicate Commanded(history: seq<Entry>) {
    forall i :: 0 <= i < |history| ==> history[i].after != Viewer
  }

  /** The two commands the tool has. */
  predicate GrantOrRevoke(c: Command) {
    c.role == Admin || c.role == Investor
  }

  /** The entries commands have added about one account. */
  function Added(l: Ledger, cs: seq<Command>, email: string): seq<Entry>
    requires email in l.users
  {
    LogGrows(l, cs);
    History(ApplyAll(l, cs).log[|l.log|..], l.users[email].id)
  }

  lemma {:induction false} LogGrows(l: Ledger, cs: seq<Command>)
    ensures l.log <= ApplyAll(l, cs).log
  {
    if |cs| > 0 {
      LogGrows(l, cs[..|cs| - 1]);
    }
  }

  /** Whatever the log held before, each account's new entries chain from its role then to its role now. */
  lemma {:induction false} HistoriesChain(l: Ledger, cs: seq<Command>, email: string)
    requires DistinctIds(l) && email in l.users
    requires forall i :: 0 <= i < |cs| ==> GrantOrRevoke(cs[i])
    ensures l.log <= ApplyAll(l, cs).log && email in ApplyAll(l, cs).users
    ensures Chained(l.users[email].role, Added(l, cs, email), ApplyAll(l, cs).users[email].role)
    ensures Commanded(Added(l, cs, email))
  {
    if |cs| == 0 {
      assert l.log[|l.log|..] == [];
    } else {
      HistoriesChain(l, cs[..|cs| - 1], email);
      AccountsStay(l, cs[..|cs| - 1]);
      ChainGoesOn(l, cs, email);
    }
  }

  lemma ChainGoesOn(l: Ledger, cs: seq<Command>, email: string)
    requires DistinctIds(l) && email in l.users && |cs| > 0 && GrantOrRevoke(cs[|cs| - 1])
    requires var before := ApplyAll(l, cs[..|cs| - 1]);
             && l.log <= before.log && before.users.Keys == l.users.Keys
             && (forall a :: a in l.users ==> before.users[a].id == l.users[a].id)
             && Chained(l.users[email].role, Added(l, cs[..|cs| - 1], email), before.users[email].role)
             && Commanded(Added(l, cs[..|cs| - 1], email))
    ensures l.log <= ApplyAll(l, cs).log
    ensures Chained(l.users[email].role, Added(l, cs, email), ApplyAll(l, cs).users[email].role)
    ensures Commanded(Added(l, cs, email))
  {
    var before := ApplyAll(l, cs[..|cs| - 1]);
    var c := cs[|cs| - 1];
    if Judge(before, c) == Changed {
      var who, e := Address(c.typed), Written(before, c);
      var added := before.log[|l.log|..];
      assert ApplyAll(l, cs).log[|l.log|..] == added + [e];
      HistorySnoc(added, e, l.users[email].id);
      if e.userId == l.users[email].id {
        assert l.users[who].id == l.users[email].id;
        assert who == email;
        ChainGrows(l.users[email].role, History(added, l.users[email].id), e);
      } else {
        assert History(added + [e], l.users[email].id) == History(added, l.users[email].id);
      }
    }
  }

  /** So an account's new entries alternate: after the first, each one reverses the one before it. */
  lemma HistoriesAlternate(l: Ledger, cs: seq<Command>, email: string, i: nat)
    requires DistinctIds(l) && email in l.users
    requires forall k :: 0 <= k < |cs| ==> GrantOrRevoke(cs[k])
    requires 0 < i < |Added(l, cs, email)|
    ensures var history := Added(l, cs, email);
            && {history[i].after, history[i - 1].after} == {Admin, Investor}
            && (i > 1 ==> history[i].before == history[i - 1].after && history[i].after == history[i - 2].after)
  {
    HistoriesChain(l, cs, email);
    var history := Added(l, cs, email);
    assert Ended(l.users[email].role, history, i) == history[i - 1].after;
    if i > 1 { assert Ended(l.users[email].role, history, i - 1) == history[i - 2].after; }
  }

  // --- the last word ---------------------------------------------------------

  /** The role the last command that took effect asked for, where any did. */
  function LastAsked(l: Ledger, cs: seq<Command>, email: string): Role
    requires email in l.users
  {
    if |cs| == 0 then l.users[email].role
    else
      var before := ApplyAll(l, cs[..|cs| - 1]);
      var c := cs[|cs| - 1];
      if Address(c.typed) == email && Judge(before, c) in {Changed, Already} then c.role
      else LastAsked(l, cs[..|cs| - 1], email)
  }

  /** An account's role is what its last command to succeed asked for; the rest leave no trace. */
  lemma {:induction false} RoleIsLastAsked(l: Ledger, cs: seq<Command>, email: string)
    requires email in l.users
    ensures email in ApplyAll(l, cs).users && ApplyAll(l, cs).users[email].role == LastAsked(l, cs, email)
  {
    if |cs| > 0 {
      RoleIsLastAsked(l, cs[..|cs| - 1], email);
    }
  }

  // --- the tool --------------------------------------------------------------

  /** The database the tool opens a session on. */
  class Store {
    var users: map<string, User>
    var log: seq<Entry>

    ghost function View(): Ledger
      reads this
    {
      Ledger(users, log)
    }

    constructor (users: map<string, User>)
      ensures View() == Ledger(users, [])
    {
      this.users, log := users, [];
    }

    /**
     * For the address the text is typed for: exit code 1 exactly where it has no account, 0 otherwise.
     * A role other than the one held is set and logged, unless the commit fails, which is rolled back
     * and raised; a role already held changes nothing.
     */
    method SetRole(c: Command) returns (code: nat, raised: bool)
      modifies this
      ensures View() == Apply(old(View()), c)
      ensures forall email :: TypedFor(c.typed, email) ==>
                && (code == if email in old(users) then 0 else 1)
                && (raised <==> email in old(users) && old(users)[email].role != c.role && !c.commits)
                && (email in old(users) && !raised ==> email in users && users[email].role == c.role)
                && users.Keys == old(users).Keys
                && (forall other :: other in users && other != email ==> users[other] == old(users)[other])
                && log == old(log) +
                     if email in old(users) && old(users)[email].role != c.role && c.commits
                     then [Entry(old(users)[email].id, old(users)[email].role, c.role)] else []
    {
      forall email ensures TypedFor(c.typed, email) <==> email == Address(c.typed) {
        TypedForIff(c.typed, email);
      }
      code, raised := 0, false;
      var email := Address(c.typed);
      if email !in users {
        code := 1;
        return;
      }
      var before, beforeLog := users, log;
      var previous := users[email].role;
      if previous == c.role {
        return;
      }
      users := users[email := users[email].(role := c.role)];
      log := log + [Entry(users[email].id, previous, c.role)];
      if !c.commits {
        users, log := before, beforeLog;
        raised := true;
      }
    }

    /** The command line: what the two role commands ask for, whatever else is typed around the address. */
    method Invoke(i: Invocation, commits: bool) returns (code: nat, raised: bool)
      modifies this
      ensures i.ListUsers? ==> code == 0 && !raised && View() == old(View())
      ensures i.GrantAdmin? ==>
                View() == Apply(old(View()), Command(i.email, Admin, commits))
                && forall email :: TypedFor(i.email, email) && email in old(users) && commits ==>
                     code == 0 && !raised && email in users && users[email].role == Admin
      ensures i.RevokeAdmin? ==>
                View() == Apply(old(View()), Command(i.email, Investor, commits))
                && forall email :: TypedFor(i.email, email) && email in old(users) && commits ==>
                     code == 0 && !raised && email in users && users[email].role == Investor
    {
      match i {
        case ListUsers => code, raised := 0, false;
        case GrantAdmin(email) => code, raised := SetRole(Command(email, Admin, commits));
        case RevokeAdmin(email) => code, raised := SetRole(Command(email, Investor, commits));
      }
    }
  }
}
