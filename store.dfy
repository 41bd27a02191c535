/**
 * The slots a session handler writes, and the ordered log of its writes.
 * Every handler of the client is modelled as the list of writes it performs,
 * in order; `Run` applies such a list to a snapshot of the slots.
 */
module Store {
  import opened Interface

  /** The query-cache entry under the key "user": undefined, null, or a user. */
  datatype CacheEntry = Unknown | Absent | Present(user: User)

  /** The client-side routes of the application. */
  datatype Route = Home | LoginPage | RegisterPage | UserPage {
    function Path(): string {
      match this
      case Home => "/"
      case LoginPage => "/login"
      case RegisterPage => "/register"
      case UserPage => "/user"
    }
  }

  /** The two remote calls a form can issue. */
  datatype Api = LoginCall | RegisterCall

  /** One observable step of a handler. */
  datatype Effect =
    | Notify(title: string)             // a toast with this title
    | Request(api: Api)                 // the mutation is started
    | WriteToken(token: Option<string>) // `storage.setToken(t)` is Some(t), `storage.clearToken()` is None
    | WriteCache(entry: CacheEntry)     // `queryClient.setQueryData(["user"], ...)`
    | SetContext(user: Option<User>)    // `setLoggedInUser(...)`
    | Navigate(to: Route)               // `navigate(...)`

  /** The session's slots together with the log of every effect so far. */
  datatype Snapshot = Snapshot(
    token: Option<string>,
    cache: CacheEntry,
    ctx: Option<User>,
    route: Route,
    log: seq<Effect>)

  /** Performs one effect: the slot it names is overwritten, and it is logged. */
  function Apply(s: Snapshot, e: Effect): (t: Snapshot)
    ensures t.log == s.log + [e]
    ensures t.token == (if e.WriteToken? then e.token else s.token)
    ensures t.cache == (if e.WriteCache? then e.entry else s.cache)
    ensures t.ctx == (if e.SetContext? then e.user else s.ctx)
    ensures t.route == (if e.Navigate? then e.to else s.route)
  {
    var s' := s.(log := s.log + [e]);
    match e
    case Notify(_) => s'
    case Request(_) => s'
    case WriteToken(tok) => s'.(token := tok)
    case WriteCache(entry) => s'.(cache := entry)
    case SetContext(u) => s'.(ctx := u)
    case Navigate(r) => s'.(route := r)
  }

  /** Performs the effects in order. */
  function Run(s: Snapshot, es: seq<Effect>): (t: Snapshot)
    ensures t.log == s.log + es
    decreases |es|
  {
    if es == [] then s
    else
      assert s.log + es == (s.log + [es[0]]) + es[1..];
      Run(Apply(s, es[0]), es[1..])
  }

  /** The notification titles in a log, in order. */
  function Titles(log: seq<Effect>): seq<string>
    decreases |log|
  {
    if log == [] then []
    else if log[0].Notify? then [log[0].title] + Titles(log[1..])
    else Titles(log[1..])
  }

  lemma {:induction false} TitlesAppend(a: seq<Effect>, b: seq<Effect>)
    ensures Titles(a + b) == Titles(a) + Titles(b)
    decreases |a|
  {
    if a != [] {
      assert (a + b)[1..] == a[1..] + b;
      TitlesAppend(a[1..], b);
    } else {
      assert a + b == b;
    }
  }

  /** Logging one more effect adds its title, if it is a notification. */
  lemma TitlesSnoc(log: seq<Effect>, e: Effect)
    ensures Titles(log + [e]) == Titles(log) + (if e.Notify? then [e.title] else [])
  {
    TitlesAppend(log, [e]);
    assert [e][1..] == [];
  }

  /** Running two lists one after the other is running their concatenation. */
  lemma {:induction false} RunAppend(s: Snapshot, a: seq<Effect>, b: seq<Effect>)
    ensures Run(s, a + b) == Run(Run(s, a), b)
    decreases |a|
  {
    if a == [] {
      assert a + b == b;
    } else {
      assert (a + b)[0] == a[0];
      assert (a + b)[1..] == a[1..] + b;
      RunAppend(Apply(s, a[0]), a[1..], b);
    }
  }

  /** Running a list is applying its first effect and running the rest. */
  lemma RunStep(s: Snapshot, e: Effect, rest: seq<Effect>)
    ensures Run(s, [e] + rest) == Run(Apply(s, e), rest)
  {
    assert ([e] + rest)[0] == e;
    assert ([e] + rest)[1..] == rest;
  }

  /** Appending one effect to a list already run. */
  lemma RunSnoc(s: Snapshot, a: seq<Effect>, e: Effect)
    ensures Run(s, a + [e]) == Apply(Run(s, a), e)
  {
    RunAppend(s, a, [e]);
    assert Run(Run(s, a), [e]) == Apply(Run(s, a), e) by {
      assert [e][1..] == [];
    }
  }

  /** Running a list of one to four writes, written out. */
  lemma RunOne(s: Snapshot, a: Effect)
    ensures Run(s, [a]) == Apply(s, a)
  {
    RunStep(s, a, []);
    assert [a] + [] == [a];
  }

  lemma RunTwo(s: Snapshot, a: Effect, b: Effect)
    ensures Run(s, [a, b]) == Apply(Apply(s, a), b)
  {
    assert [a, b] == [a] + [b];
    RunStep(s, a, [b]);
    RunOne(Apply(s, a), b);
  }

  lemma RunThree(s: Snapshot, a: Effect, b: Effect, c: Effect)
    ensures Run(s, [a, b, c]) == Apply(Apply(Apply(s, a), b), c)
  {
    assert [a, b, c] == [a] + [b, c];
    RunStep(s, a, [b, c]);
    RunTwo(Apply(s, a), b, c);
  }

  lemma RunFour(s: Snapshot, a: Effect, b: Effect, c: Effect, d: Effect)
    ensures Run(s, [a, b, c, d]) == Apply(Apply(Apply(Apply(s, a), b), c), d)
  {
    assert [a, b, c, d] == [a] + [b, c, d];
    RunStep(s, a, [b, c, d]);
    RunThree(Apply(s, a), b, c, d);
  }

  /** The four session slots hold the same values in both snapshots. */
  predicate SameSlots(s: Snapshot, t: Snapshot) {
    s.token == t.token && s.cache == t.cache && s.ctx == t.ctx && s.route == t.route
  }

  predicate NoTokenWrite(es: seq<Effect>) { forall i :: 0 <= i < |es| ==> !es[i].WriteToken? }
  predicate NoCacheWrite(es: seq<Effect>) { forall i :: 0 <= i < |es| ==> !es[i].WriteCache? }
  predicate NoContextWrite(es: seq<Effect>) { forall i :: 0 <= i < |es| ==> !es[i].SetContext? }
  predicate NoNavigation(es: seq<Effect>) { forall i :: 0 <= i < |es| ==> !es[i].Navigate? }

  /** A slot that no effect of the list names keeps its value. */
  lemma {:induction false} RunFrame(s: Snapshot, es: seq<Effect>)
    ensures NoTokenWrite(es) ==> Run(s, es).token == s.token
    ensures NoCacheWrite(es) ==> Run(s, es).cache == s.cache
    ensures NoContextWrite(es) ==> Run(s, es).ctx == s.ctx
    ensures NoNavigation(es) ==> Run(s, es).route == s.route
    decreases |es|
  {
    if es != [] {
      RunFrame(Apply(s, es[0]), es[1..]);
      assert NoTokenWrite(es) ==> NoTokenWrite(es[1..]);
      assert NoCacheWrite(es) ==> NoCacheWrite(es[1..]);
      assert NoContextWrite(es) ==> NoContextWrite(es[1..]);
      assert NoNavigation(es) ==> NoNavigation(es[1..]);
    }
  }
}
