/**
  The mail executor (src/email.rs, `spawn` and `execute_action`).

  A receiving task puts every incoming action into a shared hash set with
  `replace`; because actions hash and compare by variant only, the set holds
  at most one action per kind and the newest one wins. A periodic task
  drains the set, executes each drained action against the account's
  backend, sleeps, and then clears the busy flag if nothing new arrived.
  The tasks, the lock and the sleep are sequential steps here; what arrives
  during the sleep is a parameter of the cycle.
 */
module Email {
  import opened Wrappers
  import opened Actions
  import opened MailBackend
  import opened State

  /** Envelopes are listed ten to a page. */
  const PageSize: nat := 10

  // ---------------------------------------------------------------------------
  // The pending set

  /** The hash set seen through its hash: one slot per kind, each holding an
      action of that kind. */
  predicate Coalesced(p: map<Kind, Action>) {
    forall k :: k in p ==> Discriminant(p[k]) == k
  }

  /** Both maps agree about key `x`: both lack it or both hold the same value. */
  predicate SameSlot<K, V(==)>(m: map<K, V>, m': map<K, V>, x: K) {
    (x in m <==> x in m') && (x in m ==> m[x] == m'[x])
  }

  /** `HashSet::replace`: the action takes the slot of its kind, displacing an equal one. */
  function Insert(p: map<Kind, Action>, a: Action): (r: map<Kind, Action>)
    ensures Discriminant(a) in r && r[Discriminant(a)] == a
    ensures forall k :: k != Discriminant(a) ==> SameSlot(p, r, k)
    ensures Coalesced(p) ==> Coalesced(r)
    ensures r != map[]
  {
    p[Discriminant(a) := a]
  }

  /** The set after the receiving task has replaced in each action, in arrival order. */
  function InsertAll(p: map<Kind, Action>, xs: seq<Action>): map<Kind, Action> {
    if xs == [] then p else Insert(InsertAll(p, xs[..|xs| - 1]), xs[|xs| - 1])
  }

  /** The most recent action of kind `k` among `xs`, if any. */
  function LastOfKind(xs: seq<Action>, k: Kind): (r: Option<Action>)
    ensures r.Some? <==> exists i :: 0 <= i < |xs| && Discriminant(xs[i]) == k
    ensures r.Some? ==>
      (exists i :: 0 <= i < |xs| && xs[i] == r.value && Discriminant(xs[i]) == k &&
                   (forall j :: i < j < |xs| ==> Discriminant(xs[j]) != k))
  {
    if xs == [] then None
    else if Discriminant(xs[|xs| - 1]) == k then Some(xs[|xs| - 1])
    else
      var r := LastOfKind(xs[..|xs| - 1], k);
      assert forall i :: 0 <= i < |xs| - 1 ==> xs[..|xs| - 1][i] == xs[i];
      r
  }

  /** Coalescing keeps exactly the newest action of each kind: a slot holds the
      last arrival of its kind, and a kind that did not arrive keeps its slot. */
  lemma {:induction false} InsertAllLastWins(p: map<Kind, Action>, xs: seq<Action>, k: Kind)
    ensures LastOfKind(xs, k).Some? ==> k in InsertAll(p, xs) && InsertAll(p, xs)[k] == LastOfKind(xs, k).value
    ensures LastOfKind(xs, k).None? ==> SameSlot(p, InsertAll(p, xs), k)
  {
    if xs != [] {
      InsertAllLastWins(p, xs[..|xs| - 1], k);
    }
  }

  /** Whatever arrives, a set filled by `replace` stays coalesced. */
  lemma {:induction false} InsertAllCoalesced(p: map<Kind, Action>, xs: seq<Action>)
    requires Coalesced(p)
    ensures Coalesced(InsertAll(p, xs))
  {
    if xs != [] {
      InsertAllCoalesced(p, xs[..|xs| - 1]);
    }
  }

  /** The set is empty after the arrivals exactly when nothing arrived. */
  lemma InsertAllEmpty(xs: seq<Action>)
    ensures InsertAll(map[], xs) == map[] <==> xs == []
  {
  }

  lemma {:induction false} SubsetCardinality<T>(a: set<T>, b: set<T>)
    requires a <= b
    ensures |a| <= |b|
  {
    if a != {} {
      var x :| x in a;
      SubsetCardinality(a - {x}, b - {x});
    }
  }

  /** The pending set never holds more than one action per kind, hence never more
      than four, however many actions arrive. */
  lemma PendingBounded(p: map<Kind, Action>)
    requires Coalesced(p)
    ensures |p| <= |AllKinds| == 4
    ensures forall k, k' :: k in p && k' in p && k != k' ==> !Eq(p[k], p[k'])
  {
    assert p.Keys <= AllKinds;
    SubsetCardinality(p.Keys, AllKinds);
  }

  /** Two requests of the same kind with no drain in between leave only the later. */
  lemma SameKindSupersedes(p: map<Kind, Action>, a: Action, b: Action)
    requires Eq(a, b)
    ensures InsertAll(p, [a, b]) == Insert(p, b)
  {
    assert [a, b][..1] == [a] && [a][..0] == [];
    assert InsertAll(p, [a]) == Insert(p, a);
    assert Insert(Insert(p, a), b) == Insert(p, b);
  }

  /** `drained` lists each action of `p` whose kind is in `ks` exactly once:
      every entry is the action pending for its kind, no kind repeats, and
      every such action appears. */
  predicate EnumeratesOn(drained: seq<Action>, p: map<Kind, Action>, ks: set<Kind>) {
    && ks <= p.Keys
    && (forall i :: 0 <= i < |drained| ==>
          Discriminant(drained[i]) in ks && p[Discriminant(drained[i])] == drained[i])
    && (forall i, j :: 0 <= i < j < |drained| ==> Discriminant(drained[i]) != Discriminant(drained[j]))
    && (forall k :: k in ks ==> exists i :: 0 <= i < |drained| && drained[i] == p[k])
  }

  /** `drained` lists every action of `p` exactly once. */
  predicate Enumerates(drained: seq<Action>, p: map<Kind, Action>) {
    EnumeratesOn(drained, p, p.Keys)
  }

  /** Taking one more pending kind out extends the enumeration by its action. */
  lemma EnumeratesOnStep(drained: seq<Action>, p: map<Kind, Action>, ks: set<Kind>, k: Kind)
    requires Coalesced(p) && EnumeratesOn(drained, p, ks)
    requires k in p && k !in ks
    ensures EnumeratesOn(drained + [p[k]], p, ks + {k})
  {
    var d := drained + [p[k]];
    forall k' | k' in ks + {k} ensures exists i :: 0 <= i < |d| && d[i] == p[k'] {
      if k' == k {
        assert d[|drained|] == p[k'];
      } else {
        var i :| 0 <= i < |drained| && drained[i] == p[k'];
        assert d[i] == p[k'];
      }
    }
  }

  /** The shared `HashSet<Actions>` behind its lock. */
  class Debouncer {
    var pending: map<Kind, Action>

    ghost predicate Valid()
      reads this
    {
      Coalesced(pending)
    }

    constructor ()
      ensures Valid() && pending == map[]
    {
      pending := map[];
    }

    /** `replace(action)`. */
    method Replace(a: Action)
      requires Valid()
      modifies this
      ensures Valid()
      ensures pending == Insert(old(pending), a)
    {
      pending := pending[Discriminant(a) := a];
    }

    /** `len()`. */
    method Len() returns (n: nat)
      ensures n == |pending|
      ensures n == 0 <==> pending == map[]
    {
      n := |pending|;
    }

    /** `drain()`: removes every pending action and yields each once, in no particular order. */
    method Drain() returns (drained: seq<Action>)
      requires Valid()
      modifies this
      ensures Valid() && pending == map[]
      ensures Enumerates(drained, old(pending))
    {
      var p0 := pending;
      var rest := pending;
      ghost var done: set<Kind> := {};
      drained := [];
      while rest != map[]
        invariant rest.Keys == p0.Keys - done
        invariant forall k :: k in rest ==> rest[k] == p0[k]
        invariant EnumeratesOn(drained, p0, done)
        decreases |rest|
      {
        var k :| k in rest;
        EnumeratesOnStep(drained, p0, done, k);
        drained := drained + [rest[k]];
        done := done + {k};
        rest := rest - {k};
      }
      pending := map[];
    }
  }

  /** The receiving task: every incoming action is replaced into the set, in order. */
  method Receive(debouncer: Debouncer, incoming: seq<Action>)
    requires debouncer.Valid()
    modifies debouncer
    ensures debouncer.Valid()
    ensures debouncer.pending == InsertAll(old(debouncer.pending), incoming)
  {
    for i := 0 to |incoming|
      invariant debouncer.Valid()
      invariant debouncer.pending == InsertAll(old(debouncer.pending), incoming[..i])
    {
      assert incoming[..i + 1][..i] == incoming[..i];
      debouncer.Replace(incoming[i]);
    }
    assert incoming[..|incoming|] == incoming;
  }

  // ---------------------------------------------------------------------------
  // Executing one action

  /** What `execute_action` needs to run without panicking: for the two listing
      actions, a backend for the login and a successful backend call. */
  predicate Executable(backends: map<string, Backend>, a: Action) {
    match a
    case ListFolders(login) =>
      login in backends && backends[login].folders.Ok?
    case ListEnvelopes(login, folder, page) =>
      login in backends && backends[login].envelopes(folder, PageSize, page).Ok?
    case _ => true
  }

  /** The two cache maps the executor writes, keyed by login. */
  datatype Cache = Cache(
    folders: map<string, Option<seq<string>>>,
    envelopes: map<string, Option<seq<Envelope>>>)

  /** The cache once `a` has been executed. */
  function CacheAfter(c: Cache, backends: map<string, Backend>, a: Action): (r: Cache)
    requires Executable(backends, a)
    ensures a.ListFolders? ==>
      r.envelopes == c.envelopes && a.login in r.folders &&
      r.folders[a.login] == Some(FolderNames(backends[a.login].folders.value))
    ensures a.ListEnvelopes? ==>
      r.folders == c.folders && a.login in r.envelopes &&
      r.envelopes[a.login] == Some(backends[a.login].envelopes(a.folder, PageSize, a.page).value)
    ensures a.GetMessage? || a.SendMessage? ==> r == c
    ensures forall l :: l != a.login ==> SameSlot(c.folders, r.folders, l) && SameSlot(c.envelopes, r.envelopes, l)
  {
    match a
    case ListFolders(login) =>
      c.(folders := c.folders[login := Some(FolderNames(backends[login].folders.value))])
    case ListEnvelopes(login, folder, page) =>
      c.(envelopes := c.envelopes[login := Some(backends[login].envelopes(folder, PageSize, page).value)])
    case _ => c
  }

  /** The slot writes `a` performs, in order: "loading" first, then the result. */
  function SlotWrites(backends: map<string, Backend>, a: Action): (w: seq<SlotWrite>)
    requires Executable(backends, a)
    ensures a.ListFolders? || a.ListEnvelopes? ==>
      |w| == 2 && w[0].login == w[1].login == a.login &&
      w[0] == (if a.ListFolders? then FoldersWrite(a.login, None) else EnvelopesWrite(a.login, None)) &&
      (w[1].FoldersWrite? <==> a.ListFolders?)
    ensures a.ListFolders? ==> w[1] == FoldersWrite(a.login, Some(FolderNames(backends[a.login].folders.value)))
    ensures a.ListEnvelopes? ==>
      w[1] == EnvelopesWrite(a.login, Some(backends[a.login].envelopes(a.folder, PageSize, a.page).value))
    ensures a.GetMessage? || a.SendMessage? ==> w == []
  {
    match a
    case ListFolders(login) =>
      [FoldersWrite(login, None), FoldersWrite(login, Some(FolderNames(backends[login].folders.value)))]
    case ListEnvelopes(login, folder, page) =>
      [EnvelopesWrite(login, None),
       EnvelopesWrite(login, Some(backends[login].envelopes(folder, PageSize, page).value))]
    case _ => []
  }

  /** The last write an action logs is the value its slot holds afterwards. */
  lemma LastWriteIsCached(c: Cache, backends: map<string, Backend>, a: Action)
    requires Executable(backends, a) && (a.ListFolders? || a.ListEnvelopes?)
    ensures var w := SlotWrites(backends, a); var r := CacheAfter(c, backends, a);
      if a.ListFolders? then r.folders[a.login] == w[|w| - 1].folders
      else r.envelopes[a.login] == w[|w| - 1].envelopes
  {
  }

  /** `execute_action`: marks the action's slot as loading, asks the backend, then
      stores the result. Only the listing actions have an effect. */
  method ExecuteAction(backends: map<string, Backend>, action: Action, state: State)
    requires Executable(backends, action)
    modifies state`accountFolders, state`accountEnvelopes, state`writes
    ensures Cache(state.accountFolders, state.accountEnvelopes) ==
      CacheAfter(Cache(old(state.accountFolders), old(state.accountEnvelopes)), backends, action)
    ensures state.writes == old(state.writes) + SlotWrites(backends, action)
  {
    match action {
      case ListFolders(login) =>
        state.SetFolders(login, None);
        var backend := backends[login];
        var folders := backend.folders;
        state.SetFolders(login, Some(FolderNames(folders.value)));
      case ListEnvelopes(login, folder, page) =>
        state.SetEnvelopes(login, None);
        var backend := backends[login];
        var envelopes := backend.envelopes(folder, PageSize, page);
        state.SetEnvelopes(login, Some(envelopes.value));
      case GetMessage(_, _, _) =>
      case SendMessage(_, _, _, _) =>
    }
  }

  // ---------------------------------------------------------------------------
  // One executor cycle

  /** The cache after executing `xs` in order. */
  function CacheAfterAll(c: Cache, backends: map<string, Backend>, xs: seq<Action>): Cache
    requires forall i :: 0 <= i < |xs| ==> Executable(backends, xs[i])
  {
    if xs == [] then c
    else CacheAfter(CacheAfterAll(c, backends, xs[..|xs| - 1]), backends, xs[|xs| - 1])
  }

  /** The slot writes of executing `xs` in order. */
  function WritesAll(backends: map<string, Backend>, xs: seq<Action>): seq<SlotWrite>
    requires forall i :: 0 <= i < |xs| ==> Executable(backends, xs[i])
  {
    if xs == [] then []
    else WritesAll(backends, xs[..|xs| - 1]) + SlotWrites(backends, xs[|xs| - 1])
  }

  /** The kinds occurring in `xs`. */
  function KindsOf(xs: seq<Action>): set<Kind> {
    if xs == [] then {} else KindsOf(xs[..|xs| - 1]) + {Discriminant(xs[|xs| - 1])}
  }

  /** The cache after the pending actions of the kinds `ks` ran, in whatever
      order: the folder slot comes from the pending `ListFolders`, the envelope
      slot from the pending `ListEnvelopes`. */
  function CacheAfterKinds(c: Cache, backends: map<string, Backend>, p: map<Kind, Action>, ks: set<Kind>): Cache
    requires ks <= p.Keys
    requires forall k :: k in p ==> Executable(backends, p[k])
  {
    Cache(
      if ListFoldersKind in ks then CacheAfter(c, backends, p[ListFoldersKind]).folders else c.folders,
      if ListEnvelopesKind in ks then CacheAfter(c, backends, p[ListEnvelopesKind]).envelopes else c.envelopes)
  }

  /** Executing pending actions of distinct kinds, in any order, has the same
      effect on the cache: different kinds write different maps. */
  lemma {:induction false} CacheAfterAllOrderFree(c: Cache, backends: map<string, Backend>, p: map<Kind, Action>, xs: seq<Action>)
    requires Coalesced(p)
    requires forall k :: k in p ==> Executable(backends, p[k])
    requires forall i :: 0 <= i < |xs| ==> Discriminant(xs[i]) in p && p[Discriminant(xs[i])] == xs[i]
    requires forall i, j :: 0 <= i < j < |xs| ==> Discriminant(xs[i]) != Discriminant(xs[j])
    ensures KindsOf(xs) <= p.Keys
    ensures CacheAfterAll(c, backends, xs) == CacheAfterKinds(c, backends, p, KindsOf(xs))
  {
    if xs != [] {
      var ys, x := xs[..|xs| - 1], xs[|xs| - 1];
      assert forall i :: 0 <= i < |ys| ==> ys[i] == xs[i];
      CacheAfterAllOrderFree(c, backends, p, ys);
      KindsOfIndex(ys, Discriminant(x));
      var prev := CacheAfterKinds(c, backends, p, KindsOf(ys));
      match x {
        case ListFolders(_) =>
          assert ListFoldersKind !in KindsOf(ys);
          assert prev.folders == c.folders;
        case ListEnvelopes(_, _, _) =>
          assert ListEnvelopesKind !in KindsOf(ys);
          assert prev.envelopes == c.envelopes;
        case GetMessage(_, _, _) =>
        case SendMessage(_, _, _, _) =>
      }
    }
  }

  lemma {:induction false} KindsOfIndex(xs: seq<Action>, k: Kind)
    ensures k in KindsOf(xs) <==> exists i :: 0 <= i < |xs| && Discriminant(xs[i]) == k
  {
    if xs != [] {
      KindsOfIndex(xs[..|xs| - 1], k);
      assert forall i :: 0 <= i < |xs| - 1 ==> xs[..|xs| - 1][i] == xs[i];
    }
  }

  /** A drained sequence covers exactly the kinds that were pending. */
  lemma EnumeratesKinds(drained: seq<Action>, p: map<Kind, Action>)
    requires Coalesced(p) && Enumerates(drained, p)
    ensures KindsOf(drained) == p.Keys
  {
    forall k | k in p ensures k in KindsOf(drained) {
      var i :| 0 <= i < |drained| && drained[i] == p[k];
      KindsOfIndex(drained, k);
    }
    forall k | k in KindsOf(drained) ensures k in p {
      KindsOfIndex(drained, k);
    }
  }

  /** The body of the cycle's `for action in ... drain()` loop: executes each
      drained action once, in the order given. */
  method ExecuteAll(backends: map<string, Backend>, executed: seq<Action>, state: State)
    requires forall i :: 0 <= i < |executed| ==> Executable(backends, executed[i])
    modifies state`accountFolders, state`accountEnvelopes, state`writes
    ensures Cache(state.accountFolders, state.accountEnvelopes) ==
      CacheAfterAll(Cache(old(state.accountFolders), old(state.accountEnvelopes)), backends, executed)
    ensures state.writes == old(state.writes) + WritesAll(backends, executed)
  {
    ghost var c0 := Cache(state.accountFolders, state.accountEnvelopes);
    for i := 0 to |executed|
      invariant Cache(state.accountFolders, state.accountEnvelopes) == CacheAfterAll(c0, backends, executed[..i])
      invariant state.writes == old(state.writes) + WritesAll(backends, executed[..i])
    {
      assert executed[..i + 1][..i] == executed[..i];
      ExecuteAction(backends, executed[i], state);
    }
    assert executed[..|executed|] == executed;
  }

  /**
    One turn of the executor loop: drain the set and execute every drained
    action; `arrivedDuringSleep` are the actions the receiving task replaced in
    meanwhile; finally the busy flag is cleared only if the set is empty.
   */
  method Cycle(backends: map<string, Backend>, debouncer: Debouncer, state: State, arrivedDuringSleep: seq<Action>)
    returns (executed: seq<Action>)
    requires debouncer.Valid()
    requires forall k :: k in debouncer.pending ==> Executable(backends, debouncer.pending[k])
    modifies debouncer, state`accountFolders, state`accountEnvelopes, state`writes, state`isUpdating
    ensures debouncer.Valid()
    ensures Enumerates(executed, old(debouncer.pending))
    ensures forall i :: 0 <= i < |executed| ==> Executable(backends, executed[i])
    ensures Cache(state.accountFolders, state.accountEnvelopes) ==
      CacheAfterAll(Cache(old(state.accountFolders), old(state.accountEnvelopes)), backends, executed)
    ensures Cache(state.accountFolders, state.accountEnvelopes) ==
      CacheAfterKinds(Cache(old(state.accountFolders), old(state.accountEnvelopes)), backends,
                      old(debouncer.pending), old(debouncer.pending).Keys)
    ensures state.writes == old(state.writes) + WritesAll(backends, executed)
    ensures debouncer.pending == InsertAll(map[], arrivedDuringSleep)
    ensures state.isUpdating == (old(state.isUpdating) && arrivedDuringSleep != [])
  {
    ghost var c0 := Cache(state.accountFolders, state.accountEnvelopes);
    ghost var p0 := debouncer.pending;
    executed := debouncer.Drain();
    ExecuteAll(backends, executed, state);
    EnumeratesKinds(executed, p0);
    CacheAfterAllOrderFree(c0, backends, p0, executed);
    Receive(debouncer, arrivedDuringSleep);
    var n := debouncer.Len();
    InsertAllEmpty(arrivedDuringSleep);
    if n == 0 {
      state.SetUpdating(false);
    }
  }
}
