/** sqlite3_unlock_notify: who waits for whom, and why the waiting never closes a circle. */
module UnlockNotify {
  import opened Options

  type Conn = nat

  /** Each connection with a registered callback, and the one whose transaction it waits for. */
  type Waits = map<Conn, Conn>

  /** A callback function and the context pointer it is to be given. */
  datatype Callback = Callback(fn: nat, arg: nat)

  /** What the library keeps.  "blockedBy" is the connection that last refused a lock to each connection,
      as long as its transaction goes on. */
  datatype State = State(open: set<Conn>, blockedBy: map<Conn, Conn>, waits: Waits, callbacks: map<Conn, Callback>)

  datatype Event =
    | Begin(conn: Conn)
    | Block(conn: Conn, holder: Conn)  // SQLITE_LOCKED is returned to conn
    | Register(conn: Conn, callback: Callback)
    | Cancel(conn: Conn)           // registered with a null callback
    | Conclude(conn: Conn)         // commit or roll back
    | Close(conn: Conn)

  /** The connection n waits further on. */
  function Follow(w: Waits, c: Conn, n: nat): Option<Conn>
    decreases n
  {
    if n == 0 then Some(c)
    else if c in w then Follow(w, w[c], n - 1)
    else None
  }

  ghost predicate Reaches(w: Waits, from: Conn, to: Conn) {
    exists n: nat :: Follow(w, from, n) == Some(to)
  }

  /** No connection waits, directly or indirectly, for itself. */
  ghost predicate Acyclic(w: Waits) {
    forall c: Conn, n: nat | 0 < n :: Follow(w, c, n) != Some(c)
  }

  lemma {:induction false} FollowOn(w: Waits, c: Conn, m: nat, n: nat)
    requires Follow(w, c, m).Some?
    ensures Follow(w, c, m + n) == Follow(w, Follow(w, c, m).value, n)
    decreases m
  {
    if 0 < m {
      FollowOn(w, w[c], m - 1, n);
    }
  }

  lemma {:induction false} FollowLess(small: Waits, w: Waits, c: Conn, n: nat)
    requires forall k | k in small :: k in w && w[k] == small[k]
    requires Follow(small, c, n).Some?
    ensures Follow(w, c, n) == Follow(small, c, n)
    decreases n
  {
    if 0 < n {
      FollowLess(small, w, small[c], n - 1);
    }
  }

  ghost predicate Awaits(w: Waits, c: Conn, d: Conn) {
    exists n: nat :: 0 < n && Follow(w, c, n) == Some(d)
  }

  lemma AwaitsNext(w: Waits, c: Conn, d: Conn)
    requires (c == d || Awaits(w, c, d)) && d in w
    ensures Awaits(w, c, w[d])
  {
    assert Follow(w, d, 1) == Some(w[d]);
    if c != d {
      var n: nat :| 0 < n && Follow(w, c, n) == Some(d);
      FollowOn(w, c, n, 1);
      assert Follow(w, c, n + 1) == Some(w[d]);
    }
  }

  /** Dropping registrations keeps the waits acyclic. */
  lemma FewerWaits(small: Waits, w: Waits)
    requires Acyclic(w) && forall k | k in small :: k in w && w[k] == small[k]
    ensures Acyclic(small)
  {
    forall c: Conn, n: nat | 0 < n
      ensures Follow(small, c, n) != Some(c)
    {
      if Follow(small, c, n).Some? {
        FollowLess(small, w, c, n);
      }
    }
  }

  /** A way to c that may use the wait of c itself can be cut short before it does. */
  lemma {:induction false} ArriveFirst(w: Waits, c: Conn, b: Conn, from: Conn, n: nat) returns (m: nat)
    requires Follow(w[c := b], from, n) == Some(c)
    ensures m <= n && Follow(w, from, m) == Some(c)
    decreases n
  {
    if from == c {
      m := 0;
    } else {
      m := ArriveFirst(w, c, b, w[from], n - 1);
      m := m + 1;
    }
  }

  /** A way in the new graph either avoids the new wait or passes through c. */
  lemma {:induction false} UsesNewWait(w: Waits, c: Conn, b: Conn, from: Conn, n: nat) returns (i: nat)
    requires Follow(w[c := b], from, n).Some?
    ensures i <= n
    ensures i == n ==> Follow(w, from, n) == Follow(w[c := b], from, n)
    ensures i < n ==> Follow(w[c := b], from, i) == Some(c)
    decreases n
  {
    if n == 0 || from == c {
      i := 0;
    } else {
      i := UsesNewWait(w, c, b, w[from], n - 1);
      i := i + 1;
    }
  }

  /** Letting c wait for b closes a circle exactly when b already waits for c, at whatever distance. */
  lemma ClosesCircle(w: Waits, c: Conn, b: Conn)
    requires Acyclic(w)
    ensures Acyclic(w[c := b]) <==> !Reaches(w, b, c)
  {
    var w' := w[c := b];
    if Reaches(w, b, c) {
      var n: nat :| Follow(w, b, n) == Some(c);
      var i := OldWayOrShort(w, c, b, b, n);
      assert Follow(w', c, i + 1) == Some(c);
    }
    if !Acyclic(w') {
      var x: Conn, n: nat :| 0 < n && Follow(w', x, n) == Some(x);
      var i := UsesNewWait(w, c, b, x, n);
      assert i < n;
      FollowOn(w', x, i, n - i);
      assert Follow(w', b, n - i - 1) == Some(x);
      FollowOn(w', b, n - i - 1, i);
      var m := ArriveFirst(w, c, b, b, n - 1);
    }
  }

  lemma {:induction false} OldWayOrShort(w: Waits, c: Conn, b: Conn, from: Conn, n: nat) returns (i: nat)
    requires Follow(w, from, n) == Some(c)
    ensures Follow(w[c := b], from, i) == Some(c)
    decreases n
  {
    if from == c {
      i := 0;
    } else {
      i := OldWayOrShort(w, c, b, w[from], n - 1);
      i := i + 1;
    }
  }

  // ---------------------------------------------------------------------------------------------
  // Events

  ghost predicate Possible(s: State, e: Event) {
    match e
    case Block(c, holder) => c != holder && holder in s.open
    case _ => true
  }

  function Without(m: map<Conn, Conn>, value: Conn): map<Conn, Conn> {
    map k | k in m && m[k] != value :: m[k]
  }

  /** Those that wait for d. */
  function Waiters(s: State, d: Conn): set<Conn> {
    set x | x in s.waits && s.waits[x] == d
  }

  /** Everything that was waiting for c is told, and c no longer blocks anyone. */
  function Released(s: State, c: Conn): State {
    State(s.open - {c}, Without(s.blockedBy, c), Without(s.waits, c), s.callbacks - Waiters(s, c))
  }

  ghost predicate Deadlock(s: State, c: Conn) {
    c in s.blockedBy && Reaches(s.waits, s.blockedBy[c], c)
  }

  /** A registration by c is put in place. */
  ghost predicate Accepted(s: State, c: Conn) {
    c in s.blockedBy && !Deadlock(s, c)
  }

  ghost function Next(s: State, e: Event): State {
    match e
    case Begin(c) => s.(open := s.open + {c})
    case Block(c, holder) => s.(blockedBy := s.blockedBy[c := holder])
    case Register(c, f) =>
      if Accepted(s, c) then s.(waits := s.waits[c := s.blockedBy[c]], callbacks := s.callbacks[c := f]) else s
    case Cancel(c) => s.(waits := s.waits - {c}, callbacks := s.callbacks - {c})
    case Conclude(c) => Released(s, c)
    case Close(c) =>
      var r := Released(s, c);
      State(r.open, r.blockedBy - {c}, r.waits - {c}, r.callbacks - {c})
  }

  /** Whoever is waited for is in a transaction. */
  ghost predicate Valid(s: State) {
    && Acyclic(s.waits) && s.callbacks.Keys == s.waits.Keys
    && (forall c | c in s.waits :: s.waits[c] in s.open)
    && (forall c | c in s.blockedBy :: s.blockedBy[c] in s.open)
  }

  lemma NextValid(s: State, e: Event)
    requires Valid(s) && Possible(s, e)
    ensures Valid(Next(s, e))
  {
    match e
    case Register(c, _) =>
      if c in s.blockedBy {
        ClosesCircle(s.waits, c, s.blockedBy[c]);
      }
    case Cancel(c) =>
      FewerWaits(Next(s, e).waits, s.waits);
    case Conclude(c) =>
      FewerWaits(Next(s, e).waits, s.waits);
    case Close(c) =>
      FewerWaits(Next(s, e).waits, s.waits);
    case _ =>
  }

  ghost function Run(s: State, es: seq<Event>): State {
    if es == [] then s else Next(Run(s, es[..|es| - 1]), es[|es| - 1])
  }

  const NOBODY := State({}, map[], map[], map[])

  ghost predicate PossibleRun(es: seq<Event>) {
    forall n | 0 <= n < |es| :: Possible(Run(NOBODY, es[..n]), es[n])
  }

  /** Over every interleaving of events of any connections, no circle of waits ever forms. */
  lemma {:induction false} NeverCircular(es: seq<Event>)
    requires PossibleRun(es)
    ensures Valid(Run(NOBODY, es))
  {
    if es == [] {
      assert forall c: Conn, n: nat | 0 < n :: Follow(map[], c, n) == None;
    } else {
      var n := |es| - 1;
      assert PossibleRun(es[..n]) by {
        assert forall m | 0 <= m < n :: es[..n][..m] == es[..m];
      }
      NeverCircular(es[..n]);
      NextValid(Run(NOBODY, es[..n]), es[n]);
    }
  }

  /** The system can always move: at the end of the chain of waits from any connection that waits there is
      one that is not waiting and is in a transaction. */
  lemma {:induction false} SomeoneCanConclude(s: State, c: Conn, seen: set<Conn>) returns (n: nat, d: Conn)
    requires Valid(s) && c in s.waits && seen <= s.waits.Keys
    requires forall x | x in seen :: Awaits(s.waits, x, c)
    ensures Follow(s.waits, c, n) == Some(d) && 0 < n && d !in s.waits && d in s.open
    decreases s.waits.Keys - seen
  {
    var next := s.waits[c];
    assert c !in seen;
    assert Follow(s.waits, c, 1) == Some(next);
    if next !in s.waits {
      n, d := 1, next;
    } else {
      forall x | x in seen + {c}
        ensures Awaits(s.waits, x, next)
      {
        AwaitsNext(s.waits, x, c);
      }
      n, d := SomeoneCanConclude(s, next, seen + {c});
      n := n + 1;
    }
  }

  // ---------------------------------------------------------------------------------------------
  // What is kept, in terms of what has happened

  /** Event e ends the transaction of c. */
  predicate Concludes(e: Event, c: Conn) {
    (e.Conclude? || e.Close?) && e.conn == c
  }

  /** c has begun a transaction that has not ended. */
  ghost predicate InTransaction(es: seq<Event>, c: Conn) {
    exists j :: 0 <= j < |es| && es[j] == Begin(c) && forall k | j < k < |es| :: !Concludes(es[k], c)
  }

  /** The last lock refused to c was held by h, and since then h has not ended its transaction nor c closed. */
  ghost predicate LastBlocked(es: seq<Event>, c: Conn, h: Conn) {
    exists j :: 0 <= j < |es| && es[j] == Block(c, h) && forall k | j < k < |es| :: !Unblocks(es[k], c, h)
  }

  predicate Unblocks(e: Event, c: Conn, h: Conn) {
    Concludes(e, h) || e == Close(c) || (e.Block? && e.conn == c)
  }

  /** A connection is open for locks exactly while it is in a transaction, and a connection's blocker is the
      holder of the last lock it was refused, until that transaction ends. */
  lemma {:induction false} History(es: seq<Event>, c: Conn, h: Conn)
    ensures c in Run(NOBODY, es).open <==> InTransaction(es, c)
    ensures c in Run(NOBODY, es).blockedBy && Run(NOBODY, es).blockedBy[c] == h <==> LastBlocked(es, c, h)
    decreases |es|
  {
    if es != [] {
      var n := |es| - 1;
      var s := Run(NOBODY, es[..n]);
      History(es[..n], c, h);
      InTransactionSnoc(es, c);
      LastBlockedSnoc(es, c, h);
      OneStep(s, es[n], c, h);
    }
  }

  lemma OneStep(s: State, e: Event, c: Conn, h: Conn)
    ensures c in Next(s, e).open <==> e == Begin(c) || (c in s.open && !Concludes(e, c))
    ensures c in Next(s, e).blockedBy && Next(s, e).blockedBy[c] == h <==>
      e == Block(c, h) || (c in s.blockedBy && s.blockedBy[c] == h && !Unblocks(e, c, h))
  {
  }

  lemma InTransactionSnoc(es: seq<Event>, c: Conn)
    requires es != []
    ensures var n := |es| - 1;
      InTransaction(es, c) <==> es[n] == Begin(c) || (InTransaction(es[..n], c) && !Concludes(es[n], c))
  {
    var n := |es| - 1;
    if InTransaction(es[..n], c) && !Concludes(es[n], c) {
      var j :| 0 <= j < n && es[..n][j] == Begin(c) && forall k | j < k < n :: !Concludes(es[..n][k], c);
      assert forall k | j < k < n :: es[..n][k] == es[k];
      assert es[j] == Begin(c);
    }
    if InTransaction(es, c) && es[n] != Begin(c) {
      var j :| 0 <= j < |es| && es[j] == Begin(c) && forall k | j < k < |es| :: !Concludes(es[k], c);
      assert es[..n][j] == Begin(c);
    }
  }

  lemma LastBlockedSnoc(es: seq<Event>, c: Conn, h: Conn)
    requires es != []
    ensures var n := |es| - 1;
      LastBlocked(es, c, h) <==> es[n] == Block(c, h) || (LastBlocked(es[..n], c, h) && !Unblocks(es[n], c, h))
  {
    var n := |es| - 1;
    if LastBlocked(es[..n], c, h) && !Unblocks(es[n], c, h) {
      var j :| 0 <= j < n && es[..n][j] == Block(c, h) && forall k | j < k < n :: !Unblocks(es[..n][k], c, h);
      assert forall k | j < k < n :: es[..n][k] == es[k];
      assert es[j] == Block(c, h);
    }
    if LastBlocked(es, c, h) && es[n] != Block(c, h) {
      var j :| 0 <= j < |es| && es[j] == Block(c, h) && forall k | j < k < |es| :: !Unblocks(es[k], c, h);
      assert es[..n][j] == Block(c, h);
    }
  }

  // ---------------------------------------------------------------------------------------------
  // The fate of a registration

  /** Event i of the run puts a registration in place. */
  ghost predicate Starts(es: seq<Event>, i: nat)
    requires i < |es|
  {
    es[i].Register? && Accepted(Run(NOBODY, es[..i]), es[i].conn)
  }

  ghost function BlockerOf(es: seq<Event>, i: nat): Conn
    requires i < |es| && Starts(es, i)
  {
    Run(NOBODY, es[..i]).blockedBy[es[i].conn]
  }

  datatype Fate = Told | Replaced | Cancelled | Closed

  /** What event e, in state s, does to a registration of c for the end of b's transaction. */
  ghost function FateAt(s: State, e: Event, c: Conn, b: Conn): Option<Fate> {
    if (e.Conclude? || e.Close?) && e.conn == b then Some(Told)
    else if e.conn != c then None
    else if e.Close? then Some(Closed)
    else if e.Cancel? then Some(Cancelled)
    else if e.Register? && Accepted(s, c) then Some(Replaced)
    else None
  }

  /** What event j does to the registration made by event i. */
  ghost function End(es: seq<Event>, i: nat, j: nat): Option<Fate>
    requires i < |es| && Starts(es, i) && j < |es|
  {
    FateAt(Run(NOBODY, es[..j]), es[j], es[i].conn, BlockerOf(es, i))
  }

  /** Nothing has happened to the registration of event i before event n. */
  ghost predicate Lives(es: seq<Event>, i: nat, n: nat)
    requires i < |es| && Starts(es, i) && n <= |es|
  {
    i < n && forall j | i < j < n :: End(es, i, j) == None
  }

  /** Those whose callbacks event e invokes because a transaction ends. */
  ghost function Woken(s: State, e: Event): set<Conn> {
    if e.Conclude? || e.Close? then Waiters(s, e.conn) else {}
  }

  ghost predicate InPlace(s: State, c: Conn, b: Conn, f: Callback) {
    c in s.waits && s.waits[c] == b && c in s.callbacks && s.callbacks[c] == f
  }

  lemma NotSelf(s: State, c: Conn)
    requires Valid(s) && c in s.waits
    ensures s.waits[c] != c
  {
    assert Follow(s.waits, c, 1) == Some(s.waits[c]);
  }

  /** One event: a registration stays as it is until its fate, and is told exactly if that is its fate. */
  lemma OneFate(s: State, e: Event, c: Conn, b: Conn, f: Callback)
    requires Valid(s) && InPlace(s, c, b, f)
    ensures FateAt(s, e, c, b) == None ==> InPlace(Next(s, e), c, b, f)
    ensures FateAt(s, e, c, b) == Some(Told) <==> c in Woken(s, e)
    ensures FateAt(s, e, c, b) == Some(Replaced) ==> e.Register? && InPlace(Next(s, e), c, s.blockedBy[c], e.callback)
    ensures FateAt(s, e, c, b).Some? && FateAt(s, e, c, b) != Some(Replaced) ==> c !in Next(s, e).waits
  {
    NotSelf(s, c);
  }

  lemma StateValid(es: seq<Event>, n: nat)
    requires PossibleRun(es) && n <= |es|
    ensures Valid(Run(NOBODY, es[..n]))
    ensures n < |es| ==> Run(NOBODY, es[..n + 1]) == Next(Run(NOBODY, es[..n]), es[n])
  {
    assert PossibleRun(es[..n]) by {
      assert forall m | 0 <= m < n :: es[..n][..m] == es[..m];
    }
    NeverCircular(es[..n]);
    if n < |es| {
      assert es[..n + 1][..n] == es[..n];
    }
  }

  /** Until its fate the registration is in place, with the callback it was made with. */
  lemma {:induction false} StaysInPlace(es: seq<Event>, i: nat, n: nat)
    requires PossibleRun(es) && i < |es| && n <= |es| && Starts(es, i) && Lives(es, i, n)
    ensures InPlace(Run(NOBODY, es[..n]), es[i].conn, BlockerOf(es, i), es[i].callback)
    decreases n
  {
    hide Valid, PossibleRun, Run, Deadlock;
    StateValid(es, n - 1);
    if i < n - 1 {
      StaysInPlace(es, i, n - 1);
      assert End(es, i, n - 1) == None;
      OneFate(Run(NOBODY, es[..n - 1]), es[n - 1], es[i].conn, BlockerOf(es, i), es[i].callback);
    }
  }

  /** A registration that has not been replaced, cancelled or closed is told by the first event that
      concludes the transaction of its blocker, and by no other. */
  lemma ConcludeWakes(es: seq<Event>, i: nat, j: nat)
    requires PossibleRun(es) && i < |es| && j < |es| && Starts(es, i) && Lives(es, i, j)
    ensures es[i].conn in Woken(Run(NOBODY, es[..j]), es[j]) <==>
      (es[j].Conclude? || es[j].Close?) && es[j].conn == BlockerOf(es, i)
    ensures es[i].conn in Run(NOBODY, es[..j]).callbacks
    ensures Run(NOBODY, es[..j]).callbacks[es[i].conn] == es[i].callback
  {
    StaysInPlace(es, i, j);
    StateValid(es, j);
    OneFate(Run(NOBODY, es[..j]), es[j], es[i].conn, BlockerOf(es, i), es[i].callback);
  }

  /** Where a connection waits there is a registration that has put it there and is still alive. */
  lemma {:induction false} WaitHasRegistration(es: seq<Event>, c: Conn, n: nat) returns (i: nat)
    requires PossibleRun(es) && n <= |es| && c in Run(NOBODY, es[..n]).waits
    ensures i < n && Starts(es, i) && es[i].conn == c && Lives(es, i, n)
    decreases n
  {
    hide Valid, PossibleRun, Accepted, InPlace;
    var s, e := Run(NOBODY, es[..n - 1]), es[n - 1];
    StateValid(es, n - 1);
    if e.Register? && e.conn == c && Starts(es, n - 1) {
      i := n - 1;
    } else {
      assert c in s.waits by { WasWaiting(s, e, c); }
      i := WaitHasRegistration(es, c, n - 1);
      StaysInPlace(es, i, n - 1);
      OneFate(s, e, c, BlockerOf(es, i), es[i].callback);
    }
  }

  lemma WasWaiting(s: State, e: Event, c: Conn)
    requires c in Next(s, e).waits && !(e.Register? && e.conn == c && Accepted(s, c))
    ensures c in s.waits
  {
  }

  lemma LaterReplaces(es: seq<Event>, i: nat, k: nat, j: nat)
    requires i < k < j <= |es| && Starts(es, i) && Starts(es, k) && es[i].conn == es[k].conn
    ensures !Lives(es, i, j)
  {
    assert End(es, i, k) != None;
  }

  /** Each time a waiting connection is told, this answers exactly one registration: the last one it made,
      which then had been neither told, replaced, cancelled nor closed. */
  lemma ToldOnce(es: seq<Event>, c: Conn, j: nat) returns (i: nat)
    requires PossibleRun(es) && j < |es| && c in Woken(Run(NOBODY, es[..j]), es[j])
    ensures i < j && Starts(es, i) && es[i].conn == c && Lives(es, i, j) && End(es, i, j) == Some(Told)
    ensures forall k: nat | k < |es| && Starts(es, k) && es[k].conn == c && Lives(es, k, j) :: k == i
  {
    i := WaitHasRegistration(es, c, j);
    ConcludeWakes(es, i, j);
    forall k: nat | k < |es| && Starts(es, k) && es[k].conn == c && Lives(es, k, j)
      ensures k == i
    {
      if k < i {
        LaterReplaces(es, k, i, j);
      } else if i < k {
        LaterReplaces(es, i, k, j);
      }
    }
  }

  /** Once a connection has been closed, and until it begins another transaction, nobody waits for it; until
      it registers again, it waits for nobody, and so is told nothing. */
  lemma {:induction false} CloseForgets(es: seq<Event>, c: Conn, j: nat, n: nat)
    requires PossibleRun(es) && j < n <= |es| && es[j] == Close(c)
    ensures (forall k | j < k < n :: es[k] != Begin(c)) ==>
      forall x | x in Run(NOBODY, es[..n]).waits :: Run(NOBODY, es[..n]).waits[x] != c
    ensures (forall k | j < k < n :: !(es[k].Register? && es[k].conn == c)) ==> c !in Run(NOBODY, es[..n]).waits
    decreases n
  {
    hide PossibleRun, Run;
    StateValid(es, n);
    StateValid(es, n - 1);
    if j < n - 1 {
      CloseForgets(es, c, j, n - 1);
      NotOpenAgain(es, c, j, n);
    }
  }

  lemma {:induction false} NotOpenAgain(es: seq<Event>, c: Conn, j: nat, n: nat)
    requires PossibleRun(es) && j < n <= |es| && es[j] == Close(c)
    ensures (forall k | j < k < n :: es[k] != Begin(c)) ==> c !in Run(NOBODY, es[..n]).open
    decreases n
  {
    hide PossibleRun, Run, Valid;
    StateValid(es, n - 1);
    if j < n - 1 {
      NotOpenAgain(es, c, j, n - 1);
    }
  }

  // ---------------------------------------------------------------------------------------------
  // The object

  /** A callback function, called once with the context pointers of some connections. */
  datatype Invocation = Invocation(fn: nat, args: map<Conn, nat>)

  /** The context pointers that the connections in "waiting" have given for function fn. */
  function ArgsFor(callbacks: map<Conn, Callback>, waiting: set<Conn>, fn: nat): map<Conn, nat> {
    map x | x in waiting && x in callbacks && callbacks[x].fn == fn :: callbacks[x].arg
  }

  /** The functions registered by those in "waiting" are called once each, and no other: a call hands over the
      pointer of every one of them that gave this function. */
  ghost predicate Bundled(calls: seq<Invocation>, callbacks: map<Conn, Callback>, waiting: set<Conn>) {
    && (forall i, j | 0 <= i < j < |calls| :: calls[i].fn != calls[j].fn)
    && (forall i | 0 <= i < |calls| :: calls[i].args != map[])
    && (forall i, x | 0 <= i < |calls| ::
          x in calls[i].args <==> x in waiting && x in callbacks && callbacks[x].fn == calls[i].fn)
    && (forall i, x | 0 <= i < |calls| && x in calls[i].args :: calls[i].args[x] == callbacks[x].arg)
    && (forall x | x in waiting && x in callbacks :: exists i :: 0 <= i < |calls| && calls[i].fn == callbacks[x].fn)
  }

  /** As far as all but those in "rest" are concerned. */
  ghost predicate BundledBut(calls: seq<Invocation>, callbacks: map<Conn, Callback>, waiting: set<Conn>, rest: set<Conn>)
    requires rest <= waiting <= callbacks.Keys
  {
    && (forall i, j | 0 <= i < j < |calls| :: calls[i].fn != calls[j].fn)
    && (forall i | 0 <= i < |calls| :: calls[i].args == ArgsFor(callbacks, waiting, calls[i].fn) != map[])
    && (forall x | x in waiting - rest :: exists i :: 0 <= i < |calls| && calls[i].fn == callbacks[x].fn)
    && (forall x, i | x in rest && 0 <= i < |calls| :: calls[i].fn != callbacks[x].fn)
  }

  lemma OneMoreCall(calls: seq<Invocation>, callbacks: map<Conn, Callback>, waiting: set<Conn>, rest: set<Conn>, x: Conn)
    requires rest <= waiting <= callbacks.Keys && x in rest && BundledBut(calls, callbacks, waiting, rest)
    ensures var fn := callbacks[x].fn;
      BundledBut(calls + [Invocation(fn, ArgsFor(callbacks, waiting, fn))], callbacks, waiting,
                 set y | y in rest && callbacks[y].fn != fn)
  {
    var fn := callbacks[x].fn;
    var more := calls + [Invocation(fn, ArgsFor(callbacks, waiting, fn))];
    assert x in ArgsFor(callbacks, waiting, fn);
    forall y | y in waiting && (y !in rest || callbacks[y].fn == fn)
      ensures exists i :: 0 <= i < |more| && more[i].fn == callbacks[y].fn
    {
      if callbacks[y].fn == fn {
        assert more[|calls|].fn == callbacks[y].fn;
      } else {
        var i :| 0 <= i < |calls| && calls[i].fn == callbacks[y].fn;
        assert more[i].fn == callbacks[y].fn;
      }
    }
  }

  lemma AllBundled(calls: seq<Invocation>, callbacks: map<Conn, Callback>, waiting: set<Conn>)
    requires waiting <= callbacks.Keys && BundledBut(calls, callbacks, waiting, {})
    ensures Bundled(calls, callbacks, waiting)
  {
  }

  /** The calls made when a registration is told: one of them hands over its pointer to its function, and the
      others have nothing for the connection. */
  lemma CallHandsOver(es: seq<Event>, i: nat, j: nat, calls: seq<Invocation>) returns (n: nat)
    requires PossibleRun(es) && i < |es| && j < |es| && Starts(es, i) && Lives(es, i, j) && End(es, i, j) == Some(Told)
    requires Bundled(calls, Run(NOBODY, es[..j]).callbacks, Woken(Run(NOBODY, es[..j]), es[j]))
    ensures n < |calls| && calls[n].fn == es[i].callback.fn
    ensures es[i].conn in calls[n].args && calls[n].args[es[i].conn] == es[i].callback.arg
    ensures forall m | 0 <= m < |calls| && m != n :: es[i].conn !in calls[m].args
  {
    hide PossibleRun, Run, Lives, End, Woken;
    var c := es[i].conn;
    assert c in Woken(Run(NOBODY, es[..j]), es[j]) by { EndsTold(es, i, j); }
    ConcludeWakes(es, i, j);
    n :| 0 <= n < |calls| && calls[n].fn == es[i].callback.fn;
  }

  lemma EndsTold(es: seq<Event>, i: nat, j: nat)
    requires PossibleRun(es) && i < |es| && j < |es| && Starts(es, i) && Lives(es, i, j) && End(es, i, j) == Some(Told)
    ensures es[i].conn in Woken(Run(NOBODY, es[..j]), es[j])
  {
    hide PossibleRun, Run, Starts, Lives, Woken;
    ConcludeWakes(es, i, j);
  }

  class Registry {
    var open: set<Conn>
    var blockedBy: map<Conn, Conn>
    var waits: Waits
    var callbacks: map<Conn, Callback>
    var told: seq<Invocation>  // the calls made so far

    ghost function Now(): State
      reads this
    {
      State(open, blockedBy, waits, callbacks)
    }

    constructor ()
      ensures Now() == NOBODY && told == [] && Valid(Now())
    {
      open, blockedBy, waits, callbacks, told := {}, map[], map[], map[], [];
      new;
      NeverCircular([]);
    }

    /** Follow the chain of waits from the blocking connection. */
    method WouldDeadlock(c: Conn, b: Conn) returns (yes: bool)
      requires Acyclic(waits)
      ensures yes <==> Reaches(waits, b, c)
    {
      var p := b;
      ghost var n: nat := 0;
      ghost var seen: set<Conn> := {};
      while p != c && p in waits
        invariant Follow(waits, b, n) == Some(p)
        invariant forall m: nat | m < n :: Follow(waits, b, m) != Some(c)
        invariant seen <= waits.Keys
        invariant forall x | x in seen :: Awaits(waits, x, p)
        decreases waits.Keys - seen
      {
        assert p !in seen;
        FollowOn(waits, b, n, 1);
        assert Follow(waits, p, 1) == Some(waits[p]);
        forall x | x in seen + {p}
          ensures Awaits(waits, x, waits[p])
        {
          AwaitsNext(waits, x, p);
        }
        seen := seen + {p};
        p := waits[p];
        n := n + 1;
      }
      yes := p == c;
      if !yes && Reaches(waits, b, c) {
        var m: nat :| Follow(waits, b, m) == Some(c);
        FollowOn(waits, b, n, m - n);
      }
    }

    /** sqlite3_unlock_notify with a callback.  SQLITE_LOCKED is returned, and nothing registered, exactly
        when the new wait would close a circle. */
    method Register(c: Conn, f: Callback) returns (locked: bool)
      requires Valid(Now())
      modifies this`waits, this`callbacks, this`told
      ensures Valid(Now()) && Now() == Next(old(Now()), Event.Register(c, f))
      ensures locked <==> c in blockedBy && !Acyclic(old(waits)[c := blockedBy[c]])
      ensures c !in blockedBy ==> told == old(told) + [Invocation(f.fn, map[c := f.arg])]
      ensures c in blockedBy ==> told == old(told)
    {
      NextValid(Now(), Event.Register(c, f));
      locked := false;
      if c !in blockedBy {
        told := told + [Invocation(f.fn, map[c := f.arg])];
      } else {
        ClosesCircle(waits, c, blockedBy[c]);
        locked := WouldDeadlock(c, blockedBy[c]);
        if !locked {
          waits := waits[c := blockedBy[c]];
          callbacks := callbacks[c := f];
        }
      }
    }

    method Cancel(c: Conn)
      requires Valid(Now())
      modifies this`waits, this`callbacks
      ensures Valid(Now()) && Now() == Next(old(Now()), Event.Cancel(c))
    {
      NextValid(Now(), Event.Cancel(c));
      waits := waits - {c};
      callbacks := callbacks - {c};
    }

    /** Call each function that someone in "waiting" has registered. */
    method Notify(waiting: set<Conn>) returns (calls: seq<Invocation>)
      requires waiting <= callbacks.Keys
      ensures Bundled(calls, callbacks, waiting)
    {
      calls := [];
      var rest := waiting;
      while rest != {}
        invariant rest <= waiting && BundledBut(calls, callbacks, waiting, rest)
        decreases rest
      {
        hide BundledBut;
        var x :| x in rest;
        var fn := callbacks[x].fn;
        OneMoreCall(calls, callbacks, waiting, rest, x);
        calls := calls + [Invocation(fn, ArgsFor(callbacks, waiting, fn))];
        rest := set y | y in rest && callbacks[y].fn != fn;
      }
      AllBundled(calls, callbacks, waiting);
    }

    /** A transaction ends: all that wait for it are told, those with the same callback function by one call. */
    method Conclude(c: Conn) returns (calls: seq<Invocation>)
      requires Valid(Now())
      modifies this
      ensures Valid(Now()) && Now() == Next(old(Now()), Event.Conclude(c))
      ensures told == old(told) + calls
      ensures Bundled(calls, old(callbacks), Woken(old(Now()), Event.Conclude(c)))
    {
      NextValid(Now(), Event.Conclude(c));
      var waiting := Waiters(State(open, blockedBy, waits, callbacks), c);
      calls := Notify(waiting);
      told := told + calls;
      open := open - {c};
      blockedBy := Without(blockedBy, c);
      waits := Without(waits, c);
      callbacks := callbacks - waiting;
    }

    method Close(c: Conn) returns (calls: seq<Invocation>)
      requires Valid(Now())
      modifies this
      ensures Valid(Now()) && Now() == Next(old(Now()), Event.Close(c))
      ensures told == old(told) + calls
      ensures Bundled(calls, old(callbacks), Woken(old(Now()), Event.Close(c)))
    {
      NextValid(Now(), Event.Close(c));
      calls := Conclude(c);
      blockedBy := blockedBy - {c};
      waits := waits - {c};
      callbacks := callbacks - {c};
    }

    method Block(c: Conn, holder: Conn)
      requires Valid(Now()) && Possible(Now(), Event.Block(c, holder))
      modifies this`blockedBy
      ensures Valid(Now()) && Now() == Next(old(Now()), Event.Block(c, holder))
    {
      blockedBy := blockedBy[c := holder];
    }

    method Begin(c: Conn)
      requires Valid(Now())
      modifies this`open
      ensures Valid(Now()) && Now() == Next(old(Now()), Event.Begin(c))
    {
      open := open + {c};
    }
  }
}
