/** `create_key_id` on a shared 32-bit counter, with the increment and the later store as separate steps. */
module IdAllocator {
  import opened Types

  const PSA_KEY_ID_USER_MIN: nat := 1
  const PSA_KEY_ID_USER_MAX: nat := 0x3fff_ffff
  const TWO_TO_THE_32: nat := 0x1_0000_0000

  /** The counter, and the threads that were refused an id and have not yet stored the maximum back. */
  datatype Counter = Counter(value: nat, pending: set<nat>)

  /** The increment wraps around as a 32-bit addition does. */
  function FetchAdd(c: Counter, i: nat): (r: (Counter, Option<nat>)) {
    var id := (c.value + 1) % TWO_TO_THE_32;
    if id > PSA_KEY_ID_USER_MAX then (Counter(id, c.pending + {i}), None) else (Counter(id, c.pending), Some(id))
  }

  function StoreMax(c: Counter, i: nat): (r: Counter) { Counter(PSA_KEY_ID_USER_MAX, c.pending - {i}) }

  predicate Threads(s: set<nat>, n: nat) { forall i | i in s :: i < n }

  /** The counter is over the maximum by no more than one per pending refusal. */
  predicate Bounded(c: Counter, n: nat) {
    c.value <= PSA_KEY_ID_USER_MAX + |c.pending| && Threads(c.pending, n) && (c.pending != {} ==>
      c.value >= PSA_KEY_ID_USER_MAX)
  }

  /** The number of threads fits on top of the maximum. */
  predicate Fits(n: nat) { PSA_KEY_ID_USER_MAX + n < TWO_TO_THE_32 }

  lemma {:induction false} ThreadsAreFew(s: set<nat>, n: nat)
    requires Threads(s, n)
    ensures |s| <= n
  {
    if n == 0 {
      assert forall i | i in s :: false;
    } else {
      ThreadsAreFew(s - {n - 1}, n - 1);
      if n - 1 in s {
        assert |s| == |s - {n - 1}| + 1;
      } else {
        assert s - {n - 1} == s;
      }
    }
  }

  /** An increment by a thread that has no refusal pending does not wrap, and keeps the bound. */
  lemma FetchAddStaysBounded(c: Counter, i: nat, n: nat)
    requires Bounded(c, n) && i < n && i !in c.pending && Fits(n)
    ensures FetchAdd(c, i).0.value == c.value + 1
    ensures Bounded(FetchAdd(c, i).0, n)
  {
    ThreadsAreFew(c.pending + {i}, n);
    assert |c.pending + {i}| == |c.pending| + 1;
  }

  lemma StoreMaxStaysBounded(c: Counter, i: nat, n: nat)
    requires Bounded(c, n)
    ensures Bounded(StoreMax(c, i), n)
  {
  }

  // ----- Runs of N threads -----

  datatype CounterAction = Call(i: nat) | Store(i: nat)

  /** The counter with the ids granted so far, in order, and whether a call has been refused. */
  datatype History = History(counter: Counter, granted: seq<nat>, refused: bool)

  predicate CanCall(h: History, a: CounterAction, n: nat) {
    match a
    case Call(i) => i < n && i !in h.counter.pending
    case Store(i) => i in h.counter.pending
  }

  function Next(h: History, a: CounterAction): (r: History) {
    match a
    case Call(i) =>
      var (c, id) := FetchAdd(h.counter, i);
      if id.Some? then h.(counter := c, granted := h.granted + [id.value]) else h.(counter := c, refused := true)
    case Store(i) => h.(counter := StoreMax(h.counter, i))
  }

  /** The history after a run of actions from a start value. */
  function After(start: nat, acts: seq<CounterAction>): (h: History) {
    if acts == [] then History(Counter(start, {}), [], false)
    else Next(After(start, acts[..|acts| - 1]), acts[|acts| - 1])
  }

  /** The runs of n threads: any interleaving in which each thread finishes a call before its next. */
  predicate Interleaving(start: nat, n: nat, acts: seq<CounterAction>) {
    acts == [] ||
    (Interleaving(start, n, acts[..|acts| - 1]) && CanCall(After(start, acts[..|acts| - 1]), acts[|acts| - 1], n))
  }

  /** All ids up to the counter, and never above the maximum, have been granted in order. */
  predicate Consistent(h: History, start: nat, n: nat) {
    && Bounded(h.counter, n)
    && h.counter.value >= start
    && |h.granted| == (if h.counter.value <= PSA_KEY_ID_USER_MAX then h.counter.value else PSA_KEY_ID_USER_MAX) - start
    && (forall k | 0 <= k < |h.granted| :: h.granted[k] == start + 1 + k)
    && (h.refused ==> h.counter.value >= PSA_KEY_ID_USER_MAX)
    && (h.counter.pending != {} || h.counter.value > PSA_KEY_ID_USER_MAX ==> h.refused)
  }

  lemma NextIsConsistent(h: History, a: CounterAction, start: nat, n: nat)
    requires start <= PSA_KEY_ID_USER_MAX && Fits(n) && Consistent(h, start, n) && CanCall(h, a, n)
    ensures Consistent(Next(h, a), start, n)
    ensures a.Call? && h.refused ==> Next(h, a).granted == h.granted
  {
    match a {
      case Call(i) => FetchAddStaysBounded(h.counter, i, n);
      case Store(i) => StoreMaxStaysBounded(h.counter, i, n);
    }
  }

  lemma {:induction false} RunIsConsistent(start: nat, n: nat, acts: seq<CounterAction>)
    requires start <= PSA_KEY_ID_USER_MAX && Fits(n) && Interleaving(start, n, acts)
    ensures Consistent(After(start, acts), start, n)
  {
    if acts == [] {
    } else {
      RunIsConsistent(start, n, acts[..|acts| - 1]);
      NextIsConsistent(After(start, acts[..|acts| - 1]), acts[|acts| - 1], start, n);
    }
  }

  /**
   In every interleaving of n threads: the ids granted are the successors of the start value in order,
   none above the maximum; a call is refused only once all of them are granted, and every call after
   that is refused; the counter never exceeds the maximum plus n, so it never wraps.
   */
  lemma CreateKeyIdIsSafe(start: nat, n: nat, acts: seq<CounterAction>)
    requires start <= PSA_KEY_ID_USER_MAX && Fits(n) && Interleaving(start, n, acts)
    ensures var h := After(start, acts);
            && (forall k | 0 <= k < |h.granted| :: h.granted[k] == start + 1 + k <= PSA_KEY_ID_USER_MAX)
            && (h.refused ==> |h.granted| == PSA_KEY_ID_USER_MAX - start)
            && (h.refused ==> forall i: nat | CanCall(h, Call(i), n) :: FetchAdd(h.counter, i).1.None?)
            && h.counter.value <= PSA_KEY_ID_USER_MAX + n
  {
    var h := After(start, acts);
    RunIsConsistent(start, n, acts);
    ThreadsAreFew(h.counter.pending, n);
    forall i: nat | h.refused && CanCall(h, Call(i), n) ensures FetchAdd(h.counter, i).1.None? {
      FetchAddStaysBounded(h.counter, i, n);
    }
  }
}
