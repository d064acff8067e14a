// Which slot numbers the session manager hands out, and how many. The stack
// starts with 0 on top; a counter guards it. The guard raises the counter
// before it looks and does not lower it when it refuses, and the disconnect
// lowers it before the index is back on the stack. The stack has a counter of
// its own, which is raised after the push; while it is 0 the stack yields index
// 0, whoever has it.
module SessionIndices {
  type Index = nat

  // The top of the stack is the last element; size: the stack's own counter.
  // taken: popped and not pushed back; lowered: the taken ones whose disconnect
  // has lowered the login counter. The last two fields only record: refusals so
  // far, and that exactly the indices below `used` have been handed out before.
  datatype State = State(free: seq<Index>, size: nat, count: int, taken: multiset<Index>, lowered: multiset<Index>,
                         refusals: nat, used: nat)

  // Count: one of those who have pushed raises the stack's counter.
  datatype Event = Accept | Lower(i: Index) | Push(i: Index) | Count

  // _InitIndexStack.
  function Countdown(from: nat, downTo: nat): (s: seq<Index>)
    ensures |s| == if from >= downTo then from - downTo else 0
    ensures forall k :: 0 <= k < |s| ==> s[k] == from - 1 - k
  {
    if from <= downTo then [] else [from - 1] + Countdown(from - 1, downTo)
  }

  function Start(n: nat): State {
    State(Countdown(n, 0), n, 0, multiset{}, multiset{}, 0, 0)
  }

  predicate Admits(max: nat, st: State) {
    st.count + 1 < max
  }

  predicate Enabled(st: State, e: Event) {
    match e
    case Accept => true
    case Lower(i) => st.lowered[i] < st.taken[i]
    case Push(i) => i in st.lowered
    case Count => st.size < |st.free|
  }

  function Top(st: State): Index
    requires st.free != []
  {
    st.free[|st.free| - 1]
  }

  function Next(max: nat, st: State, e: Event): State
    requires Enabled(st, e)
  {
    match e
    case Accept =>
      if !Admits(max, st) then st.(count := st.count + 1, refusals := st.refusals + 1)
      else if st.size == 0 || st.free == [] then st.(count := st.count + 1, taken := st.taken + multiset{0})
      else State(st.free[..|st.free| - 1], st.size - 1, st.count + 1, st.taken + multiset{Top(st)}, st.lowered,
                 st.refusals, if Top(st) >= st.used then Top(st) + 1 else st.used)
    case Lower(i) => st.(count := st.count - 1, lowered := st.lowered + multiset{i})
    case Push(i) => st.(free := st.free + [i], taken := st.taken - multiset{i}, lowered := st.lowered - multiset{i})
    case Count => st.(size := st.size + 1)
  }

  // An accept is admitted although the stack's counter is 0.
  predicate Drained(max: nat, st: State, e: Event) {
    e.Accept? && Admits(max, st) && st.size == 0
  }

  // ---- the invariant --------------------------------------------------------------------

  // The indices that were given back lie above those never used.
  function Recycled(n: nat, st: State): seq<Index>
    requires st.used <= n && |st.free| >= n - st.used
  {
    st.free[n - st.used..]
  }

  ghost predicate Inv(n: nat, st: State) {
    && st.used <= n && |st.free| >= n - st.used && st.size <= |st.free|
    && st.free[..n - st.used] == Countdown(n, st.used)
    && multiset(Recycled(n, st)) + st.taken == multiset(Below(st.used))
    && st.lowered <= st.taken
    && st.count == |st.taken| - |st.lowered| + st.refusals
  }

  function Below(n: nat): set<Index> {
    set i | i in Countdown(n, 0)
  }

  lemma BelowNext(n: nat)
    ensures Below(n + 1) == Below(n) + {n} && n !in Below(n)
  {
    assert Countdown(n + 1, 0) == [n] + Countdown(n, 0);
  }

  lemma CountdownPrefix(n: nat, k: nat)
    requires k < n
    ensures Countdown(n, k)[..n - k - 1] == Countdown(n, k + 1)
  {
  }

  lemma CountdownLast(n: nat, k: nat)
    requires k < n
    ensures Countdown(n, k) == Countdown(n, k + 1) + [k]
  {
    CountdownPrefix(n, k);
    assert Countdown(n, k)[n - k - 1] == k;
  }

  lemma {:induction false} BelowSize(n: nat)
    ensures |Below(n)| == n
  {
    if n > 0 {
      BelowSize(n - 1);
      BelowNext(n - 1);
    }
  }

  lemma StartInv(n: nat)
    ensures Inv(n, Start(n))
  {
    assert Start(n).free[n..] == [] && Start(n).free[..n] == Start(n).free;
    assert Below(0) == {};
  }

  predicate Takes(max: nat, st: State, e: Event, to: State) {
    Enabled(st, e) && Next(max, st, e) == to
  }

  // After an accept that finds `top` on the stack, for the first time.
  function Popped(st: State, rest: seq<Index>, top: Index): State {
    State(rest, if st.size == 0 then 0 else st.size - 1, st.count + 1, st.taken + multiset{top}, st.lowered,
          st.refusals, top + 1)
  }

  lemma AcceptTakes(max: nat, st: State, rest: seq<Index>, top: Index)
    requires Admits(max, st) && st.size > 0 && st.free == rest + [top] && top >= st.used
    ensures Takes(max, st, Accept, Popped(st, rest, top))
  {
    assert st.free[..|st.free| - 1] == rest;
  }

  lemma StepInv(n: nat, max: nat, st: State, e: Event)
    requires Inv(n, st) && Enabled(st, e) && !Drained(max, st, e)
    ensures Inv(n, Next(max, st, e))
  {
    match e
    case Accept =>
      if Admits(max, st) {
        if |st.free| > n - st.used {
          ReuseIndex(n, max, st);
        } else {
          FirstUse(n, max, st);
        }
      }
    case Lower(i) => LowerInv(n, max, st, i);
    case Push(i) => PushInv(n, max, st, i);
    case Count =>
  }

  lemma LowerInv(n: nat, max: nat, st: State, i: Index)
    requires Inv(n, st) && Enabled(st, Lower(i))
    ensures Inv(n, Next(max, st, Lower(i)))
  {
  }

  lemma PushInv(n: nat, max: nat, st: State, i: Index)
    requires Inv(n, st) && Enabled(st, Push(i))
    ensures Inv(n, Next(max, st, Push(i)))
  {
    var st' := Next(max, st, Push(i));
    assert st'.free[..n - st.used] == st.free[..n - st.used];
    assert Recycled(n, st') == Recycled(n, st) + [i];
    Returned(multiset(Recycled(n, st)), st.taken, i);
    assert multiset(Recycled(n, st) + [i]) == multiset(Recycled(n, st)) + multiset{i};
  }

  lemma Returned(free: multiset<Index>, taken: multiset<Index>, i: Index)
    requires i in taken
    ensures (free + multiset{i}) + (taken - multiset{i}) == free + taken
  {
  }

  lemma ReuseIndex(n: nat, max: nat, st: State)
    requires Inv(n, st) && Admits(max, st) && st.size > 0 && |st.free| > n - st.used
    ensures Top(st) < st.used && Top(st) !in st.taken
    ensures Inv(n, Next(max, st, Accept))
  {
    var st', i := Next(max, st, Accept), Top(st);
    var rest := st.free[n - st.used..|st.free| - 1];
    assert Recycled(n, st) == rest + [i];
    OneOfThose(rest, i, st.taken, st.used);
    assert Recycled(n, st') == rest;
    assert st'.free[..n - st.used] == st.free[..n - st.used];
  }

  lemma OneOfThose(rest: seq<Index>, i: Index, taken: multiset<Index>, used: nat)
    requires multiset(rest + [i]) + taken == multiset(Below(used))
    ensures i < used && i !in taken
    ensures multiset(rest) + (taken + multiset{i}) == multiset(Below(used))
  {
    assert multiset(rest + [i]) == multiset(rest) + multiset{i};
    assert (multiset(rest + [i]) + taken)[i] >= 1;
    assert i in multiset(Below(used)) && multiset(Below(used))[i] == 1;
  }

  lemma FirstUse(n: nat, max: nat, st: State)
    requires Inv(n, st) && Admits(max, st) && st.size > 0 && |st.free| == n - st.used
    ensures Top(st) == st.used == |st.taken| && Top(st) !in st.taken
    ensures Inv(n, Next(max, st, Accept))
  {
    var i := st.used;
    AllTaken(n, st);
    CountdownLast(n, i);
    TakesNext(st.taken, i);
    AcceptTakes(max, st, Countdown(n, i + 1), i);
    AllOfThem(n, Popped(st, Countdown(n, i + 1), i));
  }

  lemma TakesNext(taken: multiset<Index>, i: nat)
    requires taken == multiset(Below(i))
    ensures i !in taken && taken + multiset{i} == multiset(Below(i + 1))
  {
    BelowNext(i);
    assert multiset(Below(i) + {i}) == multiset(Below(i)) + multiset{i};
  }

  lemma AllOfThem(n: nat, st: State)
    requires st.used <= n && st.size <= |st.free| && st.free == Countdown(n, st.used)
    requires st.taken == multiset(Below(st.used)) && st.lowered <= st.taken
    requires st.count == |st.taken| - |st.lowered| + st.refusals
    ensures Inv(n, st)
  {
    assert Recycled(n, st) == [] && st.free[..n - st.used] == st.free;
  }

  // Nothing recycled: the taken indices are all those used so far.
  lemma AllTaken(n: nat, st: State)
    requires Inv(n, st) && |st.free| == n - st.used
    ensures st.taken == multiset(Below(st.used)) && |st.taken| == st.used && st.free == Countdown(n, st.used)
  {
    assert Recycled(n, st) == [] && st.free[..n - st.used] == st.free;
    BelowSize(st.used);
  }

  // Every index is on the stack or taken.
  lemma FreeAndTaken(n: nat, st: State)
    requires Inv(n, st)
    ensures |st.free| + |st.taken| == n
    ensures |st.free| - (n - st.used) + |st.taken| == st.used
    ensures forall i :: i in st.taken ==> i < st.used && st.taken[i] == 1 && i !in st.free
  {
    BelowSize(st.used);
    assert |multiset(Recycled(n, st)) + st.taken| == |multiset(Below(st.used))|;
    forall i | i in st.taken
      ensures i < st.used && st.taken[i] == 1 && i !in st.free
    {
      TakenOnce(n, st, i);
    }
  }

  lemma TakenOnce(n: nat, st: State, i: Index)
    requires Inv(n, st) && i in st.taken
    ensures i < st.used && st.taken[i] == 1 && i !in st.free
  {
    assert i in multiset(Below(st.used)) && multiset(Below(st.used))[i] == 1;
    assert i !in multiset(Recycled(n, st));
    assert st.free == st.free[..n - st.used] + Recycled(n, st);
  }

  // Index 0 is there already.
  lemma ZeroIsThere(n: nat, st: State)
    requires n > 0 && Inv(n, st)
    ensures 0 in st.taken || 0 in st.free
  {
    if st.used == 0 {
      assert st.free[..n][n - 1] == Countdown(n, 0)[n - 1] == 0;
    } else {
      assert Countdown(st.used, 0)[st.used - 1] == 0;
      assert 0 in multiset(Recycled(n, st)) + st.taken;
      assert st.free == st.free[..n - st.used] + Recycled(n, st);
    }
  }

  // ---- whole runs ----------------------------------------------------------------------------

  ghost predicate Possible(max: nat, st: State, events: seq<Event>)
    decreases |events|
  {
    events == [] || (Enabled(st, events[0]) && Possible(max, Next(max, st, events[0]), events[1..]))
  }

  function Run(max: nat, st: State, events: seq<Event>): State
    requires Possible(max, st, events)
    decreases |events|
  {
    if events == [] then st else Run(max, Next(max, st, events[0]), events[1..])
  }

  // Every index in use is one of the `max` slots, and is not given out twice.
  ghost predicate Good(max: nat, st: State) {
    forall i :: i in st.taken ==> i < max && st.taken[i] == 1 && i !in st.free
  }

  ghost predicate AlwaysGood(max: nat, st: State, events: seq<Event>)
    requires Possible(max, st, events)
    decreases |events|
  {
    Good(max, st) && (events != [] ==> AlwaysGood(max, Next(max, st, events[0]), events[1..]))
  }

  // The accept finds a slot left, and the stack's counter above 0.
  predicate Room(max: nat, st: State, e: Event) {
    e.Accept? && Admits(max, st) ==> |st.taken| < max && st.size > 0
  }

  ghost predicate AlwaysRoom(max: nat, st: State, events: seq<Event>)
    requires Possible(max, st, events)
    decreases |events|
  {
    events != [] ==> Room(max, st, events[0]) && AlwaysRoom(max, Next(max, st, events[0]), events[1..])
  }

  // A step keeps the indices good exactly if an accept finds room.
  lemma GoodExactlyWithRoom(n: nat, max: nat, st: State, e: Event)
    requires n > 0 && Inv(n, st) && st.used <= max && Enabled(st, e)
    ensures Good(max, Next(max, st, e)) <==> Room(max, st, e)
    ensures Room(max, st, e) ==> Inv(n, Next(max, st, e)) && Next(max, st, e).used <= max
  {
    if e.Accept? && Admits(max, st) {
      AcceptExactly(n, max, st);
    } else {
      StepInv(n, max, st, e);
      InvIsGood(n, max, Next(max, st, e));
    }
  }

  lemma InvIsGood(n: nat, max: nat, st: State)
    requires Inv(n, st) && st.used <= max
    ensures Good(max, st)
  {
    FreeAndTaken(n, st);
  }

  lemma AcceptExactly(n: nat, max: nat, st: State)
    requires n > 0 && Inv(n, st) && st.used <= max && Admits(max, st)
    ensures Good(max, Next(max, st, Accept)) <==> |st.taken| < max && st.size > 0
    ensures |st.taken| < max && st.size > 0 ==> Inv(n, Next(max, st, Accept)) && Next(max, st, Accept).used <= max
  {
    if st.size == 0 {
      ZeroIsShared(n, max, st);
    } else if |st.free| > n - st.used {
      ReuseIndex(n, max, st);
      InvIsGood(n, max, Next(max, st, Accept));
      FreeAndTaken(n, st);
    } else {
      FirstUse(n, max, st);
      FirstUseFits(n, max, st);
    }
  }

  // A first use is of index |taken|.
  lemma FirstUseFits(n: nat, max: nat, st: State)
    requires Inv(n, st) && st.used <= max && Admits(max, st) && st.size > 0 && |st.free| == n - st.used
    ensures Good(max, Next(max, st, Accept)) <==> |st.taken| < max
    ensures |st.taken| < max ==> Next(max, st, Accept).used <= max
  {
    var st' := Next(max, st, Accept);
    FirstUse(n, max, st);
    if |st.taken| < max {
      InvIsGood(n, max, st');
    } else {
      assert st.used in st'.taken;
    }
  }

  lemma ZeroIsShared(n: nat, max: nat, st: State)
    requires n > 0 && Inv(n, st) && Admits(max, st) && st.size == 0
    ensures !Good(max, Next(max, st, Accept)) && 0 in Next(max, st, Accept).taken
    ensures Next(max, st, Accept).taken[0] == 2 || 0 in Next(max, st, Accept).free
  {
    var st' := Next(max, st, Accept);
    ZeroIsThere(n, st);
    FreeAndTaken(n, st);
    assert st'.taken[0] == st.taken[0] + 1 && 0 in st'.taken;
  }

  // Over a whole run: all indices handed out fit the slot array, and none is
  // given to two sessions, if and only if every admitted accept finds fewer
  // than `max` indices taken, and the stack's counter above 0.
  lemma IndicesFitExactly(n: nat, max: nat, events: seq<Event>)
    requires n > 0 && Possible(max, Start(n), events)
    ensures AlwaysGood(max, Start(n), events) <==> AlwaysRoom(max, Start(n), events)
  {
    StartInv(n);
    GoodFrom(n, max, Start(n), events);
  }

  lemma {:induction false} GoodFrom(n: nat, max: nat, st: State, events: seq<Event>)
    requires n > 0 && Inv(n, st) && st.used <= max && Possible(max, st, events)
    ensures AlwaysGood(max, st, events) <==> AlwaysRoom(max, st, events)
    decreases |events|
  {
    InvIsGood(n, max, st);
    if events != [] {
      GoodExactlyWithRoom(n, max, st, events[0]);
      if Room(max, st, events[0]) {
        GoodFrom(n, max, Next(max, st, events[0]), events[1..]);
      } else {
        assert !AlwaysGood(max, Next(max, st, events[0]), events[1..]);
      }
    }
  }

  // A disconnect is under way from lowering the login counter until the index
  // is counted on the stack.
  function UnderWay(st: State): int {
    |st.lowered| + |st.free| - st.size
  }

  // No more than w of them are when a session is admitted.
  ghost predicate Overlapping(max: nat, w: nat, st: State, events: seq<Event>)
    requires Possible(max, st, events)
    decreases |events|
  {
    events != [] ==> (events[0].Accept? && Admits(max, st) ==> UnderWay(st) <= w)
                     && Overlapping(max, w, Next(max, st, events[0]), events[1..])
  }

  // When that many overlap, indices stay below max + w - 1. If there are so
  // many on the stack, none is given out twice.
  lemma IndicesFit(n: nat, max: nat, w: nat, events: seq<Event>, i: Index)
    requires Possible(max, Start(n), events) && Overlapping(max, w, Start(n), events) && max + w <= n + 1
    requires i in Run(max, Start(n), events).taken
    ensures i + 2 <= max + w && Run(max, Start(n), events).taken[i] == 1
    ensures i !in Run(max, Start(n), events).free
  {
    StartInv(n);
    RunInv(n, max, w, Start(n), events);
    TakenOnce(n, Run(max, Start(n), events), i);
  }

  lemma {:induction false} RunInv(n: nat, max: nat, w: nat, st: State, events: seq<Event>)
    requires Inv(n, st) && Possible(max, st, events) && Overlapping(max, w, st, events) && max + w <= n + 1
    requires st.used > 0 ==> st.used + 1 <= max + w
    ensures Inv(n, Run(max, st, events))
    ensures Run(max, st, events).used > 0 ==> Run(max, st, events).used + 1 <= max + w
    decreases |events|
  {
    if events != [] {
      NotDrained(n, max, w, st, events[0]);
      StepInv(n, max, st, events[0]);
      UsedStep(n, max, w, st, events[0]);
      RunInv(n, max, w, Next(max, st, events[0]), events[1..]);
    }
  }

  // An admitted accept finds the counter above 0 if the stack had more than
  // max + w - 2 indices.
  lemma NotDrained(n: nat, max: nat, w: nat, st: State, e: Event)
    requires Inv(n, st) && Enabled(st, e) && (e.Accept? && Admits(max, st) ==> UnderWay(st) <= w)
    requires max + w <= n + 1
    ensures !Drained(max, st, e)
  {
    FreeAndTaken(n, st);
  }

  lemma UsedStep(n: nat, max: nat, w: nat, st: State, e: Event)
    requires Inv(n, st) && Enabled(st, e) && (e.Accept? && Admits(max, st) ==> UnderWay(st) <= w)
    requires !Drained(max, st, e) && (st.used > 0 ==> st.used + 1 <= max + w)
    ensures Next(max, st, e).used > 0 ==> Next(max, st, e).used + 1 <= max + w
  {
    if e.Accept? && Admits(max, st) {
      if |st.free| > n - st.used {
        ReuseIndex(n, max, st);
      } else {
        FirstUse(n, max, st);
      }
    }
  }

  // So with at most one overlapping disconnect, and as many indices as slots,
  // every accept finds an index, of a slot of its own.
  lemma OneOverlapIsSafe(n: nat, max: nat, events: seq<Event>)
    requires 0 < n && max <= n && Possible(max, Start(n), events) && Overlapping(max, 1, Start(n), events)
    ensures AlwaysGood(max, Start(n), events)
  {
    StartInv(n);
    RoomFrom(n, max, Start(n), events);
    IndicesFitExactly(n, max, events);
  }

  lemma {:induction false} RoomFrom(n: nat, max: nat, st: State, events: seq<Event>)
    requires n > 0 && Inv(n, st) && max <= n && Possible(max, st, events) && Overlapping(max, 1, st, events)
    ensures AlwaysRoom(max, st, events)
    decreases |events|
  {
    if events != [] {
      NotDrained(n, max, 1, st, events[0]);
      StepInv(n, max, st, events[0]);
      RoomFrom(n, max, Next(max, st, events[0]), events[1..]);
    }
  }

  // The states a run goes through.
  lemma {:induction false} PathRuns(max: nat, states: seq<State>, events: seq<Event>)
    requires |states| == |events| + 1
    requires forall i :: 0 <= i < |events| ==> Takes(max, states[i], events[i], states[i + 1])
    ensures Possible(max, states[0], events) && Run(max, states[0], events) == states[|events|]
    decreases |events|
  {
    if events != [] {
      assert Takes(max, states[0], events[0], states[1]);
      PathRuns(max, states[1..], events[1..]);
    }
  }

  function Lowered(st: State, i: Index): State {
    st.(count := st.count - 1, lowered := st.lowered + multiset{i})
  }

  lemma LowerTakes(max: nat, st: State, i: Index)
    requires st.lowered[i] < st.taken[i]
    ensures Takes(max, st, Lower(i), Lowered(st, i))
  {
  }

  // Two overlapping disconnects suffice for an index outside the array: with
  // two slots, index 2 is handed out.
  lemma IndexOutsideTheArray(n: nat)
    requires n >= 3
    ensures var events := [Accept, Lower(0), Accept, Lower(1), Accept];
            Possible(2, Start(n), events) && 2 in Run(2, Start(n), events).taken
  {
    var s0 := Start(n);
    var s1 := Popped(s0, Countdown(n, 1), 0);
    var s2 := Lowered(s1, 0);
    var s3 := Popped(s2, Countdown(n, 2), 1);
    var s4 := Lowered(s3, 1);
    var s5 := Popped(s4, Countdown(n, 3), 2);
    CountdownLast(n, 0);
    CountdownLast(n, 1);
    CountdownLast(n, 2);
    AcceptTakes(2, s0, Countdown(n, 1), 0);
    LowerTakes(2, s1, 0);
    AcceptTakes(2, s2, Countdown(n, 2), 1);
    LowerTakes(2, s3, 1);
    AcceptTakes(2, s4, Countdown(n, 3), 2);
    PathRuns(2, [s0, s1, s2, s3, s4, s5], [Accept, Lower(0), Accept, Lower(1), Accept]);
  }

  // Three accepts and one disconnect, whose index is pushed but not counted.
  const EARLIER := [Accept, Accept, Lower(1), Accept, Push(1)]

  function Lagging(count: int, taken: multiset<Index>, lowered: multiset<Index>): State {
    State([1], 0, count, taken, lowered, 0, 3)
  }

  const ONE_TAKEN := Popped(Start(3), [2, 1], 0)
  const TWO_TAKEN := Popped(ONE_TAKEN, [2], 1)
  const ALL_TAKEN := Popped(Lowered(TWO_TAKEN, 1), [], 2)

  lemma TwoAccepts()
    ensures Takes(3, Start(3), Accept, ONE_TAKEN) && Takes(3, ONE_TAKEN, Accept, TWO_TAKEN)
  {
    assert Start(3).free == [2, 1] + [0] && [2, 1] == [2] + [1];
    AcceptTakes(3, Start(3), [2, 1], 0);
    AcceptTakes(3, ONE_TAKEN, [2], 1);
  }

  lemma LowerAndAccept()
    ensures Takes(3, TWO_TAKEN, Lower(1), Lowered(TWO_TAKEN, 1)) && Takes(3, Lowered(TWO_TAKEN, 1), Accept, ALL_TAKEN)
  {
    assert [2] == [] + [2];
    LowerTakes(3, TWO_TAKEN, 1);
    AcceptTakes(3, Lowered(TWO_TAKEN, 1), [], 2);
  }

  lemma EarlierRuns()
    ensures Possible(3, Start(3), EARLIER)
    ensures Run(3, Start(3), EARLIER) == Lagging(2, multiset{0, 2}, multiset{})
  {
    TwoAccepts();
    LowerAndAccept();
    PushOne(ALL_TAKEN);
    PathRuns(3, [Start(3), ONE_TAKEN, TWO_TAKEN, Lowered(TWO_TAKEN, 1), ALL_TAKEN,
                 Lagging(2, multiset{0, 2}, multiset{})], EARLIER);
  }

  lemma PushOne(st: State)
    requires st.free == [] && st.size == 0 && st.count == 2 && st.refusals == 0 && st.used == 3
    requires st.taken == ((multiset{} + multiset{0}) + multiset{1}) + multiset{2}
    requires st.lowered == multiset{} + multiset{1}
    ensures Takes(3, st, Push(1), Lagging(2, multiset{0, 2}, multiset{}))
  {
    assert st.taken - multiset{1} == multiset{0, 2} && st.lowered - multiset{1} == multiset{};
    assert [] + [1] == [1];
  }

  // As long as an index that was pushed is not counted, its disconnect is under
  // way: with three slots and three indices, two disconnects that are suffice
  // for index 0 to be given to a second session, although index 1, which no
  // session has, is on the stack.
  lemma CounterLags()
    ensures var events := EARLIER + [Lower(2)];
            && Possible(3, Start(3), events)
            && var before := Run(3, Start(3), events);
               && before.free == [1] && before.taken == multiset{0, 2} && |before.lowered| == 1
               && UnderWay(before) == 2 && Admits(3, before)
               && Enabled(before, Accept) && Next(3, before, Accept).taken == multiset{0, 0, 2}
  {
    EarlierRuns();
    var st := Lagging(2, multiset{0, 2}, multiset{});
    var before := Lagging(1, multiset{0, 2}, multiset{2});
    assert multiset{} + multiset{2} == multiset{2};
    LowerTakes(3, st, 2);
    RunOneMore(3, Start(3), EARLIER, st, Lower(2), before);
    ZeroOnceMore(before);
  }

  lemma ZeroOnceMore(before: State)
    requires before == Lagging(1, multiset{0, 2}, multiset{2})
    ensures UnderWay(before) == 2 && Admits(3, before) && Enabled(before, Accept)
    ensures Next(3, before, Accept).taken == multiset{0, 0, 2}
  {
    assert multiset{0, 2} + multiset{0} == multiset{0, 0, 2};
  }

  lemma {:induction false} RunOneMore(max: nat, st: State, events: seq<Event>, mid: State, e: Event, to: State)
    requires Possible(max, st, events) && Run(max, st, events) == mid && Takes(max, mid, e, to)
    ensures Possible(max, st, events + [e]) && Run(max, st, events + [e]) == to
    decreases |events|
  {
    if events == [] {
      assert events + [e] == [e];
    } else {
      RunOneMore(max, Next(max, st, events[0]), events[1..], mid, e, to);
      assert (events + [e])[1..] == events[1..] + [e];
    }
  }

  // A disconnect that nobody disturbs gives back one place of the login counter
  // and puts its index on the stack, counted; indices that others have pushed
  // and not counted stay so.
  lemma DisconnectAlone(max: nat, st: State, i: Index)
    requires st.lowered[i] < st.taken[i] && st.size <= |st.free|
    ensures Possible(max, st, [Lower(i), Push(i), Count])
    ensures Run(max, st, [Lower(i), Push(i), Count])
         == st.(free := st.free + [i], size := st.size + 1, count := st.count - 1, taken := st.taken - multiset{i})
  {
    var s1 := Lowered(st, i);
    var s2 := s1.(free := st.free + [i], taken := st.taken - multiset{i}, lowered := st.lowered);
    LowerTakes(max, st, i);
    assert st.lowered + multiset{i} - multiset{i} == st.lowered;
    PathRuns(max, [st, s1, s2, s2.(size := st.size + 1)], [Lower(i), Push(i), Count]);
  }

  function Accepts(k: nat): seq<Event> {
    if k == 0 then [] else [Accept] + Accepts(k - 1)
  }

  // With a limit above the number of indices, accepts alone empty the stack,
  // and the next one gives slot 0 to a second session. The library's limit is
  // 30000 if none is registered, its stack holds 20000.
  lemma EmptyStackSharesZero(n: nat, max: nat)
    requires 0 < n && n + 2 <= max
    ensures Possible(max, Start(n), Accepts(n + 1)) && Run(max, Start(n), Accepts(n + 1)).taken[0] == 2
  {
    StartInv(n);
    FillUp(n, max, Start(n), n + 1);
  }

  // Only accepts so far.
  predicate Untouched(st: State) {
    st.lowered == multiset{} && st.refusals == 0 && st.size == |st.free|
  }

  lemma {:induction false} FillUp(n: nat, max: nat, st: State, k: nat)
    requires 0 < n && n + 2 <= max && Inv(n, st) && Untouched(st) && |st.taken| + k == n + 1 && k > 0
    ensures Possible(max, st, Accepts(k)) && Run(max, st, Accepts(k)).taken[0] == 2
    decreases k
  {
    FreeAndTaken(n, st);
    assert Accepts(k)[1..] == Accepts(k - 1);
    if k == 1 {
      ZeroIsShared(n, max, st);
      assert Accepts(0) == [];
    } else {
      AcceptOne(n, max, st);
      FillUp(n, max, Next(max, st, Accept), k - 1);
    }
  }

  lemma AcceptOne(n: nat, max: nat, st: State)
    requires n + 2 <= max && Inv(n, st) && Untouched(st) && |st.taken| < n
    ensures var st' := Next(max, st, Accept);
            Inv(n, st') && Untouched(st') && |st'.taken| == |st.taken| + 1
  {
    FreeAndTaken(n, st);
    StepInv(n, max, st, Accept);
  }

  // A session is admitted exactly when the sessions connected and all refusals
  // so far leave room: what was refused once is counted for ever.
  lemma AdmittedExactly(n: nat, max: nat, events: seq<Event>)
    requires Possible(max, Start(n), events)
    ensures var st := Run(max, Start(n), events);
            Admits(max, st) <==> |st.taken| - |st.lowered| + st.refusals + 1 < max
  {
    CountFrom(max, Start(n), events);
  }

  lemma {:induction false} CountFrom(max: nat, st: State, events: seq<Event>)
    requires Possible(max, st, events) && st.lowered <= st.taken
    requires st.count == |st.taken| - |st.lowered| + st.refusals
    ensures var st' := Run(max, st, events); st'.count == |st'.taken| - |st'.lowered| + st'.refusals
    decreases |events|
  {
    if events != [] {
      CountFrom(max, Next(max, st, events[0]), events[1..]);
    }
  }

  // So a server for one session that refused a second one refuses everybody
  // after the first has left.
  lemma RefusalsAreNeverForgotten(n: nat)
    requires n > 0
    ensures var events := [Accept, Accept, Lower(0), Push(0)];
            && Possible(2, Start(n), events)
            && var st := Run(2, Start(n), events);
               st.taken == multiset{} && !Admits(2, st)
  {
  }
}
