/** Who takes which mutex when: the client's `m_mutex`, the mutex of each result channel, and any number
    of threads that take them in any order of execution. */
module Locks {
  /** `SerfIoThread::m_mutex`, and `ResultChannel::m_mutex` of each call. */
  datatype Lock = Registry | Channel(call: nat)

  datatype Op = Acquire(lock: Lock) | Release(lock: Lock)

  /** Code as nested scopes: a `lock_guard` around some code, and a wait on the condition variable of a
      locked mutex, which gives the mutex up and takes it again. */
  datatype Code = End | Guard(lock: Lock, inside: Code, next: Code) | Wait(lock: Lock, next: Code)

  function Trace(c: Code): seq<Op> {
    match c
    case End => []
    case Guard(l, inside, next) => [Acquire(l)] + Trace(inside) + [Release(l)] + Trace(next)
    case Wait(l, next) => [Release(l), Acquire(l)] + Trace(next)
  }

  function Then(a: Code, b: Code): Code {
    match a
    case End => b
    case Guard(l, inside, next) => Guard(l, inside, Then(next, b))
    case Wait(l, next) => Wait(l, Then(next, b))
  }

  // ---------- the program ----------

  /** `sendData`, `add*Channel`, `removeChannel`, and the lookup and the erase of the decode loop. */
  const SECTION: Code := Guard(Registry, End, End)

  function Waits(call: nat, n: nat): Code {
    if n == 0 then End else Wait(Channel(call), Waits(call, n - 1))
  }

  /** How a client call goes: whether its send works, how often it wakes up, and whether it ends with
      one more critical section (a removal or an installation). */
  datatype Plan = Plan(call: nat, sent: bool, wakeups: nat, last: bool)

  function CallCode(p: Plan): Code {
    Then(SECTION,
         if !p.sent then End
         else Guard(Channel(p.call), Waits(p.call, p.wakeups), if p.last then SECTION else End))
  }

  function Calls(ps: seq<Plan>): Code {
    if ps == [] then End else Then(CallCode(ps[0]), Calls(ps[1..]))
  }

  /** One turn of the decode loop. A record runs its listener, which may make any calls, and a completed
      query removes itself. */
  datatype Turn = Garbage | Unknown | Reply(call: nat) | Record(calls: seq<Plan>, done: bool)

  function TurnCode(t: Turn): Code {
    match t
    case Garbage => End
    case Unknown => SECTION
    case Reply(c) => Then(SECTION, Then(SECTION, Guard(Channel(c), End, End)))
    case Record(ps, done) => Then(SECTION, Then(Calls(ps), if done then SECTION else End))
  }

  function Turns(ts: seq<Turn>): Code {
    if ts == [] then End else Then(TurnCode(ts[0]), Turns(ts[1..]))
  }

  datatype Thread = Caller(plans: seq<Plan>) | IoLoop(turns: seq<Turn>)

  function ThreadCode(t: Thread): Code {
    match t case Caller(ps) => Calls(ps) case IoLoop(ts) => Turns(ts)
  }

  // ---------- never two locks at once ----------

  datatype Holding = Nothing | One(lock: Lock)

  /** Starting with `held`, the thread never takes a lock while it has one, releases only what it has, and
      ends with nothing. */
  predicate OneAtATime(ops: seq<Op>, held: Holding) {
    if ops == [] then held == Nothing
    else match ops[0]
         case Acquire(l) => held == Nothing && OneAtATime(ops[1..], One(l))
         case Release(l) => held == One(l) && OneAtATime(ops[1..], Nothing)
  }

  lemma {:induction false} TraceThen(a: Code, b: Code)
    ensures Trace(Then(a, b)) == Trace(a) + Trace(b)
  {
    match a {
      case End =>
      case Guard(l, inside, next) =>
        TraceThen(next, b);
        assert [Acquire(l)] + Trace(inside) + [Release(l)] + (Trace(next) + Trace(b))
            == ([Acquire(l)] + Trace(inside) + [Release(l)] + Trace(next)) + Trace(b);
      case Wait(_, next) => TraceThen(next, b);
    }
  }

  lemma {:induction false} InSequence(a: seq<Op>, b: seq<Op>, held: Holding)
    requires OneAtATime(a, held) && OneAtATime(b, Nothing)
    ensures OneAtATime(a + b, held)
    decreases |a|
  {
    if a == [] {
      assert a + b == b;
    } else {
      assert (a + b)[1..] == a[1..] + b;
      InSequence(a[1..], b, match a[0] case Acquire(l) => One(l) case Release(_) => Nothing);
    }
  }

  lemma ThenIsOneAtATime(a: Code, b: Code)
    requires OneAtATime(Trace(a), Nothing) && OneAtATime(Trace(b), Nothing)
    ensures OneAtATime(Trace(Then(a, b)), Nothing)
  {
    TraceThen(a, b);
    InSequence(Trace(a), Trace(b), Nothing);
  }

  lemma SectionIsOneAtATime()
    ensures OneAtATime(Trace(SECTION), Nothing)
  {
    assert Trace(SECTION) == [Acquire(Registry), Release(Registry)];
  }

  /** A consumer gives its mutex up in every wait and has it again at the end. */
  lemma {:induction false} ConsumeIsOneAtATime(call: nat, n: nat)
    ensures OneAtATime(Trace(Waits(call, n)) + [Release(Channel(call))], One(Channel(call)))
  {
    if n == 0 {
      assert Trace(Waits(call, 0)) + [Release(Channel(call))] == [Release(Channel(call))];
    } else {
      ConsumeIsOneAtATime(call, n - 1);
      var l := Channel(call);
      var rest := Trace(Waits(call, n - 1)) + [Release(l)];
      var ops := Trace(Waits(call, n)) + [Release(l)];
      assert ops == [Release(l), Acquire(l)] + rest;
      assert ops[1..] == [Acquire(l)] + rest && ops[1..][1..] == rest;
    }
  }

  lemma GuardedWaits(call: nat, n: nat)
    ensures OneAtATime(Trace(Guard(Channel(call), Waits(call, n), End)), Nothing)
  {
    ConsumeIsOneAtATime(call, n);
    var ops := Trace(Guard(Channel(call), Waits(call, n), End));
    assert ops == [Acquire(Channel(call))] + (Trace(Waits(call, n)) + [Release(Channel(call))]);
  }

  lemma CallIsOneAtATime(p: Plan)
    ensures OneAtATime(Trace(CallCode(p)), Nothing)
  {
    SectionIsOneAtATime();
    if p.sent {
      var last := if p.last then SECTION else End;
      var wait := Guard(Channel(p.call), Waits(p.call, p.wakeups), End);
      GuardedWaits(p.call, p.wakeups);
      ThenIsOneAtATime(wait, last);
      assert Then(wait, last) == Guard(Channel(p.call), Waits(p.call, p.wakeups), last);
      ThenIsOneAtATime(SECTION, Then(wait, last));
    }
  }

  lemma {:induction false} CallsAreOneAtATime(ps: seq<Plan>)
    ensures OneAtATime(Trace(Calls(ps)), Nothing)
  {
    if ps != [] {
      CallIsOneAtATime(ps[0]);
      CallsAreOneAtATime(ps[1..]);
      ThenIsOneAtATime(CallCode(ps[0]), Calls(ps[1..]));
    }
  }

  lemma TurnIsOneAtATime(t: Turn)
    ensures OneAtATime(Trace(TurnCode(t)), Nothing)
  {
    SectionIsOneAtATime();
    match t {
      case Garbage =>
      case Unknown =>
      case Reply(c) =>
        GuardedWaits(c, 0);
        ThenIsOneAtATime(SECTION, Guard(Channel(c), End, End));
        ThenIsOneAtATime(SECTION, Then(SECTION, Guard(Channel(c), End, End)));
      case Record(ps, done) =>
        var end := if done then SECTION else End;
        CallsAreOneAtATime(ps);
        ThenIsOneAtATime(Calls(ps), end);
        ThenIsOneAtATime(SECTION, Then(Calls(ps), end));
    }
  }

  lemma {:induction false} TurnsAreOneAtATime(ts: seq<Turn>)
    ensures OneAtATime(Trace(Turns(ts)), Nothing)
  {
    if ts != [] {
      TurnIsOneAtATime(ts[0]);
      TurnsAreOneAtATime(ts[1..]);
      ThenIsOneAtATime(TurnCode(ts[0]), Turns(ts[1..]));
    }
  }

  /** No thread of the program ever holds two locks or re-enters one: not across a wait, not in a call made
      from a callback, and not when a completed query deregisters itself. */
  lemma ThreadIsOneAtATime(t: Thread)
    ensures OneAtATime(Trace(ThreadCode(t)), Nothing)
  {
    match t {
      case Caller(ps) => CallsAreOneAtATime(ps);
      case IoLoop(ts) => TurnsAreOneAtATime(ts);
    }
  }

  // ---------- how often each lock is taken ----------

  function Taken(ops: seq<Op>, l: Lock): nat {
    if ops == [] then 0 else (if ops[0] == Acquire(l) then 1 else 0) + Taken(ops[1..], l)
  }

  lemma {:induction false} TakenInAll(a: seq<Op>, b: seq<Op>, l: Lock)
    ensures Taken(a + b, l) == Taken(a, l) + Taken(b, l)
  {
    if a == [] {
      assert a + b == b;
    } else {
      assert (a + b)[1..] == a[1..] + b;
      TakenInAll(a[1..], b, l);
    }
  }

  lemma TakenByThen(a: Code, b: Code, l: Lock)
    ensures Taken(Trace(Then(a, b)), l) == Taken(Trace(a), l) + Taken(Trace(b), l)
  {
    TraceThen(a, b);
    TakenInAll(Trace(a), Trace(b), l);
  }

  lemma {:induction false} TakenByWaits(call: nat, n: nat, l: Lock)
    ensures Taken(Trace(Waits(call, n)), l) == if l == Channel(call) then n else 0
  {
    if n != 0 {
      TakenByWaits(call, n - 1, l);
      TakenInAll([Release(Channel(call)), Acquire(Channel(call))], Trace(Waits(call, n - 1)), l);
      assert Trace(Waits(call, n)) == [Release(Channel(call)), Acquire(Channel(call))] + Trace(Waits(call, n - 1));
    }
  }

  lemma TakenByGuard(g: Lock, inside: Code, l: Lock)
    ensures Taken(Trace(Guard(g, inside, End)), l) == (if g == l then 1 else 0) + Taken(Trace(inside), l)
  {
    TakenInAll([Acquire(g)], Trace(inside), l);
    TakenInAll([Acquire(g)] + Trace(inside), [Release(g)], l);
    assert Trace(Guard(g, inside, End)) == ([Acquire(g)] + Trace(inside)) + [Release(g)];
  }

  /** A call whose send works takes its channel's mutex once to wait and once more for every wakeup, and no other
      channel's; and the client's mutex to send, and at its end if it has an entry to remove or to make. */
  lemma CallTakes(p: Plan, other: nat)
    ensures var ops := Trace(CallCode(p));
            && Taken(ops, Channel(p.call)) == (if p.sent then 1 + p.wakeups else 0)
            && (other != p.call ==> Taken(ops, Channel(other)) == 0)
            && Taken(ops, Registry) == if p.sent && p.last then 2 else 1
  {
    forall l ensures Taken(Trace(CallCode(p)), l) ==
      (if l == Registry then (if p.sent && p.last then 2 else 1)
       else if l == Channel(p.call) && p.sent then 1 + p.wakeups else 0)
    {
      var last := if p.last then SECTION else End;
      var wait := Guard(Channel(p.call), Waits(p.call, p.wakeups), End);
      TakenByGuard(Registry, End, l);
      TakenByWaits(p.call, p.wakeups, l);
      TakenByGuard(Channel(p.call), Waits(p.call, p.wakeups), l);
      TakenByThen(wait, last, l);
      assert Then(wait, last) == Guard(Channel(p.call), Waits(p.call, p.wakeups), last);
      TakenByThen(SECTION, if p.sent then Then(wait, last) else End, l);
    }
  }

  /** A reply takes the client's mutex to be looked up and to be erased, and then its channel's; a record takes the
      client's mutex to be looked up, and once more to end a query. */
  lemma TurnTakes(c: nat)
    ensures Trace(TurnCode(Reply(c))) ==
              [Acquire(Registry), Release(Registry), Acquire(Registry), Release(Registry),
               Acquire(Channel(c)), Release(Channel(c))]
    ensures forall done :: Trace(TurnCode(Record([], done))) ==
              [Acquire(Registry), Release(Registry)] + if done then [Acquire(Registry), Release(Registry)] else []
  {
    var g := Guard(Channel(c), End, End);
    assert Trace(SECTION) == [Acquire(Registry), Release(Registry)];
    assert Trace(g) == [Acquire(Channel(c)), Release(Channel(c))];
    TraceThen(SECTION, g);
    TraceThen(SECTION, Then(SECTION, g));
    forall done ensures Trace(TurnCode(Record([], done))) ==
      [Acquire(Registry), Release(Registry)] + if done then [Acquire(Registry), Release(Registry)] else []
    {
      TraceThen(SECTION, if done then SECTION else End);
    }
  }

  // ---------- any number of threads, in any interleaving ----------

  /** What each thread has still to do, and which thread has each lock. */
  datatype State = State(rest: seq<seq<Op>>, holder: map<Lock, nat>)

  function Start(threads: seq<Thread>): State {
    State(seq(|threads|, i requires 0 <= i < |threads| => Trace(ThreadCode(threads[i]))), map[])
  }

  /** A mutex that is held, by whomever, cannot be taken; only its holder may release it. */
  predicate CanStep(s: State, i: nat) {
    && i < |s.rest| && s.rest[i] != []
    && match s.rest[i][0]
       case Acquire(l) => l !in s.holder
       case Release(l) => l in s.holder && s.holder[l] == i
  }

  function Step(s: State, i: nat): State
    requires CanStep(s, i)
  {
    var rest := s.rest[i := s.rest[i][1..]];
    match s.rest[i][0]
    case Acquire(l) => State(rest, s.holder[l := i])
    case Release(l) => State(rest, s.holder - {l})
  }

  /** The threads take their turns in the given order. */
  predicate Runs(s: State, order: seq<nat>, t: State)
    decreases |order|
  {
    if order == [] then s == t else CanStep(s, order[0]) && Runs(Step(s, order[0]), order[1..], t)
  }

  function HeldBy(ops: seq<Op>): Holding {
    if ops != [] && ops[0].Release? then One(ops[0].lock) else Nothing
  }

  /** Every thread goes on one lock at a time, and holds exactly the lock it is about to release. */
  ghost predicate Sound(s: State) {
    && (forall i :: 0 <= i < |s.rest| ==> OneAtATime(s.rest[i], HeldBy(s.rest[i])))
    && (forall l :: l in s.holder ==> s.holder[l] < |s.rest| && HeldBy(s.rest[s.holder[l]]) == One(l))
    && (forall i :: 0 <= i < |s.rest| && s.rest[i] != [] && s.rest[i][0].Release? ==>
          s.rest[i][0].lock in s.holder && s.holder[s.rest[i][0].lock] == i)
  }

  lemma StartIsSound(threads: seq<Thread>)
    ensures Sound(Start(threads))
  {
    forall i | 0 <= i < |threads|
      ensures OneAtATime(Trace(ThreadCode(threads[i])), Nothing) && HeldBy(Trace(ThreadCode(threads[i]))) == Nothing
    { ThreadIsOneAtATime(threads[i]); }
  }

  lemma StepIsSound(s: State, i: nat)
    requires Sound(s) && CanStep(s, i)
    ensures Sound(Step(s, i))
  {
    var t := Step(s, i);
    var ops := s.rest[i];
    assert OneAtATime(ops, HeldBy(ops));
    HeldIsNext(ops[1..], if ops[0].Acquire? then One(ops[0].lock) else Nothing);
    forall j | 0 <= j < |t.rest| ensures OneAtATime(t.rest[j], HeldBy(t.rest[j])) {
      assert j != i ==> OneAtATime(s.rest[j], HeldBy(s.rest[j]));
    }
  }

  lemma HeldIsNext(ops: seq<Op>, held: Holding)
    requires OneAtATime(ops, held)
    ensures HeldBy(ops) == held
  {
  }

  lemma {:induction false} RunIsSound(s: State, order: seq<nat>, t: State)
    requires Sound(s) && Runs(s, order, t)
    ensures Sound(t)
    decreases |order|
  {
    if order != [] {
      StepIsSound(s, order[0]);
      RunIsSound(Step(s, order[0]), order[1..], t);
    }
  }

  /** After any number of steps of any number of threads: no thread holds two locks, a thread that holds
      one can go on, and a thread that has to wait waits for another that can. */
  lemma NoCircularWait(threads: seq<Thread>, order: seq<nat>, t: State)
    requires Runs(Start(threads), order, t)
    ensures forall l, m :: l in t.holder && m in t.holder && t.holder[l] == t.holder[m] ==> l == m
    ensures forall l :: l in t.holder ==> CanStep(t, t.holder[l])
    ensures forall i :: 0 <= i < |t.rest| && t.rest[i] != [] && !CanStep(t, i) ==>
              t.rest[i][0].lock in t.holder && t.holder[t.rest[i][0].lock] != i
  {
    StartIsSound(threads);
    RunIsSound(Start(threads), order, t);
  }

  function Left(rest: seq<seq<Op>>): nat {
    if rest == [] then 0 else |rest[0]| + Left(rest[1..])
  }

  lemma {:induction false} LeftShrinks(rest: seq<seq<Op>>, i: nat)
    requires i < |rest| && rest[i] != []
    ensures Left(rest[i := rest[i][1..]]) == Left(rest) - 1
    decreases |rest|
  {
    if i == 0 {
      assert rest[i := rest[i][1..]][1..] == rest[1..];
    } else {
      assert rest[i := rest[i][1..]][1..] == rest[1..][i - 1 := rest[i][1..]];
      LeftShrinks(rest[1..], i - 1);
    }
  }

  /** Somebody can go on as long as anybody has something to do. */
  lemma SomeoneCanStep(s: State, i: nat) returns (j: nat)
    requires Sound(s) && i < |s.rest| && s.rest[i] != []
    ensures CanStep(s, j)
  {
    j := if CanStep(s, i) then i else s.holder[s.rest[i][0].lock];
  }

  /** No deadlock: whatever has happened so far, there is an order in which all threads finish. */
  lemma AllCanFinish(threads: seq<Thread>, order: seq<nat>, s: State) returns (more: seq<nat>, t: State)
    requires Runs(Start(threads), order, s)
    ensures Runs(s, more, t) && t.holder == map[] && forall i :: 0 <= i < |t.rest| ==> t.rest[i] == []
  {
    StartIsSound(threads);
    RunIsSound(Start(threads), order, s);
    more, t := Finish(s);
  }

  lemma {:induction false} Finish(s: State) returns (more: seq<nat>, t: State)
    requires Sound(s)
    ensures Runs(s, more, t) && t.holder == map[] && forall i :: 0 <= i < |t.rest| ==> t.rest[i] == []
    decreases Left(s.rest)
  {
    if i: nat :| i < |s.rest| && s.rest[i] != [] {
      var j := SomeoneCanStep(s, i);
      StepIsSound(s, j);
      LeftShrinks(s.rest, j);
      var later, u := Finish(Step(s, j));
      more, t := [j] + later, u;
      assert more[1..] == later;
    } else {
      more, t := [], s;
      assert forall l :: l !in s.holder;
    }
  }
}
