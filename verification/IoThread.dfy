/** `SerfIoThread`: the shared state, its critical sections, and the loop of the I/O thread, which
    other threads interrupt between any two of its critical sections as their schedule says. */
module IoThread {
  import opened Options
  import opened Messages
  import opened Decoder
  import opened Channels
  import opened Pump
  import opened Schedule
  import opened Sequences
  import Demux
  import Registry

  // ---------- channels that other threads bring ----------

  /** The channels that some steps register. */
  ghost function Cast(acts: seq<Act<Channel>>): set<object> {
    set i | 0 <= i < |acts| && acts[i].Put? :: ObjectOf(acts[i].target.chan)
  }

  /** A call sends once and a listener is installed once: every channel registered is a new one, and nobody
      registers anything under a number that is taken. */
  ghost predicate NewActs(acts: seq<Act<Channel>>, known: set<object>, taken: set<nat>) {
    && (forall i :: 0 <= i < |acts| && acts[i].Put? ==>
          ObjectOf(acts[i].target.chan) !in known && acts[i].target.role == RoleOf(acts[i].target.chan)
          && acts[i].q !in taken)
    && (forall i, j :: 0 <= i < j < |acts| && acts[i].Put? && acts[j].Put? ==>
          ObjectOf(acts[i].target.chan) != ObjectOf(acts[j].target.chan))
  }

  lemma NewSplit(a: seq<Act<Channel>>, b: seq<Act<Channel>>, known: set<object>, taken: set<nat>)
    requires NewActs(a + b, known, taken)
    ensures NewActs(a, known, taken) && NewActs(b, known + Cast(a), taken) && NewActs(b, known, taken)
    ensures Cast(a + b) == Cast(a) + Cast(b)
  {
    var ab := a + b;
    assert forall i :: 0 <= i < |a| ==> ab[i] == a[i];
    assert forall i :: 0 <= i < |b| ==> ab[|a| + i] == b[i];
    CastOfSum(a, b);
    forall i | 0 <= i < |b| && b[i].Put? ensures ObjectOf(b[i].target.chan) !in known + Cast(a) && b[i].q !in taken {
      assert ab[|a| + i].Put?;
    }
    forall i, j | 0 <= i < j < |b| && b[i].Put? && b[j].Put?
      ensures ObjectOf(b[i].target.chan) != ObjectOf(b[j].target.chan)
    {
      assert ab[|a| + i].Put? && ab[|a| + j].Put?;
    }
  }

  lemma CastOfOne(a: Act<Channel>)
    ensures Cast([a]) == if a.Put? then {ObjectOf(a.target.chan)} else {}
    ensures a.Put? ==> forall known, taken :: NewActs([a], known, taken) ==>
              && ObjectOf(a.target.chan) !in known && a.q !in taken
              && a.target == Demux.Target(a.target.chan, RoleOf(a.target.chan))
  {
    assert [a][0] == a;
  }

  lemma LastAct(acts: seq<Act<Channel>>, rest: seq<Act<Channel>>)
    requires acts != []
    ensures var n := |acts| - 1;
            acts + rest == acts[..n] + ([acts[n]] + rest) && Cast(acts) == Cast(acts[..n]) + Cast([acts[n]])
  {
    var n := |acts| - 1;
    assert acts == acts[..n] + [acts[n]];
    CastOfSum(acts[..n], [acts[n]]);
  }

  lemma CastOfSum(a: seq<Act<Channel>>, b: seq<Act<Channel>>)
    ensures Cast(a + b) == Cast(a) + Cast(b)
  {
    var ab := a + b;
    assert forall i :: 0 <= i < |a| ==> ab[i] == a[i];
    forall o ensures o in Cast(ab) <==> o in Cast(a) || o in Cast(b) {
      if o in Cast(b) {
        var i :| 0 <= i < |b| && b[i].Put? && ObjectOf(b[i].target.chan) == o;
        assert ab[|a| + i].Put?;
      }
    }
  }

  lemma FirstIsUnrolled(script: seq<Sched<Channel>>)
    ensures AllActs(script) == Unroll(First(script), AllActs(Later(script)))
  {
  }

  /** One run of the decode loop: the objects it starts from, the schedule, what `Play` makes of them, and the
      record before. */
  datatype Decodes = Decodes(objs: seq<Object>, script: seq<Sched<Channel>>, show: Show<Channel>,
                             seen: seq<Demux.View<Channel>>, before: seq<Demux.Delivery<Channel>>)

  class SerfIoThread {
    var m_seq: nat
    var m_channels: Registry.Raw<Channel>
    const unp: Unpacker

    /** All channel objects there are or will be, and the number that each of those registered so far got. */
    ghost var repr: set<object>
    ghost var home: map<object, nat>
    /** Every `produce` so far, and the live entries at each object taken on this connection. */
    ghost var trace: seq<Demux.Delivery<Channel>>
    ghost var views: seq<Demux.View<Channel>>
    /** The listener channels deleted so far, and the request channels the loop has taken out. */
    ghost var deleted: seq<Channel>
    ghost var erased: set<ResultChannel>
    /** Numbers that belong to a channel in use: nothing else is registered under them. */
    ghost var held: map<nat, Channel>

    ghost predicate Valid()
      reads this`m_seq, this`m_channels, this`repr, this`home, this`trace, this`deleted, this`erased, this`held, unp
    {
      && unp.Valid() && m_seq < U64
      && this !in repr && unp !in repr && unp.buf !in repr && home.Keys <= repr
      && Registered() && ServedWell() && ServedOnce() && Holding()
    }

    /** Every entry is under the number of its channel, and a request channel once taken out is gone. */
    ghost predicate Registered()
      reads this`m_channels, this`home, this`erased
    {
      && (forall q :: q in m_channels && m_channels[q].Some? ==> At(m_channels[q].value, q))
      && (forall r :: r in erased ==> r in home && Gone(r))
    }

    ghost predicate Holding()
      reads this`m_channels, this`home, this`deleted, this`held
    {
      forall q :: q in held ==> HeldWell(q)
    }

    /** The channel was registered under this number. */
    ghost predicate At(c: Channel, q: nat)
      reads this`home
    {
      ObjectOf(c) in home && home[ObjectOf(c)] == q
    }

    /** Nothing but its owner is registered under a number in use, and a listener channel leaves it only by being
        deleted. */
    ghost predicate HeldWell(q: nat)
      requires q in held
      reads this`m_channels, this`home, this`deleted, this`held
    {
      && At(held[q], q)
      && (q in m_channels && m_channels[q].Some? ==> m_channels[q] == Some(held[q]))
      && (held[q].Listener? ==> (q in m_channels && m_channels[q].Some?) || held[q] in deleted)
    }

    /** Every delivery was made under the number of its channel, with a payload if that wants one, and to a request
        channel only after that was taken out of the map. */
    ghost predicate ServedWell()
      reads this`trace, this`home, this`erased
    {
      AllWell(trace)
    }

    ghost predicate AllWell(ds: seq<Demux.Delivery<Channel>>)
      reads this`home, this`erased
    {
      forall i :: 0 <= i < |ds| ==>
        && At(ds[i].chan, ds[i].hdr.Seq) && (ds[i].payload.NoBody? <==> !WantsBody(ds[i].chan))
        && (ds[i].chan.Request? ==> ds[i].chan.r in erased)
    }

    /** No request channel is served twice. */
    ghost predicate ServedOnce()
      reads this`trace
    {
      Once(trace)
    }

    static ghost predicate Once(ds: seq<Demux.Delivery<Channel>>) {
      forall i, j :: 0 <= i < j < |ds| && ds[i].chan.Request? ==> ds[i].chan != ds[j].chan
    }

    /** This request channel is not registered. */
    ghost predicate Gone(r: ResultChannel)
      reads this`m_channels
    {
      forall q :: q in m_channels ==> m_channels[q] != Some(Request(r))
    }

    /** Every channel is in the state that the deliveries so far have left it in. */
    ghost predicate Reflected()
      reads this`trace, this`repr, repr
    {
      AllReflect(trace, repr)
    }

    ghost function Live(): Demux.View<Channel>
      reads this`m_channels
    {
      Targets(m_channels)
    }

    static ghost function Targets(raw: Registry.Raw<Channel>): Demux.View<Channel> {
      map q | q in Registry.Live(raw) :: Demux.Target(Registry.Live(raw)[q], RoleOf(Registry.Live(raw)[q]))
    }

    static lemma TargetsPut(raw: Registry.Raw<Channel>, q: nat, c: Channel)
      ensures Targets(raw[q := Some(c)]) == Targets(raw)[q := Demux.Target(c, RoleOf(c))]
    {
    }

    static lemma TargetsChange(raw: Registry.Raw<Channel>, q: nat)
      ensures Targets(Registry.Touch(raw, q)) == Targets(raw)
      ensures Targets(raw - {q}) == Targets(raw) - {q}
      ensures q in Targets(raw) <==> q in raw && raw[q].Some?
    {
    }

    constructor (dec: Dec)
      requires SelfDelimiting(dec)
      ensures Valid() && Reflected() && Live() == map[] && m_seq == 0 && repr == {}
      ensures home == map[] && held == map[] && deleted == [] && trace == [] && views == [] && unp.Pending() == []
      ensures fresh(unp) && fresh(unp.buf) && unp.dec == dec
    {
      m_seq := 0;
      m_channels := map[];
      unp := new Unpacker(dec);
      repr, home, trace, views, deleted, erased, held := {}, map[], [], [], [], {}, map[];
    }

    /** The channels that the other threads are going to register are there. */
    ghost method Expect(acts: seq<Act<Channel>>)
      requires Valid() && Reflected() && NewActs(acts, repr + {this, unp, unp.buf}, held.Keys) && InTurn(acts, m_seq)
      requires forall o :: o in Cast(acts) ==> Reflects([], o)
      modifies this`repr
      ensures Valid() && Reflected() && Coming(acts) && repr == old(repr) + Cast(acts)
    {
      Newcomers(trace, repr, Cast(acts));
      repr := repr + Cast(acts);
    }

    // ---------- critical sections ----------

    /** `m_channels[q] = c`, for a channel that was never registered before. */
    method Register(q: nat, c: Channel)
      requires Valid() && ObjectOf(c) in repr && ObjectOf(c) !in home && q !in held
      modifies this`m_channels, this`home
      ensures Valid() && m_channels == old(m_channels)[q := Some(c)] && home == old(home)[ObjectOf(c) := q]
      ensures Live() == old(Live())[q := Demux.Target(c, RoleOf(c))]
    {
      TargetsPut(m_channels, q, c);
      m_channels := m_channels[q := Some(c)];
      home := home[ObjectOf(c) := q];
    }

    /** The owner of a channel claims its number, and gives it back. */
    ghost method Hold(q: nat, c: Channel)
      requires Valid() && q !in held && q in m_channels && m_channels[q] == Some(c)
      modifies this`held
      ensures Valid() && held == old(held)[q := c]
    {
      held := held[q := c];
    }

    ghost method Release(q: nat)
      requires Valid()
      modifies this`held
      ensures Valid() && held == old(held) - {q}
    {
      held := held - {q};
    }

    /** A channel is constructed. */
    ghost method Enrol(o: object)
      requires Valid() && o !in repr && o !in {this, unp, unp.buf}
      modifies this`repr
      ensures Valid() && repr == old(repr) + {o}
      ensures old(Reflected()) && Reflects([], o) ==> Reflected()
    {
      if Reflected() && Reflects([], o) { Newcomer(trace, repr, o); }
      repr := repr + {o};
    }

    /** `sendData`: `ok` is the outcome of the `send`. A failed send burns its number and leaves the map
        and the caller's `seq` alone. */
    method SendData(channel: ResultChannel, ok: bool, seq0: nat) returns (result: bool, num: nat)
      requires Valid() && channel !in repr && m_seq !in held
      modifies this`m_seq, this`m_channels, this`repr, this`home
      ensures Valid() && result == ok
      ensures m_seq == if old(m_seq) + 1 < 0x1_0000_0000_0000_0000 then old(m_seq) + 1 else 0
      ensures ok ==> num == old(m_seq) &&
                     Live() == old(Live())[num := Demux.Target(Request(channel), RoleOf(Request(channel)))]
      ensures ok ==> repr == old(repr) + {channel} && home == old(home)[channel := num]
      ensures ok ==> m_channels == old(m_channels)[num := Some(Request(channel))]
      ensures old(Reflected()) && Reflects([], channel) ==> Reflected()
      ensures !ok ==> num == seq0 && m_channels == old(m_channels) && repr == old(repr) && home == old(home)
    {
      hide Registered, ServedWell, ServedOnce, Holding;
      var q := m_seq;
      m_seq := if m_seq + 1 == U64 then 0 else m_seq + 1;
      result := ok;
      num := seq0;
      if ok {
        Enrol(channel);
        Register(q, Request(channel));
        num := q;
      }
    }

    /** `addLogChannel`, `addEventChannel` and `addQueryChannel`. */
    method AddChannel(q: nat, kind: ListenerKind) returns (l: ListenerChannel)
      requires Valid() && q !in held
      modifies this`m_channels, this`repr, this`home
      ensures Valid() && fresh(l) && l.kind == kind && l.called == []
      ensures Live() == old(Live())[q := Demux.Target(Listener(l), Demux.Hears(kind))]
      ensures m_channels == old(m_channels)[q := Some(Listener(l))]
      ensures repr == old(repr) + {l} && home == old(home)[l := q]
      ensures old(Reflected()) ==> Reflected()
    {
      l := new ListenerChannel(kind);
      Enrol(l);
      Register(q, Listener(l));
    }

    /** `removeChannel`: reads through `operator[]`, erases, deletes a listener channel. */
    method RemoveChannel(q: nat)
      requires Valid()
      modifies this`m_channels, this`deleted
      ensures Valid() && Live() == old(Live()) - {q}
      ensures m_channels == old(m_channels) - {q}
      ensures deleted == old(deleted) +
                if q in old(Live()) && old(Live())[q].chan.Listener? then [old(Live())[q].chan] else []
    {
      hide ServedWell, ServedOnce;
      TargetsChange(m_channels, q);
      var raw := Registry.Touch(m_channels, q);
      TargetsChange(raw, q);
      var chan := raw[q];
      m_channels := raw - {q};
      if chan.Some? && !chan.value.Request? { deleted := deleted + [chan.value]; }
    }

    /** The lookup of the decode loop; it leaves a null entry behind for an unknown number. */
    method Find(q: nat) returns (channel: Option<Channel>)
      requires Valid()
      modifies this`m_channels
      ensures Valid() && Live() == old(Live()) && m_channels == Registry.Touch(old(m_channels), q)
      ensures channel == (if q in Live() then Some(Live()[q].chan) else None)
    {
      TargetsChange(m_channels, q);
      m_channels := Registry.Touch(m_channels, q);
      channel := m_channels[q];
    }

    /** The erase of the decode loop, for the request channel that was found under `q`. */
    method Erase(q: nat, ghost r: ResultChannel)
      requires Valid() && At(Request(r), q) && (q in held ==> held[q] == Request(r))
      modifies this`m_channels, this`erased
      ensures Valid() && Live() == old(Live()) - {q} && erased == old(erased) + {r}
    {
      TargetsChange(m_channels, q);
      m_channels := m_channels - {q};
      erased := erased + {r};
    }

    /** These steps of other threads are to come: the channels they register were not registered before. */
    ghost predicate Coming(acts: seq<Act<Channel>>)
      reads this`m_seq, this`repr, this`home, this`held
    {
      NewActs(acts, home.Keys, held.Keys) && Cast(acts) <= repr && InTurn(acts, m_seq)
    }

    lemma ComingSplit(a: seq<Act<Channel>>, b: seq<Act<Channel>>)
      requires Coming(a + b)
      ensures Coming(a) && Coming(b) && NewActs(b, home.Keys + Cast(a), held.Keys)
    {
      NewSplit(a, b, home.Keys, held.Keys);
      TurnsSplit(a, b, m_seq);
    }

    /** The channels registered before have kept their numbers. */
    ghost predicate Grown(past: map<object, nat>)
      reads this`home
    {
      forall o :: o in past ==> o in home && home[o] == past[o]
    }

    /** One step of another thread; a send advances the counter. */
    method OtherThread(a: Act<Channel>)
      requires Valid() && Reflected() && Coming([a])
      modifies this`m_seq, this`m_channels, this`home, this`deleted
      ensures m_seq == Counted(a, old(m_seq))
      ensures Valid() && Reflected() && Live() == After1(old(Live()), a)
      ensures home.Keys == old(home.Keys) + Cast([a]) && Grown(old(home))
    {
      hide Registered, ServedWell, ServedOnce, Holding, Reflected;
      match a {
        case Put(q, t) =>
          CastOfOne(a);
          Register(q, t.chan);
          if t.Request() { m_seq := if q + 1 == U64 then 0 else q + 1; }
        case Drop(q) =>
          CastOfOne(a);
          RemoveChannel(q);
      }
    }

    /** One step of another thread, with others to come. */
    method NextThread(a: Act<Channel>, ghost rest: seq<Act<Channel>>)
      requires Valid() && Reflected() && Coming([a] + rest)
      modifies this`m_seq, this`m_channels, this`home, this`deleted
      ensures Valid() && Reflected() && Live() == After1(old(Live()), a)
      ensures Coming(rest) && Grown(old(home)) && m_seq == Counted(a, old(m_seq))
    {
      NextInTurn(a, rest, m_seq);
      ComingSplit([a], rest);
      OtherThread(a);
    }

    /** The moments at which the I/O thread holds no lock. */
    method OtherThreads(acts: seq<Act<Channel>>, ghost rest: seq<Act<Channel>>)
      requires Valid() && Reflected() && Coming(acts + rest)
      modifies this`m_seq, this`m_channels, this`home, this`deleted
      ensures Valid() && Reflected() && Live() == After(old(Live()), acts)
      ensures Coming(rest) && Grown(old(home)) && m_seq == AllCounted(acts, old(m_seq))
      decreases |acts|
    {
      if acts == [] {
        assert acts + rest == rest;
      } else {
        var n := |acts| - 1;
        LastAct(acts, rest);
        OtherThreads(acts[..n], [acts[n]] + rest);
        NextThread(acts[n], rest);
      }
    }

    /** `Close` keeps the map. */
    method Close()
      requires Valid()
      modifies this`m_seq, this`views
      ensures Valid() && m_seq == 0 && Live() == old(Live()) && views == []
    {
      m_seq := 0;
      views := [];
    }

    // ---------- the decode loop ----------

    /** What the channel gets for its payload. */
    ghost function PayloadFor(channel: Channel): Demux.Payload
      reads this, unp, unp.buf
      requires Valid()
    {
      if !WantsBody(channel) then Demux.NoBody
      else match Offered(unp) case None => Demux.Missing case Some(o) => Demux.Body(o)
    }

    /** `channel->produce(hdr, m_unpacker)` up to the deregistration of a completed query, which `done` asks for;
        on a request channel only after its erase. */
    method Produce(channel: Channel, h: ResponseHeader) returns (done: bool)
      requires Valid() && ObjectOf(channel) in home && (channel.Request? ==> channel.r in erased)
      modifies ObjectOf(channel), unp`parsed
      ensures Valid()
      ensures Objects(unp.dec, unp.Pending()) == old(Leftover(unp, WantsBody(channel)))
      ensures Rest(unp.dec, unp.Pending()) == old(Rest(unp.dec, unp.Pending()))
      ensures match channel
              case Request(r) => r.Held() == Answered(old(r.Held()), r.accepts, h, old(PayloadFor(channel)))
              case Listener(l) => l.called == old(l.called) + Told(l.kind, old(PayloadFor(channel)))
      ensures done <==>
                old(Offered(unp)).Some? && EndsQuery(Demux.Target(channel, RoleOf(channel)), old(Offered(unp)).value)
    {
      done := false;
      match channel {
        case Request(r) => var threw := r.Produce(h, unp);
        case Listener(l) =>
          var threw, asks := l.Produce(h, unp);
          done := asks;
      }
    }

    lemma RecordGrows(d: Demux.Delivery<Channel>)
      requires ServedWell() && ServedOnce() && At(d.chan, d.hdr.Seq) && (d.payload.NoBody? <==> !WantsBody(d.chan))
      requires d.chan.Request? ==> d.chan.r in erased && Unserved(d.chan)
      ensures AllWell(trace + [d]) && Once(trace + [d])
    {
    }

    /** The `produce` of one message, kept on record. */
    method Deliver(c: Channel, h: ResponseHeader, ghost at: nat) returns (done: bool)
      requires Valid() && Reflected() && At(c, h.Seq) && (c.Request? ==> c.r in erased && Unserved(c))
      modifies this`trace, unp`parsed, ObjectOf(c)
      ensures Valid() && Reflected()
      ensures Rest(unp.dec, unp.Pending()) == old(Rest(unp.dec, unp.Pending()))
      ensures Objects(unp.dec, unp.Pending()) == old(Leftover(unp, WantsBody(c)))
      ensures trace == old(trace) + [Demux.Delivery(at, c, h, old(PayloadFor(c)))]
      ensures done <==> old(Offered(unp)).Some? && EndsQuery(Demux.Target(c, RoleOf(c)), old(Offered(unp)).value)
    {
      hide Registered, Holding, AllWell, Once;
      ghost var d := Demux.Delivery(at, c, h, PayloadFor(c));
      RecordGrows(d);
      done := Produce(c, h);
      trace := trace + [d];
      forall o | o in repr ensures Reflects(trace, o) {
        assert old(Reflects(trace, o));
        OneMore(old(trace), d, o);
      }
    }

    /** The lookup found this channel under `q`, and the loop has not taken it out yet. */
    ghost predicate Found(c: Channel, q: nat)
      reads this`home, this`erased, this`held
    {
      At(c, q) && (c.Request? ==> c.r !in erased) && (q in held ==> held[q] == c)
    }

    /** Nothing has been delivered to this channel. */
    ghost predicate Unserved(c: Channel)
      reads this`trace
    {
      forall i :: 0 <= i < |trace| ==> trace[i].chan != c
    }

    /** What happens between the lookup of a channel and its `produce`: a request's entry is erased. */
    method TakeOut(c: Channel, q: nat, d: Sched<Channel>, ghost rest: seq<Act<Channel>>)
      requires Valid() && Reflected() && Found(c, q)
      requires Coming(d.found + (d.erased + rest))
      modifies this`m_seq, this`m_channels, this`home, this`deleted, this`erased
      ensures Valid() && Reflected() && Coming(rest)
      ensures At(c, q) && (c.Request? ==> c.r in erased && Unserved(c))
      ensures var kept := After(old(Live()), d.found);
              Live() == if c.Request? then After(kept - {q}, d.erased) else kept
    {
      OtherThreads(d.found, d.erased + rest);
      if c.Request? { EraseFound(q, c.r, d.erased, rest); } else { ComingSplit(d.erased, rest); }
    }

    method EraseFound(q: nat, r: ResultChannel, acts: seq<Act<Channel>>, ghost rest: seq<Act<Channel>>)
      requires Valid() && Reflected() && Found(Request(r), q) && Coming(acts + rest)
      modifies this`m_seq, this`m_channels, this`home, this`deleted, this`erased
      ensures Valid() && Reflected() && Coming(rest)
      ensures Grown(old(home))
      ensures r in erased && Unserved(Request(r)) && Live() == After(old(Live()) - {q}, acts)
    {
      Erase(q, r);
      OtherThreads(acts, rest);
    }

    /** The listener channel that had this number has just been deleted. */
    ghost predicate Deleted(was: Demux.View<Channel>, q: nat)
      reads this`deleted
    {
      q in was && was[q].chan.Listener? ==> deleted != [] && deleted[|deleted| - 1] == was[q].chan
    }

    /** The deregistration of a completed query. */
    method Finish(q: nat, d: Sched<Channel>, done: bool, ghost rest: seq<Act<Channel>>)
      requires Valid() && Reflected() && Coming(d.done + rest)
      modifies this`m_seq, this`m_channels, this`home, this`deleted
      ensures Valid() && Reflected() && Coming(rest)
      ensures Live() == if done then After(old(Live()), d.done) - {q} else old(Live())
      ensures done ==> Deleted(After(old(Live()), d.done), q)
    {
      hide Registered, ServedWell, ServedOnce, Holding, Reflected;
      if !done { ComingSplit(d.done, rest); return; }
      OtherThreads(d.done, rest);
      RemoveChannel(q);
    }

    /** The `produce` of one message, and the deregistration of a query it completes. */
    method Dispatch(c: Channel, h: ResponseHeader, d: Sched<Channel>, ghost rest: seq<Act<Channel>>, ghost at: nat)
      returns (ghost extra: seq<Demux.View<Channel>>)
      requires Valid() && Reflected() && At(c, h.Seq) && (c.Request? ==> c.r in erased && Unserved(c))
      requires Coming(d.done + rest)
      modifies this`m_seq, this`m_channels, this`home, this`deleted, this`trace, this`views
      modifies unp`parsed, ObjectOf(c)
      ensures Valid() && Reflected() && Coming(rest)
      ensures Rest(unp.dec, unp.Pending()) == old(Rest(unp.dec, unp.Pending()))
      ensures Objects(unp.dec, unp.Pending()) == old(Leftover(unp, WantsBody(c)))
      ensures trace == old(trace) + [Demux.Delivery(at, c, h, old(PayloadFor(c)))]
      ensures Live() == if old(Offered(unp)).Some? && EndsQuery(Demux.Target(c, RoleOf(c)), old(Offered(unp)).value)
                        then After(old(Live()), d.done) - {h.Seq} else old(Live())
      ensures old(Offered(unp)).Some? && EndsQuery(Demux.Target(c, RoleOf(c)), old(Offered(unp)).value) ==>
                Deleted(After(old(Live()), d.done), h.Seq)
      ensures extra == if WantsBody(c) && old(Offered(unp)).Some? then [old(Live())] else []
      ensures views == old(views) + extra
    {
      hide Registered, ServedWell, ServedOnce, Holding, Reflected;
      extra := if WantsBody(c) && Offered(unp).Some? then [Live()] else [];
      views := views + extra;
      var done := Deliver(c, h, at);
      Finish(h.Seq, d, done, rest);
    }

    /** The dispatch of one message: erase a request's entry, only then produce, and then deregister a completed
        query. */
    method Serve(c: Channel, h: ResponseHeader, d: Sched<Channel>, ghost rest: seq<Act<Channel>>, ghost at: nat)
      returns (ghost extra: seq<Demux.View<Channel>>)
      requires Valid() && Reflected() && Found(c, h.Seq)
      requires Coming(d.found + (d.erased + (d.done + rest)))
      modifies this`m_seq, this`m_channels, this`home, this`deleted, this`erased, this`trace, this`views
      modifies unp`parsed, ObjectOf(c)
      ensures Valid() && Reflected() && Coming(rest)
      ensures Rest(unp.dec, unp.Pending()) == old(Rest(unp.dec, unp.Pending()))
      ensures Objects(unp.dec, unp.Pending()) == old(Leftover(unp, WantsBody(c)))
      ensures trace == old(trace) + [Demux.Delivery(at, c, h, old(PayloadFor(c)))]
      ensures views == old(views) + extra
      ensures Dispatched(h, Demux.Target(c, RoleOf(c)), old(Offered(unp)), old(Live()), d) ==
                Step([old(Live())] + extra, 1 + |extra|, Live())
    {
      hide Registered, ServedWell, ServedOnce, Holding, Reflected;
      ghost var t, body, found := Demux.Target(c, RoleOf(c)), Offered(unp), Live();
      TakeOut(c, h.Seq, d, d.done + rest);
      ghost var out := Live();
      extra := Dispatch(c, h, d, rest, at);
      DispatchAddsUp(h, t, body, found, d, out, Live(), extra);
    }

    /** The conversion and the map lookup of one turn. */
    method Lookup(o: Object, ghost acts: seq<Act<Channel>>) returns (h: ResponseHeader, channel: Option<Channel>)
      requires Valid() && Reflected() && Coming(acts)
      modifies this`m_channels
      ensures Valid() && Reflected() && Coming(acts) && Live() == old(Live())
      ensures match channel
              case None => !Demux.Route(o, Live()).Routed?
              case Some(c) => && Demux.Route(o, Live()) == Demux.Routed(h, Demux.Target(c, RoleOf(c)))
                              && Found(c, h.Seq)
    {
      h, channel := ResponseHeader(0, ""), None;
      var hdr := AsHeader(o);
      if hdr.None? { return; }
      h := hdr.value;
      channel := Find(h.Seq);
      if channel.Some? { assert At(channel.value, h.Seq); }
    }

    /** The rest of a turn that found a channel. */
    method ServeFound(o: Object, h: ResponseHeader, c: Channel, d: Sched<Channel>, ghost acts: seq<Act<Channel>>,
                      ghost rest: seq<Act<Channel>>, ghost at: nat)
      returns (ghost unit: seq<Object>, ghost took: seq<Demux.View<Channel>>)
      requires Valid() && Reflected() && Found(c, h.Seq)
      requires Demux.Route(o, Live()) == Demux.Routed(h, Demux.Target(c, RoleOf(c)))
      requires acts == d.found + (d.erased + (d.done + rest)) && Coming(acts)
      modifies this`m_seq, this`m_channels, this`home, this`deleted, this`erased, this`trace, this`views
      modifies unp`parsed, ObjectOf(c)
      ensures Valid() && Reflected() && Coming(rest)
      ensures Rest(unp.dec, unp.Pending()) == old(Rest(unp.dec, unp.Pending()))
      ensures unit != [] && unit + Objects(unp.dec, unp.Pending()) == [o] + old(Objects(unp.dec, unp.Pending()))
      ensures views == old(views) + took
      ensures Demux.Decoded(unit, took, at, old(trace), trace, Objects(unp.dec, unp.Pending()))
      ensures Dispatched(h, Demux.Target(c, RoleOf(c)), old(Offered(unp)), old(Live()), d) == Step(took, |unit|, Live())
    {
      hide Registered, ServedWell, ServedOnce, Holding, Reflected;
      ghost var objs, ds, view := Objects(unp.dec, unp.Pending()), trace, Live();
      views := views + [view];
      var extra := Serve(c, h, d, rest, at);
      unit, took := Demux.Unit(o, objs, Demux.Target(c, RoleOf(c))), [view] + extra;
      Assoc(old(views), [view], extra);
      Demux.ServedTurn(o, objs, took, at, ds, Objects(unp.dec, unp.Pending()));
    }

    lemma ComingSkips(d: Sched<Channel>, acts: seq<Act<Channel>>, rest: seq<Act<Channel>>)
      requires acts == d.found + (d.erased + (d.done + rest)) && Coming(acts)
      ensures Coming(rest)
    {
      ComingSplit(d.found, d.erased + (d.done + rest));
      ComingSplit(d.erased, d.done + rest);
      ComingSplit(d.done, rest);
    }

    /** The rest of a turn that found none. */
    method Skip(o: Object, ghost d: Sched<Channel>, ghost acts: seq<Act<Channel>>, ghost rest: seq<Act<Channel>>,
                ghost at: nat)
      returns (ghost unit: seq<Object>, ghost took: seq<Demux.View<Channel>>)
      requires Valid() && Reflected() && !Demux.Route(o, Live()).Routed?
      requires acts == d.found + (d.erased + (d.done + rest)) && Coming(acts)
      modifies this`views
      ensures Valid() && Reflected() && Coming(rest)
      ensures unit == [o] && views == old(views) + took && took == [Live()]
      ensures Demux.Decoded(unit, took, at, trace, trace, Objects(unp.dec, unp.Pending()))
    {
      ComingSkips(d, acts, rest);
      unit, took := [o], [Live()];
      views := views + took;
      Demux.SkippedTurn(o, Live(), at, trace, Objects(unp.dec, unp.Pending()));
    }

    /** The turn from its lookup on. */
    method TurnFrom(o: Object, d: Sched<Channel>, ghost acts: seq<Act<Channel>>, ghost rest: seq<Act<Channel>>,
                    ghost at: nat)
      returns (ghost unit: seq<Object>, ghost took: seq<Demux.View<Channel>>)
      requires Valid() && Reflected()
      requires acts == d.found + (d.erased + (d.done + rest)) && Coming(acts)
      modifies this`m_seq, this`m_channels, this`home, this`deleted, this`erased, this`trace, this`views
      modifies unp`parsed, repr
      ensures Valid() && Reflected() && Coming(rest)
      ensures Rest(unp.dec, unp.Pending()) == old(Rest(unp.dec, unp.Pending()))
      ensures unit != [] && unit + Objects(unp.dec, unp.Pending()) == [o] + old(Objects(unp.dec, unp.Pending()))
      ensures views == old(views) + took
      ensures Demux.Decoded(unit, took, at, old(trace), trace, Objects(unp.dec, unp.Pending()))
      ensures AtLookup(o, old(Offered(unp)), old(Live()), d) == Step(took, |unit|, Live())
    {
      hide Registered, ServedWell, ServedOnce, Holding, Reflected, Coming, Demux.Decoded;
      var h, channel := Lookup(o, acts);
      if channel.Some? {
        unit, took := ServeFound(o, h, channel.value, d, acts, rest, at);
      } else {
        unit, took := Skip(o, d, acts, rest, at);
      }
    }

    /** One turn of the loop after `next` gave an object: convert, look up, dispatch, while the other threads do
        as `d` says. `unit` are the objects the turn takes. */
    method Turn(o: Object, d: Sched<Channel>, ghost rest: seq<Act<Channel>>, ghost at: nat)
      returns (ghost unit: seq<Object>, ghost took: seq<Demux.View<Channel>>)
      requires Valid() && Reflected() && Coming(Unroll(d, rest))
      modifies this`m_seq, this`m_channels, this`home, this`deleted, this`erased, this`trace, this`views
      modifies unp`parsed, repr
      ensures Valid() && Reflected() && Coming(rest)
      ensures Rest(unp.dec, unp.Pending()) == old(Rest(unp.dec, unp.Pending()))
      ensures unit != [] && unit + Objects(unp.dec, unp.Pending()) == [o] + old(Objects(unp.dec, unp.Pending()))
      ensures views == old(views) + took
      ensures Demux.Decoded(unit, took, at, old(trace), trace, Objects(unp.dec, unp.Pending()))
      ensures OneTurn(o, old(Offered(unp)), old(Live()), d) == Step(took, |unit|, Live())
    {
      ghost var acts := d.found + (d.erased + (d.done + rest));
      OtherThreads(d.before, acts);
      unit, took := TurnFrom(o, d, acts, rest, at);
    }

    /** `next`, and if it gave an object the turn for it. */
    method NextTurn(script: seq<Sched<Channel>>, ghost at: nat)
      returns (more: bool, ghost unit: seq<Object>, ghost took: seq<Demux.View<Channel>>)
      requires Valid() && Reflected() && Coming(AllActs(script))
      modifies this`m_seq, this`m_channels, this`home, this`deleted, this`erased, this`trace, this`views
      modifies unp`parsed, repr
      ensures Valid() && Reflected() && (more ==> Coming(AllActs(Later(script))))
      ensures Rest(unp.dec, unp.Pending()) == old(Rest(unp.dec, unp.Pending()))
      ensures more <==> old(Objects(unp.dec, unp.Pending())) != []
      ensures !more ==> unp.Pending() == old(unp.Pending()) && views == old(views) && trace == old(trace)
                        && Live() == old(Live()) && Coming(AllActs(script))
      ensures more ==> && unit != [] && old(Objects(unp.dec, unp.Pending())) == unit + Objects(unp.dec, unp.Pending())
                       && views == old(views) + took
                       && Demux.Decoded(unit, took, at, old(trace), trace, Objects(unp.dec, unp.Pending()))
                       && Turned(old(Objects(unp.dec, unp.Pending())), old(Live()), First(script), took, |unit|, Live())
    {
      hide Registered, ServedWell, ServedOnce, Holding, Reflected;
      var o := unp.Next();
      more, unit, took := o.Some?, [], [];
      if more {
        FirstIsUnrolled(script);
        unit, took := Turn(o.value, First(script), AllActs(Later(script)), at);
      }
    }

    /** The loop has taken the objects `done`, at the live entries `took`, and has `left` to take. */
    static ghost predicate Midway(objs: seq<Object>, done: seq<Object>, left: seq<Object>,
                                  seen: seq<Demux.View<Channel>>, took: seq<Demux.View<Channel>>,
                                  views: seq<Demux.View<Channel>>,
                                  before: seq<Demux.Delivery<Channel>>, after: seq<Demux.Delivery<Channel>>)
    {
      && objs == done + left && views == seen + took
      && Demux.Decoded(done, took, |seen|, before, after, left)
    }

    static lemma OneTurnMore(objs: seq<Object>, done: seq<Object>, left: seq<Object>,
                             seen: seq<Demux.View<Channel>>, took: seq<Demux.View<Channel>>,
                             views: seq<Demux.View<Channel>>,
                             before: seq<Demux.Delivery<Channel>>, now: seq<Demux.Delivery<Channel>>,
                             unit: seq<Object>, left': seq<Object>, more: seq<Demux.View<Channel>>,
                             after: seq<Demux.Delivery<Channel>>)
      requires Midway(objs, done, left, seen, took, views, before, now)
      requires left != [] && left == unit + left' && Demux.Decoded(unit, more, |seen| + |done|, now, after, left')
      ensures Midway(objs, done + unit, left', seen, took + more, views + more, before, after)
    {
      Demux.TurnsAddUp(done, took, unit, more, |seen|, before, now, after, left, left');
      Assoc(done, unit, left');
      Assoc(seen, took, more);
    }

    /** The loop has made `turns` turns, and goes on as `Play` would. */
    ghost predicate Decoding(p: Decodes, took: seq<Demux.View<Channel>>, done: seq<Object>, left: seq<Object>,
                             turns: nat, at: nat, rest: seq<Sched<Channel>>)
      reads this`views, this`trace, this`m_channels
    {
      && at == |p.seen| + |done| && Midway(p.objs, done, left, p.seen, took, views, p.before, trace)
      && PlaysOn(p.show, p.script, took, turns, left, Live(), rest, at)
    }

    /** What the loop has made of a batch. */
    ghost predicate HasDecoded(p: Decodes, rest: seq<Sched<Channel>>)
      reads this`views, this`trace, this`m_channels
      requires |p.show.views| == |p.objs|
    {
      && views == p.seen + p.show.views && Live() == p.show.live && rest == Unplayed(p.script, p.show.turns)
      && trace == p.before + Demux.Decode(p.objs, p.show.views, |p.seen|)
    }

    ghost function Planned(script: seq<Sched<Channel>>): Decodes
      reads this`views, this`trace, this`m_channels, unp, unp.buf
      requires unp.Valid()
    {
      var objs := Objects(unp.dec, unp.Pending());
      Decodes(objs, script, Play(objs, Live(), script, |views|, {}), views, trace)
    }

    lemma DecodingStarts(script: seq<Sched<Channel>>)
      requires unp.Valid()
      ensures Decoding(Planned(script), [], [], Objects(unp.dec, unp.Pending()), 0, |views|, script)
    {
    }

    lemma DecodingEnds(p: Decodes, took: seq<Demux.View<Channel>>, done: seq<Object>, left: seq<Object>,
                       turns: nat, at: nat, rest: seq<Sched<Channel>>)
      requires Decoding(p, took, done, left, turns, at, rest) && left == []
      ensures |p.show.views| == |p.objs| && HasDecoded(p, rest)
    {
      assert done + left == done && took + [] == took;
    }

    /** `next`, and if it gave an object the turn for it. */
    method DecodeMore(script: seq<Sched<Channel>>, ghost p: Decodes, ghost took: seq<Demux.View<Channel>>,
                      ghost done: seq<Object>, ghost turns: nat, ghost at: nat)
      returns (more: bool, ghost took': seq<Demux.View<Channel>>, ghost done': seq<Object>, ghost at': nat)
      requires Valid() && Reflected() && Coming(AllActs(script))
      requires Decoding(p, took, done, Objects(unp.dec, unp.Pending()), turns, at, script)
      modifies this`m_seq, this`m_channels, this`home, this`deleted, this`erased, this`trace, this`views
      modifies unp`parsed, repr
      ensures Valid() && Reflected() && Coming(AllActs(if more then Later(script) else script))
      ensures Rest(unp.dec, unp.Pending()) == old(Rest(unp.dec, unp.Pending()))
      ensures more ==> |Objects(unp.dec, unp.Pending())| < |old(Objects(unp.dec, unp.Pending()))|
                       && Decoding(p, took', done', Objects(unp.dec, unp.Pending()), turns + 1, at', Later(script))
      ensures !more ==> Rest(unp.dec, unp.Pending()) == unp.Pending()
                        && |p.show.views| == |p.objs| && HasDecoded(p, script)
    {
      hide Registered, ServedWell, ServedOnce, Holding, Reflected, Coming, Play, HasDecoded;
      ghost var was, now, live, left := views, trace, Live(), Objects(unp.dec, unp.Pending());
      ghost var unit, found;
      more, unit, found := NextTurn(script, at);
      ghost var left' := Objects(unp.dec, unp.Pending());
      took', done', at' := took + found, done + unit, at + |unit|;
      if more {
        OneTurnMore(p.objs, done, left, p.seen, took, was, p.before, now, unit, left', found, trace);
        DropAll(unit, left');
        PlaysOneMore(p.show, p.script, took, turns, left, live, script, at, found, |unit|, left', Live(), at');
      } else {
        DecodingEnds(p, took, done, left, turns, at, script);
      }
    }

    /** The inner loop of `processRpc`: decode and dispatch until no complete object is left. With the other
        threads doing in turn what `script` says, the live entries the loop meets are those of `Play`, and what it
        produces is what the loop function makes of the objects at those. */
    method DecodeLoop(script: seq<Sched<Channel>>) returns (rest: seq<Sched<Channel>>)
      requires Valid() && Reflected() && Coming(AllActs(script))
      modifies this`m_seq, this`m_channels, this`home, this`deleted, this`erased, this`trace, this`views
      modifies unp`parsed, repr
      ensures Valid() && Reflected() && Coming(AllActs(rest))
      ensures unp.Pending() == old(Rest(unp.dec, unp.Pending()))
      ensures var objs := old(Objects(unp.dec, unp.Pending()));
              var p := Play(objs, old(Live()), script, |old(views)|, {});
              && views == old(views) + p.views && Live() == p.live && rest == Unplayed(script, p.turns)
              && trace == old(trace) + Demux.Decode(objs, p.views, |old(views)|)
    {
      hide Registered, ServedWell, ServedOnce, Holding, Reflected, Coming, Decoding, Play, Rest, Objects;
      ghost var p, tail := Planned(script), Rest(unp.dec, unp.Pending());
      ghost var took: seq<Demux.View<Channel>>, done: seq<Object>, turns: nat, at: nat := [], [], 0, |views|;
      DecodingStarts(script);
      rest := script;
      var more := true;
      while more
        invariant Valid() && Reflected() && Coming(AllActs(rest))
        invariant Rest(unp.dec, unp.Pending()) == tail
        invariant if more then Decoding(p, took, done, Objects(unp.dec, unp.Pending()), turns, at, rest)
                  else HasDecoded(p, rest) && Rest(unp.dec, unp.Pending()) == unp.Pending()
        decreases more, |Objects(unp.dec, unp.Pending())|
      {
        more, took, done, at := DecodeMore(rest, p, took, done, turns, at);
        if more { rest, turns := Later(rest), turns + 1; }
      }
    }

    /** No channel of a delivery is registered any more, but for listeners. */
    lemma ServedAreGone(i: nat)
      requires Valid() && i < |trace| && trace[i].chan.Request?
      ensures Gone(trace[i].chan.r)
    {
    }

    // ---------- the I/O thread ----------

    ghost function Standing(sock: Socket, rounds: nat, script: seq<Sched<Channel>>): Stand<Channel>
      reads this`m_channels, this`views, this`trace, unp, unp.buf, sock
      requires unp.Valid()
    {
      Stand(unp.Pending(), sock.polls, sock.incoming, rounds, script, Live(), views, trace)
    }

    /** One round: read what there is, then decode and dispatch it. `again` tells whether a round without data
        leaves `errno` at EAGAIN or EINTR; it makes no difference. */
    method Round(sock: Socket, again: bool, script: seq<Sched<Channel>>, ghost at: Stand<Channel>)
      returns (rest: seq<Sched<Channel>>)
      requires Valid() && Reflected() && Coming(AllActs(script)) && sock as object !in repr
      requires unp.dec(unp.Pending()).None? && at.rounds != 0 && at == Standing(sock, at.rounds, script)
      modifies this`m_seq, this`m_channels, this`home, this`deleted, this`erased, this`trace, this`views, repr
      modifies unp`parsed, unp`used, unp`buf, unp.buf, sock
      ensures Valid() && Reflected() && Coming(AllActs(rest)) && (unp.buf == old(unp.buf) || fresh(unp.buf))
      ensures Standing(sock, at.rounds - 1, rest) == OneRound(unp.dec, at)
    {
      hide Registered, ServedWell, ServedOnce, Holding, Reflected, Coming;
      var count := ReadBatch(sock, unp);
      if count == 0 && again {
        assert unp.Pending() == old(unp.Pending());
        return script;
      }
      rest := DecodeLoop(script);
    }

    /** The I/O thread is between two rounds, and the others are going to do as `script` says. */
    ghost predicate Ready(sock: Socket, script: seq<Sched<Channel>>)
      reads this, unp, unp.buf, repr
    {
      && Valid() && Reflected() && Coming(AllActs(script))
      && sock as object !in repr && unp.dec(unp.Pending()).None?
    }

    /** A connection at its start: whatever the others are going to do, if each channel is registered once and the
        numbers are those of the counter, the thread can be set going. */
    static method Start(dec: Dec, sock: Socket, script: seq<Sched<Channel>>) returns (io: SerfIoThread)
      requires SelfDelimiting(dec) && InTurn(AllActs(script), 0)
      requires NewActs(AllActs(script), {}, {})
      requires forall o :: o in Cast(AllActs(script)) ==> Reflects([], o) && o != sock
      ensures fresh(io) && io.unp.dec == dec && io.Ready(sock, script) && io.Live() == map[] && io.trace == []
      ensures forall o :: o in Cast(AllActs(script)) ==> o in io.repr
    {
      ghost var acts := AllActs(script);
      ghost var cast := Cast(acts);
      io := new SerfIoThread(dec);
      if dec([]).Some? { Delimited(dec, []); }
      forall i | 0 <= i < |acts| && acts[i].Put?
        ensures ObjectOf(acts[i].target.chan) !in {io, io.unp, io.unp.buf}
      {
        assert ObjectOf(acts[i].target.chan) in cast;
      }
      io.Expect(acts);
    }

    lemma HeardSoFar()
      requires Reflected()
      ensures forall l: ListenerChannel :: l in repr ==> l.called == Heard(trace, l)
    {
      forall l: ListenerChannel | l in repr ensures l.called == Heard(trace, l) { assert Reflects(trace, l); }
    }

    lemma LiveIsKnown()
      requires Valid()
      ensures forall q :: q in Live() ==> ObjectOf(Live()[q].chan) in repr && Live()[q].role == RoleOf(Live()[q].chan)
    {
      forall q | q in Live() ensures ObjectOf(Live()[q].chan) in repr { assert At(m_channels[q].value, q); }
    }

    /** A record that comes alone, in one read, for a listener whose entry nobody touches, is the one thing told to
        it. */
    lemma OneRecord(s: Stand<Channel>, q: nat, l: ListenerChannel)
      requires unp.Valid() && unp.dec(s.pending).None? && s.rounds != 0
      requires && s.polls != [] && s.polls[0].Ready? && |s.incoming| <= s.polls[0].most && |s.incoming| <= 0x10_0000
      requires q in s.live && s.live[q] == Demux.Target(Listener(l), Demux.Hears(l.kind))
      requires forall a :: a in AllActs(s.script) ==> a.q != q
      requires var bytes := s.pending + s.incoming;
               && unp.dec(bytes).Some? && AsHeader(unp.dec(bytes).value.obj).Some?
               && AsHeader(unp.dec(bytes).value.obj).value.Seq == q
               && var n := unp.dec(bytes).value.size;
                  n < |bytes| && unp.dec(bytes[n..]).Some? && unp.dec(bytes[n..]).value.size == |bytes| - n
      ensures var bytes := s.pending + s.incoming;
              var body := unp.dec(bytes[unp.dec(bytes).value.size..]).value.obj;
              Heard(Pumped(unp.dec, s).trace, l) == Heard(s.trace, l) + Channels.Told(l.kind, Demux.Body(body))
    {
      hide Pumped, AllActs, After, Objects, AsHeader, CallbackFor;
      var bytes := s.pending + s.incoming;
      var o, n, h := unp.dec(bytes).value.obj, unp.dec(bytes).value.size, AsHeader(unp.dec(bytes).value.obj).value;
      var body := unp.dec(bytes[n..]).value.obj;
      WholeObjects(unp.dec, bytes, n);
      FirstOfAll(s.script);
      EntryStays(s.live, First(s.script).before, q);
      OneMessagePumped(unp.dec, s, o, h, Some(body));
      OneMore(s.trace, Demux.Delivery(|s.views|, Listener(l), h, Demux.Body(body)), l);
    }

    /** `processRpc` for as many rounds as pass before `m_shutdown` is seen. What it does is `Pumped`; in particular a
        listener is told the record that comes for it. */
    method ProcessRpc(sock: Socket, rounds: nat, script: seq<Sched<Channel>>) returns (rest: seq<Sched<Channel>>)
      requires Ready(sock, script)
      modifies this`m_seq, this`m_channels, this`home, this`deleted, this`erased, this`trace, this`views, repr
      modifies unp`parsed, unp`used, unp`buf, unp.buf, sock
      ensures Ready(sock, rest) && (unp.buf == old(unp.buf) || fresh(unp.buf))
      ensures Standing(sock, 0, rest) == Pumped(unp.dec, old(Standing(sock, rounds, script)))
      ensures var dec, polls, bytes := unp.dec, old(sock.polls), old(unp.Pending() + sock.incoming);
              (&& rounds != 0 && polls != [] && polls[0].Ready?
               && |old(sock.incoming)| <= polls[0].most && |old(sock.incoming)| <= 0x10_0000
               && dec(bytes).Some? && AsHeader(dec(bytes).value.obj).Some?)
              ==>
                var n, q := dec(bytes).value.size, AsHeader(dec(bytes).value.obj).value.Seq;
                (&& n < |bytes| && dec(bytes[n..]).Some? && dec(bytes[n..]).value.size == |bytes| - n
                 && q in old(Live()) && old(Live())[q].chan.Listener?
                 && (forall a :: a in AllActs(script) ==> a.q != q))
                ==>
                  var l := old(Live())[q].chan.l;
                  l.called == old(l.called) + match CallbackFor(l.kind, Some(dec(bytes[n..]).value.obj))
                                              case Some(c) => [c]
                                              case None => []
    {
      hide Registered, ServedWell, ServedOnce, Holding, Reflected, CallbackFor, AsHeader, AllActs, Heard, Pumped;
      hide OneRound, Stored, Registry.Live;
      ghost var at := Standing(sock, rounds, script);
      HeardSoFar();
      LiveIsKnown();
      ghost var bytes := unp.Pending() + sock.incoming;
      if (&& rounds != 0 && sock.polls != [] && sock.polls[0].Ready?
          && |sock.incoming| <= sock.polls[0].most && |sock.incoming| <= 0x10_0000
          && unp.dec(bytes).Some? && AsHeader(unp.dec(bytes).value.obj).Some?)
      {
        ghost var n, q := unp.dec(bytes).value.size, AsHeader(unp.dec(bytes).value.obj).value.Seq;
        if (&& n < |bytes| && unp.dec(bytes[n..]).Some? && unp.dec(bytes[n..]).value.size == |bytes| - n
            && q in Live() && Live()[q].chan.Listener? && (forall a :: a in AllActs(script) ==> a.q != q))
        { OneRecord(at, q, Live()[q].chan.l); }
      }
      ghost var goal := Pumped(unp.dec, at);
      rest := script;
      var left := rounds;
      while left != 0
        invariant Ready(sock, rest) && (unp.buf == old(unp.buf) || fresh(unp.buf))
        invariant at == Standing(sock, left, rest) && Pumped(unp.dec, at) == goal
      {
        var again: bool := *;
        RoundAddsUp(unp.dec, at);
        rest := Round(sock, again, rest, at);
        left, at := left - 1, OneRound(unp.dec, at);
      }
      NoRoundLeft(unp.dec, at);
      HeardSoFar();
    }

    /** While the I/O thread waits, the others may do something, too. */
    method Meanwhile(sock: Socket, ghost rounds: nat, script: seq<Sched<Channel>>) returns (rest: seq<Sched<Channel>>)
      requires Ready(sock, script)
      modifies this`m_seq, this`m_channels, this`home, this`deleted
      ensures Ready(sock, rest)
      ensures Standing(sock, rounds, rest) == WhileWaiting(old(Standing(sock, 0, script)), rounds)
      ensures Live() == After(old(Live()), First(script).before) && rest == Later(script)
    {
      var d := First(script);
      rest := Later(script);
      ghost var acts := d.found + (d.erased + (d.done + AllActs(rest)));
      FirstIsUnrolled(script);
      OtherThreads(d.before, acts);
      ComingSkips(d, acts, AllActs(rest));
    }

    /** A typed request whose reply has been delivered holds the object behind the header of that reply as its
        data, unless a batch ended between the two, which leaves default data; or the object does not convert,
        which leaves the call without an answer. */
    lemma DefaultExactlyWhenSplit(r: ResultChannel, i: nat, before: seq<Demux.Delivery<Channel>>,
                                  msgs: seq<Demux.Frame>, took: seq<Demux.View<Channel>>, base: nat, cuts: set<nat>)
      requires Valid() && Reflected() && r in repr && r.typed
      requires |took| == |Demux.Flatten(msgs)| && trace == before + Demux.Filter(msgs, took, base, cuts)
      requires |before| <= i < |trace| && trace[i].chan == Request(r)
      ensures r.hdr == trace[i].hdr && base < trace[i].at + 1 < base + |took|
      ensures var next := trace[i].at + 1; var body := Demux.Flatten(msgs)[next - base];
              && (r.dataPending <==> next in cuts || r.accepts(body))
              && r.data == if next !in cuts && r.accepts(body) then Some(body) else None
    {
      var made := Demux.Filter(msgs, took, base, cuts);
      assert trace[i] == made[i - |before|];
      Demux.MissingExactlyAtCuts(msgs, took, base, cuts, trace[i]);
      OnlyAnswer(trace, r, i);
      assert Reflects(trace, r) && r.Held() == Stored(trace, r);
    }
  }
}
