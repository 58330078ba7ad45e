/** `SerfClient`: the life of a call on its own thread.

    Between two critical sections of a call the other threads take the steps of a schedule, and the I/O thread makes
    as many rounds as `pace` says, on the bytes that the socket has by then. */
module Client {
  import opened Options
  import opened Messages
  import opened Channels
  import opened Decoder
  import opened IoThread
  import opened Pump
  import opened Schedule
  import opened Sequences
  import Demux
  import Registry

  // ---------- what happens while a call waits ----------

  /** Where everything stands when a call has let the others run `i` times. */
  datatype Moment = Moment(now: Stand<Channel>, i: nat)

  /** How many rounds the I/O thread makes each time. */
  type Pace = nat -> nat

  /** The others run. */
  ghost function Yielded(dec: Dec, pace: Pace, m: Moment): Moment
    requires SelfDelimiting(dec)
  {
    Moment(Pumped(dec, WhileWaiting(m.now, pace(m.i))), m.i + 1)
  }

  /** The channel holds an answer. */
  ghost predicate HasAnswer(m: Moment, ch: ResultChannel) { Stored(m.now.trace, ch).pending }

  /** `consume`: wake up until there is an answer, or until the wait times out after so many wakeups. */
  ghost function Waited(dec: Dec, pace: Pace, ch: ResultChannel, m: Moment, wakeups: nat): Moment
    requires SelfDelimiting(dec)
    decreases wakeups
  {
    if HasAnswer(m, ch) then m
    else if wakeups == 0 then Yielded(dec, pace, m)
    else Waited(dec, pace, ch, Yielded(dec, pace, m), wakeups - 1)
  }

  lemma OneWakeup(dec: Dec, pace: Pace, ch: ResultChannel, m: Moment, left: nat, fewer: nat, next: Moment)
    requires SelfDelimiting(dec) && !HasAnswer(m, ch) && next == Yielded(dec, pace, m)
    requires left != 0 ==> fewer == left - 1
    ensures Waited(dec, pace, ch, m, left) == if left == 0 then next else Waited(dec, pace, ch, next, fewer)
  {
    hide Yielded, HasAnswer;
    if left != 0 {
      calc {
        Waited(dec, pace, ch, m, left);
        Waited(dec, pace, ch, next, left - 1);
        { assert left - 1 == fewer; }
        Waited(dec, pace, ch, next, fewer);
      }
    }
  }

  /** The unlocked look at `m_dataPending`, when the wait is over. */
  ghost function Looked(dec: Dec, pace: Pace, ch: ResultChannel, m: Moment, wakeups: nat): Moment
    requires SelfDelimiting(dec)
  {
    Yielded(dec, pace, Waited(dec, pace, ch, Yielded(dec, pace, m), wakeups))
  }

  /** The end of a call under number `q`: without an answer it takes its entry back. */
  ghost function Over(dec: Dec, pace: Pace, ch: ResultChannel, q: nat, m: Moment, wakeups: nat): Moment
    requires SelfDelimiting(dec)
  {
    var look := Looked(dec, pace, ch, m, wakeups);
    var end := Yielded(dec, pace, look);
    if HasAnswer(look, ch) then end else Without(end, q)
  }

  ghost function Without(m: Moment, q: nat): Moment {
    m.(now := m.now.(live := m.now.live - {q}))
  }

  /** The start of one: its channel is registered. */
  ghost function Called(m: Moment, ch: ResultChannel, q: nat): Moment {
    m.(now := m.now.(live := m.now.live[q := Demux.Target(Request(ch), RoleOf(Request(ch)))]))
  }

  /** What comes of a call under number `q` whose request could be sent: whether it is answered, and where
      everything stands when it is over. */
  datatype Outcome = Outcome(answered: bool, end: Moment)

  ghost function Awaited(dec: Dec, pace: Pace, ch: ResultChannel, q: nat, m: Moment, wakeups: nat): Outcome
    requires SelfDelimiting(dec)
  {
    Outcome(HasAnswer(Looked(dec, pace, ch, m, wakeups), ch), Over(dec, pace, ch, q, m, wakeups))
  }

  ghost function Calling(dec: Dec, pace: Pace, ch: ResultChannel, q: nat, m: Moment, wakeups: nat): Outcome
    requires SelfDelimiting(dec)
  {
    Awaited(dec, pace, ch, q, Called(m, ch, q), wakeups)
  }

  // ---------- exactly when a call is answered ----------

  /** The others have run so many times. */
  ghost function Turns(dec: Dec, pace: Pace, m: Moment, k: nat): Moment
    requires SelfDelimiting(dec)
    decreases k
  {
    if k == 0 then m else Turns(dec, pace, Yielded(dec, pace, m), k - 1)
  }

  lemma YieldingExtends(dec: Dec, pace: Pace, m: Moment)
    requires SelfDelimiting(dec)
    ensures m.now.trace <= Yielded(dec, pace, m).now.trace
  {
    hide Pieces, PlayBatches, Demux.DecodeBatches, Batches;
  }

  lemma {:induction false} AnswerStaysFor(dec: Dec, pace: Pace, ch: ResultChannel, m: Moment, k: nat)
    requires SelfDelimiting(dec) && HasAnswer(m, ch)
    ensures HasAnswer(Turns(dec, pace, m, k), ch)
    decreases k
  {
    hide Yielded;
    if k != 0 {
      var y := Yielded(dec, pace, m);
      YieldingExtends(dec, pace, m);
      PendingStays(m.now.trace, y.now.trace, ch);
      AnswerStaysFor(dec, pace, ch, y, k - 1);
    }
  }

  /** The wait and the look together find what has been delivered by the last of their turns. */
  lemma {:induction false} WaitedLongEnough(dec: Dec, pace: Pace, ch: ResultChannel, m: Moment, wakeups: nat)
    requires SelfDelimiting(dec)
    ensures HasAnswer(Yielded(dec, pace, Waited(dec, pace, ch, m, wakeups)), ch) <==>
            HasAnswer(Turns(dec, pace, m, wakeups + 2), ch)
    decreases wakeups
  {
    hide Yielded, HasAnswer;
    var y := Yielded(dec, pace, m);
    if HasAnswer(m, ch) {
      AnswerStaysFor(dec, pace, ch, m, 1);
      AnswerStaysFor(dec, pace, ch, m, wakeups + 2);
      assert Turns(dec, pace, m, 1) == Turns(dec, pace, y, 0) == y;
    } else if wakeups == 0 {
      var z := Yielded(dec, pace, y);
      assert Turns(dec, pace, m, 2) == Turns(dec, pace, y, 1) == Turns(dec, pace, z, 0) == z;
    } else {
      WaitedLongEnough(dec, pace, ch, y, wakeups - 1);
    }
  }

  /** A call whose request was sent is answered exactly when a reply that converts, or one without its body, has been
      delivered to its channel by the time the others have run `wakeups + 3` times: once before the wait, once for each
      wakeup and for the one that ends it, and once before the look. */
  lemma AnsweredExactlyWhen(dec: Dec, pace: Pace, ch: ResultChannel, q: nat, m: Moment, wakeups: nat)
    requires SelfDelimiting(dec)
    ensures var t := Turns(dec, pace, Called(m, ch, q), wakeups + 3).now.trace;
            Calling(dec, pace, ch, q, m, wakeups).answered <==>
            exists i :: 0 <= i < |t| && t[i].chan == Request(ch)
                        && (t[i].payload.Body? ==> ch.accepts(t[i].payload.obj))
  {
    hide Yielded, Waited, Stored;
    var c := Called(m, ch, q);
    var y := Yielded(dec, pace, c);
    WaitedLongEnough(dec, pace, ch, y, wakeups);
    assert Turns(dec, pace, c, wakeups + 3) == Turns(dec, pace, y, wakeups + 2);
    PendingExactlyWhen(Turns(dec, pace, c, wakeups + 3).now.trace, ch);
  }

  // ---------- one reply on the wire ----------

  /** Nothing more comes. */
  ghost predicate Still(dec: Dec, m: Moment) {
    m.now.incoming == [] && dec(m.now.pending).None?
  }

  lemma StillYields(dec: Dec, pace: Pace, m: Moment)
    requires SelfDelimiting(dec) && Still(dec, m)
    ensures Still(dec, Yielded(dec, pace, m)) && Yielded(dec, pace, m).now.trace == m.now.trace
  {
    hide Pumped, After;
    SilentRounds(dec, WhileWaiting(m.now, pace(m.i)));
  }

  lemma {:induction false} StillWaits(dec: Dec, pace: Pace, ch: ResultChannel, m: Moment, wakeups: nat)
    requires SelfDelimiting(dec) && Still(dec, m)
    ensures var w := Waited(dec, pace, ch, m, wakeups); Still(dec, w) && w.now.trace == m.now.trace
    decreases wakeups
  {
    hide Yielded, HasAnswer, Still;
    if !HasAnswer(m, ch) {
      StillYields(dec, pace, m);
      if wakeups != 0 { StillWaits(dec, pace, ch, Yielded(dec, pace, m), wakeups - 1); }
    }
  }

  /** From then on a call's channel gets nothing more. */
  lemma StillOver(dec: Dec, pace: Pace, ch: ResultChannel, q: nat, m: Moment, wakeups: nat)
    requires SelfDelimiting(dec) && Still(dec, Yielded(dec, pace, Called(m, ch, q)))
    ensures var out, y := Calling(dec, pace, ch, q, m, wakeups), Yielded(dec, pace, Called(m, ch, q));
            out.answered == Stored(y.now.trace, ch).pending && out.end.now.trace == y.now.trace
  {
    hide Yielded, Waited, Still, Stored;
    var y := Yielded(dec, pace, Called(m, ch, q));
    StillWaits(dec, pace, ch, y, wakeups);
    var w := Waited(dec, pace, ch, y, wakeups);
    StillYields(dec, pace, w);
    StillYields(dec, pace, Yielded(dec, pace, w));
  }

  /** Nothing comes: no answer. */
  lemma NoReply(dec: Dec, pace: Pace, ch: ResultChannel, q: nat, m: Moment, wakeups: nat)
    requires SelfDelimiting(dec) && Still(dec, m)
    requires forall i :: 0 <= i < |m.now.trace| ==> m.now.trace[i].chan != Request(ch)
    ensures !Calling(dec, pace, ch, q, m, wakeups).answered
  {
    hide Yielded, Calling, Stored;
    StillYields(dec, pace, Called(m, ch, q));
    StillOver(dec, pace, ch, q, m, wakeups);
    Untouched(m.now.trace, ch);
  }

  /** The others touch neither the entry nor the wire: the channel is found. */
  lemma EntryIsFound(s: Stand<Channel>, rounds: nat, q: nat)
    requires q in s.live && forall a :: a in AllActs(s.script) ==> a.q != q
    ensures var t := WhileWaiting(s, rounds);
            var found := After(t.live, First(t.script).before);
            q in found && found[q] == s.live[q]
  {
    hide After, AllActs;
    FirstOfAll(s.script);
    FirstOfAll(Later(s.script));
    EntryStays(s.live, First(s.script).before, q);
    EntryStays(After(s.live, First(s.script).before), First(Later(s.script)).before, q);
  }

  /** A reply that comes alone, in one read, while nobody else touches the call's entry: the call is answered exactly
      when it needs no body or the body converts, and then by that header and that body. */
  lemma OneReply(dec: Dec, pace: Pace, ch: ResultChannel, q: nat, m: Moment, wakeups: nat,
                 o: Object, h: ResponseHeader, body: Option<Object>)
    requires SelfDelimiting(dec) && dec(m.now.pending).None? && pace(m.i) != 0
    requires && m.now.polls != [] && m.now.polls[0].Ready? && |m.now.incoming| <= m.now.polls[0].most
             && |m.now.incoming| <= 0x10_0000
    requires Objects(dec, m.now.pending + m.now.incoming) == [o] + match body { case None => [] case Some(b) => [b] }
    requires AsHeader(o) == Some(h) && h.Seq == q && (ch.typed <==> body.Some?)
    requires forall a :: a in AllActs(m.now.script) ==> a.q != q
    requires forall i :: 0 <= i < |m.now.trace| ==> m.now.trace[i].chan != Request(ch)
    ensures var out := Calling(dec, pace, ch, q, m, wakeups);
            && (out.answered <==> body.None? || ch.accepts(body.value))
            && (out.answered ==> Stored(out.end.now.trace, ch) == Slot(h, body, true))
  {
    hide Pumped, After, Objects, Calling, AsHeader, AllActs;
    var c := Called(m, ch, q);
    var s := WhileWaiting(c.now, pace(m.i));
    EntryIsFound(c.now, pace(m.i), q);
    OneMessagePumped(dec, s, o, h, body);
    StillOver(dec, pace, ch, q, m, wakeups);
    Untouched(m.now.trace, ch);
    var payload := match body { case None => Demux.NoBody case Some(b) => Demux.Body(b) };
    OneMore(m.now.trace, Demux.Delivery(|s.views|, Request(ch), h, payload), ch);
  }

  /** The same, told from the bytes. */
  lemma WireDecides(dec: Dec, pace: Pace, ch: ResultChannel, q: nat, m: Moment, wakeups: nat)
    requires SelfDelimiting(dec) && dec(m.now.pending).None?
    requires forall i :: 0 <= i < |m.now.trace| ==> m.now.trace[i].chan != Request(ch)
    ensures m.now.incoming == [] ==> !Calling(dec, pace, ch, q, m, wakeups).answered
    ensures var bytes, out := m.now.pending + m.now.incoming, Calling(dec, pace, ch, q, m, wakeups);
            (&& pace(m.i) != 0 && m.now.polls != [] && m.now.polls[0].Ready?
             && |m.now.incoming| <= m.now.polls[0].most && |m.now.incoming| <= 0x10_0000
             && (forall a :: a in AllActs(m.now.script) ==> a.q != q)
             && dec(bytes).Some?
             && AsHeader(dec(bytes).value.obj).Some? && AsHeader(dec(bytes).value.obj).value.Seq == q)
            ==>
              var n, h := dec(bytes).value.size, AsHeader(dec(bytes).value.obj).value;
              && (!ch.typed && n == |bytes| ==>
                    out.answered && Stored(out.end.now.trace, ch) == Slot(h, None, true))
              && (ch.typed && n < |bytes| && dec(bytes[n..]).Some? && dec(bytes[n..]).value.size == |bytes| - n ==>
                    var body := dec(bytes[n..]).value.obj;
                    && (out.answered <==> ch.accepts(body))
                    && (out.answered ==> Stored(out.end.now.trace, ch) == Slot(h, Some(body), true)))
  {
    hide Calling, AsHeader, Objects, Stored, AllActs;
    var bytes := m.now.pending + m.now.incoming;
    if m.now.incoming == [] { NoReply(dec, pace, ch, q, m, wakeups); }
    if && pace(m.i) != 0 && m.now.polls != [] && m.now.polls[0].Ready?
       && |m.now.incoming| <= m.now.polls[0].most && |m.now.incoming| <= 0x10_0000
       && (forall a :: a in AllActs(m.now.script) ==> a.q != q)
       && dec(bytes).Some? && AsHeader(dec(bytes).value.obj).Some? && AsHeader(dec(bytes).value.obj).value.Seq == q
    {
      Delimited(dec, bytes);
      var o, n, h := dec(bytes).value.obj, dec(bytes).value.size, AsHeader(dec(bytes).value.obj).value;
      WholeObjects(dec, bytes, n);
      if !ch.typed && n == |bytes| {
        NothingMore([o]);
        OneReply(dec, pace, ch, q, m, wakeups, o, h, None);
      } else if ch.typed && n < |bytes| && dec(bytes[n..]).Some? && dec(bytes[n..]).value.size == |bytes| - n {
        OneReply(dec, pace, ch, q, m, wakeups, o, h, Some(dec(bytes[n..]).value.obj));
      }
    }
  }

  /** A body that holds a count converts to it. */
  lemma CountsConvert(ds: seq<Demux.Delivery<Channel>>)
    ensures forall d :: && d in ds && d.payload.Body? && d.payload.obj.Map? && "Num" in d.payload.obj.fields
                        && d.payload.obj.fields["Num"].Int?
                        && -0x8000_0000 <= d.payload.obj.fields["Num"].i < 0x8000_0000 ==>
                          AsJoin(d.payload.obj) == Some(d.payload.obj.fields["Num"].i)
  {
  }

  /** What the look finds is what has been delivered before it. */
  lemma LookFinds(dec: Dec, pace: Pace, ch: ResultChannel, q: nat, m: Moment, wakeups: nat)
    requires SelfDelimiting(dec)
    ensures var look, out := Looked(dec, pace, ch, Called(m, ch, q), wakeups), Calling(dec, pace, ch, q, m, wakeups);
            look.now.trace <= out.end.now.trace && (out.answered <==> Stored(look.now.trace, ch).pending)
  {
    hide Yielded, Waited, Stored;
    YieldingExtends(dec, pace, Looked(dec, pace, ch, Called(m, ch, q), wakeups));
  }

  /** Nobody else registers anything under this number. */
  ghost predicate Spared(script: seq<Sched<Channel>>, q: nat) {
    forall i :: 0 <= i < |AllActs(script)| && AllActs(script)[i].Put? ==> AllActs(script)[i].q != q
  }

  lemma OneChannelMore(acts: seq<Act<Channel>>, known: set<object>, taken: set<nat>, o: object)
    requires NewActs(acts, known, taken) && o !in Cast(acts)
    ensures NewActs(acts, known + {o}, taken)
  {
    forall i | 0 <= i < |acts| && acts[i].Put? ensures ObjectOf(acts[i].target.chan) != o {
      assert ObjectOf(acts[i].target.chan) in Cast(acts);
    }
  }

  /** The sends to come have later numbers than one that is made now. */
  lemma OneNumberTaken(acts: seq<Act<Channel>>, counter: nat)
    requires InTurn(acts, counter) && forall i :: 0 <= i < |acts| && acts[i].Put? ==> acts[i].q != counter
    ensures InTurn(acts, (counter + 1) % U64)
  {
    forall i | 0 <= i < |acts| && Sends(acts[i]) ensures (counter + 1) % U64 <= acts[i].q {
      assert counter < acts[i].q < U64;
    }
  }

  lemma OneNumberMore(acts: seq<Act<Channel>>, known: set<object>, taken: set<nat>, q: nat)
    requires NewActs(acts, known, taken) && forall i :: 0 <= i < |acts| && acts[i].Put? ==> acts[i].q != q
    ensures NewActs(acts, known, taken + {q})
  {
  }

  class SerfClient {
    const io: SerfIoThread

    constructor (io: SerfIoThread)
      ensures this.io == io
    {
      this.io := io;
    }

    ghost function Now(sock: Socket, script: seq<Sched<Channel>>, i: nat): Moment
      reads io`m_channels, io`views, io`trace, io.unp, io.unp.buf, sock
      requires io.unp.Valid()
    {
      Moment(io.Standing(sock, 0, script), i)
    }

    /** The moments at which a call holds no lock. */
    method Yield(sock: Socket, pace: Pace, script: seq<Sched<Channel>>, i: nat)
      returns (rest: seq<Sched<Channel>>)
      requires io.Ready(sock, script)
      modifies io`m_seq, io`m_channels, io`home, io`deleted, io`erased, io`trace, io`views
      modifies io.unp, io.unp.buf, io.repr, sock
      ensures io.Ready(sock, rest) && (io.unp.buf == old(io.unp.buf) || fresh(io.unp.buf))
      ensures Now(sock, rest, i + 1) == Yielded(io.unp.dec, pace, old(Now(sock, script, i)))
    {
      hide SerfIoThread.Registered, SerfIoThread.ServedWell, SerfIoThread.ServedOnce, SerfIoThread.Holding;
      hide SerfIoThread.Reflected;
      rest := io.Meanwhile(sock, pace(i), script);
      rest := io.ProcessRpc(sock, pace(i), rest);
    }

    /** The call's channel has this number. */
    ghost predicate Mine(ch: ResultChannel, q: nat)
      reads io`repr, io`held
    {
      ch in io.repr && q in io.held && io.held[q] == Request(ch)
    }

    /** The channel holds an answer to that number, and it is the one that was delivered to it. */
    ghost predicate Served(ch: ResultChannel, q: nat)
      reads io`repr, io`trace, ch
    {
      ch in io.repr && ch.dataPending && ch.hdr.Seq == q && ch.Held() == Stored(io.trace, ch)
    }

    // ---------- waiting ----------

    /** `consume`: waits until there is data, or until a wait times out after so many `wakeups`. */
    method Consume(ch: ResultChannel, wakeups: nat, sock: Socket, pace: Pace, script: seq<Sched<Channel>>, i: nat)
      returns (rest: seq<Sched<Channel>>, j: nat)
      requires io.Ready(sock, script) && ch in io.repr
      modifies io`m_seq, io`m_channels, io`home, io`deleted, io`erased, io`trace, io`views
      modifies io.unp, io.unp.buf, io.repr, sock
      ensures io.Ready(sock, rest) && (io.unp.buf == old(io.unp.buf) || fresh(io.unp.buf))
      ensures Now(sock, rest, j) ==
                Waited(io.unp.dec, pace, ch, Yielded(io.unp.dec, pace, old(Now(sock, script, i))), wakeups)
    {
      hide SerfIoThread.Registered, SerfIoThread.ServedWell, SerfIoThread.ServedOnce, SerfIoThread.Holding;
      hide SerfIoThread.Reflected, SerfIoThread.Coming, Yielded, Stored;
      rest := Yield(sock, pace, script, i);
      j := i + 1;
      ghost var dec, m := io.unp.dec, Now(sock, rest, j);
      ghost var goal := Waited(dec, pace, ch, m, wakeups);
      var left := wakeups;
      while !ch.dataPending
        invariant io.Ready(sock, rest) && (io.unp.buf == old(io.unp.buf) || fresh(io.unp.buf))
        invariant m == Now(sock, rest, j) && Waited(dec, pace, ch, m, left) == goal
        decreases left
      {
        AnswerIsStored(ch);
        var fewer := if left == 0 then 0 else left - 1;
        OneWakeup(dec, pace, ch, m, left, fewer, Yielded(dec, pace, m));
        rest := Yield(sock, pace, rest, j);
        j, m := j + 1, Yielded(dec, pace, m);
        if left == 0 { return; }
        left := fewer;
      }
      AnswerIsStored(ch);
    }

    lemma AnswerIsStored(ch: ResultChannel)
      requires io.Reflected() && ch in io.repr
      ensures ch.dataPending == Stored(io.trace, ch).pending
    {
      assert Reflects(io.trace, ch);
      assert ch.Held().pending == ch.dataPending;
    }

    /** An answer once given stays: it is the channel's only delivery. */
    lemma AnswerIsOnly(before: seq<Demux.Delivery<Channel>>, ch: ResultChannel)
      requires io.Valid() && io.Reflected() && ch in io.repr && before <= io.trace && Stored(before, ch).pending
      ensures ch.dataPending && ch.Held() == Stored(io.trace, ch) == Stored(before, ch)
      ensures io.At(Request(ch), ch.hdr.Seq) && ch in io.erased
    {
      var i := AnswerIsDelivered(before, ch);
      assert io.trace[i] == before[i];
      var more := io.trace[|before|..];
      forall j | 0 <= j < |more| ensures more[j].chan != Request(ch) { assert io.trace[|before| + j] == more[j]; }
      AnswerStays(before, more, ch);
      assert before + more == io.trace;
      assert Reflects(io.trace, ch);
    }

    lemma AnswerLasts(before: seq<Demux.Delivery<Channel>>, ch: ResultChannel, q: nat)
      requires io.Valid() && io.Reflected() && Mine(ch, q) && before <= io.trace && Stored(before, ch).pending
      ensures Served(ch, q) && io.Gone(ch) && q !in io.Live()
    {
      AnswerIsOnly(before, ch);
      assert io.HeldWell(q) && io.At(Request(ch), q);
    }

    lemma TakenBack(ch: ResultChannel, q: nat)
      requires io.Valid() && Mine(ch, q) && q !in io.m_channels
      ensures io.Gone(ch) && q !in io.Live()
    {
      assert io.HeldWell(q) && io.At(Request(ch), q);
    }

    /** The wait, and the unlocked look at `m_dataPending`. */
    method Look(ch: ResultChannel, wakeups: nat, sock: Socket, pace: Pace, script: seq<Sched<Channel>>, i: nat)
      returns (answered: bool, rest: seq<Sched<Channel>>, j: nat)
      requires io.Ready(sock, script) && ch in io.repr
      modifies io`m_seq, io`m_channels, io`home, io`deleted, io`erased, io`trace, io`views
      modifies io.unp, io.unp.buf, io.repr, sock
      ensures io.Ready(sock, rest) && (io.unp.buf == old(io.unp.buf) || fresh(io.unp.buf))
      ensures Now(sock, rest, j) == Looked(io.unp.dec, pace, ch, old(Now(sock, script, i)), wakeups)
      ensures answered <==> HasAnswer(Now(sock, rest, j), ch)
    {
      hide SerfIoThread.Registered, SerfIoThread.ServedWell, SerfIoThread.ServedOnce, SerfIoThread.Holding;
      hide SerfIoThread.Coming, Waited, Yielded, Stored;
      rest, j := Consume(ch, wakeups, sock, pace, script, i);
      rest := Yield(sock, pace, rest, j);
      j := j + 1;
      AnswerIsStored(ch);
      answered := ch.dataPending;
    }

    /** The removal of an unanswered call. */
    method Settle(answered: bool, ch: ResultChannel, q: nat, sock: Socket, ghost script: seq<Sched<Channel>>,
                  ghost j: nat, ghost before: seq<Demux.Delivery<Channel>>)
      requires io.Ready(sock, script) && Mine(ch, q)
      requires answered ==> before <= io.trace && Stored(before, ch).pending
      modifies io`m_channels, io`deleted
      ensures io.Ready(sock, script)
      ensures Now(sock, script, j) ==
                if answered then old(Now(sock, script, j)) else Without(old(Now(sock, script, j)), q)
      ensures q !in io.Live() && io.Gone(ch) && (answered ==> Served(ch, q))
    {
      if answered { AnswerLasts(before, ch, q); }
      else {
        io.RemoveChannel(q);
        TakenBack(ch, q);
      }
    }

    /** The end of a call that has looked. */
    method Leave(answered: bool, ch: ResultChannel, q: nat,
                 sock: Socket, pace: Pace, script: seq<Sched<Channel>>, i: nat)
      returns (rest: seq<Sched<Channel>>, j: nat)
      requires io.Ready(sock, script) && Mine(ch, q) && (answered ==> HasAnswer(Now(sock, script, i), ch))
      modifies io`m_seq, io`m_channels, io`home, io`deleted, io`erased, io`trace, io`views
      modifies io.unp, io.unp.buf, io.repr, sock
      ensures io.Ready(sock, rest) && (io.unp.buf == old(io.unp.buf) || fresh(io.unp.buf))
      ensures Now(sock, rest, j) == var end := Yielded(io.unp.dec, pace, old(Now(sock, script, i)));
                                    if answered then end else Without(end, q)
      ensures q !in io.Live() && io.Gone(ch) && (answered ==> Served(ch, q))
    {
      ghost var before := io.trace;
      rest := Yield(sock, pace, script, i);
      j := i + 1;
      Settle(answered, ch, q, sock, rest, j, before);
    }

    /** From the wait to the removal of an unanswered call. Either way the channel is registered nowhere
        afterwards and may be destroyed. */
    method Await(ch: ResultChannel, q: nat, wakeups: nat, sock: Socket, pace: Pace, script: seq<Sched<Channel>>, i: nat)
      returns (answered: bool, rest: seq<Sched<Channel>>, j: nat)
      requires io.Ready(sock, script) && Mine(ch, q)
      modifies io`m_seq, io`m_channels, io`home, io`deleted, io`erased, io`trace, io`views
      modifies io.unp, io.unp.buf, io.repr, sock
      ensures io.Ready(sock, rest) && (io.unp.buf == old(io.unp.buf) || fresh(io.unp.buf))
      ensures answered <==> HasAnswer(Looked(io.unp.dec, pace, ch, old(Now(sock, script, i)), wakeups), ch)
      ensures Now(sock, rest, j) == Over(io.unp.dec, pace, ch, q, old(Now(sock, script, i)), wakeups)
      ensures q !in io.Live() && io.Gone(ch) && (answered ==> Served(ch, q))
    {
      hide Waited, Yielded, SerfIoThread.Registered, SerfIoThread.ServedWell, SerfIoThread.ServedOnce;
      hide SerfIoThread.Holding, SerfIoThread.Reflected, SerfIoThread.Coming;
      answered, rest, j := Look(ch, wakeups, sock, pace, script, i);
      rest, j := Leave(answered, ch, q, sock, pace, rest, j);
    }

    /** A number with a channel is its own from now on. */
    ghost method Claim(q: nat, c: Channel, acts: seq<Act<Channel>>)
      requires io.Valid() && q !in io.held && q in io.m_channels && io.m_channels[q] == Some(c)
      requires io.Coming(acts) && forall i :: 0 <= i < |acts| && acts[i].Put? ==> acts[i].q != q
      modifies io`held
      ensures io.Valid() && io.Coming(acts) && io.held == old(io.held)[q := c]
    {
      OneNumberMore(acts, io.home.Keys, io.held.Keys, q);
      io.Hold(q, c);
      assert io.held.Keys == old(io.held).Keys + {q};
    }

    /** The request is sent and, if that worked, its channel registered under a number of its own. */
    method Begin(ch: ResultChannel, ok: bool, seq0: nat, sock: Socket, ghost script: seq<Sched<Channel>>, ghost i: nat)
      returns (sent: bool, num: nat)
      requires io.Ready(sock, script) && ch !in io.repr && Reflects([], ch)
      requires io.m_seq !in io.held && Spared(script, io.m_seq)
      modifies io`m_seq, io`m_channels, io`repr, io`home, io`held
      ensures io.Ready(sock, script) && sent == ok && io.m_seq == (old(io.m_seq) + 1) % U64
      ensures sent ==> num == old(io.m_seq) && Mine(ch, num) && io.repr == old(io.repr) + {ch}
                       && io.held == old(io.held)[num := Request(ch)]
                       && Now(sock, script, i) == Called(old(Now(sock, script, i)), ch, num)
      ensures !sent ==> num == seq0 && io.repr == old(io.repr) && io.held == old(io.held)
                        && Now(sock, script, i) == old(Now(sock, script, i))
    {
      hide SerfIoThread.ServedWell, SerfIoThread.ServedOnce, SerfIoThread.Holding, SerfIoThread.Registered;
      hide SerfIoThread.Reflected, SerfIoThread.Live, SerfIoThread.Targets, NewActs, Reflects, AllActs, InTurn;
      OneNumberTaken(AllActs(script), io.m_seq);
      sent, num := io.SendData(ch, ok, seq0);
      if sent {
        OneChannelMore(AllActs(script), old(io.home).Keys, io.held.Keys, ch);
        assert io.home.Keys == old(io.home).Keys + {ch};
        Claim(num, Request(ch), AllActs(script));
      }
    }

    ghost method GiveBack(q: nat, was: map<nat, Channel>, acts: seq<Act<Channel>>)
      requires io.Valid() && io.Coming(acts) && q !in was && q in io.held && io.held == was[q := io.held[q]]
      modifies io`held
      ensures io.Valid() && io.Coming(acts) && io.held == was
    {
      io.Release(q);
    }

    /** The rest of a call whose request was sent. */
    method Wait(ch: ResultChannel, q: nat, wakeups: nat, sock: Socket, pace: Pace, script: seq<Sched<Channel>>, i: nat,
                ghost was: map<nat, Channel>)
      returns (answered: bool, rest: seq<Sched<Channel>>, j: nat)
      requires io.Ready(sock, script) && Mine(ch, q) && q !in was && io.held == was[q := Request(ch)]
      modifies io`m_seq, io`m_channels, io`home, io`deleted, io`erased, io`trace, io`views, io`held
      modifies io.unp, io.unp.buf, io.repr, sock
      ensures io.Ready(sock, rest) && (io.unp.buf == old(io.unp.buf) || fresh(io.unp.buf)) && io.held == was
      ensures Outcome(answered, Now(sock, rest, j)) ==
                Awaited(io.unp.dec, pace, ch, q, old(Now(sock, script, i)), wakeups)
      ensures q !in io.Live() && io.Gone(ch) && (answered ==> Served(ch, q))
    {
      hide Looked, Over;
      answered, rest, j := Await(ch, q, wakeups, sock, pace, script, i);
      GiveBack(q, was, AllActs(rest));
    }

    lemma ErasedIsGone(ch: ResultChannel)
      requires io.Valid() && ch in io.erased
      ensures io.Gone(ch)
    {
    }

    lemma NeverRegistered(ch: ResultChannel)
      requires io.Valid() && ch !in io.repr
      ensures io.Gone(ch)
    {
    }

    /** What every call begins with: send and register, and if that worked wait. `num` is where the call's
        number is stored, which a failed send leaves alone. */
    method Ask(ch: ResultChannel, ok: bool, wakeups: nat, seq0: nat,
               sock: Socket, pace: Pace, script: seq<Sched<Channel>>, i: nat)
      returns (sent: bool, answered: bool, num: nat, rest: seq<Sched<Channel>>, j: nat)
      requires io.Ready(sock, script) && ch !in io.repr && Reflects([], ch)
      requires io.m_seq !in io.held && Spared(script, io.m_seq)
      modifies io, io.unp, io.unp.buf, io.repr, sock, ch
      ensures io.Ready(sock, rest) && (io.unp.buf == old(io.unp.buf) || fresh(io.unp.buf))
      ensures sent == ok && io.held == old(io.held)
      ensures io.repr == if sent then old(io.repr) + {ch} else old(io.repr)
      ensures !sent ==> !answered && num == seq0 && Now(sock, rest, j) == old(Now(sock, script, i))
      ensures !sent ==> io.m_seq == (old(io.m_seq) + 1) % U64
      ensures io.Gone(ch) && (sent ==> num == old(io.m_seq) && num !in io.Live())
      ensures sent ==> Outcome(answered, Now(sock, rest, j)) ==
                         Calling(io.unp.dec, pace, ch, num, old(Now(sock, script, i)), wakeups)
      ensures answered ==> Served(ch, num)
    {
      hide Awaited, SerfIoThread.Registered, SerfIoThread.ServedWell, SerfIoThread.ServedOnce;
      hide SerfIoThread.Holding, SerfIoThread.Reflected, SerfIoThread.Coming;
      answered, rest, j := false, script, i;
      sent, num := Begin(ch, ok, seq0, sock, script, i);
      if sent {
        answered, rest, j := Wait(ch, num, wakeups, sock, pace, script, i, old(io.held));
      } else {
        NeverRegistered(ch);
      }
    }

    // ---------- the calls ----------

    lemma Unserved(ch: ResultChannel)
      requires io.Reflected() && ch !in io.repr && ch.Held() == Slot(ResponseHeader(0, ""), None, false)
      ensures Reflects([], ch)
      ensures forall i :: 0 <= i < |io.trace| ==> io.trace[i].chan != Request(ch)
    {
    }

    /** `Auth`, and every other call that is answered by a header alone. Its result is decided by what `Calling` says
        and by the header delivered; in particular it is TIMEOUT if no byte comes, and that of the reply if this comes
        alone, in one read, while nobody else touches the call's entry. */
    method Command(ok: bool, wakeups: nat, seq0: nat, sock: Socket, pace: Pace, script: seq<Sched<Channel>>, i: nat)
      returns (r: SerfResponse, ch: ResultChannel, num: nat, rest: seq<Sched<Channel>>, j: nat)
      requires io.Ready(sock, script) && io.m_seq !in io.held && Spared(script, io.m_seq)
      modifies io, io.unp, io.unp.buf, io.repr, sock
      ensures io.Ready(sock, rest) && (io.unp.buf == old(io.unp.buf) || fresh(io.unp.buf))
      ensures io.held == old(io.held) && fresh(ch) && !ch.typed && io.Gone(ch)
      ensures io.repr == if ok then old(io.repr) + {ch} else old(io.repr)
      ensures var was := old(Now(sock, script, i));
              var o := Calling(io.unp.dec, pace, ch, old(io.m_seq), was, wakeups);
              && r == (if !ok then FAILURE else if !o.answered then TIMEOUT
                       else if ch.hdr.Error == "" then SUCCESS else FAILURE)
              && (ok && o.answered ==> Served(ch, old(io.m_seq)))
              && Now(sock, rest, j) == (if ok then o.end else was)
      ensures if ok then num == old(io.m_seq) else num == seq0 && io.m_seq == (old(io.m_seq) + 1) % U64
      ensures (ok ==> num !in io.Live()) && (r == SUCCESS ==> Served(ch, num))
      ensures ok && old(sock.incoming) == [] ==> r == TIMEOUT
      ensures var dec, was := io.unp.dec, old(Now(sock, script, i)).now;
              var bytes := was.pending + was.incoming;
              (&& ok && pace(i) != 0 && 0 < |was.polls| && was.polls[0].Ready?
               && |was.incoming| <= was.polls[0].most && |was.incoming| <= 0x10_0000
               && (forall a :: a in AllActs(script) ==> a.q != old(io.m_seq))
               && dec(bytes).Some? && dec(bytes).value.size == |bytes|
               && AsHeader(dec(bytes).value.obj).Some? && AsHeader(dec(bytes).value.obj).value.Seq == old(io.m_seq))
              ==> r == if AsHeader(dec(bytes).value.obj).value.Error == "" then SUCCESS else FAILURE
    {
      hide Calling, Yielded, SerfIoThread.Registered, SerfIoThread.ServedWell, SerfIoThread.ServedOnce;
      hide SerfIoThread.Holding, SerfIoThread.Reflected, SerfIoThread.Coming, Stored, AsHeader, AllActs;
      ch := new ResultChannel(false, o => true);
      Unserved(ch);
      WireDecides(io.unp.dec, pace, ch, io.m_seq, Now(sock, script, i), wakeups);
      var sent, data;
      sent, data, num, rest, j := Ask(ch, ok, wakeups, seq0, sock, pace, script, i);
      r := if !sent then FAILURE
           else if !data then TIMEOUT
           else if ch.hdr.Error == "" then SUCCESS
           else FAILURE;
    }

    /** The handshake of `Connect`, which takes number 0. */
    method Connect(connected: bool, ok: bool, wakeups: nat,
                   sock: Socket, pace: Pace, script: seq<Sched<Channel>>, i: nat)
      returns (r: bool, ghost ch: Option<ResultChannel>, rest: seq<Sched<Channel>>, j: nat)
      requires io.Ready(sock, script) && io.m_seq == 0 && 0 !in io.held && Spared(script, 0)
      modifies io, io.unp, io.unp.buf, io.repr, sock
      ensures io.Ready(sock, rest) && io.held == old(io.held) && ch.Some? == connected
      ensures !connected ==> !r && Now(sock, rest, j) == old(Now(sock, script, i))
      ensures connected ==>
                && fresh(ch.value) && !ch.value.typed
                && var was := old(Now(sock, script, i));
                   var o := Calling(io.unp.dec, pace, ch.value, 0, was, wakeups);
                   && (r <==> ok && o.answered && ch.value.hdr.Error == "")
                   && (ok && o.answered ==> Served(ch.value, 0))
                   && Now(sock, rest, j) == (if ok then o.end else was)
                   && io.Gone(ch.value) && (ok ==> 0 !in io.Live())
    {
      hide Calling, Yielded, SerfIoThread.Registered, SerfIoThread.ServedWell, SerfIoThread.ServedOnce;
      hide SerfIoThread.Holding, SerfIoThread.Reflected, SerfIoThread.Coming;
      if !connected { return false, None, script, i; }
      var result, channel, num;
      result, channel, num, rest, j := Command(ok, wakeups, 0, sock, pace, script, i);
      r, ch := result == SUCCESS, Some(channel);
    }

    /** A reply with a body that converts is the answer from its delivery on. */
    lemma DeliveredIsAnswer(before: seq<Demux.Delivery<Channel>>, ch: ResultChannel)
      requires io.Valid() && io.Reflected() && ch in io.repr && before <= io.trace
      ensures forall d :: d in before && d.chan == Request(ch) && d.payload.Body? && ch.accepts(d.payload.obj) ==>
                Stored(before, ch).pending && ch.hdr == d.hdr && ch.data == Some(d.payload.obj)
    {
      forall d | d in before && d.chan == Request(ch) && d.payload.Body? && ch.accepts(d.payload.obj)
        ensures Stored(before, ch).pending && ch.hdr == d.hdr && ch.data == Some(d.payload.obj)
      {
        var i :| 0 <= i < |before| && before[i] == d;
        assert io.trace[i] == d;
        PendingExactlyWhen(before, ch);
        OnlyAnswer(io.trace, ch, i);
        assert Reflects(io.trace, ch);
        assert ch.Held() == Slot(d.hdr, Some(d.payload.obj), true);
      }
    }

    /** `Join`: the count is written whenever an answer came, error or not, and is the default when the
        answer came without its body. A reply that has been delivered with a count by the time of the look is answered
        with that count; and so is one that comes alone, in one read, while nobody else touches the call's entry. */
    method Join(nodeCount0: int, ok: bool, wakeups: nat, sock: Socket, pace: Pace, script: seq<Sched<Channel>>, i: nat)
      returns (r: SerfResponse, nodeCount: int, ghost ch: ResultChannel, rest: seq<Sched<Channel>>, j: nat)
      requires io.Ready(sock, script) && io.m_seq !in io.held && Spared(script, io.m_seq)
      modifies io, io.unp, io.unp.buf, io.repr, sock
      ensures io.Ready(sock, rest) && io.held == old(io.held) && fresh(ch) && ch.typed && io.Gone(ch)
      ensures forall o :: ch.accepts(o) <==> AsJoin(o).Some?
      ensures var was := old(Now(sock, script, i));
              var o := Calling(io.unp.dec, pace, ch, old(io.m_seq), was, wakeups);
              && r == (if !ok then FAILURE else if !o.answered then TIMEOUT
                       else if ch.hdr.Error == "" then SUCCESS else FAILURE)
              && (ok && o.answered ==> Served(ch, old(io.m_seq)))
              && Now(sock, rest, j) == (if ok then o.end else was)
              && (if !(ok && o.answered) then nodeCount == nodeCount0
                  else if ch.data.None? then nodeCount == 0
                  else AsJoin(ch.data.value) == Some(nodeCount))
      ensures var look := Looked(io.unp.dec, pace, ch, Called(old(Now(sock, script, i)), ch, old(io.m_seq)), wakeups);
              forall d :: && ok && d in look.now.trace && d.chan == Request(ch) && d.payload.Body?
                          && d.payload.obj.Map? && "Num" in d.payload.obj.fields && d.payload.obj.fields["Num"].Int?
                          && -0x8000_0000 <= d.payload.obj.fields["Num"].i < 0x8000_0000 ==>
                            && nodeCount == d.payload.obj.fields["Num"].i
                            && r == if d.hdr.Error == "" then SUCCESS else FAILURE
      ensures ok && old(sock.incoming) == [] ==> r == TIMEOUT && nodeCount == nodeCount0
      ensures var dec, was := io.unp.dec, old(Now(sock, script, i)).now;
              var bytes := was.pending + was.incoming;
              (&& ok && pace(i) != 0 && 0 < |was.polls| && was.polls[0].Ready?
               && |was.incoming| <= was.polls[0].most && |was.incoming| <= 0x10_0000
               && (forall a :: a in AllActs(script) ==> a.q != old(io.m_seq))
               && dec(bytes).Some? && AsHeader(dec(bytes).value.obj).Some?
               && AsHeader(dec(bytes).value.obj).value.Seq == old(io.m_seq))
              ==>
                var n, e := dec(bytes).value.size, AsHeader(dec(bytes).value.obj).value.Error;
                n < |bytes| && dec(bytes[n..]).Some? && dec(bytes[n..]).value.size == |bytes| - n ==>
                  match AsJoin(dec(bytes[n..]).value.obj)
                  case Some(count) => nodeCount == count && r == if e == "" then SUCCESS else FAILURE
                  case None => nodeCount == nodeCount0 && r == TIMEOUT
    {
      hide Calling, Yielded, SerfIoThread.Registered, SerfIoThread.ServedWell, SerfIoThread.ServedOnce;
      hide SerfIoThread.Holding, SerfIoThread.Reflected, SerfIoThread.Coming, Stored, AsHeader, AllActs;
      hide Looked, AsJoin;
      nodeCount := nodeCount0;
      var channel := new ResultChannel(true, o => AsJoin(o).Some?);
      ch := channel;
      Unserved(channel);
      ghost var was, dec, q := Now(sock, script, i), io.unp.dec, io.m_seq;
      WireDecides(dec, pace, channel, q, was, wakeups);
      LookFinds(dec, pace, channel, q, was, wakeups);
      var sent, data, num;
      sent, data, num, rest, j := Ask(channel, ok, wakeups, 0, sock, pace, script, i);
      ghost var found := Looked(dec, pace, channel, Called(was, channel, q), wakeups).now.trace;
      CountsConvert(found);
      if sent { DeliveredIsAnswer(found, channel); }
      if !sent {
        r := FAILURE;
      } else if data {
        DataIsAccepted(io.trace, channel);
        nodeCount := match channel.data case Some(o) => AsJoin(o).value case None => 0;
        r := if channel.hdr.Error == "" then SUCCESS else FAILURE;
      } else {
        r := TIMEOUT;
      }
    }

    /** `addLogChannel` and the like, between two rounds. */
    method Install(q: nat, kind: ListenerKind, sock: Socket, ghost script: seq<Sched<Channel>>, ghost i: nat)
      returns (l: ListenerChannel)
      requires io.Ready(sock, script) && q !in io.held
      modifies io`m_channels, io`repr, io`home
      ensures io.Ready(sock, script) && fresh(l) && l.kind == kind && l.called == [] && io.repr == old(io.repr) + {l}
      ensures var m := old(Now(sock, script, i));
              Now(sock, script, i) ==
                m.(now := m.now.(live := m.now.live[q := Demux.Target(Listener(l), Demux.Hears(kind))]))
      ensures q in io.m_channels && io.m_channels[q] == Some(Listener(l)) && io.At(Listener(l), q)
      ensures q in io.Live() && io.Live()[q] == Demux.Target(Listener(l), Demux.Hears(kind))
    {
      l := io.AddChannel(q, kind);
      OneChannelMore(AllActs(script), old(io.home).Keys, io.held.Keys, l);
      assert io.home.Keys == old(io.home).Keys + {l};
    }

    /** The others run once more; the answer stays. */
    method StillServed(ch: ResultChannel, q: nat, sock: Socket, pace: Pace, script: seq<Sched<Channel>>, i: nat)
      returns (rest: seq<Sched<Channel>>, j: nat)
      requires io.Ready(sock, script) && Served(ch, q)
      modifies io`m_seq, io`m_channels, io`home, io`deleted, io`erased, io`trace, io`views
      modifies io.unp, io.unp.buf, io.repr, sock
      ensures io.Ready(sock, rest) && (io.unp.buf == old(io.unp.buf) || fresh(io.unp.buf))
      ensures Served(ch, q) && ch.hdr == old(ch.hdr) && ch in io.erased
      ensures Now(sock, rest, j) == Yielded(io.unp.dec, pace, old(Now(sock, script, i)))
    {
      ghost var before := io.trace;
      rest := Yield(sock, pace, script, i);
      j := i + 1;
      AnswerIsOnly(before, ch);
    }

    /** `Monitor`, `Stream` and `Query`: on success, and only then, a new listener channel is registered under
        the number of the request, which is the number handed to the caller. */
    method Subscribe(kind: ListenerKind, ok: bool, wakeups: nat, seq0: nat,
                     sock: Socket, pace: Pace, script: seq<Sched<Channel>>, i: nat)
      returns (r: SerfResponse, num: nat, listener: Option<ListenerChannel>,
               ghost ch: ResultChannel, rest: seq<Sched<Channel>>, j: nat)
      requires io.Ready(sock, script) && io.m_seq !in io.held && Spared(script, io.m_seq)
      modifies io, io.unp, io.unp.buf, io.repr, sock
      ensures io.Ready(sock, rest) && io.held == old(io.held) && fresh(ch) && !ch.typed
      ensures num == (if ok then old(io.m_seq) else seq0) && (r == SUCCESS <==> listener.Some?)
      ensures io.Gone(ch) && (ok && r != SUCCESS ==> num !in io.Live())
      ensures listener.Some? ==> fresh(listener.value) && listener.value.kind == kind && listener.value.called == []
      ensures r == SUCCESS ==>
                && num in io.m_channels && io.m_channels[num] == Some(Listener(listener.value))
                && num in io.Live() && io.Live()[num] == Demux.Target(Listener(listener.value), Demux.Hears(kind))
                && listener.value in io.repr && io.At(Listener(listener.value), num)
      ensures var was := old(Now(sock, script, i));
              var o := Calling(io.unp.dec, pace, ch, old(io.m_seq), was, wakeups);
              && r == (if !ok then FAILURE else if !o.answered then TIMEOUT
                       else if ch.hdr.Error == "" then SUCCESS else FAILURE)
              && (ok && o.answered ==> Served(ch, num))
              && Now(sock, rest, j) == (if !ok then was
                                        else if r != SUCCESS then o.end
                                        else
                                          var end := Yielded(io.unp.dec, pace, o.end);
                                          end.(now := end.now.(live := end.now.live[num :=
                                            Demux.Target(Listener(listener.value), Demux.Hears(kind))])))
    {
      hide Calling, Yielded, SerfIoThread.Registered, SerfIoThread.ServedWell, SerfIoThread.ServedOnce;
      hide SerfIoThread.Holding, SerfIoThread.Reflected, SerfIoThread.Coming;
      hide Now, AllActs, AsHeader, Stored;
      var channel;
      listener := None;
      r, channel, num, rest, j := Command(ok, wakeups, seq0, sock, pace, script, i);
      ch := channel;
      if r == SUCCESS {
        rest, j := StillServed(channel, num, sock, pace, rest, j);
        var l := Install(channel.hdr.Seq, kind, sock, rest, j);
        listener, num := Some(l), channel.hdr.Seq;
        ErasedIsGone(channel);
      }
    }

    /** A listener channel under a number that nobody is going to register anything under. */
    ghost predicate OwnSubscription(q: nat, script: seq<Sched<Channel>>)
      reads io`m_seq, io`m_channels, io`held
    {
      q in io.Live() && io.Live()[q].chan.Listener? && q !in io.held && q != io.m_seq && Spared(script, q)
    }

    ghost method Watch(q: nat, script: seq<Sched<Channel>>)
      requires io.Valid() && io.Coming(AllActs(script)) && OwnSubscription(q, script)
      modifies io`held
      ensures io.Valid() && io.Coming(AllActs(script)) && io.held == old(io.held)[q := io.Live()[q].chan]
    {
      assert q in Registry.Live(io.m_channels);
      Claim(q, io.m_channels[q].value, AllActs(script));
    }

    /** The removal of the entry under `stopSeq`, by its owner. */
    method Unregister(stopSeq: nat, sock: Socket, ghost script: seq<Sched<Channel>>, ghost i: nat)
      requires io.Ready(sock, script)
      modifies io`m_channels, io`deleted
      ensures io.Ready(sock, script)
      ensures var m := old(Now(sock, script, i));
              Now(sock, script, i) == m.(now := m.now.(live := m.now.live - {stopSeq}))
      ensures stopSeq !in io.m_channels && stopSeq !in io.Live()
      ensures stopSeq in io.held && io.held[stopSeq].Listener? ==> io.held[stopSeq] in io.deleted
    {
      io.RemoveChannel(stopSeq);
      assert stopSeq in io.held ==> io.HeldWell(stopSeq);
    }

    /** `Stop` up to what becomes of the subscription. */
    method Cancel(stopSeq: nat, ok: bool, wakeups: nat, sock: Socket, pace: Pace, script: seq<Sched<Channel>>, i: nat)
      returns (r: SerfResponse, ghost ch: ResultChannel, rest: seq<Sched<Channel>>, j: nat)
      requires io.Ready(sock, script) && io.m_seq !in io.held && Spared(script, io.m_seq)
      modifies io, io.unp, io.unp.buf, io.repr, sock
      ensures io.Ready(sock, rest) && io.held == old(io.held) && fresh(ch) && !ch.typed && io.Gone(ch)
      ensures var was := old(Now(sock, script, i));
              var o := Calling(io.unp.dec, pace, ch, old(io.m_seq), was, wakeups);
              && r == (if !ok then FAILURE else if !o.answered then TIMEOUT
                       else if ch.hdr.Error == "" then SUCCESS else FAILURE)
              && (ok && o.answered ==> Served(ch, old(io.m_seq)))
              && Now(sock, rest, j) == (if !ok then was
                                        else if r != SUCCESS then o.end
                                        else
                                          var end := Yielded(io.unp.dec, pace, o.end);
                                          end.(now := end.now.(live := end.now.live - {stopSeq})))
      ensures r == SUCCESS ==> stopSeq !in io.m_channels && stopSeq !in io.Live()
      ensures r == SUCCESS && stopSeq in io.held && io.held[stopSeq].Listener? ==> io.held[stopSeq] in io.deleted
    {
      hide Calling, Yielded, SerfIoThread.Registered, SerfIoThread.ServedWell, SerfIoThread.ServedOnce;
      hide SerfIoThread.Holding, SerfIoThread.Reflected, SerfIoThread.Coming;
      hide Served, Now, AllActs, AsHeader, Stored;
      var channel, num;
      r, channel, num, rest, j := Command(ok, wakeups, 0, sock, pace, script, i);
      ch := channel;
      if r == SUCCESS {
        rest, j := StillServed(channel, num, sock, pace, rest, j);
        Unregister(stopSeq, sock, rest, j);
        ErasedIsGone(channel);
      }
    }

    /** `Stop`: on success its number has no entry, and if it was that of one of the caller's own subscriptions, the
        channel that was there has been deleted, by this call or by another. */
    method Stop(stopSeq: nat, ok: bool, wakeups: nat, sock: Socket, pace: Pace, script: seq<Sched<Channel>>, i: nat)
      returns (r: SerfResponse, ghost ch: ResultChannel, rest: seq<Sched<Channel>>, j: nat)
      requires io.Ready(sock, script) && io.m_seq !in io.held && Spared(script, io.m_seq)
      modifies io, io.unp, io.unp.buf, io.repr, sock
      ensures io.Ready(sock, rest) && io.held == old(io.held) && fresh(ch) && !ch.typed && io.Gone(ch)
      ensures var was := old(Now(sock, script, i));
              var o := Calling(io.unp.dec, pace, ch, old(io.m_seq), was, wakeups);
              && r == (if !ok then FAILURE else if !o.answered then TIMEOUT
                       else if ch.hdr.Error == "" then SUCCESS else FAILURE)
              && (ok && o.answered ==> Served(ch, old(io.m_seq)))
              && Now(sock, rest, j) == (if !ok then was
                                        else if r != SUCCESS then o.end
                                        else
                                          var end := Yielded(io.unp.dec, pace, o.end);
                                          end.(now := end.now.(live := end.now.live - {stopSeq})))
      ensures r == SUCCESS ==> stopSeq !in io.m_channels && stopSeq !in io.Live()
      ensures r == SUCCESS && old(OwnSubscription(stopSeq, script)) ==> old(io.Live())[stopSeq].chan in io.deleted
    {
      hide Calling, Yielded, SerfIoThread.Registered, SerfIoThread.ServedWell, SerfIoThread.ServedOnce;
      hide SerfIoThread.Holding, SerfIoThread.Reflected, SerfIoThread.Coming;
      ghost var own := OwnSubscription(stopSeq, script);
      if own { Watch(stopSeq, script); }
      r, ch, rest, j := Cancel(stopSeq, ok, wakeups, sock, pace, script, i);
      if own { GiveBack(stopSeq, old(io.held), AllActs(rest)); }
    }
  }
}
