/** The read loop and the streaming decoder it fills. */
module Decoder {
  import opened Options
  import opened Messages
  import opened Sequences

  const RPC_BUFFER_SIZE: nat := 1024 * 1024

  newtype byte = x: int | 0 <= x < 256

  datatype Parsed = Parsed(obj: Object, size: nat)

  /** Reads one object from the front of a byte string, or nothing if it is not complete. */
  type Dec = seq<byte> -> Option<Parsed>

  /** The one property of MessagePack that is used: an object is complete or not by its own bytes,
      whatever follows it. */
  ghost predicate SelfDelimiting(dec: Dec) {
    forall b, c {:trigger dec(b + c)} :: dec(b).Some? ==>
      0 < dec(b).value.size <= |b| && dec(b + c) == dec(b)
  }

  lemma Delimited(dec: Dec, b: seq<byte>)
    requires SelfDelimiting(dec) && dec(b).Some?
    ensures 0 < dec(b).value.size <= |b|
  {
    assert b + [] == b;
    assert dec(b + []) == dec(b);
  }

  // ---------- all complete objects of a byte string ----------

  /** The objects that calling `next` until it fails yields. */
  ghost function Objects(dec: Dec, b: seq<byte>): seq<Object>
    requires SelfDelimiting(dec)
    decreases |b|
  {
    if dec(b).None? then []
    else Delimited(dec, b); [dec(b).value.obj] + Objects(dec, b[dec(b).value.size..])
  }

  /** The bytes left over: at most a partial object. */
  ghost function Rest(dec: Dec, b: seq<byte>): seq<byte>
    requires SelfDelimiting(dec)
    decreases |b|
  {
    if dec(b).None? then b
    else Delimited(dec, b); Rest(dec, b[dec(b).value.size..])
  }

  /** Feeding more bytes later gives the same objects as having had them at once. */
  lemma {:induction false} FeedLater(dec: Dec, b: seq<byte>, c: seq<byte>)
    requires SelfDelimiting(dec)
    ensures Objects(dec, b + c) == Objects(dec, b) + Objects(dec, Rest(dec, b) + c)
    ensures Rest(dec, b + c) == Rest(dec, Rest(dec, b) + c)
    decreases |b|
  {
    if dec(b).Some? {
      Delimited(dec, b);
      var n := dec(b).value.size;
      assert dec(b + c) == dec(b);
      assert (b + c)[n..] == b[n..] + c;
      FeedLater(dec, b[n..], c);
    }
  }

  /** What the agent encodes is what comes out: the objects of encodings one behind the other, in order, and behind
      them what does not make up another. */
  lemma {:induction false} EncodedObjects(dec: Dec, es: seq<seq<byte>>, os: seq<Object>, tail: seq<byte>)
    requires SelfDelimiting(dec) && dec(tail).None? && |es| == |os|
    requires forall i :: 0 <= i < |es| ==> dec(es[i]) == Some(Parsed(os[i], |es[i]|))
    ensures Objects(dec, Flat(es) + tail) == os && Rest(dec, Flat(es) + tail) == tail
    decreases |es|
  {
    if es == [] {
      assert Flat(es) + tail == tail;
    } else {
      var rest := Flat(es[1..]) + tail;
      EncodedObjects(dec, es[1..], os[1..], tail);
      assert Flat(es) + tail == es[0] + rest;
      assert dec(es[0] + rest) == dec(es[0]);
      DropAll(es[0], rest);
    }
  }

  /** And that in whatever pieces the bytes arrive. */
  lemma EncodedInPieces(dec: Dec, es: seq<seq<byte>>, os: seq<Object>, tail: seq<byte>, pieces: seq<seq<byte>>)
    requires SelfDelimiting(dec) && dec(tail).None? && |es| == |os| && Flat(pieces) == Flat(es) + tail
    requires forall i :: 0 <= i < |es| ==> dec(es[i]) == Some(Parsed(os[i], |es[i]|))
    ensures Flat(Batches(dec, [], pieces)) == os
  {
    if dec([]).Some? { Delimited(dec, []); }
    AnySplitSameObjects(dec, [], pieces);
    EncodedObjects(dec, es, os, tail);
    assert [] + Flat(pieces) == Flat(pieces);
  }

  /** The objects each batch yields, when the bytes come in the given pieces. */
  ghost function Batches(dec: Dec, carry: seq<byte>, pieces: seq<seq<byte>>): seq<seq<Object>>
    requires SelfDelimiting(dec)
    decreases |pieces|
  {
    if pieces == [] then []
    else [Objects(dec, carry + pieces[0])] + Batches(dec, Rest(dec, carry + pieces[0]), pieces[1..])
  }

  /** However the bytes are cut into batches, the objects of all the batches together are the objects
      of all the bytes, in order: a partial object is kept until its end arrives. */
  lemma {:induction false} AnySplitSameObjects(dec: Dec, carry: seq<byte>, pieces: seq<seq<byte>>)
    requires SelfDelimiting(dec) && dec(carry).None?
    ensures Flat(Batches(dec, carry, pieces)) == Objects(dec, carry + Flat(pieces))
    decreases |pieces|
  {
    if pieces == [] {
      assert carry + [] == carry;
    } else {
      var b := carry + pieces[0];
      assert carry + Flat(pieces) == b + Flat(pieces[1..]);
      FeedLater(dec, b, Flat(pieces[1..]));
      RestIsPartial(dec, b);
      AnySplitSameObjects(dec, Rest(dec, b), pieces[1..]);
    }
  }

  /** What is left after draining is not a complete object, so an empty batch yields nothing. */
  lemma {:induction false} RestIsPartial(dec: Dec, b: seq<byte>)
    requires SelfDelimiting(dec)
    ensures dec(Rest(dec, b)).None?
    decreases |b|
  {
    if dec(b).Some? { Delimited(dec, b); RestIsPartial(dec, b[dec(b).value.size..]); }
  }

  // ---------- the decoder ----------

  /** `msgpack::unpacker`: bytes from `parsed` to `used` await decoding, and free space follows. */
  class Unpacker {
    const dec: Dec
    var buf: array<byte>
    var used: nat
    var parsed: nat

    ghost predicate Valid()
      reads this
    {
      parsed <= used <= buf.Length && SelfDelimiting(dec)
    }

    /** The bytes not decoded yet. */
    ghost function Pending(): seq<byte>
      reads this, buf
      requires Valid()
    {
      buf[parsed..used]
    }

    constructor (dec: Dec)
      requires SelfDelimiting(dec)
      ensures Valid() && Pending() == [] && this.dec == dec && fresh(buf)
    {
      this.dec := dec;
      buf := new byte[0];
      used, parsed := 0, 0;
    }

    /** `reserve_buffer`: does nothing when there is room already. */
    method Reserve(n: nat)
      requires Valid()
      modifies this`buf
      ensures Valid() && used + n <= buf.Length && buf[..used] == old(buf[..used])
      ensures old(used + n <= buf.Length) ==> buf == old(buf)
      ensures buf == old(buf) || fresh(buf)
    {
      if buf.Length - used < n {
        var bigger := new byte[used + n];
        forall i | 0 <= i < used { bigger[i] := buf[i]; }
        assert bigger[..used] == buf[..used];
        buf := bigger;
      }
    }

    /** `buffer_consumed`: the next `n` bytes of the free space have been filled. */
    method Consumed(n: nat)
      requires Valid() && used + n <= buf.Length
      modifies this`used
      ensures Valid() && used == old(used) + n
      ensures Pending() == old(Pending()) + buf[old(used)..used]
    {
      used := used + n;
    }

    /** `next`: the next complete object, if there is one. */
    method Next() returns (o: Option<Object>)
      requires Valid()
      modifies this`parsed
      ensures Valid()
      ensures match dec(old(Pending()))
              case None => o == None && Pending() == old(Pending())
              case Some(p) => && o == Some(p.obj) && 0 < p.size <= |old(Pending())|
                              && Pending() == old(Pending())[p.size..]
      ensures o.None? <==> Objects(dec, old(Pending())) == []
      ensures o.Some? ==> Objects(dec, old(Pending())) == [o.value] + Objects(dec, Pending())
      ensures Rest(dec, Pending()) == Rest(dec, old(Pending()))
    {
      var r := dec(buf[parsed..used]);
      if r.None? { return None; }
      Delimited(dec, Pending());
      parsed := parsed + r.value.size;
      assert Pending() == old(Pending())[r.value.size..];
      o := Some(r.value.obj);
    }
  }

  // ---------- the socket ----------

  /** What one round of `select` and `read` meets: nothing to read, an end of file or error, or data
      of which the kernel hands over at most the given number of bytes. */
  datatype Poll = Quiet | Broken | Ready(most: nat)

  /** What `read` returns, with so much room and so many bytes there. */
  function Got(p: Poll, room: nat, there: nat): int {
    if !p.Ready? then -1
    else
      var n := if p.most < room then p.most else room;
      if there < n then there else n
  }

  /** What one turn of the reading loop reads: a `Quiet` select reads nothing. */
  function ReadSize(polls: seq<Poll>, room: nat, there: nat): int {
    if polls == [] || polls[0].Quiet? then 0 else Got(polls[0], room, there)
  }

  function PollsLeft(polls: seq<Poll>): seq<Poll> { if polls == [] then [] else polls[1..] }

  /** What the reading loop makes of the polls it meets: how many bytes it takes, and the polls left. */
  datatype Fill = Fill(count: nat, polls: seq<Poll>)

  function Filled(polls: seq<Poll>, there: nat, count: nat): (f: Fill)
    requires count <= RPC_BUFFER_SIZE
    ensures count <= f.count <= RPC_BUFFER_SIZE && f.count <= count + there
    decreases |polls|
  {
    var n := ReadSize(polls, RPC_BUFFER_SIZE - count, there);
    if n <= 0 then Fill(count, PollsLeft(polls)) else Filled(PollsLeft(polls), there - n, count + n)
  }

  /** How many bytes the polls in front, up to the first that gives none, allow to be read. */
  function Allowance(polls: seq<Poll>): nat {
    if polls == [] || !polls[0].Ready? then 0
    else if polls[0].most == 0 then 0
    else polls[0].most + Allowance(polls[1..])
  }

  /** `n` is the least of three. */
  predicate Least(n: nat, a: nat, b: nat, c: nat) {
    n <= a && n <= b && n <= c && n in {a, b, c}
  }

  /** The loop reads all the polls allow, unless it runs out of bytes or of room. */
  lemma {:induction false} FilledExactly(polls: seq<Poll>, there: nat, count: nat)
    requires count <= RPC_BUFFER_SIZE
    ensures Least(Filled(polls, there, count).count, count + Allowance(polls), count + there, 0x10_0000)
    decreases |polls|
  {
    var n := ReadSize(polls, RPC_BUFFER_SIZE - count, there);
    if 0 < n { FilledExactly(PollsLeft(polls), there - n, count + n); }
  }

  /** Every poll that is ready is good for a byte at least. */
  lemma {:induction false} KeepsReading(polls: seq<Poll>, there: nat, k: nat)
    requires k <= |polls| && forall i :: 0 <= i < k ==> polls[i].Ready? && 0 < polls[i].most
    ensures var n := Filled(polls, there, 0).count; k <= n || there <= n || 0x10_0000 <= n
  {
    AllowanceCounts(polls, k);
    FilledExactly(polls, there, 0);
  }

  lemma {:induction false} AllowanceCounts(polls: seq<Poll>, k: nat)
    requires k <= |polls| && forall i :: 0 <= i < k ==> polls[i].Ready? && 0 < polls[i].most
    ensures k <= Allowance(polls)
    decreases k
  {
    if k != 0 { AllowanceCounts(polls[1..], k - 1); }
  }

  lemma FirstAllows(polls: seq<Poll>)
    ensures polls != [] && polls[0].Ready? ==> polls[0].most <= Allowance(polls)
  {
  }

  /** One poll that lets everything be read gets it all. */
  lemma ReadAtOnce(polls: seq<Poll>, there: nat)
    requires polls != [] && polls[0].Ready? && there <= polls[0].most && there <= 0x10_0000
    ensures Filled(polls, there, 0).count == there
  {
    FilledExactly(polls, there, 0);
  }

  /** The pieces in which so many rounds take the bytes off the socket. */
  function Pieces(polls: seq<Poll>, incoming: seq<byte>, rounds: nat): seq<seq<byte>>
    decreases rounds
  {
    if rounds == 0 then []
    else
      var f := Filled(polls, |incoming|, 0);
      [incoming[..f.count]] + Pieces(f.polls, incoming[f.count..], rounds - 1)
  }

  /** The polls these rounds leave. */
  function PollsAfter(polls: seq<Poll>, incoming: seq<byte>, rounds: nat): seq<Poll>
    decreases rounds
  {
    if rounds == 0 then polls
    else
      var f := Filled(polls, |incoming|, 0);
      PollsAfter(f.polls, incoming[f.count..], rounds - 1)
  }

  /** The pieces are the bytes, in order, none lost and none twice, and no piece is larger than the buffer. */
  lemma {:induction false} PiecesAreBytes(polls: seq<Poll>, incoming: seq<byte>, rounds: nat)
    ensures Flat(Pieces(polls, incoming, rounds)) <= incoming
    ensures forall p :: p in Pieces(polls, incoming, rounds) ==> |p| <= RPC_BUFFER_SIZE
    decreases rounds
  {
    if rounds != 0 {
      var f := Filled(polls, |incoming|, 0);
      PiecesAreBytes(f.polls, incoming[f.count..], rounds - 1);
      assert incoming == incoming[..f.count] + incoming[f.count..];
    }
  }

  /** The stream of bytes from the agent, and the order of events on it. */
  class Socket {
    var incoming: seq<byte>
    var polls: seq<Poll>

    method Select() returns (p: Poll)
      modifies this`polls
      ensures p == (if old(polls) == [] then Quiet else old(polls)[0])
      ensures polls == PollsLeft(old(polls))
    {
      if polls == [] { return Quiet; }
      p := polls[0];
      polls := polls[1..];
    }

    /** `read`: fills `buf` from `at` on, with no more than `room` bytes. */
    method Read(p: Poll, buf: array<byte>, at: nat, room: nat) returns (n: int)
      requires at + room <= buf.Length
      modifies this`incoming, buf
      ensures n == Got(p, room, |old(incoming)|)
      ensures n <= 0 ==> incoming == old(incoming) && buf[..] == old(buf[..])
      ensures 0 < n ==> n <= |old(incoming)| && incoming == old(incoming)[n..]
                        && buf[..at + n] == old(buf[..at]) + old(incoming)[..n]
      ensures buf[..at] == old(buf[..at])
    {
      if !p.Ready? { return -1; }
      n := if p.most < room then p.most else room;
      if |incoming| < n { n := |incoming|; }
      var src := incoming;
      forall i | 0 <= i < n { buf[at + i] := src[i]; }
      assert buf[..at + n] == old(buf[..at]) + src[..n];
      incoming := incoming[n..];
    }
  }

  /** One turn of the reading loop: wait, make room, read behind the `count` bytes already there.
      The result is not positive when the loop has to stop. */
  method ReadMore(sock: Socket, unp: Unpacker, count: nat) returns (n: int)
    requires unp.Valid() && count <= RPC_BUFFER_SIZE && unp.used + count <= unp.buf.Length
    requires 0 < count ==> unp.used + RPC_BUFFER_SIZE <= unp.buf.Length
    modifies sock, unp`buf, unp.buf
    ensures unp.Valid() && (unp.buf == old(unp.buf) || fresh(unp.buf))
    ensures n == ReadSize(old(sock.polls), RPC_BUFFER_SIZE - count, |old(sock.incoming)|)
    ensures 0 < n ==> old(sock.polls) != [] && old(sock.polls)[0].Ready?
    ensures old(sock.polls) != [] && old(sock.polls)[0].Ready? ==>
              && n <= old(sock.polls)[0].most && n <= 0x10_0000 - count && n <= |old(sock.incoming)|
              && (n == old(sock.polls)[0].most || n == 0x10_0000 - count || n == |old(sock.incoming)|)
    ensures sock.polls == PollsLeft(old(sock.polls))
    ensures n <= RPC_BUFFER_SIZE - count && unp.used + count <= unp.buf.Length
    ensures 0 < n ==> unp.used + RPC_BUFFER_SIZE <= unp.buf.Length
    ensures n <= 0 ==> sock.incoming == old(sock.incoming)
                       && unp.buf[..unp.used + count] == old(unp.buf[..unp.used + count])
    ensures 0 < n ==> n <= |old(sock.incoming)| && sock.incoming == old(sock.incoming)[n..]
                      && unp.buf[..unp.used + (count + n)] == old(unp.buf[..unp.used + count] + sock.incoming[..n])
  {
    var p := sock.Select();
    if p.Quiet? { return 0; }
    unp.Reserve(RPC_BUFFER_SIZE);
    var end := unp.used + count;
    assert unp.buf[..end] == old(unp.buf[..unp.used + count]);
    n := sock.Read(p, unp.buf, end, RPC_BUFFER_SIZE - count);
  }

  /** `n` bytes more behind the `count` read before. */
  lemma TakenOn(all: seq<byte>, left: seq<byte>, head: seq<byte>, was: seq<byte>, now: seq<byte>, count: nat, n: nat)
    requires count + n <= |all| && left == all[count..] && was == head + all[..count] && now == was + left[..n]
    ensures now == head + all[..count + n] && left[n..] == all[count + n..]
  {
  }

  lemma FilledOn(polls: seq<Poll>, there: nat, count: nat, n: int, left: nat)
    requires count <= RPC_BUFFER_SIZE && n == ReadSize(polls, RPC_BUFFER_SIZE - count, there)
    requires 0 < n ==> left == there - n
    ensures Filled(polls, there, count) ==
              if n <= 0 then Fill(count, PollsLeft(polls)) else Filled(PollsLeft(polls), left, count + n)
  {
  }

  /** The reading loop: it ends, because every turn takes bytes and there is room for so many, and it
      takes bytes in order without losing or repeating any. */
  method ReadLoop(sock: Socket, unp: Unpacker) returns (count: nat)
    requires unp.Valid()
    modifies sock, unp`buf, unp.buf
    ensures unp.Valid() && count <= RPC_BUFFER_SIZE && unp.used + count <= unp.buf.Length
    ensures Fill(count, sock.polls) == Filled(old(sock.polls), |old(sock.incoming)|, 0)
    ensures Least(count, Allowance(old(sock.polls)), |old(sock.incoming)|, 0x10_0000)
    ensures (&& old(sock.polls) != [] && old(sock.polls)[0].Ready?
             && |old(sock.incoming)| <= old(sock.polls)[0].most && |old(sock.incoming)| <= 0x10_0000) ==>
              sock.incoming == []
    ensures count <= |old(sock.incoming)| && sock.incoming == old(sock.incoming)[count..]
    ensures unp.buf[..unp.used + count] == old(unp.buf[..unp.used]) + old(sock.incoming)[..count]
    ensures unp.buf == old(unp.buf) || fresh(unp.buf)
  {
    hide Filled, ReadSize, Allowance;
    FilledExactly(sock.polls, |sock.incoming|, 0);
    FirstAllows(sock.polls);
    count := 0;
    ghost var head, have := unp.buf[..unp.used], unp.buf[..unp.used];
    ghost var all, whole := sock.incoming, Filled(sock.polls, |sock.incoming|, 0);
    while true
      invariant unp.Valid() && unp.used == old(unp.used)
      invariant unp.buf == old(unp.buf) || fresh(unp.buf)
      invariant count <= RPC_BUFFER_SIZE && count <= |all| && sock.incoming == all[count..]
      invariant 0 < count ==> unp.used + RPC_BUFFER_SIZE <= unp.buf.Length
      invariant unp.used + count <= unp.buf.Length
      invariant Filled(sock.polls, |sock.incoming|, count) == whole
      invariant unp.buf[..unp.used + count] == have == head + all[..count]
      decreases RPC_BUFFER_SIZE - count
    {
      ghost var left, polls := sock.incoming, sock.polls;
      var n := ReadMore(sock, unp, count);
      FilledOn(polls, |left|, count, n, |sock.incoming|);
      if n <= 0 { break; }
      TakenOn(all, left, head, have, have + left[..n], count, n);
      count, have := count + n, have + left[..n];
    }
  }

  /** One pass of `processRpc` up to `buffer_consumed`: the bytes handed to the decoder are exactly those
      taken off the socket, no more than the buffer size, and the oversize branch is never entered. */
  method ReadBatch(sock: Socket, unp: Unpacker) returns (count: nat)
    requires unp.Valid()
    modifies sock, unp`buf, unp`used, unp.buf
    ensures unp.Valid() && count <= RPC_BUFFER_SIZE
    ensures Fill(count, sock.polls) == Filled(old(sock.polls), |old(sock.incoming)|, 0)
    ensures count <= |old(sock.incoming)| && sock.incoming == old(sock.incoming)[count..]
    ensures unp.Pending() == old(unp.Pending()) + old(sock.incoming)[..count]
    ensures unp.buf == old(unp.buf) || fresh(unp.buf)
  {
    ghost var head, all := unp.buf[..unp.used], sock.incoming;
    count := ReadLoop(sock, unp);
    if RPC_BUFFER_SIZE < count {
      assert false;
    }
    unp.Consumed(count);
    assert unp.buf[unp.parsed..unp.used] == (head + all[..count])[unp.parsed..];
  }
}
