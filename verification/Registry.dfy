/** `m_channels` as the program keeps it, a map whose `operator[]` leaves null placeholders behind,
    and the map of live channels it stands for. */
module Registry {
  import opened Options

  /** `std::map<uint64_t, ChannelBase *>`; `None` is the null pointer. */
  type Raw<R> = map<nat, Option<R>>

  function Live<R>(raw: Raw<R>): map<nat, R> {
    map q | q in raw && raw[q].Some? :: raw[q].value
  }

  /** `m_channels[q]` read: inserts a null pointer when the key is absent. */
  function Touch<R>(raw: Raw<R>, q: nat): Raw<R> {
    if q in raw then raw else raw[q := None]
  }

  datatype Op<R> = Put(q: nat, chan: R) | Get(q: nat) | Erase(q: nat) | Remove(q: nat)

  /** One critical section on the real map, and the pointer it hands out. */
  function RawStep<R>(raw: Raw<R>, op: Op<R>): (Raw<R>, Option<R>) {
    match op
    case Put(q, r) => (raw[q := Some(r)], None)
    case Get(q) => var t := Touch(raw, q); (t, t[q])
    case Erase(q) => (raw - {q}, None)
    case Remove(q) => var t := Touch(raw, q); (t - {q}, t[q])
  }

  /** The same on a plain map of live channels. */
  function Step<R>(m: map<nat, R>, op: Op<R>): (map<nat, R>, Option<R>) {
    var found := if op.q in m then Some(m[op.q]) else None;
    match op
    case Put(q, r) => (m[q := r], None)
    case Get(q) => (m, found)
    case Erase(q) => (m - {q}, None)
    case Remove(q) => (m - {q}, found)
  }

  /** One operation on the real map does to the live channels what it does to a plain map, and hands out the channel
      that was there. */
  lemma StepRefines<R>(raw: Raw<R>, op: Op<R>)
    ensures var live, (next, out) := Live(raw), RawStep(raw, op);
            var found := if op.q in raw && raw[op.q].Some? then raw[op.q] else None;
            match op
            case Put(q, r) => Live(next) == live[q := r] && out == None
            case Get(q) => Live(next) == live && out == found
            case Erase(q) => Live(next) == live - {q} && q !in next && out == None
            case Remove(q) => Live(next) == live - {q} && q !in next && out == found
    ensures Live(RawStep(raw, op).0) == Step(Live(raw), op).0
    ensures RawStep(raw, op).1 == Step(Live(raw), op).1
  {
  }

  function RawRun<R>(raw: Raw<R>, ops: seq<Op<R>>): (Raw<R>, seq<Option<R>>)
    decreases |ops|
  {
    if ops == [] then (raw, [])
    else
      var (r, out) := RawStep(raw, ops[0]);
      var (last, outs) := RawRun(r, ops[1..]);
      (last, [out] + outs)
  }

  function Run<R>(m: map<nat, R>, ops: seq<Op<R>>): (map<nat, R>, seq<Option<R>>)
    decreases |ops|
  {
    if ops == [] then (m, [])
    else
      var (r, out) := Step(m, ops[0]);
      var (last, outs) := Run(r, ops[1..]);
      (last, [out] + outs)
  }

  /** Every sequence of operations hands out the same pointers from the real map as from the plain
      one, and leaves the same live channels. */
  lemma {:induction false} PlaceholdersAreInvisible<R>(raw: Raw<R>, ops: seq<Op<R>>)
    ensures Live(RawRun(raw, ops).0) == Run(Live(raw), ops).0
    ensures RawRun(raw, ops).1 == Run(Live(raw), ops).1
    decreases |ops|
  {
    if ops != [] {
      StepRefines(raw, ops[0]);
      PlaceholdersAreInvisible(RawStep(raw, ops[0]).0, ops[1..]);
    }
  }

  /** Looking up or removing an absent number changes no live channel. */
  lemma AbsentIsHarmless<R>(raw: Raw<R>, op: Op<R>)
    requires !op.Put? && op.q !in Live(raw)
    ensures Live(RawStep(raw, op).0) == Live(raw) && RawStep(raw, op).1 == None
  {
  }
}
