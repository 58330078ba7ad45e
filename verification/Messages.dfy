/** The objects of the wire and the structs of SerfMsgStructs.h that decide routing.

    Every struct there is packed as a map from field name to value and is read back by
    looking each field name up: extra keys are ignored, a missing key keeps the default,
    and a value of the wrong type makes the conversion throw (`None` here). */
module Messages {
  import opened Options

  const U64 := 0x1_0000_0000_0000_0000

  datatype Object =
    | Nil
    | Bool(b: bool)
    | Int(i: int)
    | Str(s: string)
    | Bin(data: seq<char>)
    | Arr(items: seq<Object>)
    | Map(fields: map<string, Object>)

  datatype ResponseHeader = ResponseHeader(Seq: nat, Error: string)

  /** What a client call returns. */
  datatype SerfResponse = SUCCESS | FAILURE | TIMEOUT

  // ---------- reading one field ----------

  /** `as<std::string>()` and `as<std::vector<char>>()`, which take a string and a binary alike. */
  function AsChars(o: Object): Option<seq<char>> {
    match o case Str(s) => Some(s) case Bin(d) => Some(d) case _ => None
  }

  function StrField(m: map<string, Object>, key: string): Option<string> {
    if key !in m then Some("") else AsChars(m[key])
  }

  function U64Field(m: map<string, Object>, key: string): (r: Option<nat>)
    ensures r.Some? ==> r.value < U64
  {
    match IntField(m, key, 0, U64) case Some(i) => Some(i) case None => None
  }

  function BoolField(m: map<string, Object>, key: string): Option<bool> {
    if key !in m then Some(false) else match m[key] case Bool(b) => Some(b) case _ => None
  }

  function IntField(m: map<string, Object>, key: string, lo: int, hi: int): (r: Option<int>)
    requires lo <= 0 < hi
    ensures r.Some? ==> lo <= r.value < hi
  {
    if key !in m then Some(0)
    else match m[key] case Int(i) => if lo <= i < hi then Some(i) else None case _ => None
  }

  // ---------- the header ----------

  function PackHeader(h: ResponseHeader): Object {
    Map(map["Seq" := Int(h.Seq), "Error" := Str(h.Error)])
  }

  /** `obj.as<ResponseHeader>()`; `None` is the exception. */
  function AsHeader(o: Object): (r: Option<ResponseHeader>)
    ensures r.Some? ==> r.value.Seq < U64
  {
    if !o.Map? then None else
    match (U64Field(o.fields, "Seq"), StrField(o.fields, "Error"))
    case (Some(q), Some(e)) => Some(ResponseHeader(q, e))
    case _ => None
  }

  /** An object that the decode loop cannot route when it takes it for a header:
      the conversion throws or yields the default sequence number 0. */
  predicate Unroutable(o: Object) {
    AsHeader(o).Some? ==> AsHeader(o).value.Seq == 0
  }

  /** A header as the agent writes it, for every number of 64 bits, is read back. */
  lemma HeaderRoundTrip(h: ResponseHeader)
    requires h.Seq < 0x1_0000_0000_0000_0000
    ensures AsHeader(PackHeader(h)) == Some(h)
    ensures AsHeader(Map(map["Seq" := Int(h.Seq), "Error" := Str(h.Error)])) == Some(h)
  {
    assert "Seq" != "Error" by { assert |"Seq"| != |"Error"|; }
  }

  /** Exactly which objects are headers, and of what: a number or an error that is missing keeps its default. */
  lemma HeaderReads(o: Object)
    ensures AsHeader(o).Some? <==>
            && o.Map?
            && ("Seq" in o.fields ==> o.fields["Seq"].Int? && 0 <= o.fields["Seq"].i < 0x1_0000_0000_0000_0000)
            && ("Error" in o.fields ==> o.fields["Error"].Str? || o.fields["Error"].Bin?)
    ensures AsHeader(o).Some? ==>
              AsHeader(o).value == ResponseHeader(if "Seq" in o.fields then o.fields["Seq"].i else 0,
                                                  if "Error" !in o.fields then ""
                                                  else if o.fields["Error"].Str? then o.fields["Error"].s
                                                  else o.fields["Error"].data)
  {
    if o.Map? {
      assert StrField(o.fields, "Error").Some? <==>
             ("Error" in o.fields ==> o.fields["Error"].Str? || o.fields["Error"].Bin?);
    }
  }

  /** Exactly which objects are routed: a map whose `Seq` is a positive 64-bit number and
      whose `Error`, if present, is a string or a binary. */
  lemma RoutedExactlyWhen(o: Object)
    ensures !Unroutable(o) <==>
            && o.Map?
            && "Seq" in o.fields && o.fields["Seq"].Int? && 0 < o.fields["Seq"].i < 0x1_0000_0000_0000_0000
            && ("Error" in o.fields ==> o.fields["Error"].Str? || o.fields["Error"].Bin?)
  {
    HeaderReads(o);
  }

  // ---------- the bodies ----------

  /** `obj.as<JoinResponse>()`: the number of nodes, a 32-bit int. */
  function AsJoin(o: Object): (r: Option<int>)
    ensures r.Some? ==> -0x8000_0000 <= r.value < 0x8000_0000
  {
    if !o.Map? then None else IntField(o.fields, "Num", -0x8000_0000, 0x8000_0000)
  }

  /** The count the agent packs is read back, unless it does not fit. */
  lemma JoinRoundTrip(n: int)
    ensures AsJoin(Map(map["Num" := Int(n)])) == if -0x8000_0000 <= n < 0x8000_0000 then Some(n) else None
  {
  }

  /** Exactly which objects are a count, and of how many. */
  lemma JoinReads(o: Object)
    ensures AsJoin(o).Some? <==>
            o.Map? && ("Num" in o.fields ==> o.fields["Num"].Int? && -0x8000_0000 <= o.fields["Num"].i < 0x8000_0000)
    ensures AsJoin(o).Some? ==> AsJoin(o).value == if "Num" in o.fields then o.fields["Num"].i else 0
  {
  }

  /** Every struct the agent sends after a header. */
  datatype Shape = Join | Key | KeyList | Members | Coord | Stats | LogLine
                 | UserEvent | MemberEvent | QueryEvent | Ack | Response | NodeBase

  /** The field-key list of each struct. */
  function Keys(shape: Shape): set<string> {
    match shape
    case Join => {"Num"}
    case Key => {"Messages", "NumErr", "NumNodes", "NumResp"}
    case KeyList => {"Messages", "Keys", "NumErr", "NumNodes", "NumResp"}
    case Members => {"Members"}
    case Coord => {"Coord", "Ok"}
    case Stats => {"agent", "runtime", "serf"}
    case LogLine => {"Log"}
    case UserEvent => {"Event", "LTime", "Name", "Payload", "Coalesce"}
    case MemberEvent => {"Event", "Members"}
    case QueryEvent => {"Event", "ID", "Name", "Payload", "LTime"}
    case Ack => {"Type", "From"}
    case Response => {"Type", "From", "Payload"}
    case NodeBase => {"Type"}
  }

  /** No body carries a header's key, so an orphan body of any kind, whatever its values,
      reads as the default header. */
  lemma OrphanBodyIsDefaultHeader(shape: Shape, o: Object)
    requires o.Map? && o.fields.Keys <= Keys(shape)
    ensures AsHeader(o) == Some(ResponseHeader(0, ""))
    ensures Unroutable(o)
  {
    KeysAvoidHeader(shape);
  }

  lemma KeysAvoidHeader(shape: Shape)
    ensures "Seq" !in Keys(shape) && "Error" !in Keys(shape)
  {
    forall k | k in Keys(shape) ensures k != "Seq" && k != "Error" {
      assert k[0] != 'S' && (k[0] == 'E' ==> k[1] == 'v');
      assert "Seq"[0] == 'S' && "Error"[0] == 'E' && "Error"[1] == 'r';
    }
  }

  // ---------- records and the callbacks they cause ----------

  datatype Callback =
    | OnLog(line: string)
    | OnUserEvent(ltime: nat, name: string, payload: seq<char>, coalesce: bool)
    | OnQueryEvent(id: nat, name: string, payload: seq<char>, ltime: nat)
    | OnMemberEvent(event: string, members: seq<Object>)
    | OnAck(from: string)
    | OnResponse(from: string, payload: seq<char>)
    | OnComplete

  datatype ListenerKind = LOG | EVENT | QUERY

  const MEMBER_EVENT_NAMES: set<string> :=
    {"member-join", "member-leave", "member-update", "member-failed", "member-reap"}

  /** The object converts to a `Member`. */
  predicate IsMember(o: Object) {
    && o.Map?
    && StrField(o.fields, "Name").Some? && StrField(o.fields, "Addr").Some? && StrField(o.fields, "Status").Some?
    && IntField(o.fields, "Port", -0x8000_0000, 0x8000_0000).Some?
    && ("Tags" in o.fields ==> IsStringMap(o.fields["Tags"]))
    && (forall key :: key in MEMBER_BYTES ==> IntField(o.fields, key, 0, 256).Some?)
  }

  const MEMBER_BYTES: set<string> :=
    {"ProtocolMin", "ProtocolMax", "ProtocolCur", "DelegateMin", "DelegateMax", "DelegateCur"}

  predicate IsStringMap(o: Object) {
    o.Map? && forall key :: key in o.fields ==> AsChars(o.fields[key]).Some?
  }

  predicate AreMembers(os: seq<Object>) {
    forall i :: 0 <= i < |os| ==> IsMember(os[i])
  }

  /** Exactly which objects are members: every field that is there has its type, the port 32 bits, and each of the
      six versions one byte. */
  lemma MemberReads(o: Object)
    ensures IsMember(o) <==>
            && o.Map?
            && (forall key :: key in {"Name", "Addr", "Status"} && key in o.fields ==>
                  o.fields[key].Str? || o.fields[key].Bin?)
            && ("Port" in o.fields ==> o.fields["Port"].Int? && -0x8000_0000 <= o.fields["Port"].i < 0x8000_0000)
            && ("Tags" in o.fields ==>
                  && o.fields["Tags"].Map?
                  && forall tag :: tag in o.fields["Tags"].fields ==>
                       o.fields["Tags"].fields[tag].Str? || o.fields["Tags"].fields[tag].Bin?)
            && (forall key :: key in {"ProtocolMin", "ProtocolMax", "ProtocolCur",
                                      "DelegateMin", "DelegateMax", "DelegateCur"} && key in o.fields ==>
                  o.fields[key].Int? && 0 <= o.fields[key].i < 256)
  {
    if o.Map? {
      CharFields(o.fields);
      ByteFields(o.fields);
      if "Tags" in o.fields { TagsRead(o.fields["Tags"]); }
    }
  }

  lemma CharFields(m: map<string, Object>)
    ensures (forall key :: key in {"Name", "Addr", "Status"} && key in m ==> m[key].Str? || m[key].Bin?) <==>
            StrField(m, "Name").Some? && StrField(m, "Addr").Some? && StrField(m, "Status").Some?
  {
    forall key | key in {"Name", "Addr", "Status"}
      ensures StrField(m, key).Some? <==> (key in m ==> m[key].Str? || m[key].Bin?)
    {
    }
  }

  lemma ByteFields(m: map<string, Object>)
    ensures (forall key :: key in {"ProtocolMin", "ProtocolMax", "ProtocolCur",
                                   "DelegateMin", "DelegateMax", "DelegateCur"} && key in m ==>
               m[key].Int? && 0 <= m[key].i < 256) <==>
            (forall key :: key in MEMBER_BYTES ==> IntField(m, key, 0, 256).Some?)
  {
    forall key | key in MEMBER_BYTES
      ensures IntField(m, key, 0, 256).Some? <==> (key in m ==> m[key].Int? && 0 <= m[key].i < 256)
    {
    }
  }

  lemma TagsRead(o: Object)
    ensures IsStringMap(o) <==>
            o.Map? && forall tag :: tag in o.fields ==> o.fields[tag].Str? || o.fields[tag].Bin?
  {
  }

  function LogCallback(o: Object): Option<Callback> {
    if !o.Map? then None else
    match StrField(o.fields, "Log") case Some(s) => Some(OnLog(s)) case None => None
  }

  function EventCallback(o: Object): Option<Callback> {
    if !o.Map? then None else
    match StrField(o.fields, "Event")
    case None => None
    case Some(e) =>
      if e == "user" then
        match (U64Field(o.fields, "LTime"), StrField(o.fields, "Name"),
               StrField(o.fields, "Payload"), BoolField(o.fields, "Coalesce"))
        case (Some(t), Some(n), Some(p), Some(c)) => Some(OnUserEvent(t, n, p, c))
        case _ => None
      else if e == "query" then
        match (U64Field(o.fields, "ID"), StrField(o.fields, "Name"),
               StrField(o.fields, "Payload"), U64Field(o.fields, "LTime"))
        case (Some(i), Some(n), Some(p), Some(t)) => Some(OnQueryEvent(i, n, p, t))
        case _ => None
      else if e in MEMBER_EVENT_NAMES then
        if "Members" !in o.fields then Some(OnMemberEvent(e, []))
        else match o.fields["Members"]
             case Arr(ms) => if AreMembers(ms) then Some(OnMemberEvent(e, ms)) else None
             case _ => None
      else None
  }

  function QueryCallback(o: Object): Option<Callback> {
    if !o.Map? then None else
    match StrField(o.fields, "Type")
    case None => None
    case Some(t) =>
      if t == "ack" then
        match StrField(o.fields, "From") case Some(f) => Some(OnAck(f)) case None => None
      else if t == "response" then
        match (StrField(o.fields, "From"), StrField(o.fields, "Payload"))
        case (Some(f), Some(p)) => Some(OnResponse(f, p))
        case _ => None
      else if t == "done" then Some(OnComplete)
      else None
  }

  /** The callback one record causes on a listener of the given kind; `body` is `None` when the
      decoder had no object to give, and then only a log listener is called, with a default record. */
  function CallbackFor(kind: ListenerKind, body: Option<Object>): (r: Option<Callback>)
    ensures r == Some(OnComplete) <==>
              kind == QUERY && body.Some? && body.value.Map? && StrField(body.value.fields, "Type") == Some("done")
    ensures kind == QUERY && r.Some? ==> r.value.OnAck? || r.value.OnResponse? || r.value.OnComplete?
  {
    match (kind, body)
    case (LOG, None) => Some(OnLog(""))
    case (LOG, Some(o)) => LogCallback(o)
    case (EVENT, Some(o)) => EventCallback(o)
    case (QUERY, Some(o)) => QueryCallback(o)
    case (_, None) => None
  }

  // ---------- packing the records a listener receives ----------

  function PackRecord(c: Callback): Object {
    match c
    case OnLog(s) => Map(map["Log" := Str(s)])
    case OnUserEvent(t, n, p, co) =>
      Map(map["Event" := Str("user"), "LTime" := Int(t), "Name" := Str(n), "Payload" := Bin(p), "Coalesce" := Bool(co)])
    case OnQueryEvent(i, n, p, t) =>
      Map(map["Event" := Str("query"), "ID" := Int(i), "Name" := Str(n), "Payload" := Bin(p), "LTime" := Int(t)])
    case OnMemberEvent(e, ms) => Map(map["Event" := Str(e), "Members" := Arr(ms)])
    case OnAck(f) => Map(map["Type" := Str("ack"), "From" := Str(f)])
    case OnResponse(f, p) => Map(map["Type" := Str("response"), "From" := Str(f), "Payload" := Bin(p)])
    case OnComplete => Map(map["Type" := Str("done")])
  }

  function KindOf(c: Callback): ListenerKind {
    match c
    case OnLog(_) => LOG
    case OnAck(_) => QUERY
    case OnResponse(_, _) => QUERY
    case OnComplete => QUERY
    case _ => EVENT
  }

  function ShapeOf(c: Callback): Shape {
    match c
    case OnLog(_) => LogLine
    case OnUserEvent(_, _, _, _) => UserEvent
    case OnQueryEvent(_, _, _, _) => QueryEvent
    case OnMemberEvent(_, _) => MemberEvent
    case OnAck(_) => Ack
    case OnResponse(_, _) => Response
    case OnComplete => NodeBase
  }

  /** A record packed by the agent reaches the listener with the same contents, and is
      unroutable when it is read as a header instead. */
  lemma RecordRoundTrip(c: Callback)
    requires c.OnUserEvent? ==> c.ltime < 0x1_0000_0000_0000_0000
    requires c.OnQueryEvent? ==> c.id < 0x1_0000_0000_0000_0000 && c.ltime < 0x1_0000_0000_0000_0000
    requires c.OnMemberEvent? ==>
               && c.event in {"member-join", "member-leave", "member-update", "member-failed", "member-reap"}
               && forall i :: 0 <= i < |c.members| ==> IsMember(c.members[i])
    ensures CallbackFor(KindOf(c), Some(PackRecord(c))) == Some(c)
    ensures Unroutable(PackRecord(c))
  {
    match c {
      case OnUserEvent(t, n, p, co) => UserEventIsHeard(t, n, p, co);
      case OnQueryEvent(i, n, p, t) => QueryEventIsHeard(i, n, p, t);
      case OnMemberEvent(e, ms) => MemberEventIsHeard(e, ms);
      case OnLog(s) => LogIsHeard(s);
      case OnAck(f) => AnswersAreHeard(f, []);
      case OnResponse(f, p) => AnswersAreHeard(f, p);
      case OnComplete => AnswersAreHeard("", []);
    }
    PackedFields(c);
    OrphanBodyIsDefaultHeader(ShapeOf(c), PackRecord(c));
  }

  /** What the agent writes about a log line reaches a log listener, which is called even if nothing came. */
  lemma LogIsHeard(line: string)
    ensures CallbackFor(LOG, Some(Map(map["Log" := Str(line)]))) == Some(OnLog(line))
    ensures CallbackFor(LOG, None) == Some(OnLog("")) && CallbackFor(EVENT, None) == CallbackFor(QUERY, None) == None
  {
    assert Map(map["Log" := Str(line)]).fields["Log"] == Str(line);
  }

  /** Exactly which records throw in a log channel. */
  lemma LogReads(o: Object)
    ensures CallbackFor(LOG, Some(o)).Some? <==>
            o.Map? && ("Log" in o.fields ==> o.fields["Log"].Str? || o.fields["Log"].Bin?)
  {
    if o.Map? { FieldReads(o.fields, "Log"); }
  }

  /** What each type of field takes, and the default it keeps when it is missing. */
  lemma FieldReads(m: map<string, Object>, key: string)
    ensures StrField(m, key) == if key !in m then Some("")
                                else if m[key].Str? then Some(m[key].s)
                                else if m[key].Bin? then Some(m[key].data) else None
    ensures U64Field(m, key) == if key !in m then Some(0)
                                else if m[key].Int? && 0 <= m[key].i < 0x1_0000_0000_0000_0000 then Some(m[key].i)
                                else None
    ensures BoolField(m, key) == if key !in m then Some(false)
                                 else if m[key].Bool? then Some(m[key].b) else None
  {
  }

  /** A record that has no more than its type is one with all defaults. */
  lemma BareRecords(e: string)
    requires e in {"member-join", "member-leave", "member-update", "member-failed", "member-reap"}
    ensures CallbackFor(LOG, Some(Map(map[]))) == Some(OnLog(""))
    ensures CallbackFor(EVENT, Some(Map(map["Event" := Str("user")]))) == Some(OnUserEvent(0, "", [], false))
    ensures CallbackFor(EVENT, Some(Map(map["Event" := Str("query")]))) == Some(OnQueryEvent(0, "", [], 0))
    ensures CallbackFor(EVENT, Some(Map(map["Event" := Str(e)]))) == Some(OnMemberEvent(e, []))
    ensures CallbackFor(QUERY, Some(Map(map["Type" := Str("ack")]))) == Some(OnAck(""))
    ensures CallbackFor(QUERY, Some(Map(map["Type" := Str("response")]))) == Some(OnResponse("", []))
  {
    FieldNamesDiffer();
    var u, q, m := map["Event" := Str("user")], map["Event" := Str("query")], map["Event" := Str(e)];
    var a, r := map["Type" := Str("ack")], map["Type" := Str("response")];
    assert u["Event"] == Str("user") && q["Event"] == Str("query") && m["Event"] == Str(e);
    assert a["Type"] == Str("ack") && r["Type"] == Str("response");
  }

  /** A record of no other type is told to a query's listener. */
  lemma OnlyNamedAnswers(o: Object)
    ensures CallbackFor(QUERY, Some(o)).Some? ==>
              && o.Map? && "Type" in o.fields && (o.fields["Type"].Str? || o.fields["Type"].Bin?)
              && (if o.fields["Type"].Str? then o.fields["Type"].s else o.fields["Type"].data) in
                   {"ack", "response", "done"}
  {
  }

  /** About the members of the cluster, an event listener, under each of five names. */
  lemma MemberEventIsHeard(e: string, ms: seq<Object>)
    requires e in {"member-join", "member-leave", "member-update", "member-failed", "member-reap"}
    requires forall i :: 0 <= i < |ms| ==> IsMember(ms[i])
    ensures CallbackFor(EVENT, Some(Map(map["Event" := Str(e), "Members" := Arr(ms)]))) == Some(OnMemberEvent(e, ms))
  {
    FieldNamesDiffer();
    var m := map["Event" := Str(e), "Members" := Arr(ms)];
    assert m["Event"] == Str(e) && m["Members"] == Arr(ms);
  }

  /** About a query, the listener that sent it: acknowledgements, responses and its end. */
  lemma AnswersAreHeard(from: string, payload: seq<char>)
    ensures CallbackFor(QUERY, Some(Map(map["Type" := Str("ack"), "From" := Str(from)]))) == Some(OnAck(from))
    ensures CallbackFor(QUERY, Some(Map(map["Type" := Str("response"), "From" := Str(from),
                                            "Payload" := Bin(payload)]))) == Some(OnResponse(from, payload))
    ensures CallbackFor(QUERY, Some(Map(map["Type" := Str("done")]))) == Some(OnComplete)
  {
    FieldNamesDiffer();
    var a := map["Type" := Str("ack"), "From" := Str(from)];
    var r := map["Type" := Str("response"), "From" := Str(from), "Payload" := Bin(payload)];
    var d := map["Type" := Str("done")];
    assert a["Type"] == Str("ack") && a["From"] == Str(from);
    assert r["Type"] == Str("response") && r["From"] == Str(from) && r["Payload"] == Bin(payload);
    assert d["Type"] == Str("done");
  }

  /** A record that names none of these seven kinds is heard by no event listener. */
  lemma OnlyNamedEvents(o: Object)
    ensures CallbackFor(EVENT, Some(o)).Some? ==>
              && o.Map? && "Event" in o.fields && (o.fields["Event"].Str? || o.fields["Event"].Bin?)
              && (if o.fields["Event"].Str? then o.fields["Event"].s else o.fields["Event"].data) in
                   {"user", "query", "member-join", "member-leave", "member-update", "member-failed", "member-reap"}
  {
  }

  lemma PackedFields(c: Callback)
    ensures PackRecord(c).Map? && PackRecord(c).fields.Keys <= Keys(ShapeOf(c))
  {
  }

  /** About an event that a user fired. */
  lemma UserEventIsHeard(t: nat, n: string, p: seq<char>, co: bool)
    requires t < 0x1_0000_0000_0000_0000
    ensures CallbackFor(EVENT, Some(Map(map["Event" := Str("user"), "LTime" := Int(t), "Name" := Str(n),
                                            "Payload" := Bin(p), "Coalesce" := Bool(co)]))) ==
              Some(OnUserEvent(t, n, p, co))
  {
    FieldNamesDiffer();
    var m := map["Event" := Str("user"), "LTime" := Int(t), "Name" := Str(n), "Payload" := Bin(p),
                 "Coalesce" := Bool(co)];
    assert m["Event"] == Str("user") && m["LTime"] == Int(t) && m["Name"] == Str(n);
    assert m["Payload"] == Bin(p) && m["Coalesce"] == Bool(co);
  }

  /** And about a query that another client sent. */
  lemma QueryEventIsHeard(i: nat, n: string, p: seq<char>, t: nat)
    requires i < 0x1_0000_0000_0000_0000 && t < 0x1_0000_0000_0000_0000
    ensures CallbackFor(EVENT, Some(Map(map["Event" := Str("query"), "ID" := Int(i), "Name" := Str(n),
                                            "Payload" := Bin(p), "LTime" := Int(t)]))) ==
              Some(OnQueryEvent(i, n, p, t))
  {
    FieldNamesDiffer();
    var m := map["Event" := Str("query"), "ID" := Int(i), "Name" := Str(n), "Payload" := Bin(p), "LTime" := Int(t)];
    assert m["Event"] == Str("query") && m["ID"] == Int(i) && m["Name"] == Str(n);
    assert m["Payload"] == Bin(p) && m["LTime"] == Int(t);
  }

  lemma FieldNamesDiffer()
    ensures "Event" != "LTime" && "Event" != "Name" && "Event" != "Payload" && "Event" != "Coalesce"
    ensures "LTime" != "Name" && "LTime" != "Payload" && "LTime" != "Coalesce"
    ensures "Name" != "Payload" && "Name" != "Coalesce" && "Payload" != "Coalesce"
    ensures "ID" != "Event" && "ID" != "Name" && "ID" != "Payload" && "ID" != "LTime"
    ensures "Type" != "From" && "Type" != "Payload" && "From" != "Payload" && "Event" != "Members"
    ensures "user" != "query" && "ack" != "response" && "ack" != "done" && "response" != "done"
    ensures "user" !in MEMBER_EVENT_NAMES && "query" !in MEMBER_EVENT_NAMES
  {
    assert "Event"[0] != "LTime"[0] && "Payload"[0] != "Coalesce"[0] && "Type"[0] != "From"[0];
  }
}
