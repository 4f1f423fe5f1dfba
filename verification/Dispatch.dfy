/** The top-level dispatch of market-data and account messages (protocol/json/parser.cpp):
    the fields of the message are visited in order until one of them decides. */
module Dispatch {
  import opened Wrappers

  /** A field's value; nested values only matter by being none of the other two. */
  datatype Value = Null | Text(text: string) | Other

  datatype Field = Field(key: string, value: Value)

  /** The events a handler knows. */
  datatype Kind = WELCOME | ERROR | PONG | ACK | TICKER | TRADE | OBU | BALANCE | POSITION_ALL | ORDER_ALL

  datatype Channel = UNDEFINED | UNKNOWN | Known(kind: Kind)

  /** The generated enum: nothing for a string it does not list, and for a value that is no
      string (assumed) not set if it is null and an exception otherwise. */
  function ChannelOf(value: Value): Option<Channel> {
    match value
    case Null => Some(UNDEFINED)
    case Other => None
    case Text(t) => Some(
      if t == "ticker.FUTURES" then Known(TICKER)
      else if t == "trade.FUTURES" then Known(TRADE)
      else if t == "obu.FUTURES" then Known(OBU)
      else if t == "balance.UNIFIED" then Known(BALANCE)
      else if t == "positionAll.UNIFIED" then Known(POSITION_ALL)
      else if t == "orderAll.UNIFIED" then Known(ORDER_ALL)
      else UNKNOWN)
  }

  /** What one field does: nothing, stop the visit, raise an event and stop, or end it all. */
  datatype Verdict = CONTINUE | STOP | Raise(kind: Kind) | ABORT | THROW

  function LookText(value: Value, expected: string, kind: Kind): Verdict {
    match value
    case Text(t) => if t == expected then Raise(kind) else CONTINUE
    case _ => THROW
  }

  function Look(f: Field): Verdict {
    if f.key == "message" then LookText(f.value, "welcome", WELCOME)
    else if f.key == "type" then LookText(f.value, "pong", PONG)
    else if f.key == "result" then Raise(ACK)
    else if f.key == "T" then
      match ChannelOf(f.value)
      case None => THROW
      case Some(UNDEFINED) => ABORT
      case Some(UNKNOWN) => STOP
      case Some(Known(kind)) => Raise(kind)
    else CONTINUE
  }

  predicate Decisive(f: Field) { Look(f) != CONTINUE }

  /** The verdict of the first decisive field. */
  function Decide(fields: seq<Field>): Verdict {
    if fields == [] then CONTINUE
    else if Decisive(fields[0]) then Look(fields[0])
    else Decide(fields[1..])
  }

  /** How a call ends: it returns, the process is stopped, or an exception leaves it. */
  datatype Outcome = Returned(result: bool) | FATAL | THROWN

  class Handler {
    var events: seq<Kind>

    constructor ()
      ensures events == []
    {
      events := [];
    }

    method On(kind: Kind)
      modifies this
      ensures events == old(events) + [kind]
    {
      events := events + [kind];
    }
  }

  /** The visit, with the callback that captures `result`. At most one event is raised, the
      call returns true if and only if one was, and without one it returns only if unknown
      events are allowed. */
  method DispatchMessage(handler: Handler, fields: seq<Field>, allowUnknown: bool) returns (outcome: Outcome)
    modifies handler
    ensures var v := Decide(fields);
      && handler.events == old(handler.events) + (if v.Raise? then [v.kind] else [])
      && (outcome == Returned(true) <==> v.Raise?)
      && (outcome == Returned(false) <==> (v == STOP || v == CONTINUE) && allowUnknown)
      && (outcome == THROWN <==> v == THROW)
      && (outcome == FATAL <==> v == ABORT || ((v == STOP || v == CONTINUE) && !allowUnknown))
  {
    var result := false;
    var i := 0;
    while i < |fields|
      invariant 0 <= i <= |fields| && !result
      invariant Decide(fields) == Decide(fields[i..])
      invariant handler.events == old(handler.events)
    {
      assert fields[i..][0] == fields[i] && fields[i..][1..] == fields[i + 1..];
      match Look(fields[i]) {
        case CONTINUE =>
        case STOP => break;
        case Raise(kind) =>
          handler.On(kind);
          result := true;
          break;
        case ABORT => return FATAL;
        case THROW => return THROWN;
      }
      i := i + 1;
    }
    return if result || allowUnknown then Returned(result) else FATAL;
  }

  // ---- the first decisive field decides

  lemma {:induction false} DecideFirst(fields: seq<Field>, i: nat)
    requires i < |fields| && Decisive(fields[i]) && forall j | 0 <= j < i :: !Decisive(fields[j])
    ensures Decide(fields) == Look(fields[i])
  {
    if i > 0 {
      DecideFirst(fields[1..], i - 1);
    }
  }

  lemma {:induction false} DecideNone(fields: seq<Field>)
    ensures Decide(fields) == CONTINUE <==> forall f | f in fields :: !Decisive(f)
  {
    if fields != [] {
      DecideNone(fields[1..]);
      assert forall f | f in fields :: f == fields[0] || f in fields[1..];
    }
  }

  lemma {:induction false} DecideSome(fields: seq<Field>)
    requires Decide(fields) != CONTINUE
    ensures exists f | f in fields :: Decisive(f) && Decide(fields) == Look(f)
  {
    if !Decisive(fields[0]) {
      DecideSome(fields[1..]);
      var f :| f in fields[1..] && Decisive(f) && Decide(fields[1..]) == Look(f);
      assert f in fields;
    }
  }

  // ---- the order of the fields

  ghost predicate Agree(fields: seq<Field>) {
    forall f, g | f in fields && g in fields && Decisive(f) && Decisive(g) :: Look(f) == Look(g)
  }

  lemma AgreeDecides(fields: seq<Field>, other: seq<Field>)
    requires Agree(fields) && multiset(fields) == multiset(other)
    ensures Decide(other) == Decide(fields)
  {
    assert forall f :: f in fields <==> f in other by { Members(fields, other); }
    DecideNone(fields);
    DecideNone(other);
    if Decide(fields) != CONTINUE {
      DecideSome(fields);
      DecideSome(other);
    }
  }

  lemma Members(fields: seq<Field>, other: seq<Field>)
    requires multiset(fields) == multiset(other)
    ensures forall f :: f in fields <==> f in other
  {
    forall f ensures f in fields <==> f in other {
      assert f in fields <==> f in multiset(fields);
      assert f in other <==> f in multiset(other);
    }
  }

  /** A field moved to the front. */
  lemma Front(fields: seq<Field>, i: nat) returns (other: seq<Field>)
    requires i < |fields|
    ensures multiset(other) == multiset(fields) && other != [] && other[0] == fields[i]
  {
    other := [fields[i]] + fields[..i] + fields[i + 1..];
    assert fields == fields[..i] + [fields[i]] + fields[i + 1..];
  }

  ghost predicate OrderIrrelevant(fields: seq<Field>) {
    forall other | multiset(other) == multiset(fields) :: Decide(other) == Decide(fields)
  }

  lemma IrrelevantAgrees(fields: seq<Field>, f: Field)
    requires OrderIrrelevant(fields) && f in fields && Decisive(f)
    ensures Look(f) == Decide(fields)
  {
    var i :| 0 <= i < |fields| && fields[i] == f;
    var other := Front(fields, i);
    assert Decide(other) == Look(f);
  }

  /** What is decided is the same under every permutation of the fields if and only if all
      decisive fields say the same. */
  lemma PermutationExact(fields: seq<Field>)
    ensures OrderIrrelevant(fields) <==> Agree(fields)
  {
    if Agree(fields) {
      forall other | multiset(other) == multiset(fields) ensures Decide(other) == Decide(fields) {
        AgreeDecides(fields, other);
      }
    }
    if OrderIrrelevant(fields) {
      forall f | f in fields && Decisive(f) ensures Look(f) == Decide(fields) {
        IrrelevantAgrees(fields, f);
      }
    }
  }

  /** In particular with at most one decisive field. */
  lemma OneDecisive(fields: seq<Field>, other: seq<Field>)
    requires multiset(fields) == multiset(other)
    requires forall i, j | 0 <= i < j < |fields| :: !(Decisive(fields[i]) && Decisive(fields[j]))
    ensures Decide(other) == Decide(fields)
  {
    AgreeDecides(fields, other);
  }

  // ---- no error is ever raised

  /** The handlers' error event is not produced by any message, so what a handler does there
      (the drop copy asks for a new token) is never reached through this dispatch. */
  lemma NeverError(fields: seq<Field>)
    ensures Decide(fields) != Raise(ERROR)
  {
  }

  /** Every other event is: there is a message that raises it, whatever follows. */
  lemma EveryOther(kind: Kind, rest: seq<Field>) returns (f: Field)
    requires kind != ERROR
    ensures Decide([f] + rest) == Raise(kind)
  {
    match kind {
      case WELCOME => f := Field("message", Text("welcome"));
      case PONG => f := Field("type", Text("pong"));
      case ACK => f := Field("result", Null);
      case TICKER => f := Field("T", Text("ticker.FUTURES"));
      case TRADE => f := Field("T", Text("trade.FUTURES"));
      case OBU => f := Field("T", Text("obu.FUTURES"));
      case BALANCE => f := Field("T", Text("balance.UNIFIED"));
      case POSITION_ALL => f := Field("T", Text("positionAll.UNIFIED"));
      case ORDER_ALL => f := Field("T", Text("orderAll.UNIFIED"));
    }
    KnownTexts();
  }

  lemma KnownTexts()
    ensures Look(Field("message", Text("welcome"))) == Raise(WELCOME) && Look(Field("type", Text("pong"))) == Raise(PONG)
    ensures Look(Field("result", Null)) == Raise(ACK)
    ensures Look(Field("T", Text("ticker.FUTURES"))) == Raise(TICKER) && Look(Field("T", Text("trade.FUTURES"))) == Raise(TRADE)
    ensures Look(Field("T", Text("obu.FUTURES"))) == Raise(OBU) && Look(Field("T", Text("balance.UNIFIED"))) == Raise(BALANCE)
    ensures Look(Field("T", Text("positionAll.UNIFIED"))) == Raise(POSITION_ALL)
    ensures Look(Field("T", Text("orderAll.UNIFIED"))) == Raise(ORDER_ALL)
  {
  }

  // ---- what is not raised

  const CHANNELS: set<string> :=
    {"ticker.FUTURES", "trade.FUTURES", "obu.FUTURES", "balance.UNIFIED", "positionAll.UNIFIED", "orderAll.UNIFIED"}

  /** A channel: a text that is none of the six stops the visit without an event, one that is
      not set is fatal, and any other value throws, whatever follows. */
  lemma ChannelExact(value: Value, rest: seq<Field>)
    ensures var v := Decide([Field("T", value)] + rest);
      match value
      case Text(t) => if t in CHANNELS then v.Raise? else v == STOP
      case Null => v == ABORT
      case Other => v == THROW
  {
    assert ([Field("T", value)] + rest)[0] == Field("T", value);
  }

  /** A message or type: the one text raises its event, another text is passed over, and a
      value that is no text throws. A result raises its event whatever it is, and every other
      field is passed over. */
  lemma FieldExact(f: Field, rest: seq<Field>)
    requires f.key != "T"
    ensures var v := Decide([f] + rest);
      if f.key == "message" || f.key == "type" then
        match f.value
        case Text(t) =>
          if f.key == "message" && t == "welcome" then v == Raise(WELCOME)
          else if f.key == "type" && t == "pong" then v == Raise(PONG)
          else v == Decide(rest)
        case _ => v == THROW
      else if f.key == "result" then v == Raise(ACK)
      else v == Decide(rest)
  {
    assert ([f] + rest)[0] == f && ([f] + rest)[1..] == rest;
  }
}
