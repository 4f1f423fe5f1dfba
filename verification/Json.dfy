/** JSON texts (RFC 8259), restricted to objects, strings and booleans: a printer that
    escapes nothing, as format strings do, and an independent reader that knows white
    space and escapes. Printing and reading are inverse exactly on the values whose
    strings need no escape. */
module Json {
  import opened Wrappers

  datatype Value = Text(text: string) | Flag(flag: bool) | Object(members: seq<Member>)

  datatype Member = Member(key: string, value: Value)

  // ---- printing

  function Print(v: Value): string
    decreases v
  {
    match v
    case Text(t) => "\"" + t + "\""
    case Flag(b) => if b then "true" else "false"
    case Object(ms) => "{" + PrintMembers(ms) + "}"
  }

  function PrintMember(m: Member): string
    decreases m
  {
    "\"" + m.key + "\":" + Print(m.value)
  }

  function PrintMembers(ms: seq<Member>): string
    decreases ms
  {
    if ms == [] then ""
    else if |ms| == 1 then PrintMember(ms[0])
    else PrintMember(ms[0]) + "," + PrintMembers(ms[1..])
  }

  // ---- reading

  datatype Parsed<T> = Failure | Parsed(value: T, rest: string)

  /** Section 2: white space. */
  function Skip(s: string): (r: string)
    ensures |r| <= |s|
  {
    if s != [] && s[0] in [' ', '\t', '\n', '\r'] then Skip(s[1..]) else s
  }

  function HexDigit(c: char): Option<nat> {
    if '0' <= c <= '9' then Some(c as nat - '0' as nat)
    else if 'a' <= c <= 'f' then Some(c as nat - 'a' as nat + 10)
    else if 'A' <= c <= 'F' then Some(c as nat - 'A' as nat + 10)
    else None
  }

  function ReadHex(s: string, digits: nat, code: nat): (r: Parsed<nat>)
    ensures r.Parsed? ==> |r.rest| <= |s|
  {
    if digits == 0 then Parsed(code, s)
    else if s == [] || HexDigit(s[0]) == None then Failure
    else ReadHex(s[1..], digits - 1, code * 16 + HexDigit(s[0]).value)
  }

  /** Section 7: what follows a backslash. Surrogate pairs are not read. */
  function ReadEscape(s: string): (r: Parsed<char>)
    ensures r.Parsed? ==> |r.rest| < |s|
  {
    if s == [] then Failure
    else match s[0]
      case '\"' => Parsed('\"', s[1..])
      case '\\' => Parsed('\\', s[1..])
      case '/' => Parsed('/', s[1..])
      case 'b' => Parsed(8 as char, s[1..])
      case 'f' => Parsed(12 as char, s[1..])
      case 'n' => Parsed('\n', s[1..])
      case 'r' => Parsed('\r', s[1..])
      case 't' => Parsed('\t', s[1..])
      case 'u' =>
        var hex := ReadHex(s[1..], 4, 0);
        if hex.Failure? || 0xD800 <= hex.value < 0xE000 || hex.value >= 0x1_0000 then Failure
        else Parsed(hex.value as char, hex.rest)
      case _ => Failure
  }

  function Prepend(c: char, r: Parsed<string>): Parsed<string> {
    if r.Failure? then Failure else Parsed([c] + r.value, r.rest)
  }

  /** Section 7: a string, after its opening quotation mark. */
  function ReadString(s: string): (r: Parsed<string>)
    ensures r.Parsed? ==> |r.rest| < |s|
    decreases |s|
  {
    if s == [] || s[0] < ' ' then Failure
    else if s[0] == '\"' then Parsed("", s[1..])
    else if s[0] == '\\' then
      var e := ReadEscape(s[1..]);
      if e.Failure? then Failure else Prepend(e.value, ReadString(e.rest))
    else Prepend(s[0], ReadString(s[1..]))
  }

  function ReadValue(s: string): (r: Parsed<Value>)
    ensures r.Parsed? ==> |r.rest| < |s|
    decreases |s|, 0
  {
    var t := Skip(s);
    if t == [] then Failure
    else if t[0] == '\"' then
      var text := ReadString(t[1..]);
      if text.Failure? then Failure else Parsed(Text(text.value), text.rest)
    else if t[0] == '{' then
      var u := Skip(t[1..]);
      if u != [] && u[0] == '}' then Parsed(Object([]), u[1..])
      else
        var ms := ReadMembers(u);
        if ms.Failure? then Failure else Parsed(Object(ms.value), ms.rest)
    else if "true" <= t then Parsed(Flag(true), t[4..])
    else if "false" <= t then Parsed(Flag(false), t[5..])
    else Failure
  }

  /** A member: its name, a colon, its value. */
  function ReadMember(s: string): (r: Parsed<Member>)
    ensures r.Parsed? ==> |r.rest| < |s|
    decreases |s|, 1
  {
    var t := Skip(s);
    if t == [] || t[0] != '\"' then Failure
    else
      var key := ReadString(t[1..]);
      if key.Failure? then Failure
      else
        var u := Skip(key.rest);
        if u == [] || u[0] != ':' then Failure
        else
          var value := ReadValue(u[1..]);
          if value.Failure? then Failure else Parsed(Member(key.value, value.value), value.rest)
  }

  /** Section 4: the members up to the closing brace. */
  function ReadMembers(s: string): (r: Parsed<seq<Member>>)
    ensures r.Parsed? ==> |r.rest| < |s|
    decreases |s|, 2
  {
    var m := ReadMember(s);
    if m.Failure? then Failure
    else
      var t := Skip(m.rest);
      if t == [] then Failure
      else if t[0] == '}' then Parsed([m.value], t[1..])
      else if t[0] != ',' then Failure
      else
        var ms := ReadMembers(t[1..]);
        if ms.Failure? then Failure else Parsed([m.value] + ms.value, ms.rest)
  }

  /** A whole text holding one value. */
  function Read(s: string): Option<Value> {
    var r := ReadValue(s);
    if r.Parsed? && Skip(r.rest) == [] then Some(r.value) else None
  }

  // ---- the values whose strings need no escape

  predicate PlainText(t: string) {
    forall i | 0 <= i < |t| :: t[i] >= ' ' && t[i] != '\"' && t[i] != '\\'
  }

  predicate Plain(v: Value)
    decreases v
  {
    match v
    case Text(t) => PlainText(t)
    case Flag(_) => true
    case Object(ms) => PlainMembers(ms)
  }

  predicate PlainMembers(ms: seq<Member>)
    decreases ms
  {
    ms == [] || (PlainText(ms[0].key) && Plain(ms[0].value) && PlainMembers(ms[1..]))
  }

  // ---- reading undoes printing

  lemma {:induction false} ReadPlainText(t: string, rest: string)
    requires PlainText(t)
    ensures ReadString(t + "\"" + rest) == Parsed(t, rest)
  {
    var s := t + "\"" + rest;
    if t == [] {
      assert s[0] == '\"' && s[1..] == rest;
    } else {
      ReadPlainText(t[1..], rest);
      assert s[0] == t[0] && s[1..] == t[1..] + "\"" + rest;
      assert [t[0]] + t[1..] == t;
    }
  }

  lemma ReadFlag(b: bool, rest: string)
    ensures ReadValue(Print(Flag(b)) + rest) == Parsed(Flag(b), rest)
  {
  }

  lemma ReadText(t: string, rest: string)
    requires PlainText(t)
    ensures ReadValue("\"" + t + "\"" + rest) == Parsed(Text(t), rest)
  {
    var s := "\"" + t + "\"" + rest;
    assert s[0] == '\"' && s[1..] == t + "\"" + rest;
    ReadPlainText(t, rest);
  }

  lemma ReadNoMembers(rest: string)
    ensures ReadValue("{" + "" + "}" + rest) == Parsed(Object([]), rest)
  {
  }

  lemma ReadSomeMembers(t: string, ms: seq<Member>, rest: string)
    requires t != [] && t[0] == '\"' && ReadMembers(t + "}" + rest) == Parsed(ms, rest)
    ensures ReadValue("{" + t + "}" + rest) == Parsed(Object(ms), rest)
  {
    var s := "{" + t + "}" + rest;
    assert s[0] == '{' && s[1..] == t + "}" + rest;
  }

  lemma {:induction false} ReadPlain(v: Value, rest: string)
    requires Plain(v)
    ensures ReadValue(Print(v) + rest) == Parsed(v, rest)
    decreases v
  {
    match v {
      case Text(t) => ReadText(t, rest);
      case Flag(b) => ReadFlag(b, rest);
      case Object(ms) =>
        if ms == [] {
          ReadNoMembers(rest);
        } else {
          StartsWithQuote(ms);
          ReadPlainMembers(ms, rest);
          ReadSomeMembers(PrintMembers(ms), ms, rest);
        }
    }
  }

  lemma StartsWithQuote(ms: seq<Member>)
    requires ms != []
    ensures PrintMembers(ms) != [] && PrintMembers(ms)[0] == '\"'
  {
  }

  lemma {:induction false} ReadPlainMember(m: Member, rest: string)
    requires PlainText(m.key) && Plain(m.value)
    ensures ReadMember(PrintMember(m) + rest) == Parsed(m, rest)
    decreases m
  {
    var s := PrintMember(m) + rest;
    var t := Print(m.value) + rest;
    assert s[0] == '\"' && s[1..] == m.key + "\"" + (":" + t);
    ReadPlainText(m.key, ":" + t);
    assert (":" + t)[1..] == t;
    ReadPlain(m.value, rest);
  }

  lemma ReadLast(m: Member, s: string, rest: string)
    requires ReadMember(s) == Parsed(m, "}" + rest)
    ensures ReadMembers(s) == Parsed([m], rest)
  {
  }

  lemma ReadMore(m: Member, s: string, t: string)
    requires ReadMember(s) == Parsed(m, "," + t) && ReadMembers(t).Parsed?
    ensures ReadMembers(s) == Parsed([m] + ReadMembers(t).value, ReadMembers(t).rest)
  {
    assert ("," + t)[1..] == t;
  }

  lemma JoinLast(x: string, rest: string)
    ensures x + "}" + rest == x + ("}" + rest)
  {
  }

  lemma JoinMore(x: string, y: string, rest: string)
    ensures x + "," + y + "}" + rest == x + ("," + (y + "}" + rest))
  {
  }

  lemma {:induction false} ReadPlainMembers(ms: seq<Member>, rest: string)
    requires ms != [] && PlainMembers(ms)
    ensures ReadMembers(PrintMembers(ms) + "}" + rest) == Parsed(ms, rest)
    decreases ms
  {
    var x := PrintMember(ms[0]);
    if |ms| == 1 {
      JoinLast(x, rest);
      ReadPlainMember(ms[0], "}" + rest);
      ReadLast(ms[0], x + "}" + rest, rest);
      assert [ms[0]] == ms;
    } else {
      var y := PrintMembers(ms[1..]);
      var t := y + "}" + rest;
      JoinMore(x, y, rest);
      ReadPlainMember(ms[0], "," + t);
      ReadPlainMembers(ms[1..], rest);
      ReadMore(ms[0], x + "," + y + "}" + rest, t);
      assert [ms[0]] + ms[1..] == ms;
    }
  }

  // ---- what is read is never longer than what was there, and of the same length only
  //      if nothing was escaped

  lemma {:induction false} TextLength(s: string)
    ensures var r := ReadString(s);
      r.Parsed? ==> |r.value| + 1 + |r.rest| <= |s| && (|r.value| + 1 + |r.rest| == |s| ==> PlainText(r.value))
    decreases |s|
  {
    if s == [] || s[0] < ' ' || s[0] == '\"' {
    } else if s[0] == '\\' {
      var e := ReadEscape(s[1..]);
      if e.Parsed? {
        TextLength(e.rest);
      }
    } else {
      TextLength(s[1..]);
    }
  }

  lemma {:induction false} ValueLength(s: string)
    ensures var r := ReadValue(s);
      r.Parsed? ==> |Print(r.value)| + |r.rest| <= |s| && (|Print(r.value)| + |r.rest| == |s| ==> Plain(r.value))
    decreases |s|, 0
  {
    var t := Skip(s);
    if t == [] {
    } else if t[0] == '\"' {
      TextLength(t[1..]);
    } else if t[0] == '{' {
      var u := Skip(t[1..]);
      if u != [] && u[0] == '}' {
      } else {
        MembersLength(u);
      }
    }
  }

  lemma {:induction false} MemberLength(s: string)
    ensures var r := ReadMember(s);
      r.Parsed? ==>
        && |PrintMember(r.value)| + |r.rest| <= |s|
        && (|PrintMember(r.value)| + |r.rest| == |s| ==> PlainText(r.value.key) && Plain(r.value.value))
    decreases |s|, 1
  {
    var t := Skip(s);
    if t != [] && t[0] == '\"' {
      TextLength(t[1..]);
      var key := ReadString(t[1..]);
      if key.Parsed? {
        var u := Skip(key.rest);
        if u != [] && u[0] == ':' {
          ValueLength(u[1..]);
        }
      }
    }
  }

  lemma {:induction false} MembersLength(s: string)
    ensures var r := ReadMembers(s);
      r.Parsed? ==>
        && |PrintMembers(r.value)| + 1 + |r.rest| <= |s|
        && (|PrintMembers(r.value)| + 1 + |r.rest| == |s| ==> PlainMembers(r.value))
    decreases |s|, 2
  {
    var m := ReadMember(s);
    if m.Parsed? {
      MemberLength(s);
      var t := Skip(m.rest);
      if t != [] && t[0] == ',' {
        var ms := ReadMembers(t[1..]);
        if ms.Parsed? {
          MembersLength(t[1..]);
          ReadSome(t[1..]);
          assert ([m.value] + ms.value)[1..] == ms.value;
        }
      }
    }
  }

  lemma ReadSome(s: string)
    requires ReadMembers(s).Parsed?
    ensures ReadMembers(s).value != []
  {
  }

  /** A printed value reads back as itself if and only if no string in it needs an escape. */
  lemma RoundTripExact(v: Value)
    ensures Read(Print(v)) == Some(v) <==> Plain(v)
  {
    if Plain(v) {
      ReadPlain(v, []);
      assert Print(v) + [] == Print(v);
    }
    if Read(Print(v)) == Some(v) {
      ValueLength(Print(v));
    }
  }

  // ---- objects

  predicate DistinctKeys(ms: seq<Member>) {
    forall i, j | 0 <= i < j < |ms| :: ms[i].key != ms[j].key
  }

  /** The value of the first member with this name. */
  function Field(ms: seq<Member>, key: string): Option<Value> {
    if ms == [] then None
    else if ms[0].key == key then Some(ms[0].value)
    else Field(ms[1..], key)
  }

  /** With distinct names every member is found. */
  lemma {:induction false} FieldAt(ms: seq<Member>, i: nat)
    requires DistinctKeys(ms) && i < |ms|
    ensures Field(ms, ms[i].key) == Some(ms[i].value)
  {
    if i > 0 {
      FieldAt(ms[1..], i - 1);
    }
  }

  /** Members are printed one after the other. */
  lemma {:induction false} PrintAppends(ms: seq<Member>, m: Member)
    requires ms != []
    ensures PrintMembers(ms + [m]) == PrintMembers(ms) + "," + PrintMember(m)
  {
    if |ms| == 1 {
      assert (ms + [m])[1..] == [m];
    } else {
      PrintAppends(ms[1..], m);
      assert (ms + [m])[1..] == ms[1..] + [m];
    }
  }
}
