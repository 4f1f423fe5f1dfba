/** What a text that was printed without escaping reads as when it needed some: never as
    itself. */
module JsonExact {
  import opened Wrappers
  import opened Json

  // ---- a text member in front of others

  /** What a string that was printed as it is reads as, when another member follows: itself
      if it is plain; otherwise it is shorter, or its last backslash took the closing
      quotation mark along and it ends in the comma behind it. */
  lemma {:induction false} TextFollowed(x: string, more: string)
    ensures var r := ReadString(x + "\",\"" + more);
      r.Parsed? ==>
        || (PlainText(x) && r.value == x)
        || (!PlainText(x) && |r.value| < |x|)
        || (!PlainText(x) && x[|x| - 1] == '\\' && r.value != "" && r.value[|r.value| - 1] == ',')
    decreases |x|, 2
  {
    var s := x + "\",\"" + more;
    if x == [] {
      assert s[0] == '\"';
    } else if x[0] < ' ' || x[0] == '\"' {
      assert s[0] == x[0];
    } else if x[0] == '\\' {
      assert s[0] == x[0];
      EscapeFollowed(x, more);
    } else {
      assert s[0] == x[0] && s[1..] == x[1..] + "\",\"" + more;
      TextFollowed(x[1..], more);
    }
  }

  lemma {:induction false} EscapeFollowed(x: string, more: string)
    requires x != [] && x[0] == '\\'
    ensures var r := ReadString(x + "\",\"" + more);
      r.Parsed? ==>
        || |r.value| < |x|
        || (x[|x| - 1] == '\\' && r.value != "" && r.value[|r.value| - 1] == ',')
    decreases |x|, 1
  {
    var s := x + "\",\"" + more;
    assert s[0] == '\\';
    if |x| == 1 {
      assert s[1..] == "\",\"" + more;
      assert ReadEscape(s[1..]) == Parsed('\"', ",\"" + more) by { assert s[1..][1..] == ",\"" + more; }
      CommaThenQuote(more);
    } else if ReadEscape(s[1..]).Parsed? {
      var k := EscapeWidth(x, more);
      TextFollowed(x[k..], more);
    }
  }

  lemma CommaThenQuote(more: string)
    ensures ReadString(",\"" + more) == Parsed(",", more)
  {
    var s := ",\"" + more;
    assert s[0] == ',' && s[1..][0] == '\"' && s[1..][1..] == more;
    assert [','] + "" == ",";
  }

  /** An escape that starts inside the string ends inside it. */
  lemma EscapeWidth(x: string, more: string) returns (k: nat)
    requires |x| > 1 && ReadEscape((x + "\",\"" + more)[1..]).Parsed?
    ensures 2 <= k <= |x| && ReadEscape((x + "\",\"" + more)[1..]).rest == x[k..] + "\",\"" + more
  {
    var s := x + "\",\"" + more;
    assert s[1..][0] == x[1];
    if x[1] == 'u' {
      var tail := "\",\"" + more;
      assert s[1..][1..] == x[2..] + tail && tail[0] == '\"';
      var j := HexWidth(x[2..], tail, 4, 0);
      k := 2 + j;
      assert x[2..][k - 2..] == x[k..];
      assert x[k..] + ("\",\"" + more) == x[k..] + "\",\"" + more;
    } else {
      k := 2;
      assert s[1..][1..] == x[2..] + "\",\"" + more;
    }
  }

  lemma {:induction false} HexWidth(x: string, tail: string, digits: nat, code: nat) returns (k: nat)
    requires tail != [] && HexDigit(tail[0]) == None && ReadHex(x + tail, digits, code).Parsed?
    ensures k <= |x| && ReadHex(x + tail, digits, code).rest == x[k..] + tail
    decreases digits
  {
    var s := x + tail;
    if digits == 0 {
      k := 0;
    } else {
      assert x == [] ==> s == tail;
      assert s[0] == x[0] && s[1..] == x[1..] + tail;
      var j := HexWidth(x[1..], tail, digits - 1, code * 16 + HexDigit(s[0]).value);
      k := 1 + j;
    }
  }

  /** So it reads as itself if and only if it is plain. */
  lemma TextFollowedExact(x: string, more: string)
    ensures var r := ReadString(x + "\",\"" + more); r.Parsed? ==> (r.value == x <==> PlainText(x))
  {
    TextFollowed(x, more);
  }

  /** The first of several members, when it is a text. */
  lemma FirstTextExact(ms: seq<Member>, key: string, x: string, rest: string)
    requires |ms| > 1 && ms[0] == Member(key, Text(x)) && PlainText(key)
    ensures var r := ReadMembers(PrintMembers(ms) + "}" + rest);
      r.Parsed? ==> r.value != [] && r.value[0].key == key && r.value[0].value.Text? && (r.value[0].value.text == x <==> PlainText(x))
  {
    var y := PrintMembers(ms[1..]);
    StartsWithQuote(ms[1..]);
    var s, more := PrintMembers(ms) + "}" + rest, y[1..] + "}" + rest;
    assert s == PrintMember(ms[0]) + "," + y + "}" + rest;
    FirstShape(key, x, y, rest);
    FirstText(s, key, x, more);
  }

  lemma FirstShape(key: string, x: string, y: string, rest: string)
    requires y != [] && y[0] == '\"'
    ensures PrintMember(Member(key, Text(x))) + "," + y + "}" + rest
         == "\"" + (key + "\"" + (":\"" + (x + "\",\"" + (y[1..] + "}" + rest))))
  {
  }

  lemma FirstText(s: string, key: string, x: string, more: string)
    requires PlainText(key) && s == "\"" + (key + "\"" + (":\"" + (x + "\",\"" + more)))
    ensures var r := ReadMember(s);
      r.Parsed? ==> r.value.key == key && r.value.value.Text? && (r.value.value.text == x <==> PlainText(x))
  {
    var tail := x + "\",\"" + more;
    assert s[1..] == key + "\"" + (":\"" + tail);
    ReadPlainText(key, ":\"" + tail);
    assert (":\"" + tail)[1..] == "\"" + tail;
    assert ("\"" + tail)[1..] == tail;
    TextFollowedExact(x, more);
  }
}
