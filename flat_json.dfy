/**
 * The JSON text of a flat object whose members are all booleans, as
 * `JSON.stringify` writes it (members in insertion order, no whitespace),
 * and a reader for that text that accepts a subset of what `JSON.parse`
 * accepts and agrees with it there.
 */
module FlatJson {
  import opened Wrappers

  function Literal(b: bool): string {
    if b then "true" else "false"
  }

  /** One `"key":value` member, followed by `rest`. */
  function MemberThen(key: string, b: bool, rest: string): string {
    "\"" + (key + ("\":" + (Literal(b) + rest)))
  }

  /** The members joined by commas. */
  function Members(entries: seq<(string, bool)>): string {
    if |entries| == 0 then ""
    else MemberThen(entries[0].0, entries[0].1,
                    if |entries| == 1 then "" else "," + Members(entries[1..]))
  }

  /** The object text `JSON.stringify` writes for these members. */
  function ObjectText(entries: seq<(string, bool)>): string {
    "{" + (Members(entries) + "}")
  }

  /** A character JSON admits unescaped inside a string, other than the
      closing quote. */
  predicate PlainChar(c: char) {
    c != '"' && c != '\\' && c >= ' '
  }

  /** A key `JSON.stringify` writes as is, between quotes. */
  predicate PlainKey(k: string) {
    forall i | 0 <= i < |k| :: PlainChar(k[i])
  }

  predicate PlainKeys(entries: seq<(string, bool)>) {
    forall i | 0 <= i < |entries| :: PlainKey(entries[i].0)
  }

  predicate DistinctKeys(entries: seq<(string, bool)>) {
    forall i, j | 0 <= i < j < |entries| :: entries[i].0 != entries[j].0
  }

  /** The length of the longest prefix of plain characters. */
  function PlainPrefix(t: string): (n: nat)
    ensures n <= |t|
    ensures PlainKey(t[..n])
    ensures n < |t| ==> !PlainChar(t[n])
  {
    if |t| == 0 || !PlainChar(t[0]) then 0
    else
      var n := 1 + PlainPrefix(t[1..]);
      assert forall i | 1 <= i < n :: t[..n][i] == t[1..][..n - 1][i - 1];
      n
  }

  datatype ParsedMember = ParsedMember(key: string, value: bool, rest: string)

  /** Reads one `"key":true` or `"key":false` member off the front of `t`. */
  function ParseMember(t: string): (r: Option<ParsedMember>)
    ensures r.Some? ==> |r.value.rest| < |t|
  {
    if |t| == 0 || t[0] != '"' then None
    else
      var u := t[1..];
      var n := PlainPrefix(u);
      var after := u[n..];
      if |after| < 2 || after[0] != '"' || after[1] != ':' then None
      else
        var v := after[2..];
        if |v| >= 4 && v[..4] == "true" then Some(ParsedMember(u[..n], true, v[4..]))
        else if |v| >= 5 && v[..5] == "false" then Some(ParsedMember(u[..n], false, v[5..]))
        else None
  }

  /** Reads comma-separated members into `acc`, a later duplicate key
      winning as in `JSON.parse`. */
  function ParseMembers(t: string, acc: map<string, bool>): Option<map<string, bool>>
    decreases |t|
  {
    match ParseMember(t)
    case None => None
    case Some(m) =>
      if m.rest == [] then Some(acc[m.key := m.value])
      else if m.rest[0] == ',' then ParseMembers(m.rest[1..], acc[m.key := m.value])
      else None
  }

  /** `JSON.parse` of a flat object of booleans; `None` stands for a text
      this reader does not accept. */
  function ParseObject(t: string): (r: Option<map<string, bool>>)
    ensures r.Some? ==> |t| >= 2 && t[0] == '{' && t[|t| - 1] == '}'
  {
    if |t| < 2 || t[0] != '{' || t[|t| - 1] != '}' then None
    else if |t| == 2 then Some(map[])
    else ParseMembers(t[1..|t| - 1], map[])
  }

  /** The object built from members taken in order, a later key winning. */
  function Collect(acc: map<string, bool>, entries: seq<(string, bool)>): map<string, bool>
    decreases |entries|
  {
    if |entries| == 0 then acc
    else Collect(acc[entries[0].0 := entries[0].1], entries[1..])
  }

  lemma Split(a: string, b: string)
    ensures (a + b)[..|a|] == a && (a + b)[|a|..] == b
  {
  }

  lemma {:induction false} PlainPrefixOfKey(k: string, rest: string)
    requires PlainKey(k)
    requires |rest| > 0 && !PlainChar(rest[0])
    ensures PlainPrefix(k + rest) == |k|
  {
    if |k| > 0 {
      assert (k + rest)[0] == k[0];
      assert (k + rest)[1..] == k[1..] + rest;
      PlainPrefixOfKey(k[1..], rest);
    } else {
      assert k + rest == rest;
    }
  }

  /** A member written with a plain key reads back as that member. */
  lemma ParseMemberOf(k: string, b: bool, rest: string)
    requires PlainKey(k)
    ensures ParseMember(MemberThen(k, b, rest)) == Some(ParsedMember(k, b, rest))
  {
    var lit := Literal(b);
    var x := "\":" + (lit + rest);
    Split("\"", k + x);
    PlainPrefixOfKey(k, x);
    Split(k, x);
    Split("\":", lit + rest);
    Split(lit, rest);
    if !b {
      assert (lit + rest)[3] == 's';
    }
  }

  /** Reading a member written with a plain key, then what follows it. */
  lemma ParseMembersStep(k: string, b: bool, tail: string, acc: map<string, bool>)
    requires PlainKey(k)
    requires tail == [] || tail[0] == ','
    ensures tail == [] ==> ParseMembers(MemberThen(k, b, tail), acc) == Some(acc[k := b])
    ensures tail != [] ==> ParseMembers(MemberThen(k, b, tail), acc) == ParseMembers(tail[1..], acc[k := b])
  {
    ParseMemberOf(k, b, tail);
  }

  lemma {:induction false} ParseMembersOf(entries: seq<(string, bool)>, acc: map<string, bool>)
    requires |entries| > 0
    requires PlainKeys(entries)
    ensures ParseMembers(Members(entries), acc) == Some(Collect(acc, entries))
    decreases |entries|
  {
    var e := entries[0];
    var acc' := acc[e.0 := e.1];
    if |entries| == 1 {
      assert Members(entries) == MemberThen(e.0, e.1, "");
      ParseMembersStep(e.0, e.1, "", acc);
      assert entries[1..] == [];
    } else {
      var tail := "," + Members(entries[1..]);
      assert Members(entries) == MemberThen(e.0, e.1, tail);
      ParseMembersStep(e.0, e.1, tail, acc);
      assert tail[1..] == Members(entries[1..]);
      assert PlainKeys(entries[1..]) by {
        forall i | 0 <= i < |entries| - 1 ensures PlainKey(entries[1..][i].0) {
          assert entries[1..][i] == entries[i + 1];
        }
      }
      ParseMembersOf(entries[1..], acc');
    }
  }

  /** A braced text with something between the braces is read as members. */
  lemma Braced(t: string)
    requires |t| > 2 && t[0] == '{' && t[|t| - 1] == '}'
    ensures ParseObject(t) == ParseMembers(t[1..|t| - 1], map[])
  {
  }

  /** Framing a text in braces and taking the inside gives it back. */
  lemma Framed(m: string)
    ensures var t := "{" + (m + "}");
      |t| == |m| + 2 && t[0] == '{' && t[|t| - 1] == '}' && t[1..|t| - 1] == m
  {
    var u := m + "}";
    var t := "{" + u;
    assert t[1..] == u;
    assert u[..|m|] == m;
    assert t[1..|t| - 1] == t[1..][..|m|];
    assert t[|t| - 1] == u[|m|];
  }

  /** The text between the braces of an object is what is read as members. */
  lemma Unframe(m: string)
    requires |m| > 0
    ensures ParseObject("{" + (m + "}")) == ParseMembers(m, map[])
  {
    Framed(m);
    Braced("{" + (m + "}"));
  }

  /** Reading what `ObjectText` wrote gives back the members, collected. */
  lemma ObjectParses(entries: seq<(string, bool)>)
    requires PlainKeys(entries)
    ensures ParseObject(ObjectText(entries)) == Some(Collect(map[], entries))
  {
    if |entries| == 0 {
      assert ObjectText(entries) == "{}";
    } else {
      var e := entries[0];
      var m := Members(entries);
      assert m == MemberThen(e.0, e.1, if |entries| == 1 then "" else "," + Members(entries[1..]));
      assert m[0] == '"';
      Unframe(m);
      ParseMembersOf(entries, map[]);
    }
  }

  /** A key no member repeats keeps the value it had. */
  lemma {:induction false} CollectKeeps(acc: map<string, bool>, entries: seq<(string, bool)>, k: string)
    requires forall j | 0 <= j < |entries| :: entries[j].0 != k
    ensures k in Collect(acc, entries) <==> k in acc
    ensures k in acc ==> Collect(acc, entries)[k] == acc[k]
    decreases |entries|
  {
    if |entries| > 0 {
      CollectKeeps(acc[entries[0].0 := entries[0].1], entries[1..], k);
    }
  }

  /** With distinct keys, every member's value is found under its key. */
  lemma {:induction false} CollectLookup(acc: map<string, bool>, entries: seq<(string, bool)>, i: nat)
    requires i < |entries|
    requires DistinctKeys(entries)
    ensures entries[i].0 in Collect(acc, entries)
    ensures Collect(acc, entries)[entries[i].0] == entries[i].1
    decreases |entries|
  {
    var acc' := acc[entries[0].0 := entries[0].1];
    if i == 0 {
      CollectKeeps(acc', entries[1..], entries[0].0);
    } else {
      assert DistinctKeys(entries[1..]);
      CollectLookup(acc', entries[1..], i - 1);
    }
  }

  /** The keys collected are those of `acc` and of the members. */
  lemma {:induction false} CollectKeys(acc: map<string, bool>, entries: seq<(string, bool)>)
    ensures Collect(acc, entries).Keys == acc.Keys + set i | 0 <= i < |entries| :: entries[i].0
    decreases |entries|
  {
    if |entries| > 0 {
      var acc' := acc[entries[0].0 := entries[0].1];
      CollectKeys(acc', entries[1..]);
      var later := set i | 0 <= i < |entries| - 1 :: entries[1..][i].0;
      var all := set i | 0 <= i < |entries| :: entries[i].0;
      assert all == {entries[0].0} + later by {
        forall k | k in all ensures k in {entries[0].0} + later {
          var i :| 0 <= i < |entries| && entries[i].0 == k;
          if i > 0 { assert entries[1..][i - 1].0 == k; }
        }
      }
    }
  }

  /** Round trip: the text written for members with plain, distinct keys
      reads back as exactly those members. */
  lemma RoundTrip(entries: seq<(string, bool)>)
    requires PlainKeys(entries) && DistinctKeys(entries)
    ensures ParseObject(ObjectText(entries)).Some?
    ensures ParseObject(ObjectText(entries)).value.Keys == set i | 0 <= i < |entries| :: entries[i].0
    ensures forall i | 0 <= i < |entries| ::
      ParseObject(ObjectText(entries)).value[entries[i].0] == entries[i].1
  {
    ObjectParses(entries);
    CollectKeys(map[], entries);
    forall i | 0 <= i < |entries|
      ensures entries[i].0 in Collect(map[], entries) && Collect(map[], entries)[entries[i].0] == entries[i].1
    {
      CollectLookup(map[], entries, i);
    }
  }

  /** The round trip for one member. */
  lemma RoundTripAt(entries: seq<(string, bool)>, i: nat)
    requires PlainKeys(entries) && DistinctKeys(entries)
    requires i < |entries|
    ensures ParseObject(ObjectText(entries)).Some?
    ensures entries[i].0 in ParseObject(ObjectText(entries)).value
    ensures ParseObject(ObjectText(entries)).value[entries[i].0] == entries[i].1
  {
    ObjectParses(entries);
    CollectLookup(map[], entries, i);
  }
}
