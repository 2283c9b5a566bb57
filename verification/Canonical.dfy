// The string a callback signature covers, and what can be read back from it.

module Canonical {
  import opened Prelude
  import opened JsValues
  import Decimal

  function BodyText(b: Body): string {
    match b
    case Text(t) => t
    case Obj(j) => j
    case _ => "{}"
  }

  function UpperChar(c: char): char {
    if 'a' <= c <= 'z' then (c as int - 32) as char else c
  }

  function Upper(s: string): (u: string)
    ensures |u| == |s|
  {
    seq(|s|, i requires 0 <= i < |s| => UpperChar(s[i]))
  }

  function CanonicalString(verb: string, path: string, body: Body, timestamp: nat): string {
    Upper(verb) + "\n" + path + "\n" + BodyText(body) + "\n" + Decimal.Text(timestamp)
  }

  const LOWER: string := "abcdefghijklmnopqrstuvwxyz"
  const UPPER: string := "ABCDEFGHIJKLMNOPQRSTUVWXYZ"

  // The method is put in capitals letter by letter; nothing else in it changes.
  lemma {:induction false} Capitals(s: string, i: nat)
    requires i < |s|
    ensures |Upper(s)| == |s| && (s[i] !in LOWER ==> Upper(s)[i] == s[i])
    ensures forall n :: 0 <= n < 26 && s[i] == LOWER[n] ==> Upper(s)[i] == UPPER[n]
  {
    Letters();
    if 'a' <= s[i] <= 'z' {
      assert LOWER[s[i] as int - 97] in LOWER;
    }
  }

  lemma Letters()
    ensures forall n :: 0 <= n < 26 ==> LOWER[n] == (97 + n) as char && UPPER[n] == (65 + n) as char
  {
  }

  // A text is signed as it is, an object as the text JSON gives it, and a missing or null body
  // as an empty object.
  lemma {:induction false} BodiesSigned(verb: string, path: string, text: string, t: nat)
    ensures CanonicalString(verb, path, Text(text), t)
         == Upper(verb) + "\n" + path + "\n" + text + "\n" + Decimal.Text(t)
    ensures CanonicalString(verb, path, Obj(text), t) == CanonicalString(verb, path, Text(text), t)
    ensures CanonicalString(verb, path, NullBody, t) == CanonicalString(verb, path, Text("{}"), t)
    ensures CanonicalString(verb, path, NoBody, t) == CanonicalString(verb, path, Text("{}"), t)
  {
  }

  datatype Parts = Parts(verb: string, path: string, body: string, timestamp: string)

  predicate OneLine(s: string) { '\n' !in s }

  // Where the first, or the last, newline is; the length, or -1, if there is none.
  function First(s: string): (i: nat)
    ensures i <= |s| && OneLine(s[..i]) && (i < |s| ==> s[i] == '\n')
  {
    if s == [] || s[0] == '\n' then 0
    else
      var i := First(s[1..]);
      assert s[..i + 1] == [s[0]] + s[1..][..i];
      i + 1
  }

  function Last(s: string): (i: int)
    ensures -1 <= i < |s| && (i >= 0 ==> s[i] == '\n')
  {
    if s == [] then -1
    else if s[|s| - 1] == '\n' then |s| - 1
    else Last(s[..|s| - 1])
  }

  // Splits at the first two newlines and at the last.
  function Split(s: string): Option<Parts> {
    var a := First(s);
    if a == |s| then None
    else
      var rest := s[a + 1..];
      var b := First(rest);
      if b == |rest| then None
      else
        var tail := rest[b + 1..];
        var c := Last(tail);
        if c < 0 then None else Some(Parts(s[..a], rest[..b], tail[..c], tail[c + 1..]))
  }

  lemma {:induction false} FirstIs(line: string, rest: string)
    requires OneLine(line)
    ensures First(line + "\n" + rest) == |line|
  {
    var s := line + "\n" + rest;
    if line != [] {
      assert line[0] in line && s[1..] == line[1..] + "\n" + rest;
      FirstIs(line[1..], rest);
    }
  }

  lemma {:induction false} LastIs(rest: string, line: string)
    requires OneLine(line)
    ensures Last(rest + "\n" + line) == |rest|
  {
    var s := rest + "\n" + line;
    if line != [] {
      assert line[|line| - 1] in line && s[..|s| - 1] == rest + "\n" + line[..|line| - 1];
      LastIs(rest, line[..|line| - 1]);
    }
  }

  lemma {:induction false} UpperOneLine(s: string)
    ensures OneLine(Upper(s)) <==> OneLine(s)
  {
    forall i | 0 <= i < |s| ensures Upper(s)[i] == '\n' <==> s[i] == '\n' {
    }
    if !OneLine(s) {
      var i :| 0 <= i < |s| && s[i] == '\n';
      assert Upper(s)[i] in Upper(s);
    }
    if !OneLine(Upper(s)) {
      var i :| 0 <= i < |s| && Upper(s)[i] == '\n';
      assert s[i] in s;
    }
  }

  lemma {:induction false} TimestampOneLine(t: nat)
    ensures OneLine(Decimal.Text(t))
  {
    Decimal.RoundTrip(t);
  }

  lemma {:induction false} SplitsBack(verb: string, path: string, body: string, t: string)
    requires OneLine(verb) && OneLine(path) && OneLine(t)
    ensures Split(verb + "\n" + path + "\n" + body + "\n" + t) == Some(Parts(verb, path, body, t))
  {
    hide First, Last, OneLine;
    var tail := body + "\n" + t;
    var rest := path + "\n" + tail;
    var s := verb + "\n" + rest;
    Regroup(verb, path, body, t);
    FirstIs(verb, rest);
    Cut(verb, rest);
    FirstIs(path, tail);
    Cut(path, tail);
    LastIs(body, t);
    Cut(body, t);
  }

  lemma Cut(a: string, b: string)
    ensures (a + "\n" + b)[..|a|] == a && (a + "\n" + b)[|a| + 1..] == b
  {
  }

  lemma Regroup(a: string, b: string, c: string, d: string)
    ensures a + "\n" + b + "\n" + c + "\n" + d == a + "\n" + (b + "\n" + (c + "\n" + d))
  {
  }

  lemma {:induction false} SplitPartsOneLine(s: string)
    requires Split(s).Some?
    ensures OneLine(Split(s).value.verb) && OneLine(Split(s).value.path)
  {
  }

  // Splitting gives back method, path, body text and timestamp exactly when method and path
  // have no newline; the body may have any number of them.
  lemma {:induction false} SplitsBackIff(verb: string, path: string, body: Body, t: nat)
    ensures Split(CanonicalString(verb, path, body, t))
            == Some(Parts(Upper(verb), path, BodyText(body), Decimal.Text(t)))
            <==> OneLine(verb) && OneLine(path)
  {
    hide Split, OneLine;
    UpperOneLine(verb);
    TimestampOneLine(t);
    if OneLine(verb) && OneLine(path) {
      SplitsBack(Upper(verb), path, BodyText(body), Decimal.Text(t));
    } else if Split(CanonicalString(verb, path, body, t)).Some? {
      SplitPartsOneLine(CanonicalString(verb, path, body, t));
    }
  }

  // So two requests with the same canonical string agree in upper-cased method, path, body
  // text and timestamp.
  lemma {:induction false} Injective(verb: string, path: string, body: Body, t: nat, verb2: string, path2: string,
          body2: Body, t2: nat)
    requires OneLine(verb) && OneLine(path) && OneLine(verb2) && OneLine(path2)
    requires CanonicalString(verb, path, body, t) == CanonicalString(verb2, path2, body2, t2)
    ensures Upper(verb) == Upper(verb2) && path == path2 && BodyText(body) == BodyText(body2) && t == t2
  {
    SplitsBackIff(verb, path, body, t);
    SplitsBackIff(verb2, path2, body2, t2);
    Decimal.RoundTrip(t);
    Decimal.RoundTrip(t2);
  }

  // --- requests that nothing else looks like --------------------------------------------

  function Newlines(s: string): nat {
    if s == [] then 0 else (if s[0] == '\n' then 1 else 0) + Newlines(s[1..])
  }

  lemma {:induction false} NewlinesAdd(a: string, b: string)
    ensures Newlines(a + b) == Newlines(a) + Newlines(b)
  {
    if a == [] {
      assert a + b == b;
    } else {
      assert (a + b)[1..] == a[1..] + b;
      NewlinesAdd(a[1..], b);
    }
  }

  lemma {:induction false} NewlinesNone(s: string)
    ensures Newlines(s) == 0 <==> OneLine(s)
  {
    if s != [] {
      NewlinesNone(s[1..]);
      assert s == [s[0]] + s[1..];
    }
  }

  lemma {:induction false} NewlinesOfParts(verb: string, path: string, body: Body, t: nat)
    ensures Newlines(CanonicalString(verb, path, body, t))
         == 3 + Newlines(Upper(verb)) + Newlines(path) + Newlines(BodyText(body))
  {
    hide Newlines, Upper;
    var d := Decimal.Text(t);
    Regroup(Upper(verb), path, BodyText(body), d);
    TimestampOneLine(t);
    NewlinesNone(d);
    LineBefore(BodyText(body), d);
    LineBefore(path, BodyText(body) + "\n" + d);
    LineBefore(Upper(verb), path + "\n" + (BodyText(body) + "\n" + d));
  }

  lemma {:induction false} LineBefore(a: string, b: string)
    ensures Newlines(a + "\n" + b) == Newlines(a) + 1 + Newlines(b)
  {
    NewlinesAdd(a, "\n");
    NewlinesAdd(a + "\n", b);
    assert Newlines("\n") == 1;
  }

  predicate Alike(verb: string, path: string, body: Body, t: nat, verb2: string, path2: string, body2: Body, t2: nat) {
    Upper(verb) == Upper(verb2) && path == path2 && BodyText(body) == BodyText(body2) && t == t2
  }

  lemma {:induction false} AtNewline(s: string) returns (a: string, b: string)
    requires !OneLine(s)
    ensures s == a + "\n" + b
  {
    var i :| 0 <= i < |s| && s[i] == '\n';
    a, b := s[..i], s[i + 1..];
  }

  lemma {:induction false} UpperParts(a: string, b: string)
    ensures Upper(a + "\n" + b) == Upper(a) + "\n" + Upper(b)
  {
  }

  // A newline in any of the three lets the parts be cut elsewhere.
  lemma {:induction false} Collides(verb: string, path: string, body: Body, t: nat)
    returns (verb2: string, path2: string, body2: Body)
    requires !(OneLine(verb) && OneLine(path) && OneLine(BodyText(body)))
    ensures CanonicalString(verb2, path2, body2, t) == CanonicalString(verb, path, body, t)
    ensures !Alike(verb, path, body, t, verb2, path2, body2, t)
  {
    hide Upper, OneLine;
    var d := Decimal.Text(t);
    verb2 := verb;
    if !OneLine(BodyText(body)) {
      var a, b := AtNewline(BodyText(body));
      path2, body2 := path + "\n" + a, Text(b);
      assert Upper(verb) + "\n" + (path + "\n" + a) + "\n" + b + "\n" + d
          == Upper(verb) + "\n" + path + "\n" + (a + "\n" + b) + "\n" + d;
    } else if !OneLine(path) {
      var a, b := AtNewline(path);
      path2, body2 := a, Text(b + "\n" + BodyText(body));
      assert Upper(verb) + "\n" + a + "\n" + (b + "\n" + BodyText(body)) + "\n" + d
          == Upper(verb) + "\n" + (a + "\n" + b) + "\n" + BodyText(body) + "\n" + d;
    } else {
      var a, b := AtNewline(verb);
      UpperParts(a, b);
      assert |Upper(a)| < |Upper(verb)|;
      verb2, path2 := a, Upper(b);
      body2 := Text(path + "\n" + BodyText(body));
      assert Upper(a) + "\n" + Upper(b) + "\n" + (path + "\n" + BodyText(body)) + "\n" + d
          == (Upper(a) + "\n" + Upper(b)) + "\n" + path + "\n" + BodyText(body) + "\n" + d;
    }
  }

  // No different request shares a request's canonical string exactly when its method, path
  // and body text all hold no newline.
  lemma {:induction false} UniqueIff(verb: string, path: string, body: Body, t: nat)
    ensures (forall verb2, path2, body2, t2 ::
               CanonicalString(verb2, path2, body2, t2) == CanonicalString(verb, path, body, t) ==>
               Alike(verb, path, body, t, verb2, path2, body2, t2))
            <==> OneLine(verb) && OneLine(path) && OneLine(BodyText(body))
  {
    if OneLine(verb) && OneLine(path) && OneLine(BodyText(body)) {
      forall verb2, path2, body2, t2 | CanonicalString(verb2, path2, body2, t2) == CanonicalString(verb, path, body, t)
        ensures Alike(verb, path, body, t, verb2, path2, body2, t2)
      {
        AllOneLine(verb, path, body, t, verb2, path2, body2, t2);
        Injective(verb, path, body, t, verb2, path2, body2, t2);
      }
    } else {
      var verb2, path2, body2 := Collides(verb, path, body, t);
    }
  }

  lemma {:induction false} AllOneLine(verb: string, path: string, body: Body, t: nat,
                               verb2: string, path2: string, body2: Body, t2: nat)
    requires OneLine(verb) && OneLine(path) && OneLine(BodyText(body))
    requires CanonicalString(verb2, path2, body2, t2) == CanonicalString(verb, path, body, t)
    ensures OneLine(verb2) && OneLine(path2)
  {
    hide Newlines, OneLine, Upper, CanonicalString;
    NewlinesOfParts(verb, path, body, t);
    NewlinesOfParts(verb2, path2, body2, t2);
    UpperOneLine(verb);
    UpperOneLine(verb2);
    NewlinesNone(Upper(verb));
    NewlinesNone(path);
    NewlinesNone(BodyText(body));
    NewlinesNone(Upper(verb2));
    NewlinesNone(path2);
  }
}
