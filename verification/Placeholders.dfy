// src/config.rs: placeholder expansion in config values.
module Placeholders {
  import opened Prelude

  datatype Context = Context(instanceName: Text, version: Text, env: map<Text, Text>)

  datatype Error = Unterminated | Unknown(inner: Text) | EnvUnset(name: Text)

  function Resolve(c: Context, inner: Text): Result<Text, Error> {
    if inner == "instance.name" then Success(c.instanceName)
    else if inner == "version" then Success(c.version)
    else if "env:" <= inner then
      var name := inner[4..];
      if name in c.env then Success(c.env[name]) else Failure(EnvUnset(name))
    else Failure(Unknown(inner))
  }

  predicate OpensAt(s: Text, i: nat) {
    i + 1 < |s| && s[i] == '$' && s[i + 1] == '{'
  }

  /** The place of the first "${" in `s`, or |s|. */
  function FindOpen(s: Text): (i: nat)
    ensures i <= |s| && (i < |s| ==> OpensAt(s, i))
    ensures forall k :: 0 <= k < i ==> !OpensAt(s, k)
  {
    if s == "" || OpensAt(s, 0) then 0 else
      assert forall k :: 0 < k < |s| ==> OpensAt(s, k) == OpensAt(s[1..], k - 1);
      1 + FindOpen(s[1..])
  }

  /** The place of the first '}' in `s`, or |s|. */
  function FindClose(s: Text): (i: nat)
    ensures i <= |s| && '}' !in s[..i] && (i < |s| ==> s[i] == '}')
  {
    if s == "" || s[0] == '}' then 0 else 1 + FindClose(s[1..])
  }

  function Prefixed(p: Text, r: Result<Text, Error>): Result<Text, Error> {
    match r
    case Failure(e) => Failure(e)
    case Success(t) => Success(p + t)
  }

  /** A placeholder's value, then the rest; the first failure wins. */
  function Sequel(head: Result<Text, Error>, rest: Result<Text, Error>): Result<Text, Error> {
    if head.Failure? then head else Prefixed(head.value, rest)
  }

  lemma Reassociate(a: Text, b: Text, c: Text)
    ensures a + (b + c) == (a + b) + c
  {
  }

  lemma PrefixedTwice(p: Text, q: Text, r: Result<Text, Error>)
    ensures Prefixed(p, Prefixed(q, r)) == Prefixed(p + q, r)
    ensures Prefixed("", r) == r
  {
    if r.Success? {
      Reassociate(p, q, r.value);
      assert "" + r.value == r.value;
    }
  }

  /** What the loop makes of the rest of a value. */
  function Expansion(c: Context, rest: Text): Result<Text, Error>
    decreases |rest|
  {
    var i := FindOpen(rest);
    if i == |rest| then Success(rest) else
      var after := rest[i + 2..];
      var end := FindClose(after);
      if end == |after| then Failure(Unterminated) else
        var value := Resolve(c, after[..end]);
        // the rest is not looked at once a placeholder has failed
        if value.Failure? then value
        else Prefixed(rest[..i] + value.value, Expansion(c, after[end + 1..]))
  }

  method ExpandPlaceholders(c: Context, s: Text) returns (r: Result<Text, Error>)
    ensures r == Expansion(c, s)
  {
    hide Resolve, FindOpen, FindClose, Prefixed;
    var out, rest := "", s;
    PrefixedTwice("", "", Expansion(c, s));
    var start := FindOpen(rest);
    while start < |rest|
      invariant start == FindOpen(rest)
      invariant Expansion(c, s) == Prefixed(out, Expansion(c, rest))
      decreases |rest|
    {
      var after := rest[start + 2..];
      var end := FindClose(after);
      ghost var was := Expansion(c, rest);
      if end == |after| {
        PrefixedFailure(out, Unterminated);
        return Failure(Unterminated);
      }
      match Resolve(c, after[..end]) {
        case Failure(e) =>
          PrefixedFailure(out, e);
          return Failure(e);
        case Success(value) =>
          PrefixedTwice(out, rest[..start] + value, Expansion(c, after[end + 1..]));
          Reassociate(out, rest[..start], value);
          out := out + rest[..start];
          out := out + value;
          rest := after[end + 1..];
          start := FindOpen(rest);
      }
    }
    PrefixedSuccess(out, rest);
    return Success(out + rest);
  }

  lemma PrefixedFailure(p: Text, e: Error)
    ensures Prefixed(p, Failure(e)) == Failure(e)
  {
  }

  lemma PrefixedSuccess(p: Text, t: Text)
    ensures Prefixed(p, Success(t)) == Success(p + t)
  {
  }

  // ---- Templates -------------------------------------------------------------

  datatype Token = Literal(text: Text) | Hole(inner: Text)

  function Print(ts: seq<Token>): Text {
    if ts == [] then "" else
      (match ts[0]
       case Literal(t) => t
       case Hole(inner) => "${" + inner + "}") + Print(ts[1..])
  }

  predicate WellFormed(ts: seq<Token>) {
    && (forall i :: 0 <= i < |ts| ==>
         match ts[i]
         case Literal(t) => FindOpen(t) == |t|
         case Hole(inner) => '}' !in inner)
    && (forall i :: 0 <= i && i + 1 < |ts| ==> !(ts[i].Literal? && ts[i + 1].Literal?))
  }

  /** Token by token: literals stand for themselves, holes for their values. */
  function Substitute(c: Context, ts: seq<Token>): Result<Text, Error> {
    if ts == [] then Success("") else
      Sequel(if ts[0].Literal? then Success(ts[0].text) else Resolve(c, ts[0].inner), Substitute(c, ts[1..]))
  }

  /** The outcome for a template followed by `tail`. */
  function Outcome(c: Context, ts: seq<Token>, tail: Text): Result<Text, Error> {
    if Substitute(c, ts).Failure? || tail == "" then Substitute(c, ts) else Failure(Unterminated)
  }

  // What may follow a template: nothing, or a placeholder never closed.
  predicate Dangling(tail: Text) {
    OpensAt(tail, 0) && '}' !in tail
  }

  lemma FindOpenAfter(t: Text, rest: Text)
    requires FindOpen(t) == |t| && (rest == "" || OpensAt(rest, 0))
    ensures FindOpen(t + rest) == |t|
  {
    forall k | 0 <= k < |t| ensures !OpensAt(t + rest, k) {
      if k + 1 < |t| {
        assert !OpensAt(t, k);
      }
    }
    assert rest != "" ==> OpensAt(t + rest, |t|);
  }

  lemma {:induction false} FindCloseAfter(t: Text, rest: Text)
    requires '}' !in t
    ensures FindClose(t + "}" + rest) == |t| && FindClose(t) == |t|
  {
    if t != "" {
      assert (t + "}" + rest)[1..] == t[1..] + "}" + rest;
      FindCloseAfter(t[1..], rest);
    }
  }

  lemma PrintOpens(ts: seq<Token>, tail: Text)
    requires ts == [] || ts[0].Hole?
    requires tail == "" || Dangling(tail)
    ensures Print(ts) + tail == "" || OpensAt(Print(ts) + tail, 0)
  {
  }

  lemma DanglingFails(c: Context, tail: Text)
    requires Dangling(tail)
    ensures Expansion(c, tail) == Failure(Unterminated)
  {
    assert FindOpen(tail) == 0;
    assert forall k :: 0 <= k < |tail[2..]| ==> tail[2..][k] == tail[k + 2];
    FindCloseAfter(tail[2..], "");
  }

  lemma HoleExpands(c: Context, inner: Text, rest: Text)
    requires '}' !in inner
    ensures Expansion(c, "${" + inner + "}" + rest) == Sequel(Resolve(c, inner), Expansion(c, rest))
  {
    hide Resolve;
    var s := "${" + inner + "}" + rest;
    var after := inner + "}" + rest;
    assert OpensAt(s, 0) && FindOpen(s) == 0;
    assert s[2..] == after;
    FindCloseAfter(inner, rest);
    assert after[..|inner|] == inner && after[|inner| + 1..] == rest && s[..0] == "";
    if Resolve(c, inner).Success? {
      assert "" + Resolve(c, inner).value == Resolve(c, inner).value;
    }
  }

  lemma EnvName(inner: Text)
    ensures forall name :: inner == "env:" + name <==> "env:" <= inner && inner[4..] == name
    ensures "env:" <= inner ==> inner == "env:" + inner[4..] && inner != "instance.name" && inner != "version"
  {
    assert "env:" <= inner ==> inner[0] == 'e';
    assert "instance.name"[0] == 'i' && "version"[0] == 'v';
  }

  lemma HoleAlone(c: Context, inner: Text)
    requires '}' !in inner
    ensures Expansion(c, "${" + inner + "}") == Resolve(c, inner)
  {
    hide Expansion, Resolve;
    HoleExpands(c, inner, "");
    assert "${" + inner + "}" + "" == "${" + inner + "}";
    EmptyExpands(c);
    var head := Resolve(c, inner);
    if head.Success? {
      assert head.value + "" == head.value;
    }
  }

  // What the placeholders stand for: the instance's name, the program's version,
  // a variable of the environment, and nothing else.
  lemma PlaceholdersStandFor(c: Context, inner: Text)
    requires '}' !in inner
    ensures
      var r := Expansion(c, "${" + inner + "}");
      && (inner == "instance.name" ==> r == Success(c.instanceName))
      && (inner == "version" ==> r == Success(c.version))
      && (forall name :: inner == "env:" + name ==>
           r == if name in c.env then Success(c.env[name]) else Failure(EnvUnset(name)))
      && (r == Failure(Unknown(inner)) <==>
           inner != "instance.name" && inner != "version" && forall name :: inner != "env:" + name)
  {
    hide Expansion;
    HoleAlone(c, inner);
    EnvName(inner);
  }

  lemma LiteralExpands(c: Context, t: Text, rest: Text)
    requires FindOpen(t) == |t| && (rest == "" || OpensAt(rest, 0))
    ensures Expansion(c, t + rest) == Prefixed(t, Expansion(c, rest))
  {
    hide Resolve, FindOpen, FindClose, Prefixed;
    FindOpenAfter(t, rest);
    if rest == "" {
      assert t + rest == t;
      PrefixedSuccess(t, "");
    } else {
      OpensFirst(rest);
      var after := rest[2..];
      assert (t + rest)[|t| + 2..] == after && (t + rest)[..|t|] == t && rest[..0] == "";
      var end := FindClose(after);
      PrefixedFailure(t, Unterminated);
      if end < |after| {
        var value := Resolve(c, after[..end]);
        if value.Failure? {
          PrefixedFailure(t, value.error);
        } else {
          PrefixedTwice(t, value.value, Expansion(c, after[end + 1..]));
          assert "" + value.value == value.value;
        }
      }
    }
  }

  lemma OpensFirst(s: Text)
    requires OpensAt(s, 0)
    ensures FindOpen(s) == 0
  {
  }

  // Expanding a printed template substitutes each placeholder once, never
  // looks inside a substituted value, and fails exactly at the first
  // unresolvable placeholder or else at an unterminated one.
  lemma {:induction false} ExpansionIsSubstitution(c: Context, ts: seq<Token>, tail: Text)
    requires WellFormed(ts) && (tail == "" || Dangling(tail))
    ensures Expansion(c, Print(ts) + tail) == Outcome(c, ts, tail)
  {
    hide Resolve, Expansion, FindClose, FindOpen, WellFormed, Print, OpensAt;
    PrintParts(ts, tail);
    if ts == [] {
      if tail == "" {
        EmptyExpands(c);
      } else {
        DanglingFails(c, tail);
      }
    } else {
      var rest := Print(ts[1..]) + tail;
      ExpansionIsSubstitution(c, ts[1..], tail);
      if ts[0].Literal? {
        LiteralExpands(c, ts[0].text, rest);
      } else {
        HoleExpands(c, ts[0].inner, rest);
      }
    }
  }

  lemma PrintParts(ts: seq<Token>, tail: Text)
    requires WellFormed(ts) && (tail == "" || Dangling(tail))
    ensures ts == [] ==> Print(ts) + tail == tail
    ensures ts != [] ==> WellFormed(ts[1..])
    ensures ts != [] ==>
      var rest := Print(ts[1..]) + tail;
      match ts[0]
      case Literal(t) => Print(ts) + tail == t + rest && FindOpen(t) == |t| && (rest == "" || OpensAt(rest, 0))
      case Hole(inner) => Print(ts) + tail == "${" + inner + "}" + rest && '}' !in inner
  {
    hide FindOpen, OpensAt;
    if ts != [] {
      TailWellFormed(ts);
      var more := Print(ts[1..]);
      if ts[0].Literal? {
        PrintOpens(ts[1..], tail);
        Reassociate(ts[0].text, more, tail);
      } else {
        Reassociate("${" + ts[0].inner + "}", more, tail);
      }
    }
  }

  lemma TailWellFormed(ts: seq<Token>)
    requires WellFormed(ts) && ts != []
    ensures WellFormed(ts[1..]) && (ts[0].Literal? ==> ts[1..] == [] || ts[1].Hole?)
  {
    hide FindOpen;
    assert forall i :: 0 <= i < |ts[1..]| ==> ts[1..][i] == ts[i + 1];
  }

  lemma EmptyExpands(c: Context)
    ensures Expansion(c, "") == Success("")
  {
  }

  // Every config value is a template, possibly with a dangling placeholder.
  lemma {:induction false} EveryValueIsTemplate(s: Text) returns (ts: seq<Token>, tail: Text)
    ensures WellFormed(ts) && (tail == "" || Dangling(tail))
    ensures s == Print(ts) + tail
    ensures OpensAt(s, 0) || s == "" ==> ts == [] || ts[0].Hole?
    decreases |s|
  {
    hide FindClose, FindOpen, Print, WellFormed, OpensAt, Dangling;
    NothingPrints();
    var i := FindOpen(s);
    if s == "" {
      ts, tail := [], "";
    } else if i > 0 {
      LiteralFirst(s, i);
      ts, tail := EveryValueIsTemplate(s[i..]);
      ConsToken(Literal(s[..i]), ts);
      Reassociate(s[..i], Print(ts), tail);
      ts := [Literal(s[..i])] + ts;
    } else {
      HoleFirst(s);
      var after := s[2..];
      var end := FindClose(after);
      if end == |after| {
        ts, tail := [], s;
      } else {
        var inner, rest := after[..end], after[end + 1..];
        ts, tail := EveryValueIsTemplate(rest);
        ConsToken(Hole(inner), ts);
        Reassociate("${" + inner + "}", Print(ts), tail);
        ts := [Hole(inner)] + ts;
      }
    }
  }

  // A value that opens a placeholder either closes it or dangles.
  lemma HoleFirst(s: Text)
    requires FindOpen(s) == 0 && s != ""
    ensures OpensAt(s, 0) && |s| >= 2
    ensures
      var after := s[2..];
      var end := FindClose(after);
      if end == |after| then Dangling(s)
      else s == "${" + after[..end] + "}" + after[end + 1..] && '}' !in after[..end]
  {
    hide FindOpen, FindClose;
    var after := s[2..];
    assert s == "${" + after;
    var end := FindClose(after);
    if end < |after| {
      assert after == after[..end] + "}" + after[end + 1..];
    } else {
      assert after[..end] == after;
    }
  }

  lemma NothingPrints()
    ensures Print([]) == "" && WellFormed([])
  {
  }

  lemma LiteralFirst(s: Text, i: nat)
    requires i == FindOpen(s)
    ensures FindOpen(s[..i]) == i && s == s[..i] + s[i..]
    ensures s[i..] == "" || OpensAt(s[i..], 0)
    ensures i > 0 ==> !OpensAt(s, 0)
  {
    hide FindOpen;
    var t := s[..i];
    assert forall k :: 0 <= k < |t| && OpensAt(t, k) ==> OpensAt(s, k);
  }

  lemma ConsToken(t: Token, ts: seq<Token>)
    requires WellFormed(ts)
    requires match t case Literal(x) => FindOpen(x) == |x| && (ts == [] || ts[0].Hole?) case Hole(x) => '}' !in x
    ensures WellFormed([t] + ts)
    ensures Print([t] + ts) == (match t case Literal(x) => x case Hole(x) => "${" + x + "}") + Print(ts)
  {
    hide FindOpen;
    assert ([t] + ts)[1..] == ts;
  }
}
