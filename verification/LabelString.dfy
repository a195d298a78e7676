// src/log/sink/loki.rs: label sets as Prometheus-style strings.
module LabelString {
  import opened Prelude
  import opened LogSource

  function EscapeChar(c: char): Text {
    match c
    case '\\' => "\\\\"
    case '"' => "\\\""
    case '\n' => "\\n"
    case _ => [c]
  }

  function Escape(v: Text): Text {
    if v == "" then "" else EscapeChar(v[0]) + Escape(v[1..])
  }

  function Pair(p: (Text, Text)): Text {
    p.0 + "=\"" + Escape(p.1) + "\""
  }

  /** The pairs, separated by commas. */
  function Pairs(labels: Labels): Text {
    if labels == [] then ""
    else if |labels| == 1 then Pair(labels[0])
    else Pair(labels[0]) + "," + Pairs(labels[1..])
  }

  lemma {:induction false} EscapeSnoc(v: Text, c: char)
    ensures Escape(v + [c]) == Escape(v) + EscapeChar(c)
  {
    if v == "" {
      assert Escape([c]) == EscapeChar(c) + Escape("");
    } else {
      assert (v + [c])[1..] == v[1..] + [c];
      EscapeSnoc(v[1..], c);
    }
  }

  lemma {:induction false} PairsSnoc(labels: Labels, p: (Text, Text))
    ensures Pairs(labels + [p]) == Pairs(labels) + (if labels == [] then "" else ",") + Pair(p)
  {
    if |labels| > 0 {
      assert (labels + [p])[1..] == labels[1..] + [p];
      PairsSnoc(labels[1..], p);
    }
  }

  method PushEscaped(s: Text, v: Text) returns (r: Text)
    ensures r == s + Escape(v)
  {
    hide Escape;
    r := s;
    EscapeNothing();
    for j := 0 to |v|
      invariant r == s + Escape(v[..j])
    {
      EscapeSnoc(v[..j], v[j]);
      assert v[..j + 1] == v[..j] + [v[j]];
      match v[j] {
        case '\\' => r := r + "\\\\";
        case '"' => r := r + "\\\"";
        case '\n' => r := r + "\\n";
        case c => r := r + [c];
      }
    }
    assert v[..|v|] == v;
  }

  lemma EscapeNothing()
    ensures Escape("") == ""
  {
  }

  method FormatLabelString(labels: Labels) returns (s: Text)
    ensures s == "{" + Pairs(labels) + "}"
  {
    hide Pairs, Escape;
    s := "{";
    PairsNothing();
    for i := 0 to |labels|
      invariant s == "{" + Pairs(labels[..i])
    {
      PairsSnoc(labels[..i], labels[i]);
      assert labels[..i + 1] == labels[..i] + [labels[i]];
      ghost var before := s;
      if i > 0 {
        s := s + ",";
      }
      var (k, v) := labels[i];
      s := s + k;
      s := s + "=\"";
      s := PushEscaped(s, v);
      s := s + "\"";
      assert s == before + (if i == 0 then "" else ",") + Pair(labels[i]);
    }
    assert labels[..|labels|] == labels;
    s := s + "}";
  }

  lemma PairsNothing()
    ensures Pairs([]) == ""
  {
  }

  // ---- Reading it back --------------------------------------------------------

  /**
   * A quoted value, after its opening quote: the value and what follows it. A
   * line break in it must be escaped.
   */
  function ParseValue(t: Text): Option<(Text, Text)> {
    if t == "" then None
    else if t[0] == '"' then Some(("", t[1..]))
    else if t[0] == '\\' then
      if |t| < 2 || t[1] !in {'\\', '"', 'n'} then None else
        match ParseValue(t[2..])
        case None => None
        case Some((v, rest)) => Some(([if t[1] == 'n' then '\n' else t[1]] + v, rest))
    else if t[0] == '\n' then None
    else
      match ParseValue(t[1..])
      case None => None
      case Some((v, rest)) => Some(([t[0]] + v, rest))
  }

  predicate OpensAt(t: Text, i: nat) {
    i + 1 < |t| && t[i] == '=' && t[i + 1] == '"'
  }

  /** The place of the first `="` in `t`, or |t|. */
  function Find(t: Text): (i: nat)
    ensures i <= |t| && (i < |t| ==> OpensAt(t, i)) && forall k :: 0 <= k < i ==> !OpensAt(t, k)
  {
    if t == "" || OpensAt(t, 0) then 0 else
      assert forall k :: 1 <= k < |t| ==> OpensAt(t, k) == OpensAt(t[1..], k - 1);
      1 + Find(t[1..])
  }

  lemma {:induction false} ValueRestShrinks(t: Text)
    ensures ParseValue(t).Some? ==> |ParseValue(t).value.1| < |t|
  {
    if t != "" && t[0] != '"' {
      if t[0] == '\\' {
        if |t| >= 2 {
          ValueRestShrinks(t[2..]);
        }
      } else {
        ValueRestShrinks(t[1..]);
      }
    }
  }

  /** Comma-separated pairs up to the closing brace. */
  function ParsePairs(t: Text): Option<Labels>
    decreases |t|
  {
    var i := Find(t);
    if i == |t| then None else
      ValueRestShrinks(t[i + 2..]);
      match ParseValue(t[i + 2..])
      case None => None
      case Some((v, rest)) =>
        if rest == "}" then Some([(t[..i], v)])
        else if rest == "" || rest[0] != ',' then None
        else
          match ParsePairs(rest[1..])
          case None => None
          case Some(more) => Some([(t[..i], v)] + more)
  }

  function Parse(s: Text): Option<Labels> {
    if s == "{}" then Some([])
    else if s == "" || s[0] != '{' then None
    else ParsePairs(s[1..])
  }

  // One escaped character is read back as itself.
  lemma CharRoundTrip(c: char, tail: Text)
    ensures ParseValue(EscapeChar(c) + tail) ==
      if ParseValue(tail).None? then None
      else Some(([c] + ParseValue(tail).value.0, ParseValue(tail).value.1))
  {
    var t := EscapeChar(c) + tail;
    if c in {'\\', '"', '\n'} {
      assert t[2..] == tail;
    } else {
      assert t[1..] == tail;
    }
  }

  lemma {:induction false} ValueRoundTrip(v: Text, rest: Text)
    ensures ParseValue(Escape(v) + "\"" + rest) == Some((v, rest))
  {
    hide EscapeChar;
    if v == "" {
      assert (Escape(v) + "\"" + rest)[1..] == rest;
    } else {
      var head, tail := EscapeChar(v[0]), Escape(v[1..]);
      ValueRoundTrip(v[1..], rest);
      CharRoundTrip(v[0], tail + "\"" + rest);
      Reassociate(head, tail, "\"", rest);
      assert v == [v[0]] + v[1..];
    }
  }

  // A name is read up to the first `="`. Every identifier qualifies.
  predicate NameOk(name: Text) {
    forall i :: 0 <= i < |name| ==> !OpensAt(name, i)
  }

  predicate NamesOk(labels: Labels) {
    forall p :: p in labels ==> NameOk(p.0)
  }

  lemma {:induction false} FindFirst(name: Text, rest: Text)
    requires NameOk(name)
    ensures Find(name + "=\"" + rest) == |name|
  {
    var t := name + "=\"" + rest;
    if name == "" {
      assert OpensAt(t, 0);
    } else {
      assert t[1..] == name[1..] + "=\"" + rest;
      assert !OpensAt(name, 0) && t[0] == name[0];
      forall i | 0 <= i < |name[1..]| ensures !OpensAt(name[1..], i) {
        assert !OpensAt(name, i + 1);
      }
      FindFirst(name[1..], rest);
    }
  }

  lemma PairOpens(p: (Text, Text), rest: Text)
    requires NameOk(p.0)
    ensures
      var t := Pair(p) + rest;
      var i := |p.0|;
      && Find(t) == i && t[..i] == p.0 && OpensAt(t, i)
      && ParseValue(t[i + 2..]) == Some((p.1, rest))
  {
    hide Find, ParseValue, Escape;
    var t, e := Pair(p) + rest, Escape(p.1);
    assert t == p.0 + "=\"" + (e + "\"" + rest);
    FindFirst(p.0, e + "\"" + rest);
    assert t[|p.0| + 2..] == e + "\"" + rest;
    ValueRoundTrip(p.1, rest);
  }

  lemma PairsParts(labels: Labels)
    requires labels != []
    ensures |labels| == 1 ==> Pairs(labels) + "}" == Pair(labels[0]) + "}" && labels == [labels[0]]
    ensures |labels| > 1 ==>
      var rest := "," + (Pairs(labels[1..]) + "}");
      Pairs(labels) + "}" == Pair(labels[0]) + rest && rest[1..] == Pairs(labels[1..]) + "}"
  {
    hide Pair;
    if |labels| > 1 {
      Reassociate(Pair(labels[0]), ",", Pairs(labels[1..]), "}");
    }
  }

  lemma Reassociate(a: Text, b: Text, c: Text, d: Text)
    ensures ((a + b) + c) + d == a + (b + (c + d)) == a + ((b + c) + d)
    ensures (b + (c + d))[|b|..] == c + d
  {
  }

  lemma ParseStep(t: Text, name: Text, v: Text, rest: Text)
    requires
      var i := |name|;
      Find(t) == i && t[..i] == name && OpensAt(t, i) && ParseValue(t[i + 2..]) == Some((v, rest))
    ensures rest == "}" ==> ParsePairs(t) == Some([(name, v)])
    ensures |rest| > 1 && rest[0] == ',' && ParsePairs(rest[1..]).Some? ==>
      ParsePairs(t) == Some([(name, v)] + ParsePairs(rest[1..]).value)
  {
    hide Find, ParseValue;
  }

  lemma {:induction false} PairsRoundTrip(labels: Labels)
    requires labels != [] && NamesOk(labels)
    ensures ParsePairs(Pairs(labels) + "}") == Some(labels)
  {
    hide Pair, Pairs, ParseValue, ParsePairs, Find;
    PairsParts(labels);
    var (name, v) := labels[0];
    assert labels[0] in labels;
    if |labels| == 1 {
      PairOpens(labels[0], "}");
      ParseStep(Pair(labels[0]) + "}", name, v, "}");
    } else {
      var rest := "," + (Pairs(labels[1..]) + "}");
      PairOpens(labels[0], rest);
      PairsRoundTrip(labels[1..]);
      ParseStep(Pair(labels[0]) + rest, name, v, rest);
      assert labels == [labels[0]] + labels[1..];
    }
  }

  lemma NameBefore(t: Text)
    ensures NameOk(t[..Find(t)])
  {
    var i := Find(t);
    forall k | 0 <= k < i ensures !OpensAt(t[..i], k) {
      assert !OpensAt(t, k);
    }
  }

  // No name that is read back holds a `="`.
  lemma {:induction false} ParsedNamesOk(t: Text)
    requires ParsePairs(t).Some?
    ensures NamesOk(ParsePairs(t).value)
    decreases |t|
  {
    hide Find, ParseValue;
    var i := Find(t);
    NameBefore(t);
    var (v, rest) := ParseValue(t[i + 2..]).value;
    if rest != "}" {
      ValueRestShrinks(t[i + 2..]);
      ParsedNamesOk(rest[1..]);
    }
  }

  // Parsing a printed label set gives it back, whatever the values contain,
  // exactly when no name holds a `="`.
  lemma LabelStringRoundTrip(labels: Labels)
    ensures Parse("{" + Pairs(labels) + "}") == Some(labels) <==> NamesOk(labels)
  {
    hide Pairs, ParsePairs, NamesOk;
    var s := "{" + Pairs(labels) + "}";
    if labels == [] {
      PairsNothing();
      NoNames();
      assert s == "{}";
    } else {
      assert s[1..] == Pairs(labels) + "}";
      PairsNonEmpty(labels);
      assert |s| > 2;
      if NamesOk(labels) {
        PairsRoundTrip(labels);
      } else if ParsePairs(s[1..]).Some? {
        ParsedNamesOk(s[1..]);
      }
    }
  }

  lemma NoNames()
    ensures NamesOk([])
  {
  }

  lemma {:induction false} EscapedIsOneLine(v: Text)
    ensures '\n' !in Escape(v)
  {
    if v != "" {
      EscapedIsOneLine(v[1..]);
    }
  }

  // The printed set is one line if every name is.
  lemma {:induction false} PrintedIsOneLine(labels: Labels)
    requires forall p :: p in labels ==> '\n' !in p.0
    ensures '\n' !in "{" + Pairs(labels) + "}"
  {
    hide Escape;
    if labels != [] {
      assert labels[0] in labels;
      EscapedIsOneLine(labels[0].1);
      PrintedIsOneLine(labels[1..]);
      assert forall c :: c in Pairs(labels[1..]) ==> c in "{" + Pairs(labels[1..]) + "}";
    }
  }

  lemma PairsNonEmpty(labels: Labels)
    requires labels != []
    ensures |Pairs(labels)| > 0
  {
  }

  // Distinct streams never share a label string.
  lemma LabelStringInjective(a: Labels, b: Labels)
    requires NamesOk(a) && NamesOk(b) && "{" + Pairs(a) + "}" == "{" + Pairs(b) + "}"
    ensures a == b
  {
    LabelStringRoundTrip(a);
    LabelStringRoundTrip(b);
  }

  // A name with `="` in it can print like two labels; nothing checks for that.
  lemma UncheckedNamesCollide()
    ensures Pairs([("a=\"1\",b", "2")]) == Pairs([("a", "1"), ("b", "2")])
  {
    assert Escape("1") == "1" && Escape("2") == "2";
    assert [("a", "1"), ("b", "2")][1..] == [("b", "2")];
  }
}
