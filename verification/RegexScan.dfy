/** The parenthesis scan that guards user-supplied patterns
    (packages/core/src/validation/script-config.ts). */
module RegexScan {

  /** What follows the first closing bracket. */
  function AfterClass(s: string): (rest: string)
    ensures |rest| <= |s| && (s != "" ==> |rest| < |s|)
  {
    if s == "" then "" else if s[0] == ']' then s[1..] else AfterClass(s[1..])
  }

  /** The parentheses of a pattern that are neither escaped nor inside a character class. */
  function Groups(s: string): string
    decreases |s|
  {
    if s == "" then ""
    else if s[0] == '\\' then (if |s| == 1 then "" else Groups(s[2..]))
    else if s[0] == '[' then Groups(AfterClass(s))
    else if s[0] == '(' || s[0] == ')' then [s[0]] + Groups(s[1..])
    else Groups(s[1..])
  }

  // ---- The same by tokens ----

  /** What a pattern consists of: escaped characters, character classes, parentheses, the rest. */
  datatype Token = Escape(c: char) | Class(members: string) | Paren(opens: bool) | Other(c: char)

  predicate WellFormed(t: Token) {
    match t
    case Class(members) => ']' !in members
    case Other(c) => c !in {'\\', '[', '(', ')'}
    case _ => true
  }

  function Render(t: Token): string {
    match t
    case Escape(c) => ['\\', c]
    case Class(members) => "[" + members + "]"
    case Paren(opens) => if opens then "(" else ")"
    case Other(c) => [c]
  }

  function RenderAll(ts: seq<Token>): string {
    if ts == [] then "" else Render(ts[0]) + RenderAll(ts[1..])
  }

  function Parens(ts: seq<Token>): string {
    if ts == [] then ""
    else (match ts[0] case Paren(opens) => (if opens then "(" else ")") case _ => "") + Parens(ts[1..])
  }

  /** What may follow the last token: a lone backslash or a class that is never closed. */
  predicate Unfinished(s: string) {
    s == "" || s == "\\" || (s[0] == '[' && ']' !in s)
  }

  /** The scan looks at exactly the parentheses among the tokens ... */
  lemma {:induction false} GroupsAreParens(ts: seq<Token>, tail: string)
    requires (forall t :: t in ts ==> WellFormed(t)) && Unfinished(tail)
    ensures Groups(RenderAll(ts) + tail) == Parens(ts)
  {
    if ts == [] {
      assert RenderAll(ts) + tail == tail;
      if tail != "" && tail[0] == '[' { NeverClosed(tail); }
    } else {
      var rest := RenderAll(ts[1..]) + tail;
      assert ts == [ts[0]] + ts[1..];
      GroupsAreParens(ts[1..], tail);
      assert RenderAll(ts) + tail == Render(ts[0]) + rest;
      OneToken(ts[0], rest);
    }
  }

  lemma OneToken(t: Token, rest: string)
    requires WellFormed(t)
    ensures Groups(Render(t) + rest) == (match t case Paren(opens) => (if opens then "(" else ")") case _ => "") + Groups(rest)
  {
    var s := Render(t) + rest;
    match t
    case Escape(c) => assert s[2..] == rest;
    case Class(members) => ClassEnds("[" + members, rest); assert s == "[" + members + "]" + rest;
    case Paren(_) => assert s[1..] == rest;
    case Other(_) => assert s[1..] == rest;
  }

  lemma {:induction false} ClassEnds(s: string, rest: string)
    requires ']' !in s
    ensures AfterClass(s + "]" + rest) == rest
  {
    if s == "" {
      assert (s + "]" + rest)[1..] == rest;
    } else {
      ClassEnds(s[1..], rest);
      assert (s + "]" + rest)[1..] == s[1..] + "]" + rest;
    }
  }

  lemma {:induction false} NeverClosed(s: string)
    requires ']' !in s
    ensures AfterClass(s) == ""
  {
    if s != "" { NeverClosed(s[1..]); }
  }

  /** ... and every pattern is such a sequence of tokens. */
  lemma {:induction false} ReadTokens(s: string) returns (ts: seq<Token>, tail: string)
    ensures (forall t :: t in ts ==> WellFormed(t)) && Unfinished(tail) && RenderAll(ts) + tail == s
    decreases |s|
  {
    if Unfinished(s) {
      ts, tail := [], s;
    } else {
      var t, rest := FirstToken(s);
      ts, tail := ReadTokens(rest);
      assert RenderAll([t] + ts) + tail == Render(t) + rest by { assert ([t] + ts)[1..] == ts; }
      ts := [t] + ts;
    }
  }

  lemma FirstToken(s: string) returns (t: Token, rest: string)
    requires !Unfinished(s)
    ensures WellFormed(t) && Render(t) + rest == s && |rest| < |s|
  {
    if s[0] == '\\' {
      t, rest := Escape(s[1]), s[2..];
    } else if s[0] == '[' {
      var i := 1;
      while s[i] != ']'
        invariant 1 <= i < |s| && ']' !in s[..i] && ']' in s[i..]
        decreases |s| - i
      {
        assert s[i..] == [s[i]] + s[i + 1..] && s[..i + 1] == s[..i] + [s[i]];
        i := i + 1;
      }
      t, rest := Class(s[1..i]), s[i + 1..];
      assert "[" + s[1..i] + "]" + s[i + 1..] == s;
    } else if s[0] == '(' || s[0] == ')' {
      t, rest := Paren(s[0] == '('), s[1..];
    } else {
      t, rest := Other(s[0]), s[1..];
    }
  }

  // ---- Proper nesting ----

  /** A properly nested text: nothing, or a group followed by more. */
  datatype Nesting = Nothing | Group(inside: Nesting, after: Nesting)

  function Text(n: Nesting): string {
    match n
    case Nothing => ""
    case Group(inside, after) => "(" + Text(inside) + ")" + Text(after)
  }

  ghost predicate ProperlyNested(s: string) {
    exists n :: Text(n) == s
  }

  /** Reading s with `depth` groups open never closes one too many and ends with none open. */
  predicate Closes(s: string, depth: nat) {
    if s == "" then depth == 0
    else if s[0] == '(' then Closes(s[1..], depth + 1)
    else s[0] == ')' && depth > 0 && Closes(s[1..], depth - 1)
  }

  /** Nested texts with a closing parenthesis between each two. */
  function Chain(ns: seq<Nesting>): string
    requires ns != []
  {
    if |ns| == 1 then Text(ns[0]) else Text(ns[0]) + ")" + Chain(ns[1..])
  }

  lemma {:induction false} ParseChain(s: string, depth: nat) returns (ns: seq<Nesting>)
    requires Closes(s, depth)
    ensures |ns| == depth + 1 && Chain(ns) == s
  {
    if s == "" {
      ns := [Nothing];
    } else if s[0] == '(' {
      var rest := ParseChain(s[1..], depth + 1);
      ns := [Group(rest[0], rest[1])] + rest[2..];
      OpenChain(rest);
      assert s == "(" + s[1..];
    } else {
      var rest := ParseChain(s[1..], depth - 1);
      ns := [Nothing] + rest;
      assert ns[1..] == rest && s == ")" + s[1..];
    }
  }

  lemma OpenChain(ns: seq<Nesting>)
    requires |ns| >= 2
    ensures Chain([Group(ns[0], ns[1])] + ns[2..]) == "(" + Chain(ns)
  {
    hide Chain, Text;
    var group, more := Group(ns[0], ns[1]), ns[2..];
    assert ns == [ns[0]] + ([ns[1]] + more);
    ChainOfMore(ns[0], [ns[1]] + more);
    GroupText(ns[0], ns[1]);
    if more == [] {
      ChainOfOne(ns[1]);
      ChainOfOne(group);
      assert [group] + more == [group] && [ns[1]] + more == [ns[1]];
    } else {
      ChainOfMore(ns[1], more);
      ChainOfMore(group, more);
      Regroup(Text(ns[0]), Text(ns[1]), Chain(more));
    }
  }

  lemma Regroup(x: string, y: string, z: string)
    ensures ("(" + x + ")" + y) + ")" + z == "(" + (x + ")" + (y + ")" + z))
  {
  }

  lemma ChainOfOne(n: Nesting)
    ensures Chain([n]) == Text(n)
  {
  }

  lemma GroupText(inside: Nesting, after: Nesting)
    ensures Text(Group(inside, after)) == "(" + Text(inside) + ")" + Text(after)
  {
  }

  lemma ChainOfMore(n: Nesting, more: seq<Nesting>)
    requires more != []
    ensures Chain([n] + more) == Text(n) + ")" + Chain(more)
  {
    assert ([n] + more)[1..] == more;
  }

  lemma {:induction false} NestedCloses(n: Nesting, rest: string, depth: nat)
    ensures Closes(Text(n) + rest, depth) == Closes(rest, depth)
  {
    match n
    case Nothing => assert Text(n) + rest == rest;
    case Group(inside, after) =>
      var s, tail := Text(n) + rest, Text(after) + rest;
      assert s[1..] == Text(inside) + (")" + tail);
      NestedCloses(inside, ")" + tail, depth + 1);
      assert (")" + tail)[1..] == tail;
      NestedCloses(after, rest, depth);
  }

  /** Counting parentheses recognises exactly the properly nested texts. */
  lemma ClosesIffNested(s: string)
    ensures Closes(s, 0) <==> ProperlyNested(s)
  {
    if Closes(s, 0) {
      var ns := ParseChain(s, 0);
      assert Text(ns[0]) == s;
    }
    if ProperlyNested(s) {
      var n :| Text(n) == s;
      NestedCloses(n, "", 0);
      assert Text(n) + "" == s;
    }
  }

  function From(s: string, i: nat): string {
    if i <= |s| then s[i..] else ""
  }

  /** The scan accepts a pattern exactly when its groups nest properly. */
  method ParenthesesNest(value: string) returns (ok: bool)
    ensures ok <==> ProperlyNested(Groups(value))
  {
    hide ProperlyNested, Groups, Closes, AfterClass;
    ClosesIffNested(Groups(value));
    var depth: int, i := 0, 0;
    while i < |value|
      invariant i <= |value| + 1 && depth >= 0
      invariant Closes(Groups(value), 0) == Closes(Groups(From(value, i)), depth)
    {
      var c := value[i];
      if c == '\\' {
        EscapeRead(value, i);
        i := i + 2;
      } else if c == '[' {
        ClassRead(value, i);
        ghost var start := i;
        while i < |value| && value[i] != ']'
          invariant start <= i <= |value|
          invariant AfterClass(From(value, start)) == AfterClass(From(value, i))
        {
          InClass(value, i);
          i := i + 1;
        }
        InClass(value, i);
        i := i + 1;
      } else {
        ParenthesisRead(value, i, depth);
        if c == '(' { depth := depth + 1; }
        else if c == ')' { depth := depth - 1; }
        if depth < 0 { return false; }
        i := i + 1;
      }
    }
    AllRead(value, i, depth);
    ok := depth == 0;
  }

  lemma AllRead(value: string, i: nat, depth: nat)
    requires i >= |value|
    ensures Closes(Groups(From(value, i)), depth) == (depth == 0)
  {
  }

  lemma EscapeRead(value: string, i: nat)
    requires i < |value| && value[i] == '\\'
    ensures Groups(From(value, i)) == Groups(From(value, i + 2))
  {
    assert i + 1 < |value| ==> From(value, i)[2..] == From(value, i + 2);
  }

  lemma ClassRead(value: string, i: nat)
    requires i < |value| && value[i] == '['
    ensures Groups(From(value, i)) == Groups(AfterClass(From(value, i)))
  {
  }

  lemma InClass(value: string, i: nat)
    requires i <= |value|
    ensures AfterClass(From(value, i))
            == if i < |value| && value[i] != ']' then AfterClass(From(value, i + 1)) else From(value, i + 1)
  {
    assert i < |value| ==> From(value, i)[1..] == From(value, i + 1);
  }

  lemma ParenthesisRead(value: string, i: nat, depth: nat)
    requires i < |value| && value[i] != '\\' && value[i] != '['
    ensures var rest := Groups(From(value, i + 1));
            Closes(Groups(From(value, i)), depth)
            == if value[i] == '(' then Closes(rest, depth + 1)
               else if value[i] == ')' then depth > 0 && Closes(rest, depth - 1)
               else Closes(rest, depth)
  {
    var s := From(value, i);
    assert s[1..] == From(value, i + 1);
    if s[0] == '(' || s[0] == ')' { assert Groups(s)[1..] == Groups(s[1..]); }
  }
}
