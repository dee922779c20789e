/** Strings made of fields between separator characters: JavaScript's split and join. */
module Texts {

  ghost predicate Lacks(s: string, c: char) {
    forall i :: 0 <= i < |s| ==> s[i] != c
  }

  /** The fields of x followed by a text with these fields. */
  function Prepended(x: char, parts: seq<string>, c: char): (r: seq<string>)
    requires parts != []
    ensures r != []
  {
    if x == c then [""] + parts else [[x] + parts[0]] + parts[1..]
  }

  function Split(s: string, c: char): (parts: seq<string>)
    ensures parts != []
  {
    if s == "" then [""] else Prepended(s[0], Split(s[1..], c), c)
  }

  function Join(parts: seq<string>, c: char): string {
    if parts == [] then ""
    else if |parts| == 1 then parts[0]
    else parts[0] + [c] + Join(parts[1..], c)
  }

  lemma JoinOfMore(first: string, rest: seq<string>, c: char)
    requires rest != []
    ensures Join([first] + rest, c) == first + [c] + Join(rest, c)
  {
    assert ([first] + rest)[1..] == rest;
  }

  lemma JoinPrepend(x: char, parts: seq<string>, c: char)
    requires parts != []
    ensures Join([[x] + parts[0]] + parts[1..], c) == [x] + Join(parts, c)
  {
    if |parts| > 1 {
      JoinOfMore([x] + parts[0], parts[1..], c);
      assert [x] + (parts[0] + [c] + Join(parts[1..], c)) == [x] + parts[0] + [c] + Join(parts[1..], c);
    }
  }

  lemma {:induction false} JoinOfSplit(s: string, c: char)
    ensures Join(Split(s, c), c) == s
  {
    hide Join;
    if s == "" {
      JoinOfOne("", c);
    } else {
      JoinOfSplit(s[1..], c);
      var rest := Split(s[1..], c);
      if s[0] == c { JoinOfMore("", rest, c); } else { JoinPrepend(s[0], rest, c); }
      assert [s[0]] + s[1..] == s;
    }
  }

  lemma JoinOfOne(part: string, c: char)
    ensures Join([part], c) == part
  {
  }

  /** The text before the first separator is the first field. */
  lemma {:induction false} SplitAfterField(a: string, b: string, c: char)
    requires Lacks(a, c)
    ensures Split(a + [c] + b, c) == [a] + Split(b, c)
  {
    var s := a + [c] + b;
    if a == "" {
      assert s[1..] == b;
    } else {
      SplitAfterField(a[1..], b, c);
      assert s[1..] == a[1..] + [c] + b;
      assert [a[0]] + a[1..] == a;
    }
  }

  lemma {:induction false} SplitOneField(a: string, c: char)
    requires Lacks(a, c)
    ensures Split(a, c) == [a]
  {
    if a != "" {
      SplitOneField(a[1..], c);
      assert [a[0]] + a[1..] == a;
    }
  }

  /** A separator-free field and what follows it can be told apart. */
  lemma FieldsAreUnique(a: string, b: string, a': string, b': string, c: char)
    requires Lacks(a, c) && Lacks(a', c) && a + [c] + b == a' + [c] + b'
    ensures a == a' && b == b'
  {
    SplitAfterField(a, b, c);
    SplitAfterField(a', b', c);
    assert a == ([a] + Split(b, c))[0] == ([a'] + Split(b', c))[0] == a';
    var s := a + [c] + b;
    assert b == s[|a| + 1..] && b' == (a' + [c] + b')[|a'| + 1..];
  }

  lemma PrependedConcat(x: char, front: seq<string>, back: seq<string>, c: char)
    requires front != []
    ensures Prepended(x, front + back, c) == Prepended(x, front, c) + back
  {
  }

  /** Splitting works field by field, whatever stands before the separator. */
  lemma {:induction false} SplitConcat(a: string, b: string, c: char)
    ensures Split(a + [c] + b, c) == Split(a, c) + Split(b, c)
  {
    var s := a + [c] + b;
    if a == "" {
      assert s[1..] == b;
    } else {
      hide Prepended;
      SplitConcat(a[1..], b, c);
      assert s[1..] == a[1..] + [c] + b && s[0] == a[0];
      PrependedConcat(a[0], Split(a[1..], c), Split(b, c), c);
    }
  }

  lemma {:induction false} FieldsLackSeparator(s: string, c: char)
    ensures forall i :: 0 <= i < |Split(s, c)| ==> Lacks(Split(s, c)[i], c)
  {
    if s != "" { FieldsLackSeparator(s[1..], c); }
  }
}
