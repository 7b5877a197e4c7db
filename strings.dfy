/** Splitting text into the fields between separator characters. */
module Strings {
  /** The fields of s between occurrences of sep, in order; "" gives one empty field. */
  function Fields(s: string, sep: char): (r: seq<string>)
    ensures |r| > 0
  {
    if s == [] then [""]
    else if s[0] == sep then [""] + Fields(s[1..], sep)
    else var rest := Fields(s[1..], sep); [[s[0]] + rest[0]] + rest[1..]
  }

  lemma {:induction false} FieldsOfField(a: string, sep: char, rest: string)
    requires sep !in a
    ensures Fields(a + [sep] + rest, sep) == [a] + Fields(rest, sep)
    decreases |a|
  {
    if a == [] {
      assert a + [sep] + rest == [sep] + rest;
      assert ([sep] + rest)[1..] == rest;
    } else {
      var s := a + [sep] + rest;
      assert s[0] == a[0] && s[1..] == a[1..] + [sep] + rest;
      FieldsOfField(a[1..], sep, rest);
      assert [a[0]] + a[1..] == a;
    }
  }

  lemma {:induction false} FieldsOfLast(a: string, sep: char)
    requires sep !in a
    ensures Fields(a, sep) == [a]
    decreases |a|
  {
    if a != [] {
      FieldsOfLast(a[1..], sep);
      assert [a[0]] + a[1..] == a;
    }
  }
}
