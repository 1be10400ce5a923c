/** Python's `split` and `join`, of text or bytes, for a separator of one element. */
module Strings {

  /** Python's `s.split(separator)`. */
  function Split<T(==)>(s: seq<T>, separator: T): (parts: seq<seq<T>>)
    ensures parts != []
  {
    if s == [] then [[]]
    else if s[0] == separator then [[]] + Split(s[1..], separator)
    else
      var rest := Split(s[1..], separator);
      [[s[0]] + rest[0]] + rest[1..]
  }

  /** Python's `separator.join(parts)`. */
  function Join(parts: seq<string>, separator: char): string {
    if parts == [] then ""
    else if |parts| == 1 then parts[0]
    else Join(parts[..|parts| - 1], separator) + [separator] + parts[|parts| - 1]
  }

  lemma {:induction false} SplitWord(word: string, separator: char)
    requires separator !in word
    ensures Split(word, separator) == [word]
  {
    if word != "" {
      assert word[0] in word;
      SplitWord(word[1..], separator);
      assert word == [word[0]] + word[1..];
    }
  }

  /** Splitting cuts at every separator, whatever stands before and behind it. */
  lemma {:induction false} SplitConcat<T>(s: seq<T>, u: seq<T>, separator: T)
    ensures Split(s + [separator] + u, separator) == Split(s, separator) + Split(u, separator)
  {
    var all := s + [separator] + u;
    if s == [] {
      assert all[0] == separator && all[1..] == u;
    } else {
      SplitConcat(s[1..], u, separator);
      assert all[0] == s[0] && all[1..] == s[1..] + [separator] + u;
    }
  }

  lemma SplitLast(s: string, word: string, separator: char)
    requires separator !in word
    ensures Split(s + [separator] + word, separator) == Split(s, separator) + [word]
  {
    SplitConcat(s, word, separator);
    SplitWord(word, separator);
  }

  /** No part contains the separator. */
  lemma {:induction false} SplitParts(s: string, separator: char)
    ensures forall part :: part in Split(s, separator) ==> separator !in part
  {
    if s != "" {
      SplitParts(s[1..], separator);
      var rest := Split(s[1..], separator);
      assert rest[0] in rest && forall part :: part in rest[1..] ==> part in rest;
    }
  }

  /** Joining and splitting returns the same parts. */
  lemma {:induction false} SplitJoin(parts: seq<string>, separator: char)
    requires parts != [] && forall part :: part in parts ==> separator !in part
    ensures Split(Join(parts, separator), separator) == parts
  {
    var last := |parts| - 1;
    assert parts == parts[..last] + [parts[last]];
    if last == 0 {
      SplitWord(parts[0], separator);
    } else {
      SplitJoin(parts[..last], separator);
      SplitLast(Join(parts[..last], separator), parts[last], separator);
    }
  }
}
