/**
 * The few PHP string built-ins the block relies on: truthiness of a string
 * (`if ($s)`), `explode(',', $s)` and `join(',', $parts)`.
 */
module Strings {

  /** PHP converts a string to false exactly when it is "" or "0". */
  predicate Truthy(s: string) {
    s != "" && s != "0"
  }

  /** `explode(d, s)`: the pieces of `s` between occurrences of `d`. */
  function Split(s: string, d: char): (parts: seq<string>)
    ensures |parts| >= 1
    ensures forall i :: 0 <= i < |parts| ==> d !in parts[i]
    decreases |s|
  {
    if s == [] then [[]]
    else if s[0] == d then [[]] + Split(s[1..], d)
    else
      var rest := Split(s[1..], d);
      [[s[0]] + rest[0]] + rest[1..]
  }

  /** `join(d, parts)`: the parts with `d` between neighbours. */
  function Join(parts: seq<string>, d: char): string
  {
    if parts == [] then []
    else if |parts| == 1 then parts[0]
    else parts[0] + [d] + Join(parts[1..], d)
  }

  /** Joining what was split gives back the original string. */
  lemma {:induction false} JoinSplit(s: string, d: char)
    ensures Join(Split(s, d), d) == s
    decreases |s|
  {
    if s == [] {
    } else if s[0] == d {
      JoinSplit(s[1..], d);
      var rest := Split(s[1..], d);
      assert Split(s, d) == [[]] + rest;
      assert Split(s, d)[1..] == rest;
      assert s == [d] + s[1..];
    } else {
      JoinSplit(s[1..], d);
      var rest := Split(s[1..], d);
      var head := [s[0]] + rest[0];
      assert Split(s, d) == [head] + rest[1..];
      if |rest| == 1 {
        assert Join(rest, d) == rest[0];
      } else {
        assert ([head] + rest[1..])[1..] == rest[1..];
        assert Join(rest, d) == rest[0] + [d] + Join(rest[1..], d);
      }
      assert s == [s[0]] + s[1..];
    }
  }

  /** Splitting what was joined gives back the parts, provided none of them holds the delimiter. */
  lemma {:induction false} SplitJoin(parts: seq<string>, d: char)
    requires |parts| >= 1
    requires forall i :: 0 <= i < |parts| ==> d !in parts[i]
    ensures Split(Join(parts, d), d) == parts
    decreases |parts|
  {
    if |parts| == 1 {
      SplitNoDelimiter(parts[0], d);
    } else {
      SplitJoin(parts[1..], d);
      SplitAppend(parts[0], Join(parts[1..], d), d);
    }
  }

  /** A string without the delimiter splits into itself. */
  lemma {:induction false} SplitNoDelimiter(s: string, d: char)
    requires d !in s
    ensures Split(s, d) == [s]
    decreases |s|
  {
    if s != [] {
      SplitNoDelimiter(s[1..], d);
      assert s == [s[0]] + s[1..];
    }
  }

  /** Splitting `p + [d] + t`, where `p` has no delimiter, puts `p` in front of the pieces of `t`. */
  lemma {:induction false} SplitAppend(p: string, t: string, d: char)
    requires d !in p
    ensures Split(p + [d] + t, d) == [p] + Split(t, d)
    decreases |p|
  {
    if p == [] {
      assert p + [d] + t == [d] + t;
      assert ([d] + t)[1..] == t;
    } else {
      SplitAppend(p[1..], t, d);
      var s := p + [d] + t;
      assert s[0] == p[0];
      assert s[1..] == p[1..] + [d] + t;
      assert [p[0]] + p[1..] == p;
    }
  }
}
