/** The fixture file name of an operator (webnn/resources/utils.js:79-85): every
    capital letter of the camelCase operator name becomes an underscore followed by
    the lower-case letter, so `leakyRelu` is read from `leaky_relu.json`. */
module Names {
  import opened Values

  predicate IsUpper(c: char) { 'A' <= c <= 'Z' }

  predicate IsLower(c: char) { 'a' <= c <= 'z' }

  /** `c.toLowerCase()` on a capital letter. */
  function Lower(c: char): (l: char)
    requires IsUpper(c)
    ensures IsLower(l)
  {
    (c as int - 'A' as int + 'a' as int) as char
  }

  /** The inverse of `Lower`. */
  function Upper(c: char): (u: char)
    requires IsLower(c)
    ensures IsUpper(u) && Lower(u) == c
  {
    (c as int - 'a' as int + 'A' as int) as char
  }

  /** `name.match(/[A-Z]/g)`: the capital letters in order (an empty list where the
      source gets `null` and skips the loop). */
  function Capitals(name: string): (cs: seq<char>)
    ensures forall k | 0 <= k < |cs| :: IsUpper(cs[k])
    ensures |cs| <= |name|
  {
    if |name| == 0 then []
    else if IsUpper(name[0]) then [name[0]] + Capitals(name[1..])
    else Capitals(name[1..])
  }

  /** `s.replace(c, r)` with a one-letter string pattern: only the first occurrence
      is replaced. */
  function ReplaceFirst(s: string, c: char, r: string): (t: string)
    ensures IndexOf(s, c) == -1 ==> t == s
    ensures IndexOf(s, c) >= 0 ==> |t| == |s| - 1 + |r|
  {
    var i := IndexOf(s, c);
    if i == -1 then s else s[..i] + r + s[i + 1..]
  }

  /** The `forEach` over the matches, each replacing the first occurrence of its
      letter in the name as rewritten so far. */
  function ReplaceEach(name: string, capitals: seq<char>): string
    requires forall k | 0 <= k < |capitals| :: IsUpper(capitals[k])
    decreases |capitals|
  {
    if |capitals| == 0 then name
    else ReplaceEach(ReplaceFirst(name, capitals[0], ['_', Lower(capitals[0])]), capitals[1..])
  }

  /** The fixture name as `loadTests` computes it. */
  function FixtureName(operationName: string): string
  {
    ReplaceEach(operationName, Capitals(operationName))
  }

  /** The reference reading: each capital letter `X` becomes `_x`, every other
      character stays. */
  function Snake(name: string): (s: string)
    ensures forall k | 0 <= k < |s| :: !IsUpper(s[k])
    ensures |s| == |name| + |Capitals(name)|
  {
    if |name| == 0 then ""
    else (if IsUpper(name[0]) then ['_', Lower(name[0])] else [name[0]]) + Snake(name[1..])
  }

  /** The reverse mapping: `_x` becomes `X`, every other character stays. */
  function Camel(name: string): string
  {
    if |name| >= 2 && name[0] == '_' && IsLower(name[1]) then [Upper(name[1])] + Camel(name[2..])
    else if |name| == 0 then ""
    else [name[0]] + Camel(name[1..])
  }

  /** Replacing the first occurrence one capital at a time converts every capital:
      the first remaining occurrence of each matched letter is the one the match
      found, because the capitals before it are already converted. */
  lemma FixtureNameIsSnake(operationName: string)
    ensures FixtureName(operationName) == Snake(operationName)
  {
    assert "" + operationName == operationName;
    ReplaceEachConverts("", operationName);
  }

  lemma {:induction false} ReplaceEachConverts(done: string, rest: string)
    requires forall k | 0 <= k < |done| :: !IsUpper(done[k])
    ensures ReplaceEach(done + rest, Capitals(rest)) == done + Snake(rest)
    decreases |rest|
  {
    if |rest| == 0 {
      assert done + rest == done;
    } else {
      var converted := ConvertFirst(done, rest);
      ReplaceEachConverts(converted, rest[1..]);
    }
  }

  /** One step of the conversion: the first character of the rest moves, converted,
      onto the converted prefix. */
  lemma ConvertFirst(done: string, rest: string) returns (converted: string)
    requires forall k | 0 <= k < |done| :: !IsUpper(done[k])
    requires |rest| > 0
    ensures forall k | 0 <= k < |converted| :: !IsUpper(converted[k])
    ensures ReplaceEach(done + rest, Capitals(rest)) == ReplaceEach(converted + rest[1..], Capitals(rest[1..]))
    ensures done + Snake(rest) == converted + Snake(rest[1..])
  {
    if IsUpper(rest[0]) {
      converted := ConvertCapital(done, rest);
    } else {
      converted := ConvertOther(done, rest);
    }
  }

  lemma ConvertOther(done: string, rest: string) returns (converted: string)
    requires forall k | 0 <= k < |done| :: !IsUpper(done[k])
    requires |rest| > 0 && !IsUpper(rest[0])
    ensures converted == done + [rest[0]]
    ensures ReplaceEach(done + rest, Capitals(rest)) == ReplaceEach(converted + rest[1..], Capitals(rest[1..]))
    ensures done + Snake(rest) == converted + Snake(rest[1..])
  {
    converted := done + [rest[0]];
    assert done + rest == converted + rest[1..];
    assert Capitals(rest) == Capitals(rest[1..]);
    SnakeOfOther(rest);
    assert done + ([rest[0]] + Snake(rest[1..])) == converted + Snake(rest[1..]);
  }

  lemma SnakeOfOther(rest: string)
    requires |rest| > 0 && !IsUpper(rest[0])
    ensures Snake(rest) == [rest[0]] + Snake(rest[1..])
  {
  }

  lemma ConvertCapital(done: string, rest: string) returns (converted: string)
    requires forall k | 0 <= k < |done| :: !IsUpper(done[k])
    requires |rest| > 0 && IsUpper(rest[0])
    ensures converted == done + ['_', Lower(rest[0])]
    ensures ReplaceEach(done + rest, Capitals(rest)) == ReplaceEach(converted + rest[1..], Capitals(rest[1..]))
    ensures done + Snake(rest) == converted + Snake(rest[1..])
  {
    converted := done + ['_', Lower(rest[0])];
    ReplaceCapital(done, rest);
    CapitalsOfCapital(rest);
    ReplaceEachStep(done + rest, Capitals(rest));
    SnakeOfCapital(done, rest);
  }

  lemma ReplaceEachStep(name: string, capitals: seq<char>)
    requires |capitals| > 0 && forall k | 0 <= k < |capitals| :: IsUpper(capitals[k])
    ensures ReplaceEach(name, capitals)
         == ReplaceEach(ReplaceFirst(name, capitals[0], ['_', Lower(capitals[0])]), capitals[1..])
  {
  }

  lemma SnakeOfCapital(done: string, rest: string)
    requires |rest| > 0 && IsUpper(rest[0])
    ensures done + Snake(rest) == done + ['_', Lower(rest[0])] + Snake(rest[1..])
  {
    assert Snake(rest) == ['_', Lower(rest[0])] + Snake(rest[1..]);
  }

  lemma CapitalsOfCapital(rest: string)
    requires |rest| > 0 && IsUpper(rest[0])
    ensures Capitals(rest)[0] == rest[0] && Capitals(rest)[1..] == Capitals(rest[1..])
  {
    assert Capitals(rest) == [rest[0]] + Capitals(rest[1..]);
  }

  lemma ReplaceCapital(done: string, rest: string)
    requires forall k | 0 <= k < |done| :: !IsUpper(done[k])
    requires |rest| > 0 && IsUpper(rest[0])
    ensures ReplaceFirst(done + rest, rest[0], ['_', Lower(rest[0])]) == done + ['_', Lower(rest[0])] + rest[1..]
  {
    var s := done + rest;
    FirstAfterConverted(done, rest);
    assert s[..|done|] == done;
    assert s[|done| + 1..] == rest[1..];
  }

  /** A capital right after a converted prefix is the first occurrence of its letter. */
  lemma {:induction false} FirstAfterConverted(done: string, rest: string)
    requires forall k | 0 <= k < |done| :: !IsUpper(done[k])
    requires |rest| > 0 && IsUpper(rest[0])
    ensures IndexOf(done + rest, rest[0]) == |done|
  {
    var s := done + rest;
    assert s[|done|] == rest[0];
    assert forall j | 0 <= j < |done| :: s[j] == done[j];
  }

  /** For a name without underscores the mapping loses nothing: reading the fixture
      name back gives the operator name. */
  lemma {:induction false} CamelOfSnake(name: string)
    requires forall k | 0 <= k < |name| :: name[k] != '_'
    ensures Camel(Snake(name)) == name
    decreases |name|
  {
    if |name| > 0 {
      var tail := name[1..];
      CamelOfSnake(tail);
      if IsUpper(name[0]) {
        assert Snake(name) == ['_', Lower(name[0])] + Snake(tail);
        assert Snake(name)[2..] == Snake(tail);
      } else {
        assert Snake(name) == [name[0]] + Snake(tail);
        assert Snake(name)[1..] == Snake(tail);
      }
    }
  }

  /** The mapping works piece by piece. */
  lemma {:induction false} SnakeAppend(a: string, b: string)
    ensures Snake(a + b) == Snake(a) + Snake(b)
    decreases |a|
  {
    if |a| == 0 {
      assert a + b == b;
    } else {
      assert (a + b)[1..] == a[1..] + b;
      SnakeAppend(a[1..], b);
    }
  }
}
