/** String helpers the ledger relies on: ASCII lowercasing of payment types,
    the prefix form of SQL's LIKE used by the "today" queries, and joining /
    splitting lines on '\n'. */
module Text {

  predicate IsUpper(c: char) {
    'A' <= c <= 'Z'
  }

  /** Lowercase of one ASCII letter; every other character is left alone. */
  function LowerChar(c: char): char {
    if IsUpper(c) then (c as int - 'A' as int + 'a' as int) as char else c
  }

  /** ASCII lowercasing, enough for the five payment-method names. */
  function Lower(s: string): (r: string)
    ensures |r| == |s|
    ensures forall i :: 0 <= i < |r| ==> !IsUpper(r[i])
    ensures forall i :: 0 <= i < |s| && !IsUpper(s[i]) ==> r[i] == s[i]
    ensures forall i :: 0 <= i < |s| && IsUpper(s[i]) ==> r[i] as int == s[i] as int + 32
  {
    if |s| == 0 then "" else [LowerChar(s[0])] + Lower(s[1..])
  }

  /** Lowercasing twice is lowercasing once: the form lowercases the payment
      type and the store lowercases it again without changing it. */
  lemma {:induction false} LowerIdempotent(s: string)
    ensures Lower(Lower(s)) == Lower(s)
  {
    if |s| > 0 {
      LowerIdempotent(s[1..]);
    }
  }

  predicate StartsWith(s: string, prefix: string) {
    |prefix| <= |s| && s[..|prefix|] == prefix
  }

  /** One character of a LIKE pattern against one character of the subject:
      '_' matches anything, letters match ignoring ASCII case. */
  predicate LikeChar(c: char, p: char) {
    p == '_' || LowerChar(c) == LowerChar(p)
  }

  /** `s LIKE prefix || '%'`, with no '%' inside `prefix`. */
  predicate LikePrefix(s: string, prefix: string) {
    |prefix| <= |s| && forall i :: 0 <= i < |prefix| ==> LikeChar(s[i], prefix[i])
  }

  predicate IsDigitOrDash(c: char) {
    '0' <= c <= '9' || c == '-'
  }

  /** For a pattern of digits and dashes (a `YYYY-MM-DD` date), LIKE with a
      trailing '%' is exactly a prefix test. */
  lemma LikePrefixIsStartsWith(s: string, prefix: string)
    requires forall i :: 0 <= i < |prefix| ==> IsDigitOrDash(prefix[i])
    ensures LikePrefix(s, prefix) <==> StartsWith(s, prefix)
  {
    if LikePrefix(s, prefix) {
      forall i | 0 <= i < |prefix|
        ensures s[i] == prefix[i]
      {
        assert LikeChar(s[i], prefix[i]);
        assert LowerChar(prefix[i]) == prefix[i];
      }
      assert s[..|prefix|] == prefix;
    }
    if StartsWith(s, prefix) {
      forall i | 0 <= i < |prefix|
        ensures LikeChar(s[i], prefix[i])
      {
        assert s[i] == s[..|prefix|][i];
      }
    }
  }

  /** Python's `"\n".join(lines)`. */
  function Join(lines: seq<string>): string {
    if |lines| == 0 then ""
    else if |lines| == 1 then lines[0]
    else lines[0] + "\n" + Join(lines[1..])
  }

  /** Index of the first '\n' in `s`, or |s| when there is none. */
  function NewlineIndex(s: string): (i: nat)
    ensures i <= |s|
    ensures i < |s| ==> s[i] == '\n'
    ensures forall j :: 0 <= j < i ==> s[j] != '\n'
  {
    if |s| == 0 then 0
    else if s[0] == '\n' then 0
    else 1 + NewlineIndex(s[1..])
  }

  /** Python's `s.split("\n")`: always at least one piece. */
  function Split(s: string): (r: seq<string>)
    ensures |r| >= 1
    ensures forall k :: 0 <= k < |r| ==> '\n' !in r[k]
    decreases |s|
  {
    var i := NewlineIndex(s);
    if i == |s| then [s] else [s[..i]] + Split(s[i + 1..])
  }

  lemma NewlineIndexAfterLine(a: string, rest: string)
    requires '\n' !in a
    ensures NewlineIndex(a + "\n" + rest) == |a|
  {
    var s := a + "\n" + rest;
    var i := NewlineIndex(s);
    assert s[|a|] == '\n';
    assert forall j :: 0 <= j < |a| ==> s[j] == a[j];
  }

  /** Splitting the joined lines gives the lines back, provided no line
      contains a newline of its own. */
  lemma {:induction false} SplitJoin(lines: seq<string>)
    requires |lines| >= 1
    requires forall k :: 0 <= k < |lines| ==> '\n' !in lines[k]
    ensures Split(Join(lines)) == lines
  {
    if |lines| == 1 {
      assert Join(lines) == lines[0];
      assert NewlineIndex(lines[0]) == |lines[0]|;
    } else {
      var a := lines[0];
      var rest := Join(lines[1..]);
      var s := a + "\n" + rest;
      assert Join(lines) == s;
      NewlineIndexAfterLine(a, rest);
      assert s[..|a|] == a;
      assert s[|a| + 1..] == rest;
      SplitJoin(lines[1..]);
      assert lines == [a] + lines[1..];
    }
  }
}
