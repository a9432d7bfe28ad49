/** String helpers shared by the browser client and the server: whitespace
    trimming, ASCII lower-casing, substring search and joining with a
    separator. Strings are sequences of Unicode code points. */
module Text {

  /** Whose notion of whitespace a trim uses: JavaScript's `trim()` and
      Python's `str.strip()` agree on most characters but not all. */
  datatype Dialect = JavaScript | Python

  /** Whitespace for `trim()` (ECMAScript WhiteSpace and LineTerminator) and
      for `strip()` (`str.isspace`: category Zs or bidirectional class WS, B
      or S). Both take the ASCII controls tab to carriage return, the space,
      U+00A0, U+1680, U+2000 to U+200A, U+2028, U+2029, U+202F, U+205F and
      U+3000; only JavaScript takes U+FEFF, only Python the separators U+001C
      to U+001F and U+0085. */
  predicate IsSpace(d: Dialect, c: char) {
    || c == ' ' || '\t' <= c <= '\r'
    || c == '\U{A0}' || c == '\U{1680}' || '\U{2000}' <= c <= '\U{200A}'
    || c == '\U{2028}' || c == '\U{2029}' || c == '\U{202F}' || c == '\U{205F}' || c == '\U{3000}'
    || (d == JavaScript && c == '\U{FEFF}')
    || (d == Python && ('\U{1C}' <= c <= '\U{1F}' || c == '\U{85}'))
  }

  /** Drops leading whitespace; what remains is a suffix of `s`. */
  function TrimStart(d: Dialect, s: string): (r: string)
    ensures |r| <= |s| && r == s[|s| - |r|..]
    ensures r == [] || !IsSpace(d, r[0])
    ensures forall i :: 0 <= i < |s| - |r| ==> IsSpace(d, s[i])
  {
    if s != [] && IsSpace(d, s[0]) then TrimStart(d, s[1..]) else s
  }

  /** Drops trailing whitespace; what remains is a prefix of `s`. */
  function TrimEnd(d: Dialect, s: string): (r: string)
    ensures |r| <= |s| && r == s[..|r|]
    ensures r == [] || !IsSpace(d, r[|r| - 1])
    ensures forall i :: |r| <= i < |s| ==> IsSpace(d, s[i])
  {
    if s != [] && IsSpace(d, s[|s| - 1]) then TrimEnd(d, s[..|s| - 1]) else s
  }

  /** `r` is `s[a..b]` and everything of `s` outside that slice is
      whitespace. */
  predicate CutAt(d: Dialect, s: string, r: string, a: int, b: int) {
    && 0 <= a <= b <= |s| && r == s[a..b]
    && (forall i :: 0 <= i < a ==> IsSpace(d, s[i]))
    && (forall i :: b <= i < |s| ==> IsSpace(d, s[i]))
  }

  /** `trim()` / `strip()`: whitespace removed at both ends. */
  function Trim(d: Dialect, s: string): (r: string)
    ensures r == [] || (!IsSpace(d, r[0]) && !IsSpace(d, r[|r| - 1]))
    ensures r == [] <==> forall i :: 0 <= i < |s| ==> IsSpace(d, s[i])
  {
    var t := TrimStart(d, s);
    var r := TrimEnd(d, t);
    assert r == [] ==> t == [];
    r
  }

  /** The trimmed string is a slice of the input, and everything cut away on
      either side is whitespace. */
  lemma TrimIsCut(d: Dialect, s: string)
    ensures exists a, b :: CutAt(d, s, Trim(d, s), a, b)
  {
    var t := TrimStart(d, s);
    var r := TrimEnd(d, t);
    TrimsCut(d, s, t, r);
    assert CutAt(d, s, Trim(d, s), |s| - |t|, |s| - |t| + |r|);
  }

  /** A prefix of a suffix, each cut at whitespace, is a slice cut at
      whitespace. */
  lemma TrimsCut(d: Dialect, s: string, t: string, r: string)
    requires |t| <= |s| && t == s[|s| - |t|..] && forall i :: 0 <= i < |s| - |t| ==> IsSpace(d, s[i])
    requires |r| <= |t| && r == t[..|r|] && forall i :: |r| <= i < |t| ==> IsSpace(d, t[i])
    ensures CutAt(d, s, r, |s| - |t|, |s| - |t| + |r|)
  {
    var a := |s| - |t|;
    assert r == s[a..a + |r|] by {
      assert t == s[a..];
      assert r == t[..|r|];
    }
    forall i | a + |r| <= i < |s|
      ensures IsSpace(d, s[i])
    {
      assert s[i] == t[i - a];
    }
  }

  /** Trimming an already trimmed string changes nothing. */
  lemma TrimIdempotent(d: Dialect, s: string)
    ensures Trim(d, Trim(d, s)) == Trim(d, s)
  {
    var t := Trim(d, s);
    assert TrimStart(d, t) == t;
    assert TrimEnd(d, t) == t;
  }

  predicate IsUpper(c: char) {
    'A' <= c <= 'Z'
  }

  /** Lower-cases one ASCII letter and leaves every other character alone. */
  function LowerChar(c: char): (d: char)
    ensures IsUpper(c) ==> 'a' <= d <= 'z' && d as int - c as int == 'a' as int - 'A' as int
    ensures !IsUpper(c) ==> d == c
  {
    if IsUpper(c) then (c as int - 'A' as int + 'a' as int) as char else c
  }

  /** `toLowerCase()` / `lower()` restricted to ASCII letters. */
  function Lower(s: string): (r: string)
    ensures |r| == |s|
    ensures forall i :: 0 <= i < |s| ==> r[i] == LowerChar(s[i])
    ensures forall i :: 0 <= i < |r| ==> !IsUpper(r[i])
  {
    if s == [] then [] else [LowerChar(s[0])] + Lower(s[1..])
  }

  /** A string with no upper-case letter is its own lower-case form. */
  lemma {:induction false} LowerOfLowerIsIdentity(s: string)
    requires forall i :: 0 <= i < |s| ==> !IsUpper(s[i])
    ensures Lower(s) == s
  {
    if s != [] {
      LowerOfLowerIsIdentity(s[1..]);
    }
  }

  /** `sub` occurs in `s` starting at position `i`. */
  ghost predicate OccursAt(s: string, sub: string, i: int) {
    0 <= i && i + |sub| <= |s| && s[i..i + |sub|] == sub
  }

  /** Substring search: JavaScript's `includes` and Python's `in` on strings. */
  function Contains(s: string, sub: string): (r: bool)
    ensures r <==> exists i :: OccursAt(s, sub, i)
    decreases |s|
  {
    if |sub| > |s| then
      false
    else if s[..|sub|] == sub then
      assert OccursAt(s, sub, 0);
      true
    else
      var r := Contains(s[1..], sub);
      assert r ==> exists i :: OccursAt(s, sub, i) by {
        if r {
          var j :| OccursAt(s[1..], sub, j);
          assert s[1..][j..j + |sub|] == s[j + 1..j + 1 + |sub|];
          assert OccursAt(s, sub, j + 1);
        }
      }
      assert (exists i :: OccursAt(s, sub, i)) ==> r by {
        if exists i :: OccursAt(s, sub, i) {
          var i :| OccursAt(s, sub, i);
          assert i != 0;
          assert s[1..][i - 1..i - 1 + |sub|] == s[i..i + |sub|];
          assert OccursAt(s[1..], sub, i - 1);
        }
      }
      r
  }

  /** A string built around a pattern contains it. */
  lemma ContainsMiddle(before: string, sub: string, after: string)
    ensures Contains(before + sub + after, sub)
  {
    var s := before + sub + after;
    assert s[|before|..|before| + |sub|] == sub;
    assert OccursAt(s, sub, |before|);
  }

  /** A string cannot contain a pattern one of whose characters it lacks. */
  lemma MissingCharNotContained(s: string, sub: string, k: int)
    requires 0 <= k < |sub| && sub[k] !in s
    ensures !Contains(s, sub)
  {
  }

  /** Python's `sep.join(parts)`: the parts in order with `sep` between
      neighbours. */
  function Join(sep: string, parts: seq<string>): (r: string)
    ensures parts == [] ==> r == []
    ensures parts != [] ==> |parts[0]| <= |r| && r[..|parts[0]|] == parts[0]
    ensures parts != [] ==> |parts[|parts| - 1]| <= |r| && r[|r| - |parts[|parts| - 1]|..] == parts[|parts| - 1]
    ensures |r| == TotalLength(parts) + (if parts == [] then 0 else (|parts| - 1) * |sep|)
  {
    if parts == [] then []
    else if |parts| == 1 then parts[0]
    else
      var rest := Join(sep, parts[1..]);
      assert parts[1..][|parts| - 2] == parts[|parts| - 1];
      assert (|parts| - 1) * |sep| == |sep| + (|parts| - 2) * |sep|;
      parts[0] + sep + rest
  }

  /** Joining one more part appends a separator and that part: every part
      appears, in order, with exactly one separator between neighbours. */
  lemma {:induction false} JoinSnoc(sep: string, parts: seq<string>, p: string)
    requires parts != []
    ensures Join(sep, parts + [p]) == Join(sep, parts) + sep + p
    decreases |parts|
  {
    var all := parts + [p];
    assert all[0] == parts[0] && all[1..] == parts[1..] + [p];
    assert Join(sep, all) == parts[0] + sep + Join(sep, all[1..]);
    if |parts| == 1 {
      assert Join(sep, all[1..]) == p;
    } else {
      JoinSnoc(sep, parts[1..], p);
    }
  }

  /** Sum of the lengths of the parts. */
  function TotalLength(parts: seq<string>): nat {
    if parts == [] then 0 else |parts[0]| + TotalLength(parts[1..])
  }
}
