/**
  The JavaScript string operations the TypeScript code relies on, stated over
  `seq<char>`: whitespace as `\s` and `trim()` see it, ASCII lower-casing,
  `includes`, `indexOf`, first-occurrence `replace`, `startsWith`, `endsWith`,
  and the truthiness of an optional string; and the byte of a buffer.
*/
module Text {
  import opened Wrappers

  newtype byte = b: int | 0 <= b < 256

  /** The ECMAScript WhiteSpace and LineTerminator characters: what `\s` matches and `trim()` removes. */
  predicate IsSpace(c: char) {
    || ('\t' <= c <= '\r') || c == ' ' || c == '\U{00A0}' || c == '\U{1680}'
    || ('\U{2000}' <= c <= '\U{200A}') || c == '\U{2028}' || c == '\U{2029}'
    || c == '\U{202F}' || c == '\U{205F}' || c == '\U{3000}' || c == '\U{FEFF}'
  }

  predicate IsUpper(c: char) { 'A' <= c <= 'Z' }
  predicate IsLowerOrDigit(c: char) { 'a' <= c <= 'z' || '0' <= c <= '9' }

  /** The regular-expression class `\w`: `[A-Za-z0-9_]`. */
  predicate IsWordChar(c: char) { IsUpper(c) || IsLowerOrDigit(c) || c == '_' }

  function LowerChar(c: char): (r: char)
    ensures !IsUpper(r)
    ensures IsWordChar(r) <==> IsWordChar(c)
    ensures IsSpace(r) <==> IsSpace(c)
    ensures !IsUpper(c) ==> r == c
  {
    if IsUpper(c) then (c as int + 32) as char else c
  }

  predicate NoUpper(s: string) { forall i :: 0 <= i < |s| ==> !IsUpper(s[i]) }

  /** `toLowerCase()`, restricted to the ASCII letters. */
  function Lower(s: string): (r: string)
    ensures |r| == |s|
    ensures forall i :: 0 <= i < |s| ==> r[i] == LowerChar(s[i])
    ensures NoUpper(r)
  {
    seq(|s|, i requires 0 <= i < |s| => LowerChar(s[i]))
  }

  lemma LowerIdentity(s: string)
    requires NoUpper(s)
    ensures Lower(s) == s
  {
  }

  /** JavaScript truthiness of a value that is either a string or absent. */
  predicate Truthy(o: Option<string>) { o.Some? && o.value != "" }

  /** How a template literal renders a value that is a string or `undefined`. */
  function JsString(o: Option<string>): string {
    match o
    case Some(s) => s
    case None => "undefined"
  }

  /** `a || b` for two optional strings. */
  function OrElse(a: Option<string>, b: string): (r: string)
    ensures Truthy(a) ==> r == a.value
    ensures !Truthy(a) ==> r == b
  {
    if Truthy(a) then a.value else b
  }

  predicate StartsWith(s: string, p: string) { |p| <= |s| && s[..|p|] == p }
  predicate EndsWith(s: string, p: string) { |p| <= |s| && s[|s| - |p|..] == p }

  predicate OccursAt(s: string, p: string, i: int) {
    0 <= i && i + |p| <= |s| && s[i..i + |p|] == p
  }

  /** `indexOf`: the first position at which `p` occurs in `s`, searching from `from`. */
  function IndexFrom(s: string, p: string, from: nat): (r: Option<nat>)
    requires from <= |s|
    ensures r.Some? ==> from <= r.value && OccursAt(s, p, r.value)
    ensures r.Some? ==> forall j :: from <= j < r.value ==> !OccursAt(s, p, j)
    ensures r.None? ==> forall j :: from <= j ==> !OccursAt(s, p, j)
    decreases |s| - from
  {
    if OccursAt(s, p, from) then Some(from)
    else if from + |p| >= |s| then None
    else IndexFrom(s, p, from + 1)
  }

  function IndexOf(s: string, p: string): (r: Option<nat>)
    ensures r.Some? ==> OccursAt(s, p, r.value) && forall j :: 0 <= j < r.value ==> !OccursAt(s, p, j)
    ensures r.None? <==> forall j :: !OccursAt(s, p, j)
  {
    IndexFrom(s, p, 0)
  }

  /** `includes`. Every string includes the empty string. */
  predicate Includes(s: string, p: string) { IndexOf(s, p).Some? }

  /** `replace(p, rep)` with a string pattern: only the first occurrence is replaced. */
  function ReplaceFirst(s: string, p: string, rep: string): (r: string)
    ensures !Includes(s, p) ==> r == s
    ensures Includes(s, p) ==>
      var i := IndexOf(s, p).value; r == s[..i] + rep + s[i + |p|..]
  {
    match IndexOf(s, p)
    case None => s
    case Some(i) => s[..i] + rep + s[i + |p|..]
  }

  /** The first position of the character `c` in `s`. */
  function FirstOf(s: string, c: char): (r: Option<nat>)
    ensures r.Some? ==> r.value < |s| && s[r.value] == c && forall j :: 0 <= j < r.value ==> s[j] != c
    ensures r.None? ==> forall j :: 0 <= j < |s| ==> s[j] != c
  {
    if s == [] then None
    else if s[0] == c then Some(0)
    else match FirstOf(s[1..], c)
      case None => None
      case Some(i) => Some(i + 1)
  }

  /** The last position of the character `c` in `s`. */
  function LastOf(s: string, c: char): (r: Option<nat>)
    ensures r.Some? ==> r.value < |s| && s[r.value] == c && forall j :: r.value < j < |s| ==> s[j] != c
    ensures r.None? ==> forall j :: 0 <= j < |s| ==> s[j] != c
  {
    if s == [] then None
    else if s[|s| - 1] == c then Some(|s| - 1)
    else LastOf(s[..|s| - 1], c)
  }

  /** `parts.join(sep)`. */
  function Join(parts: seq<string>, sep: string): (r: string)
    ensures |parts| == 1 ==> r == parts[0]
  {
    if parts == [] then ""
    else if |parts| == 1 then parts[0]
    else parts[0] + sep + Join(parts[1..], sep)
  }

  /** Every part occurs in the joined text. */
  lemma {:induction false} JoinHoldsParts(parts: seq<string>, sep: string, k: int)
    requires 0 <= k < |parts|
    ensures Includes(Join(parts, sep), parts[k])
  {
    var r := Join(parts, sep);
    var p := parts[k];
    if k == 0 {
      assert r[0..|p|] == p;
      assert OccursAt(r, p, 0);
    } else {
      var rest := Join(parts[1..], sep);
      JoinHoldsParts(parts[1..], sep, k - 1);
      var j := IndexOf(rest, p).value;
      var o := |parts[0] + sep|;
      assert r == (parts[0] + sep) + rest;
      assert r[o + j..o + j + |p|] == rest[j..j + |p|];
      assert OccursAt(r, p, o + j);
    }
  }

  predicate Lacks(s: string, c: char) { forall j :: 0 <= j < |s| ==> s[j] != c }

  /** `s.split(c)` for a one-character separator: the pieces between the separators, at least one. */
  function SplitOn(s: string, c: char): (r: seq<string>)
    ensures |r| >= 1
    ensures forall i :: 0 <= i < |r| ==> Lacks(r[i], c)
    decreases |s|
  {
    match FirstOf(s, c)
    case None => [s]
    case Some(i) => [s[..i]] + SplitOn(s[i + 1..], c)
  }

  /** Joining the pieces of a split with the separator gives back the string. */
  lemma {:induction false} JoinSplit(s: string, c: char)
    ensures Join(SplitOn(s, c), [c]) == s
    decreases |s|
  {
    match FirstOf(s, c)
    case None =>
    case Some(i) =>
      var rest := SplitOn(s[i + 1..], c);
      var parts := [s[..i]] + rest;
      assert SplitOn(s, c) == parts;
      assert parts[1..] == rest;
      assert Join(parts, [c]) == s[..i] + [c] + Join(rest, [c]);
      JoinSplit(s[i + 1..], c);
      assert s == s[..i] + [c] + s[i + 1..];
  }

  /** Splitting pieces joined by a separator none of them holds gives back the pieces. */
  lemma {:induction false} SplitJoin(parts: seq<string>, c: char)
    requires |parts| >= 1 && forall i :: 0 <= i < |parts| ==> Lacks(parts[i], c)
    ensures SplitOn(Join(parts, [c]), c) == parts
  {
    if |parts| == 1 {
      assert FirstOf(parts[0], c).None?;
    } else {
      var a := parts[0];
      var rest := Join(parts[1..], [c]);
      var s := a + [c] + rest;
      assert Join(parts, [c]) == s;
      var k := |a|;
      assert FirstOf(s, c) == Some(k) by {
        assert s[k] == c;
        forall j | 0 <= j < k ensures s[j] != c { assert s[j] == a[j]; }
      }
      assert s[..k] == a;
      assert s[k + 1..] == rest;
      SplitJoin(parts[1..], c);
      assert parts == [a] + parts[1..];
    }
  }

  /** `replace(/^\s+/, "")`. */
  function TrimStart(s: string): (r: string)
    ensures |r| <= |s| && r == s[|s| - |r|..]
    ensures forall i :: 0 <= i < |s| - |r| ==> IsSpace(s[i])
    ensures r != [] ==> !IsSpace(r[0])
  {
    if s != [] && IsSpace(s[0]) then
      var r := TrimStart(s[1..]);
      assert s[1..][|s| - 1 - |r|..] == s[|s| - |r|..];
      assert forall i :: 1 <= i < |s| - |r| ==> s[i] == s[1..][i - 1];
      r
    else s
  }

  /** `replace(/\s+$/, "")`. */
  function TrimEnd(s: string): (r: string)
    ensures |r| <= |s| && r == s[..|r|]
    ensures forall i :: |r| <= i < |s| ==> IsSpace(s[i])
    ensures r != [] ==> !IsSpace(r[|r| - 1])
  {
    if s != [] && IsSpace(s[|s| - 1]) then TrimEnd(s[..|s| - 1]) else s
  }

  /** Where `trim()` starts cutting: the number of leading white-space characters. */
  function LeadingSpaces(s: string): (n: nat)
    ensures n <= |s|
  {
    |s| - |TrimStart(s)|
  }

  /** `trim()`: what is left is a contiguous part of `s` with no white space at either end. */
  function Trim(s: string): (r: string)
    ensures r != [] ==> !IsSpace(r[0]) && !IsSpace(r[|r| - 1])
    ensures LeadingSpaces(s) + |r| <= |s| && r == s[LeadingSpaces(s)..LeadingSpaces(s) + |r|]
    ensures forall i :: LeadingSpaces(s) + |r| <= i < |s| ==> IsSpace(s[i])
  {
    TrimEnd(TrimStart(s))
  }

  lemma {:induction false} TrimIdentity(s: string)
    requires s != [] ==> !IsSpace(s[0]) && !IsSpace(s[|s| - 1])
    ensures Trim(s) == s
  {
  }
}
