/**
 * String helpers shared by every module: the JavaScript (and Python) string
 * operations the chat code relies on, written out over `seq<char>`.
 * Lengths are counted in characters (Unicode scalar values).
 */
module Text {

  /** Whitespace as JavaScript's `String.prototype.trim` and the regex class `\s` see it. */
  predicate IsSpace(c: char) {
    c == ' ' || c == '\t' || c == '\n' || c == '\r' || c == '\U{B}' || c == '\U{C}'
    || c == '\U{A0}' || c == '\U{1680}' || ('\U{2000}' <= c <= '\U{200A}')
    || c == '\U{2028}' || c == '\U{2029}' || c == '\U{202F}' || c == '\U{205F}'
    || c == '\U{3000}' || c == '\U{FEFF}'
  }

  /** Whitespace as Python's `str.strip()` sees it. */
  predicate IsPySpace(c: char) {
    c == ' ' || ('\t' <= c <= '\r') || ('\U{1C}' <= c <= '\U{1F}') || c == '\U{85}'
    || c == '\U{A0}' || c == '\U{1680}' || ('\U{2000}' <= c <= '\U{200A}')
    || c == '\U{2028}' || c == '\U{2029}' || c == '\U{202F}' || c == '\U{205F}'
    || c == '\U{3000}'
  }

  /** The number of leading characters that satisfy `ws`. */
  function LeadingCount(s: string, ws: char -> bool): (n: nat)
    ensures n <= |s|
    ensures forall i :: 0 <= i < n ==> ws(s[i])
    ensures n < |s| ==> !ws(s[n])
  {
    if |s| > 0 && ws(s[0]) then 1 + LeadingCount(s[1..], ws) else 0
  }

  /** The number of trailing characters that satisfy `ws`. */
  function TrailingCount(s: string, ws: char -> bool): (n: nat)
    ensures n <= |s|
    ensures forall i :: |s| - n <= i < |s| ==> ws(s[i])
    ensures n < |s| ==> !ws(s[|s| - 1 - n])
  {
    if |s| > 0 && ws(s[|s| - 1]) then 1 + TrailingCount(s[..|s| - 1], ws) else 0
  }

  /** Where the trimmed part of `s` starts and ends: only `ws` characters lie outside it. */
  function TrimBounds(s: string, ws: char -> bool): (b: (nat, nat))
    ensures b.0 <= b.1 <= |s|
    ensures forall k :: 0 <= k < b.0 ==> ws(s[k])
    ensures forall k :: b.1 <= k < |s| ==> ws(s[k])
    ensures b.0 < b.1 ==> !ws(s[b.0]) && !ws(s[b.1 - 1])
  {
    var a := LeadingCount(s, ws);
    if a == |s| then (a, a) else (a, |s| - TrailingCount(s, ws))
  }

  /** Cuts the characters satisfying `ws` off both ends. */
  function TrimWith(s: string, ws: char -> bool): string {
    s[TrimBounds(s, ws).0..TrimBounds(s, ws).1]
  }

  /** JavaScript `s.trim()`. */
  function Trim(s: string): string {
    TrimWith(s, IsSpace)
  }

  /** Python `s.strip()`. */
  function PyStrip(s: string): string {
    TrimWith(s, IsPySpace)
  }

  /** A string trims to nothing exactly when it is all whitespace; otherwise both ends of the result are not. */
  lemma TrimEnds(s: string, ws: char -> bool)
    ensures TrimWith(s, ws) == [] <==> forall k :: 0 <= k < |s| ==> ws(s[k])
    ensures TrimWith(s, ws) != [] ==>
              !ws(TrimWith(s, ws)[0]) && !ws(TrimWith(s, ws)[|TrimWith(s, ws)| - 1])
  {
    var b := TrimBounds(s, ws);
    if b.0 < b.1 {
      assert TrimWith(s, ws)[0] == s[b.0];
    }
  }

  /** Trimming is idempotent. */
  lemma TrimIdempotent(s: string, ws: char -> bool)
    ensures TrimWith(TrimWith(s, ws), ws) == TrimWith(s, ws)
  {
    var r := TrimWith(s, ws);
    TrimEnds(s, ws);
    if r != [] {
      assert LeadingCount(r, ws) == 0;
      assert TrailingCount(r, ws) == 0;
      assert r[0..|r|] == r;
    }
  }

  /** The characters of `s` that `ws` rejects, in order. */
  function Strip(s: string, ws: char -> bool): (r: string)
    ensures |r| <= |s|
  {
    if s == [] then [] else (if ws(s[0]) then [] else [s[0]]) + Strip(s[1..], ws)
  }

  lemma {:induction false} StripAppend(a: string, b: string, ws: char -> bool)
    ensures Strip(a + b, ws) == Strip(a, ws) + Strip(b, ws)
  {
    if a == [] {
      assert a + b == b;
    } else {
      assert (a + b)[0] == a[0];
      assert (a + b)[1..] == a[1..] + b;
      StripAppend(a[1..], b, ws);
    }
  }

  lemma {:induction false} StripAllSpace(s: string, ws: char -> bool)
    requires forall k :: 0 <= k < |s| ==> ws(s[k])
    ensures Strip(s, ws) == []
  {
    if s != [] {
      StripAllSpace(s[1..], ws);
    }
  }

  /** Trimming never changes the non-whitespace content. */
  lemma StripTrim(s: string, ws: char -> bool)
    ensures Strip(TrimWith(s, ws), ws) == Strip(s, ws)
  {
    var (i, j) := TrimBounds(s, ws);
    assert s == s[..i] + s[i..j] + s[j..];
    StripAppend(s[..i] + s[i..j], s[j..], ws);
    StripAppend(s[..i], s[i..j], ws);
    StripAllSpace(s[..i], ws);
    StripAllSpace(s[j..], ws);
  }

  /** ASCII lower-casing; every other character (Arabic included) is unchanged. */
  function LowerChar(c: char): char {
    if 'A' <= c <= 'Z' then (c as int + 32) as char else c
  }

  /** JavaScript `s.toLowerCase()`, restricted to ASCII letters. */
  function Lower(s: string): (r: string)
    ensures |r| == |s|
  {
    seq(|s|, i requires 0 <= i < |s| => LowerChar(s[i]))
  }

  /** `message.trim().toLowerCase()`, the normal form every guard works on. */
  function Normalize(s: string): string {
    Lower(Trim(s))
  }

  predicate StartsWith(s: string, p: string) {
    |p| <= |s| && s[..|p|] == p
  }

  /** JavaScript `s.includes(p)`, equivalently the regex test `/p/.test(s)`. */
  predicate Contains(s: string, p: string) {
    exists i :: 0 <= i <= |s| - |p| && OccursAt(s, p, i)
  }

  predicate OccursAt(s: string, p: string, i: int) {
    0 <= i && i + |p| <= |s| && s[i..i + |p|] == p
  }

  /** `ps.some(p => s.includes(p))`, equivalently a test of the regex alternation `/(p1|p2|...)/`. */
  predicate ContainsAny(s: string, ps: seq<string>) {
    exists k :: 0 <= k < |ps| && Contains(s, ps[k])
  }

  /** `ps.some(p => s.startsWith(p))`, equivalently a test of `/^(p1|p2|...)/`. */
  predicate StartsWithAny(s: string, ps: seq<string>) {
    exists k :: 0 <= k < |ps| && StartsWith(s, ps[k])
  }

  lemma ContainsMiddle(a: string, p: string, b: string)
    ensures Contains(a + p + b, p)
  {
    assert OccursAt(a + p + b, p, |a|);
  }

  /** A string containing `p` still contains it with text added on both sides. */
  lemma ContainsWithin(a: string, s: string, b: string, p: string)
    requires Contains(s, p)
    ensures Contains(a + s + b, p)
  {
    var j :| 0 <= j <= |s| - |p| && OccursAt(s, p, j);
    assert (a + s + b)[|a| + j..|a| + j + |p|] == s[j..j + |p|];
    assert OccursAt(a + s + b, p, |a| + j);
  }

  /** A string that lacks one character of `p` cannot contain `p`. */
  lemma NotContainsByChar(s: string, p: string, k: nat)
    requires k < |p| && p[k] !in s
    ensures !Contains(s, p)
  {
    forall i | 0 <= i <= |s| - |p|
      ensures !OccursAt(s, p, i)
    {
      assert s[i + k] in s;
      assert s[i..i + |p|][k] == s[i + k];
    }
  }

  /** Splitting at maximal runs of whitespace, JavaScript's `s.split(/\s+/)`. */
  function Words(s: string): (r: seq<string>)
    ensures |r| >= 1
    decreases |s|
  {
    if s == [] then [""]
    else if IsSpace(s[0]) then [""] + Words(s[LeadingCount(s, IsSpace)..])
    else var rest := Words(s[1..]); [[s[0]] + rest[0]] + rest[1..]
  }

  /** `parts.join(sep)`. */
  function Join(parts: seq<string>, sep: string): string {
    if |parts| == 0 then ""
    else if |parts| == 1 then parts[0]
    else parts[0] + sep + Join(parts[1..], sep)
  }

  /** Joining one more part appends the separator and the part. */
  lemma {:induction false} JoinSnoc(parts: seq<string>, x: string, sep: string)
    ensures Join(parts + [x], sep) == if parts == [] then x else Join(parts, sep) + sep + x
  {
    if |parts| == 1 {
      assert parts + [x] == [parts[0], x];
      assert [parts[0], x][1..] == [x];
    } else if |parts| > 1 {
      assert (parts + [x])[1..] == parts[1..] + [x];
      JoinSnoc(parts[1..], x, sep);
    }
  }

  /** A string whose two ends are not `ws` is its own trimmed form. */
  lemma TrimNoop(s: string, ws: char -> bool)
    requires s != [] ==> !ws(s[0]) && !ws(s[|s| - 1])
    ensures TrimWith(s, ws) == s
  {
    if s != [] {
      assert LeadingCount(s, ws) == 0;
      assert TrailingCount(s, ws) == 0;
      assert s[0..|s|] == s;
    }
  }

  /** `parts.map(s => s.trim())`. */
  function Trims(ss: seq<string>): (r: seq<string>)
    ensures |r| == |ss| && forall i :: 0 <= i < |ss| ==> r[i] == Trim(ss[i])
  {
    seq(|ss|, i requires 0 <= i < |ss| => Trim(ss[i]))
  }

  /** A space in front of a string that is already trimmed is trimmed away again. */
  lemma TrimAfterSpace(s: string)
    requires s != [] ==> !IsSpace(s[0]) && !IsSpace(s[|s| - 1])
    ensures Trim([' '] + s) == s
  {
    var t := [' '] + s;
    assert t[1..] == s;
    if s == [] {
      assert LeadingCount(t, IsSpace) == 1;
    } else {
      assert LeadingCount(s, IsSpace) == 0;
      assert LeadingCount(t, IsSpace) == 1;
      assert TrailingCount(t, IsSpace) == 0;
    }
  }

  /** `parts.join('')`. */
  function Concat(parts: seq<string>): string {
    if |parts| == 0 then "" else parts[0] + Concat(parts[1..])
  }

  lemma {:induction false} ConcatAppend(a: seq<string>, b: seq<string>)
    ensures Concat(a + b) == Concat(a) + Concat(b)
  {
    if a == [] {
      assert a + b == b;
    } else {
      assert (a + b)[0] == a[0];
      assert (a + b)[1..] == a[1..] + b;
      ConcatAppend(a[1..], b);
    }
  }
}
