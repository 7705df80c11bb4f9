/** Optional values, as the source's `Optional[...]` annotations use them. */
module Wrappers {

  datatype Option<+T> = None | Some(value: T)
}

/**
  The string operations the detection engine relies on: case folding, the
  emptiness test behind `code.strip()`, substring containment behind the
  keyword test, `os.path.splitext` and decimal rendering of counts.
 */
module Text {

  /** ASCII case folding: the part of Python's `str.lower()` this model covers. */
  function LowerChar(c: char): char
  {
    if 'A' <= c <= 'Z' then (c as int - 'A' as int + 'a' as int) as char else c
  }

  function Lower(s: string): (r: string)
    ensures |r| == |s|
    ensures forall i :: 0 <= i < |s| ==> r[i] == LowerChar(s[i])
  {
    if s == [] then [] else [LowerChar(s[0])] + Lower(s[1..])
  }

  /** Lowering is idempotent and leaves no ASCII capital behind. */
  lemma LowerIsFolded(s: string)
    ensures Lower(Lower(s)) == Lower(s)
    ensures forall i :: 0 <= i < |s| ==> !('A' <= Lower(s)[i] <= 'Z')
  {
  }

  /** The characters Python's `str.isspace()` accepts, which `str.strip()` removes. */
  predicate IsSpace(c: char)
  {
    var n := c as int;
    || 0x09 <= n <= 0x0D
    || 0x1C <= n <= 0x20
    || n == 0x85 || n == 0xA0 || n == 0x1680
    || 0x2000 <= n <= 0x200A
    || n == 0x2028 || n == 0x2029 || n == 0x202F || n == 0x205F || n == 0x3000
  }

  /** Drops leading whitespace. */
  function TrimStart(s: string): string
  {
    if s != [] && IsSpace(s[0]) then TrimStart(s[1..]) else s
  }

  /** Drops trailing whitespace. */
  function TrimEnd(s: string): string
  {
    if s != [] && IsSpace(s[|s| - 1]) then TrimEnd(s[..|s| - 1]) else s
  }

  /** `TrimStart` removes a prefix of whitespace and stops at the first other character. */
  lemma {:induction false} TrimStartDropsSpace(s: string)
    ensures exists k :: 0 <= k <= |s| && TrimStart(s) == s[k..] && forall i :: 0 <= i < k ==> IsSpace(s[i])
    ensures TrimStart(s) == [] || !IsSpace(TrimStart(s)[0])
  {
    if s != [] && IsSpace(s[0]) {
      TrimStartDropsSpace(s[1..]);
      var k :| 0 <= k <= |s[1..]| && TrimStart(s[1..]) == s[1..][k..] && forall i :: 0 <= i < k ==> IsSpace(s[1..][i]);
      assert TrimStart(s) == s[k + 1..];
    } else {
      assert s == s[0..];
    }
  }

  /** `TrimEnd` removes a suffix of whitespace and stops at the last other character. */
  lemma {:induction false} TrimEndDropsSpace(s: string)
    ensures exists k :: 0 <= k <= |s| && TrimEnd(s) == s[..k] && forall i :: k <= i < |s| ==> IsSpace(s[i])
    ensures TrimEnd(s) == [] || !IsSpace(TrimEnd(s)[|TrimEnd(s)| - 1])
  {
    if s != [] && IsSpace(s[|s| - 1]) {
      var p := s[..|s| - 1];
      TrimEndDropsSpace(p);
      var k :| 0 <= k <= |p| && TrimEnd(p) == p[..k] && forall i :: k <= i < |p| ==> IsSpace(p[i]);
      assert TrimEnd(s) == s[..k];
    } else {
      assert s == s[..|s|];
    }
  }

  /** Python's `str.strip()` with no argument. */
  function Strip(s: string): string
  {
    TrimEnd(TrimStart(s))
  }

  /** The test `not code.strip()`. */
  predicate IsBlank(s: string)
  {
    Strip(s) == []
  }

  /**
    `strip()` keeps a contiguous slice of the text: everything before and
    after it is whitespace, and the slice neither starts nor ends with
    whitespace.
   */
  lemma StripDropsOuterSpace(s: string)
    ensures var i := |s| - |TrimStart(s)|; var j := i + |Strip(s)|;
      && 0 <= i <= j <= |s|
      && Strip(s) == s[i..j]
      && (forall k :: 0 <= k < i ==> IsSpace(s[k]))
      && (forall k :: j <= k < |s| ==> IsSpace(s[k]))
    ensures Strip(s) == [] || (!IsSpace(Strip(s)[0]) && !IsSpace(Strip(s)[|Strip(s)| - 1]))
  {
    TrimStartIsSuffix(s);
    StripSliceBetweenSpace(s);
    TrimStartDropsSpace(s);
    TrimEndDropsSpace(TrimStart(s));
    TrimEndKeepsHead(TrimStart(s));
  }

  /** `Strip(s)` is the slice of `s` that starts where `TrimStart` starts, and only whitespace follows it. */
  lemma StripSliceBetweenSpace(s: string)
    ensures |TrimStart(s)| <= |s|
    ensures |s| - |TrimStart(s)| + |Strip(s)| <= |s|
    ensures Strip(s) == s[|s| - |TrimStart(s)|..|s| - |TrimStart(s)| + |Strip(s)|]
    ensures forall k :: |s| - |TrimStart(s)| + |Strip(s)| <= k < |s| ==> IsSpace(s[k])
  {
    var t := TrimStart(s);
    var u := TrimEnd(t);
    TrimStartIsSuffix(s);
    TrimEndIsPrefix(t);
    SliceBetweenSpace(s, t, u, |s| - |t|, |u|);
    assert Strip(s) == u;
  }

  lemma TrimStartIsSuffix(s: string)
    ensures |TrimStart(s)| <= |s|
    ensures TrimStart(s) == s[|s| - |TrimStart(s)|..]
    ensures forall k :: 0 <= k < |s| - |TrimStart(s)| ==> IsSpace(s[k])
  {
    TrimStartDropsSpace(s);
  }

  lemma TrimEndIsPrefix(s: string)
    ensures |TrimEnd(s)| <= |s|
    ensures TrimEnd(s) == s[..|TrimEnd(s)|]
    ensures forall k :: |TrimEnd(s)| <= k < |s| ==> IsSpace(s[k])
  {
    TrimEndDropsSpace(s);
  }

  /** A prefix `u` of the suffix `t == s[i..]`, with whitespace after it, is a slice of `s` with whitespace after it. */
  lemma SliceBetweenSpace(s: string, t: string, u: string, i: nat, n: nat)
    requires i <= |s| && t == s[i..] && n <= |t| && u == t[..n]
    requires forall k :: n <= k < |t| ==> IsSpace(t[k])
    ensures i == |s| - |t| && i + n == i + |u| <= |s|
    ensures u == s[i..i + n]
    ensures forall k :: i + n <= k < |s| ==> IsSpace(s[k])
  {
    assert forall k :: i + n <= k < |s| ==> s[k] == t[k - i];
  }

  /** Trimming the end keeps the first character of whatever it does not remove entirely. */
  lemma {:induction false} TrimEndKeepsHead(s: string)
    ensures TrimEnd(s) != [] ==> TrimEnd(s)[0] == s[0]
  {
    if s != [] && IsSpace(s[|s| - 1]) {
      TrimEndKeepsHead(s[..|s| - 1]);
    }
  }

  /** A text strips to nothing exactly when every character of it is whitespace. */
  lemma BlankIffAllSpace(s: string)
    ensures IsBlank(s) <==> forall i :: 0 <= i < |s| ==> IsSpace(s[i])
  {
    TrimStartDropsSpace(s);
    TrimEndDropsSpace(TrimStart(s));
  }

  predicate IsPrefix(p: string, s: string)
  {
    |p| <= |s| && s[..|p|] == p
  }

  /** `needle` occurs in `hay` starting at position `i`. */
  predicate OccursAt(hay: string, needle: string, i: int)
  {
    0 <= i && i + |needle| <= |hay| && hay[i..i + |needle|] == needle
  }

  /** Python's `needle in hay` on strings: is `needle` a prefix of some suffix of `hay`? */
  function Contains(hay: string, needle: string): bool
    decreases |hay|
  {
    IsPrefix(needle, hay) || (hay != [] && Contains(hay[1..], needle))
  }

  /** Containment holds exactly when the needle occurs at some position. */
  lemma {:induction false} ContainsIffOccurs(hay: string, needle: string)
    ensures Contains(hay, needle) <==> exists i :: OccursAt(hay, needle, i)
    decreases |hay|
  {
    if IsPrefix(needle, hay) {
      assert OccursAt(hay, needle, 0);
    } else if hay == [] {
      assert forall i :: OccursAt(hay, needle, i) ==> i == 0;
    } else {
      ContainsIffOccurs(hay[1..], needle);
      assert forall i :: 1 <= i ==> (OccursAt(hay, needle, i) <==> OccursAt(hay[1..], needle, i - 1));
      assert !OccursAt(hay, needle, 0);
      if Contains(hay[1..], needle) {
        var i :| OccursAt(hay[1..], needle, i);
        assert OccursAt(hay, needle, i + 1);
      }
    }
  }

  /** Index of the last occurrence of `c` in `s`, or -1 (Python's `str.rfind`). */
  function LastIndexOf(s: string, c: char): (k: int)
    ensures -1 <= k < |s|
    ensures 0 <= k ==> s[k] == c
    ensures forall j :: k < j < |s| ==> s[j] != c
  {
    if s == [] then -1
    else if s[|s| - 1] == c then |s| - 1
    else LastIndexOf(s[..|s| - 1], c)
  }

  /**
    POSIX `os.path.splitext`: the extension starts at the last '.' of the
    final path component, unless only dots precede that '.' in the component.
   */
  function SplitExt(path: string): (r: (string, string))
    ensures r.0 + r.1 == path
  {
    var sep := LastIndexOf(path, '/');
    var dot := LastIndexOf(path, '.');
    if sep < dot && exists i :: sep < i < dot && path[i] != '.' then
      (path[..dot], path[dot..])
    else
      assert path + [] == path;
      (path, [])
  }

  /**
    The extension is a suffix that starts with its only '.' and holds no
    '/'; there is one exactly when, after the last '/', some character other
    than '.' comes before a '.'.
   */
  lemma SplitExtFindsLastDot(path: string)
    ensures var ext := SplitExt(path).1;
      ext != [] ==> ext[0] == '.' && forall i :: 1 <= i < |ext| ==> ext[i] != '.' && ext[i] != '/'
    ensures SplitExt(path).1 != [] <==>
      exists i, j :: LastIndexOf(path, '/') < i < j < |path| && path[i] != '.' && path[j] == '.'
  {
    var sep := LastIndexOf(path, '/');
    var dot := LastIndexOf(path, '.');
    if sep < dot && exists i :: sep < i < dot && path[i] != '.' {
      assert forall i :: 1 <= i < |path[dot..]| ==> path[dot..][i] == path[dot + i];
    }
  }


  function DigitChar(d: nat): char
    requires d < 10
  {
    ('0' as int + d) as char
  }

  /** Decimal rendering of a count, as an f-string shows `len(matches)`. */
  function NatToString(n: nat): (s: string)
    ensures |s| >= 1
    ensures forall i :: 0 <= i < |s| ==> '0' <= s[i] <= '9'
  {
    if n < 10 then [DigitChar(n)] else NatToString(n / 10) + [DigitChar(n % 10)]
  }

  /** Reads a string of decimal digits back as a number. */
  function ParseNat(s: string): nat
    requires forall i :: 0 <= i < |s| ==> '0' <= s[i] <= '9'
  {
    if s == [] then 0 else ParseNat(s[..|s| - 1]) * 10 + (s[|s| - 1] as int - '0' as int)
  }

  /** The rendered count reads back as the count: no two counts render alike. */
  lemma {:induction false} NatToStringRoundTrip(n: nat)
    ensures ParseNat(NatToString(n)) == n
  {
    if n >= 10 {
      var s := NatToString(n);
      assert s[..|s| - 1] == NatToString(n / 10);
      NatToStringRoundTrip(n / 10);
    }
  }
}
