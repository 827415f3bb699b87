/** The Python `str` operations the modelled code relies on, on `seq<char>`:
    `lower`, `strip`, `split`, `join`, `in`, `partition`, `replace` and
    `split(sep)[0]`. Lower-casing is ASCII only; whitespace is the set that
    `str.isspace` accepts. */
module Text {

  // ---------------------------------------------------------------- case

  /** `str.lower` on one character, restricted to ASCII letters. */
  function LowerChar(c: char): char {
    if 'A' <= c <= 'Z' then (c as int + 32) as char else c
  }

  function Lower(s: string): (r: string)
    ensures |r| == |s|
    ensures forall i :: 0 <= i < |s| ==> r[i] == LowerChar(s[i])
  {
    seq(|s|, i requires 0 <= i < |s| => LowerChar(s[i]))
  }

  lemma LowerIdempotent(s: string)
    ensures Lower(Lower(s)) == Lower(s)
  {
  }

  /** Lower-casing neither makes nor removes a character that is not an ASCII
      letter, so it keeps separators. */
  lemma LowerKeepsNonLetter(s: string, c: char)
    requires !('A' <= c <= 'Z') && !('a' <= c <= 'z')
    ensures c in Lower(s) <==> c in s
  {
    if c in s {
      var i :| 0 <= i < |s| && s[i] == c;
      assert Lower(s)[i] == c;
    }
    if c in Lower(s) {
      var i :| 0 <= i < |s| && Lower(s)[i] == c;
      assert s[i] == c;
    }
  }

  lemma {:induction false} LowerConcat(a: string, b: string)
    ensures Lower(a + b) == Lower(a) + Lower(b)
  {
    assert |Lower(a + b)| == |Lower(a) + Lower(b)|;
    forall i | 0 <= i < |a + b|
      ensures Lower(a + b)[i] == (Lower(a) + Lower(b))[i]
    {
      if i < |a| {
        assert (a + b)[i] == a[i];
      } else {
        assert (a + b)[i] == b[i - |a|];
      }
    }
  }

  // ---------------------------------------------------------- whitespace

  /** The characters for which Python's `str.isspace` holds. */
  predicate IsSpace(c: char) {
    var n := c as int;
    n == 32 || 9 <= n <= 13 || 28 <= n <= 31 || n == 0x85 || n == 0xA0 || n == 0x1680
    || 0x2000 <= n <= 0x200A || n == 0x2028 || n == 0x2029 || n == 0x202F
    || n == 0x205F || n == 0x3000
  }

  /** `str.lstrip()`: drops the leading whitespace and nothing else. */
  function TrimLeft(s: string): (r: string)
    ensures |r| <= |s| && r == s[|s| - |r|..]
    ensures forall i :: 0 <= i < |s| - |r| ==> IsSpace(s[i])
    ensures r != [] ==> !IsSpace(r[0])
    decreases |s|
  {
    if s != [] && IsSpace(s[0]) then TrimLeft(s[1..]) else s
  }

  /** `str.rstrip()`: drops the trailing whitespace and nothing else. */
  function TrimRight(s: string): (r: string)
    ensures |r| <= |s| && r == s[..|r|]
    ensures forall i :: |r| <= i < |s| ==> IsSpace(s[i])
    ensures r != [] ==> !IsSpace(r[|r| - 1])
    decreases |s|
  {
    if s != [] && IsSpace(s[|s| - 1]) then TrimRight(s[..|s| - 1]) else s
  }

  /** `str.strip()`: the result neither starts nor ends with whitespace, is
      empty exactly when the input is all whitespace, and is a slice of the
      input. */
  function Strip(s: string): (r: string)
    ensures r != [] ==> !IsSpace(r[0]) && !IsSpace(r[|r| - 1])
    ensures r == [] <==> forall i :: 0 <= i < |s| ==> IsSpace(s[i])
    ensures forall c :: c in r ==> c in s
  {
    TrimBoth(s);
    TrimRight(TrimLeft(s))
  }

  lemma TrimBoth(s: string)
    ensures var r := TrimRight(TrimLeft(s));
      && (r != [] ==> !IsSpace(r[0]))
      && (r == [] <==> forall i :: 0 <= i < |s| ==> IsSpace(s[i]))
      && (forall c :: c in r ==> c in s)
  {
    var l := TrimLeft(s);
    var r := TrimRight(l);
    if r == [] {
      assert l == [];
    } else {
      assert l[0] == s[|s| - |l|];
    }
  }

  /** A string with no whitespace at either end is its own strip. */
  lemma StripTight(s: string)
    requires s != [] ==> !IsSpace(s[0]) && !IsSpace(s[|s| - 1])
    ensures Strip(s) == s
  {
  }

  lemma StripIdempotent(s: string)
    ensures Strip(Strip(s)) == Strip(s)
  {
    StripTight(Strip(s));
  }

  // ------------------------------------------------------- split and join

  /** `s.split(sep)` for a one-character separator: never empty, and no part
      holds the separator. */
  function Split(s: string, sep: char): (r: seq<string>)
    ensures |r| > 0
    ensures forall i :: 0 <= i < |r| ==> sep !in r[i]
    decreases |s|
  {
    if s == [] then [[]]
    else
      var rest := Split(s[1..], sep);
      if s[0] == sep then [[]] + rest
      else [[s[0]] + rest[0]] + rest[1..]
  }

  /** `sep.join(parts)` for a one-character separator. */
  function Join(parts: seq<string>, sep: char): string
    decreases |parts|
  {
    if parts == [] then []
    else if |parts| == 1 then parts[0]
    else parts[0] + [sep] + Join(parts[1..], sep)
  }

  lemma {:induction false} SplitWithoutSeparator(s: string, sep: char)
    requires sep !in s
    ensures Split(s, sep) == [s]
    decreases |s|
  {
    if s != [] {
      SplitWithoutSeparator(s[1..], sep);
      assert [s[0]] + s[1..] == s;
    }
  }

  lemma {:induction false} SplitAtFirstSeparator(a: string, sep: char, rest: string)
    requires sep !in a
    ensures Split(a + [sep] + rest, sep) == [a] + Split(rest, sep)
    decreases |a|
  {
    var s := a + [sep] + rest;
    if a == [] {
      assert s == [sep] + rest && s[1..] == rest;
    } else {
      assert s[0] == a[0] && s[1..] == a[1..] + [sep] + rest;
      SplitAtFirstSeparator(a[1..], sep, rest);
      assert [a[0]] + a[1..] == a;
    }
  }

  /** Splitting a join gives the parts back when no part holds the separator. */
  lemma {:induction false} SplitJoin(parts: seq<string>, sep: char)
    requires |parts| > 0
    requires forall i :: 0 <= i < |parts| ==> sep !in parts[i]
    ensures Split(Join(parts, sep), sep) == parts
    decreases |parts|
  {
    if |parts| == 1 {
      SplitWithoutSeparator(parts[0], sep);
    } else {
      SplitJoin(parts[1..], sep);
      SplitAtFirstSeparator(parts[0], sep, Join(parts[1..], sep));
      assert [parts[0]] + parts[1..] == parts;
    }
  }

  // ----------------------------------------------------------- substrings

  /** Python's `pat in s`. */
  predicate Contains(s: string, pat: string)
    decreases |s|
  {
    pat <= s || (s != [] && Contains(s[1..], pat))
  }

  lemma {:induction false} ContainsChar(s: string, c: char)
    ensures Contains(s, [c]) <==> c in s
    decreases |s|
  {
    if s != [] {
      ContainsChar(s[1..], c);
      assert s == [s[0]] + s[1..];
    }
  }

  /** A contained pattern is no longer than the string. */
  lemma {:induction false} ContainsLength(s: string, pat: string)
    ensures Contains(s, pat) ==> |pat| <= |s|
    decreases |s|
  {
    if s != [] {
      ContainsLength(s[1..], pat);
    }
  }

  /** Every character of a contained pattern occurs in the string. */
  lemma {:induction false} ContainsElements(s: string, pat: string)
    ensures Contains(s, pat) ==> forall c :: c in pat ==> c in s
    decreases |s|
  {
    if pat <= s {
      forall c | c in pat ensures c in s {
        var i :| 0 <= i < |pat| && pat[i] == c;
        assert s[i] == c;
      }
    } else if s != [] {
      ContainsElements(s[1..], pat);
      forall c | c in pat && Contains(s, pat) ensures c in s {
        assert c in s[1..];
      }
    }
  }

  /** No proper prefix of `p` is also a suffix of it, so an occurrence of `p`
      cannot straddle the end of a string that does not contain it. */
  ghost predicate Unbordered(p: string) {
    forall k :: 0 < k < |p| ==> p[..k] != p[|p| - k..]
  }

  lemma UnborderedByFirstChar(p: string)
    requires p != [] && p[0] !in p[1..]
    ensures Unbordered(p)
  {
    forall k | 0 < k < |p| ensures p[..k] != p[|p| - k..] {
      assert p[..k][0] == p[0];
      assert p[|p| - k..][0] == p[1..][|p| - k - 1];
    }
  }

  /** In `name + sep + rest`, when `name` does not contain `sep`, no occurrence
      of `sep` starts inside `name`. */
  lemma NoOccurrenceInside(name: string, sep: string, rest: string)
    requires sep != [] && Unbordered(sep)
    requires name != [] && !Contains(name, sep)
    ensures !(sep <= name + sep + rest)
  {
    var s := name + sep + rest;
    if |sep| <= |name| {
      // `sep` would have to be a prefix of `name`.
      assert s[..|sep|] == name[..|sep|];
      assert !(sep <= name);
    } else {
      // A proper prefix of `sep` would have to equal a suffix of it.
      var k := |sep| - |name|;
      assert sep[..k] != sep[|sep| - k..];
      assert s[..|sep|] == name + sep[..k];
      assert (name + sep[..k])[|name|..] == sep[..k];
    }
  }

  /** `s.split(sep)[0]`: everything before the first occurrence of `sep`. */
  function BeforeFirst(s: string, sep: string): (r: string)
    requires sep != []
    ensures r <= s
    ensures !Contains(r, sep)
    decreases |s|
  {
    if sep <= s then []
    else if s == [] then []
    else [s[0]] + BeforeFirst(s[1..], sep)
  }

  /** Splitting `name + sep + rest` at `sep` recovers `name` whenever `name`
      does not contain `sep` (and `sep` cannot overlap itself). */
  lemma {:induction false} BeforeFirstOfJoin(name: string, sep: string, rest: string)
    requires sep != [] && Unbordered(sep) && !Contains(name, sep)
    ensures BeforeFirst(name + sep + rest, sep) == name
    decreases |name|
  {
    var s := name + sep + rest;
    if name == [] {
      assert s == sep + rest;
    } else {
      NoOccurrenceInside(name, sep, rest);
      assert s[1..] == name[1..] + sep + rest;
      BeforeFirstOfJoin(name[1..], sep, rest);
      assert [name[0]] + name[1..] == name;
    }
  }

  /** `s.replace(pat, rep)`: leftmost, non-overlapping replacement. */
  function Replace(s: string, pat: string, rep: string): (r: string)
    requires pat != []
    ensures forall c :: c in r ==> c in s || c in rep
    ensures rep == [] ==> |r| <= |s|
    decreases |s|
  {
    if s == [] then []
    else if pat <= s then rep + Replace(s[|pat|..], pat, rep)
    else [s[0]] + Replace(s[1..], pat, rep)
  }

  lemma {:induction false} ReplaceAbsent(s: string, pat: string, rep: string)
    requires pat != [] && !Contains(s, pat)
    ensures Replace(s, pat, rep) == s
    decreases |s|
  {
    if s != [] {
      ReplaceAbsent(s[1..], pat, rep);
      assert [s[0]] + s[1..] == s;
    }
  }

  /** Removing every `pat` from `name + pat` gives `name` back when `name`
      does not contain `pat`. */
  lemma {:induction false} ReplaceTrailing(name: string, pat: string)
    requires pat != [] && Unbordered(pat) && !Contains(name, pat)
    ensures Replace(name + pat, pat, []) == name
    decreases |name|
  {
    var s := name + pat;
    if name == [] {
      assert s == pat && s[|pat|..] == [];
    } else {
      NoOccurrenceInside(name, pat, []);
      assert name + pat + [] == s;
      assert s[1..] == name[1..] + pat;
      ReplaceTrailing(name[1..], pat);
      assert [name[0]] + name[1..] == name;
    }
  }

  /** Index of the first `c` in `s`, or -1 (Python's `str.find`). */
  function IndexOf(s: string, c: char): (i: int)
    ensures -1 <= i < |s|
    ensures i == -1 <==> c !in s
    ensures 0 <= i ==> s[i] == c && c !in s[..i]
    decreases |s|
  {
    if s == [] then -1
    else if s[0] == c then 0
    else
      var j := IndexOf(s[1..], c);
      assert s[1..][..(if j < 0 then 0 else j)] == s[1..(if j < 0 then 1 else j + 1)];
      if j < 0 then -1 else j + 1
  }

  /** `s.partition(c)[2]`: the text after the first `c`, or "" when `s` has
      no `c`. */
  function AfterFirst(s: string, c: char): (r: string)
    ensures c !in s ==> r == []
    ensures c in s ==> r == s[IndexOf(s, c) + 1..]
  {
    var i := IndexOf(s, c);
    if i < 0 then [] else s[i + 1..]
  }

  /** Index of the last `c` in `s`, or -1 (Python's `str.rfind`). */
  function LastIndexOf(s: string, c: char): (i: int)
    ensures -1 <= i < |s|
    ensures 0 <= i ==> s[i] == c
    ensures forall k :: i < k < |s| ==> s[k] != c
    decreases |s|
  {
    if s == [] then -1
    else if s[|s| - 1] == c then |s| - 1
    else LastIndexOf(s[..|s| - 1], c)
  }

  /** A `c` with no `c` after it is the last one. */
  lemma LastIndexOfAt(s: string, c: char, i: nat)
    requires i < |s| && s[i] == c
    requires forall k :: i < k < |s| ==> s[k] != c
    ensures LastIndexOf(s, c) == i
  {
  }

  /** With no `c` at or after `lo`, the last `c` (if any) is before `lo`. */
  lemma LastIndexOfBelow(s: string, c: char, lo: nat)
    requires forall k :: lo <= k < |s| ==> s[k] != c
    ensures LastIndexOf(s, c) < lo
  {
  }
}
