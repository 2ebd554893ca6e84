/** The few pieces of Go's standard library the core relies on for text:
    decimal formatting (`%d`), `strconv.Atoi`, `strings.Split`, `strings.Trim`,
    `strings.TrimSpace`, `strings.Contains`, `strings.HasPrefix` and `filepath.Base`.
    Go strings are byte strings; here they are sequences of characters. */
module Text {
  import opened Wrappers

  const MaxInt64: int := 0x7fff_ffff_ffff_ffff
  const MinInt64: int := -0x8000_0000_0000_0000

  function Min(a: int, b: int): int {
    if a <= b then a else b
  }

  predicate IsDigit(c: char) {
    '0' <= c <= '9'
  }

  predicate AllDigits(s: string) {
    forall i :: 0 <= i < |s| ==> IsDigit(s[i])
  }

  function DigitChar(d: nat): (c: char)
    requires d < 10
    ensures IsDigit(c) && c as int - '0' as int == d
  {
    (d + '0' as int) as char
  }

  /** Decimal digits of `n`, most significant first, without leading zeros. */
  function NatToString(n: nat): (s: string)
    ensures |s| > 0 && AllDigits(s)
    ensures s[0] == '0' <==> n == 0
  {
    if n < 10 then [DigitChar(n)] else NatToString(n / 10) + [DigitChar(n % 10)]
  }

  /** `fmt.Sprintf("%d", i)`. */
  function IntToString(i: int): (s: string)
    ensures |s| > 0
    ensures s[0] == '-' <==> i < 0
  {
    if i < 0 then "-" + NatToString(-i) else NatToString(i)
  }

  /** A slice of a slice is a slice of the whole. */
  lemma SliceOfSlice(s: string, a: nat, b: nat, c: nat, d: nat)
    requires a <= b <= |s| && c <= d <= b - a
    ensures s[a..b][c..d] == s[a + c..a + d]
  {
    var t := s[a..b];
    assert forall m :: 0 <= m < d - c ==> t[c..d][m] == t[c + m] == s[a + c + m];
  }

  lemma IntToStringOne()
    ensures IntToString(1) == "1"
  {
    assert DigitChar(1) == '1';
  }

  /** The value of a string of decimal digits. */
  function DigitsValue(s: string): nat
    requires AllDigits(s)
  {
    if s == [] then 0
    else DigitsValue(s[..|s| - 1]) * 10 + (s[|s| - 1] as int - '0' as int)
  }

  lemma {:induction false} DigitsValueOfNatToString(n: nat)
    ensures DigitsValue(NatToString(n)) == n
  {
    if n >= 10 {
      var s := NatToString(n);
      assert s[..|s| - 1] == NatToString(n / 10);
      DigitsValueOfNatToString(n / 10);
    }
  }

  /** `strconv.Atoi`: an optional sign followed by at least one decimal digit,
      whose value fits in a 64-bit int; anything else is an error (None). */
  function Atoi(s: string): (r: Option<int>)
    ensures r.Some? ==> MinInt64 <= r.value <= MaxInt64
  {
    var negative := |s| > 0 && s[0] == '-';
    var digits := if |s| > 0 && (s[0] == '+' || s[0] == '-') then s[1..] else s;
    if |digits| == 0 || !AllDigits(digits) then None
    else
      var magnitude: int := DigitsValue(digits);
      var v := if negative then 0 - magnitude else magnitude;
      if MinInt64 <= v <= MaxInt64 then Some(v) else None
  }

  /** Formatting an int64 with `%d` and parsing it back with `strconv.Atoi` is the identity. */
  lemma AtoiOfIntToString(n: int)
    requires MinInt64 <= n <= MaxInt64
    ensures Atoi(IntToString(n)) == Some(n)
  {
    var s := IntToString(n);
    if n < 0 {
      var d := NatToString(-n);
      assert s == "-" + d && s[1..] == d;
      DigitsValueOfNatToString(-n);
      assert Atoi(s) == Some(0 - DigitsValue(d));
    } else {
      var d := NatToString(n);
      assert IsDigit(d[0]);
      DigitsValueOfNatToString(n);
      assert Atoi(s) == Some(DigitsValue(d));
    }
  }

  /** `strings.Split(s, string(sep))` for a one-character separator. */
  function Split(s: string, sep: char): (parts: seq<string>)
    ensures |parts| > 0
    ensures forall i :: 0 <= i < |parts| ==> sep !in parts[i]
  {
    if s == [] then [""]
    else
      var rest := Split(s[1..], sep);
      if s[0] == sep then [""] + rest else [[s[0]] + rest[0]] + rest[1..]
  }

  /** `strings.Join(parts, string(sep))`. */
  function Join(parts: seq<string>, sep: char): string
    requires |parts| > 0
  {
    if |parts| == 1 then parts[0] else parts[0] + [sep] + Join(parts[1..], sep)
  }

  /** Splitting and joining again gives back the original string. */
  lemma {:induction false} JoinSplit(s: string, sep: char)
    ensures Join(Split(s, sep), sep) == s
  {
    if s != [] {
      var rest := Split(s[1..], sep);
      JoinSplit(s[1..], sep);
      if s[0] != sep {
        if |rest| > 1 {
          assert rest == [rest[0]] + rest[1..];
          assert Join(rest, sep) == rest[0] + [sep] + Join(rest[1..], sep);
        }
      }
    }
  }

  /** A string without the separator splits into itself alone. */
  lemma {:induction false} SplitWithoutSeparator(s: string, sep: char)
    requires sep !in s
    ensures Split(s, sep) == [s]
  {
    if s != [] {
      SplitWithoutSeparator(s[1..], sep);
      assert [s[0]] + s[1..] == s;
    }
  }

  /** Splitting `a + [sep] + b` where `a` holds no separator begins with `a`. */
  lemma {:induction false} SplitAtFirstSeparator(a: string, b: string, sep: char)
    requires sep !in a
    ensures Split(a + [sep] + b, sep) == [a] + Split(b, sep)
  {
    if a == [] {
      assert (a + [sep] + b)[1..] == b;
    } else {
      assert (a + [sep] + b)[1..] == a[1..] + [sep] + b;
      SplitAtFirstSeparator(a[1..], b, sep);
      assert [a[0]] + a[1..] == a;
    }
  }

  /** Drops every leading character that is in `cut`. */
  function TrimLeft(s: string, cut: set<char>): (r: string)
    ensures |r| <= |s| && r == s[|s| - |r|..]
    ensures forall k :: 0 <= k < |s| - |r| ==> s[k] in cut
    ensures r == [] || r[0] !in cut
  {
    if s != [] && s[0] in cut then
      var r := TrimLeft(s[1..], cut);
      assert s[1..][|s| - 1 - |r|..] == s[|s| - |r|..];
      assert forall k :: 1 <= k < |s| ==> s[k] == s[1..][k - 1];
      r
    else s
  }

  /** Drops every trailing character that is in `cut`. */
  function TrimRight(s: string, cut: set<char>): (r: string)
    ensures |r| <= |s| && r == s[..|r|]
    ensures forall k :: |r| <= k < |s| ==> s[k] in cut
    ensures r == [] || r[|r| - 1] !in cut
  {
    if s != [] && s[|s| - 1] in cut then
      var r := TrimRight(s[..|s| - 1], cut);
      assert s[..|s| - 1][..|r|] == s[..|r|];
      r
    else s
  }

  /** `strings.Trim(s, cutset)`. */
  function Trim(s: string, cut: set<char>): string {
    TrimRight(TrimLeft(s, cut), cut)
  }

  lemma TrimLeftDropsOne(s: string, cut: set<char>)
    requires s != [] && s[0] in cut
    ensures TrimLeft(s, cut) == TrimLeft(s[1..], cut)
  {
  }

  lemma TrimLeftStops(s: string, cut: set<char>)
    requires s == [] || s[0] !in cut
    ensures TrimLeft(s, cut) == s
  {
  }

  lemma TrimRightDropsOne(s: string, cut: set<char>)
    requires s != [] && s[|s| - 1] in cut
    ensures TrimRight(s, cut) == TrimRight(s[..|s| - 1], cut)
  {
  }

  lemma TrimRightStops(s: string, cut: set<char>)
    requires s == [] || s[|s| - 1] !in cut
    ensures TrimRight(s, cut) == s
  {
  }

  /** A string that neither starts nor ends with a character of `cut` is its own trim. */
  lemma TrimUntouched(s: string, cut: set<char>)
    requires s == [] || (s[0] !in cut && s[|s| - 1] !in cut)
    ensures Trim(s, cut) == s
  {
  }

  /** The characters `unicode.IsSpace` accepts. */
  const SpaceChars: set<char> := {
    '\t', '\n', '\U{000B}', '\U{000C}', '\r', ' ', '\U{0085}', '\U{00A0}', '\U{1680}',
    '\U{2000}', '\U{2001}', '\U{2002}', '\U{2003}', '\U{2004}', '\U{2005}', '\U{2006}',
    '\U{2007}', '\U{2008}', '\U{2009}', '\U{200A}', '\U{2028}', '\U{2029}', '\U{202F}',
    '\U{205F}', '\U{3000}'
  }

  /** `strings.TrimSpace`. */
  function TrimSpace(s: string): string {
    Trim(s, SpaceChars)
  }

  /** `strings.HasPrefix`. */
  predicate HasPrefix(s: string, prefix: string) {
    |prefix| <= |s| && s[..|prefix|] == prefix
  }

  /** `strings.Contains`, searching from the left. */
  predicate Contains(s: string, sub: string)
    decreases |s|
  {
    HasPrefix(s, sub) || (|s| > 0 && Contains(s[1..], sub))
  }

  /** `sub` occurs in `s` at position `i`. */
  predicate OccursAt(s: string, sub: string, i: int) {
    0 <= i <= |s| - |sub| && s[i..i + |sub|] == sub
  }

  /** `Contains` holds exactly when `sub` occurs at some position of `s`. */
  lemma ContainsIffOccurs(s: string, sub: string)
    ensures Contains(s, sub) <==> exists i :: OccursAt(s, sub, i)
  {
    if Contains(s, sub) {
      var i := ContainsAt(s, sub);
    }
    if exists i :: OccursAt(s, sub, i) {
      var i :| OccursAt(s, sub, i);
      OccursContains(s, sub, i);
    }
  }

  /** A position at which a contained `sub` occurs. */
  lemma {:induction false} ContainsAt(s: string, sub: string) returns (i: nat)
    requires Contains(s, sub)
    ensures OccursAt(s, sub, i)
    decreases |s|
  {
    if HasPrefix(s, sub) {
      i := 0;
    } else {
      var j := ContainsAt(s[1..], sub);
      SliceOfSlice(s, 1, |s|, j, j + |sub|);
      i := j + 1;
    }
  }

  /** An occurrence at `i` is found by the left-to-right search. */
  lemma {:induction false} OccursContains(s: string, sub: string, i: nat)
    requires OccursAt(s, sub, i)
    ensures Contains(s, sub)
    decreases i
  {
    if i > 0 {
      SliceOfSlice(s, 1, |s|, i - 1, i - 1 + |sub|);
      OccursContains(s[1..], sub, i - 1);
    }
  }

  /** Text found in a slice of `s` is found in `s`. */
  lemma ContainsInSlice(s: string, a: nat, b: nat, x: string)
    requires a <= b <= |s| && Contains(s[a..b], x)
    ensures Contains(s, x)
  {
    ContainsIffOccurs(s[a..b], x);
    var i :| OccursAt(s[a..b], x, i);
    SliceOfSlice(s, a, b, i, i + |x|);
    assert OccursAt(s, x, a + i);
    ContainsIffOccurs(s, x);
  }


  /** `filepath.Base` for slash-separated paths: the last element after trailing
      slashes are removed; "." for the empty path and "/" for a path of slashes. */
  function BaseName(path: string): (r: string)
    ensures |r| > 0
  {
    if path == [] then "."
    else
      var stripped := TrimRight(path, {'/'});
      if stripped == [] then "/" else LastElement(stripped)
  }

  /** What follows the last '/' of `s`, or all of `s` when it holds none. */
  function LastElement(s: string): (r: string)
    ensures '/' !in r
    ensures |r| <= |s| && r == s[|s| - |r|..]
    ensures |r| < |s| ==> s[|s| - |r| - 1] == '/'
  {
    if s == [] then []
    else if s[|s| - 1] == '/' then []
    else
      var init := s[..|s| - 1];
      var r := LastElement(init);
      assert s[|s| - |r| - 1..] == init[|init| - |r|..] + [s[|s| - 1]];
      r + [s[|s| - 1]]
  }

  /** The base of `dir/name` is `name` when `name` is a non-empty slash-free element. */
  lemma BaseNameOfJoin(dir: string, name: string)
    requires name != [] && '/' !in name
    ensures BaseName(dir + "/" + name) == name
  {
    var p := dir + "/" + name;
    assert p[|p| - 1] == name[|name| - 1];
    assert TrimRight(p, {'/'}) == p;
    LastElementOfJoin(dir, name);
  }

  lemma {:induction false} LastElementOfJoin(dir: string, name: string)
    requires '/' !in name
    ensures LastElement(dir + "/" + name) == name
    decreases |name|
  {
    var p := dir + "/" + name;
    if name == [] {
      assert p[|p| - 1] == '/';
    } else {
      assert p[..|p| - 1] == dir + "/" + name[..|name| - 1];
      LastElementOfJoin(dir, name[..|name| - 1]);
      assert name[..|name| - 1] + [name[|name| - 1]] == name;
    }
  }

  /** What `filepath.Clean` keeps of a list of path elements, read left to
      right: empty and "." elements go, ".." removes the element before it,
      and a ".." with nothing to remove is dropped at the root and kept
      otherwise. */
  function Resolve(elems: seq<string>, rooted: bool): seq<string> {
    if elems == [] then []
    else
      var kept := Resolve(elems[..|elems| - 1], rooted);
      var e := elems[|elems| - 1];
      if e == "" || e == "." then kept
      else if e != ".." then kept + [e]
      else if kept != [] && kept[|kept| - 1] != ".." then kept[..|kept| - 1]
      else if rooted then kept
      else kept + [".."]
  }

  /** `filepath.Clean` for slash-separated paths: the resolved elements joined
      by single slashes, behind a '/' when the path is rooted; "." or "/"
      when nothing is left. */
  function CleanPath(path: string): string {
    var rooted := path != [] && path[0] == '/';
    var elems := Resolve(Split(path, '/'), rooted);
    if elems == [] then (if rooted then "/" else ".")
    else (if rooted then "/" else "") + Join(elems, '/')
  }

  /** `filepath.Join(dir, name)`: the non-empty elements joined by '/' and
      cleaned, or "" when both are empty. */
  function JoinPath(dir: string, name: string): string {
    if dir != "" then CleanPath(dir + "/" + name)
    else if name != "" then CleanPath(name)
    else ""
  }

  lemma {:induction false} SplitAppend(a: string, b: string, sep: char)
    ensures Split(a + [sep] + b, sep) == Split(a, sep) + Split(b, sep)
  {
    if a == [] {
      assert (a + [sep] + b)[1..] == b;
    } else {
      assert (a + [sep] + b)[1..] == a[1..] + [sep] + b;
      SplitAppend(a[1..], b, sep);
    }
  }

  lemma {:induction false} JoinAppend(parts: seq<string>, last: string, sep: char)
    requires |parts| > 0
    ensures Join(parts + [last], sep) == Join(parts, sep) + [sep] + last
  {
    if |parts| > 1 {
      assert (parts + [last])[1..] == parts[1..] + [last];
      JoinAppend(parts[1..], last, sep);
    }
  }

  /** A proper name appended to a list of elements survives resolution. */
  lemma ResolveAppend(elems: seq<string>, name: string, rooted: bool)
    requires name != "" && name != "." && name != ".."
    ensures Resolve(elems + [name], rooted) == Resolve(elems, rooted) + [name]
  {
    assert (elems + [name])[..|elems|] == elems;
  }

  lemma LastElementWhole(s: string)
    requires '/' !in s
    ensures LastElement(s) == s
  {
  }

  /** Whatever the directory, joining a slash-free name other than "." and
      ".." leaves that name as the path's last element. */
  lemma JoinPathLastElement(dir: string, name: string)
    requires '/' !in name && name != "" && name != "." && name != ".."
    ensures LastElement(JoinPath(dir, name)) == name
  {
    SplitWithoutSeparator(name, '/');
    if dir == "" {
      ResolveAppend([], name, false);
      CleanEndsWith(name, [], name);
    } else {
      var p := dir + "/" + name;
      var rooted := p[0] == '/';
      SplitAppend(dir, name, '/');
      ResolveAppend(Split(dir, '/'), name, rooted);
      CleanEndsWith(p, Resolve(Split(dir, '/'), rooted), name);
    }
  }

  lemma CleanEndsWith(path: string, kept: seq<string>, name: string)
    requires '/' !in name
    requires Resolve(Split(path, '/'), path != [] && path[0] == '/') == kept + [name]
    ensures LastElement(CleanPath(path)) == name
  {
    var prefix: string := if path != [] && path[0] == '/' then "/" else "";
    assert CleanPath(path) == prefix + Join(kept + [name], '/');
    JoinedLast(prefix, kept, name);
  }

  lemma JoinedLast(prefix: string, kept: seq<string>, name: string)
    requires '/' !in name && (prefix == "" || prefix == "/")
    ensures LastElement(prefix + Join(kept + [name], '/')) == name
  {
    if kept == [] {
      assert kept + [name] == [name];
      JoinedAlone(prefix, name);
    } else {
      JoinedAfter(prefix, kept, name);
    }
  }

  lemma JoinedAlone(prefix: string, name: string)
    requires '/' !in name && (prefix == "" || prefix == "/")
    ensures LastElement(prefix + Join([name], '/')) == name
  {
    assert Join([name], '/') == name;
    if prefix == "" {
      assert prefix + name == name;
      LastElementWhole(name);
    } else {
      assert prefix + name == "" + "/" + name;
      LastElementOfJoin("", name);
    }
  }

  lemma JoinedAfter(prefix: string, kept: seq<string>, name: string)
    requires '/' !in name && kept != []
    ensures LastElement(prefix + Join(kept + [name], '/')) == name
  {
    var front := prefix + Join(kept, '/');
    JoinAppend(kept, name, '/');
    assert prefix + Join(kept + [name], '/') == front + "/" + name;
    LastElementOfJoin(front, name);
  }

  /** A proper element followed by ".." cancels out of a joined path. */
  lemma JoinPathClimb(dir: string, e: string, name: string)
    requires '/' !in e && e != "" && e != "." && e != ".."
    requires '/' !in name && name != "" && name != "." && name != ".."
    ensures JoinPath(dir, e + "/" + ".." + "/" + name) == JoinPath(dir, name)
  {
    ClimbElements(e, name);
    if dir == "" {
      JoinPathClimbAlone(e, name);
    } else {
      JoinPathClimbBelow(dir, e, name);
    }
  }

  lemma ClimbElements(e: string, name: string)
    requires '/' !in e && '/' !in name
    ensures Split(e + "/" + ".." + "/" + name, '/') == [e, ".."] + [name]
  {
    SplitWithoutSeparator(e, '/');
    SplitWithoutSeparator("..", '/');
    SplitWithoutSeparator(name, '/');
    SplitAppend(e + "/" + "..", name, '/');
    SplitAppend(e, "..", '/');
  }

  lemma JoinPathClimbAlone(e: string, name: string)
    requires '/' !in e && e != "" && e != "." && e != ".."
    requires '/' !in name && name != "" && name != "." && name != ".."
    requires Split(e + "/" + ".." + "/" + name, '/') == [e, ".."] + [name]
    ensures CleanPath(e + "/" + ".." + "/" + name) == CleanPath(name)
  {
    var climb := e + "/" + ".." + "/" + name;
    ResolveClimb([], e, name, false);
    assert [] + [e, ".."] == [e, ".."];
    assert climb[0] == e[0] && e[0] != '/';
    assert Resolve(Split(climb, '/'), false) == [name];
    SplitWithoutSeparator(name, '/');
    assert Resolve([name], false) == [name] by { ResolveAppend([], name, false); }
    assert name[0] != '/';
  }

  lemma JoinPathClimbBelow(dir: string, e: string, name: string)
    requires dir != ""
    requires '/' !in e && e != "" && e != "." && e != ".."
    requires '/' !in name && name != "" && name != "." && name != ".."
    requires Split(e + "/" + ".." + "/" + name, '/') == [e, ".."] + [name]
    ensures CleanPath(dir + "/" + (e + "/" + ".." + "/" + name)) == CleanPath(dir + "/" + name)
  {
    var rooted := dir[0] == '/';
    var base := Split(dir, '/');
    SplitAppend(dir, e + "/" + ".." + "/" + name, '/');
    SplitAppend(dir, name, '/');
    SplitWithoutSeparator(name, '/');
    assert base + ([e, ".."] + [name]) == (base + [e, ".."]) + [name];
    ResolveClimb(base, e, name, rooted);
    ResolveAppend(base, name, rooted);
  }

  lemma ResolveClimb(base: seq<string>, e: string, name: string, rooted: bool)
    requires e != "" && e != "." && e != ".."
    requires name != "" && name != "." && name != ".."
    ensures Resolve((base + [e, ".."]) + [name], rooted) == Resolve(base, rooted) + [name]
  {
    ResolveAppend(base, e, rooted);
    assert (base + [e, ".."])[..|base| + 1] == base + [e];
    assert Resolve(base + [e, ".."], rooted) == Resolve(base, rooted);
    ResolveAppend(base + [e, ".."], name, rooted);
  }
}
