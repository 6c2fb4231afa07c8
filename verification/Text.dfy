/** The parts of Python's string library that the modelled programs lean on. */
module Text {

  lemma Associative(a: string, b: string, c: string)
    ensures (a + b) + c == a + (b + c)
  {}

  /** `sub` stands in `s` at index `i`. */
  predicate At(s: string, sub: string, i: int) {
    0 <= i && i + |sub| <= |s| && forall j :: 0 <= j < |sub| ==> s[i + j] == sub[j]
  }

  /** `s.find(sub, start)`: the first occurrence from `start` on, or -1. */
  function Find(s: string, sub: string, start: nat): (n: int)
    ensures n == -1 || start <= n <= |s| - |sub|
    decreases |s| - start
  {
    if start + |sub| > |s| then -1
    else if At(s, sub, start) then start
    else Find(s, sub, start + 1)
  }

  lemma {:induction false} FindIsFirst(s: string, sub: string, start: nat)
    ensures var n := Find(s, sub, start);
      && (n != -1 ==> At(s, sub, n))
      && forall k :: start <= k && (n == -1 || k < n) ==> !At(s, sub, k)
    decreases |s| - start
  {
    if start + |sub| <= |s| && !At(s, sub, start) {
      FindIsFirst(s, sub, start + 1);
    }
  }

  lemma FindIs(s: string, sub: string, start: nat, n: nat)
    requires start <= n && At(s, sub, n)
    requires forall k :: start <= k < n ==> !At(s, sub, k)
    ensures Find(s, sub, start) == n
  {
    FindIsFirst(s, sub, start);
  }

  /** `n` is the first place from `from` on at which `sub` stands. */
  predicate FirstAt(s: string, sub: string, from: nat, n: int) {
    from <= n && At(s, sub, n) && forall k :: from <= k < n ==> !At(s, sub, k)
  }

  lemma FindWhen(s: string, sub: string, from: nat, n: nat)
    ensures Find(s, sub, from) == n <==> FirstAt(s, sub, from, n)
  {
    FindIsFirst(s, sub, from);
    if FirstAt(s, sub, from, n) {
      FindIs(s, sub, from, n);
    }
  }

  lemma AtOne(s: string, c: char, i: int)
    ensures At(s, [c], i) <==> 0 <= i < |s| && s[i] == c
  {
    assert [c][0] == c;
  }

  /** `str.isspace` on one character. */
  predicate IsSpace(c: char) {
    '\t' <= c <= '\r' || '\U{1c}' <= c <= ' ' || c == '\U{85}' || c == '\U{a0}' || c == '\U{1680}'
    || '\U{2000}' <= c <= '\U{200a}' || c == '\U{2028}' || c == '\U{2029}' || c == '\U{202f}'
    || c == '\U{205f}' || c == '\U{3000}'
  }

  function SkipSpaces(s: string, i: nat): (n: nat)
    requires i <= |s|
    ensures i <= n <= |s|
    decreases |s| - i
  {
    if i == |s| || !IsSpace(s[i]) then i else SkipSpaces(s, i + 1)
  }

  function SkipSpacesBack(s: string, i: nat, lo: nat): (n: nat)
    requires lo <= i <= |s|
    ensures lo <= n <= i
  {
    if i == lo || !IsSpace(s[i - 1]) then i else SkipSpacesBack(s, i - 1, lo)
  }

  /** `s.strip()`. */
  function Strip(s: string): string {
    var lo := SkipSpaces(s, 0);
    s[lo..SkipSpacesBack(s, |s|, lo)]
  }

  predicate Stripped(s: string) {
    s != "" ==> !IsSpace(s[0]) && !IsSpace(s[|s| - 1])
  }

  lemma {:induction false} SkipsOnlySpaces(s: string, i: nat)
    requires i <= |s|
    ensures forall k :: i <= k < SkipSpaces(s, i) ==> IsSpace(s[k])
    ensures SkipSpaces(s, i) < |s| ==> !IsSpace(s[SkipSpaces(s, i)])
    decreases |s| - i
  {
    if i < |s| && IsSpace(s[i]) {
      SkipsOnlySpaces(s, i + 1);
    }
  }

  lemma {:induction false} SkipsOnlySpacesBack(s: string, i: nat, lo: nat)
    requires lo <= i <= |s|
    ensures forall k :: SkipSpacesBack(s, i, lo) <= k < i ==> IsSpace(s[k])
    ensures lo < SkipSpacesBack(s, i, lo) ==> !IsSpace(s[SkipSpacesBack(s, i, lo) - 1])
  {
    if lo < i && IsSpace(s[i - 1]) {
      SkipsOnlySpacesBack(s, i - 1, lo);
    }
  }

  /** What `strip` leaves is the text between its first and its last character that is no space. */
  lemma StripIsStripped(s: string)
    ensures Stripped(Strip(s))
    ensures forall c :: c in Strip(s) ==> c in s
  {
    var lo := SkipSpaces(s, 0);
    var hi := SkipSpacesBack(s, |s|, lo);
    SkipsOnlySpaces(s, 0);
    SkipsOnlySpacesBack(s, |s|, lo);
    assert lo < hi ==> Strip(s)[0] == s[lo] && Strip(s)[hi - lo - 1] == s[hi - 1];
  }

  /** Stripping takes off the spaces in front of a text that is itself stripped. */
  lemma StripPadded(s: string, lo: nat)
    requires lo <= |s| && Stripped(s[lo..]) && forall k :: 0 <= k < lo ==> IsSpace(s[k])
    ensures Strip(s) == s[lo..]
  {
    SkipsOnlySpaces(s, 0);
    SkipsOnlySpacesBack(s, |s|, SkipSpaces(s, 0));
    if lo < |s| {
      assert s[lo..][0] == s[lo] && s[lo..][|s| - lo - 1] == s[|s| - 1];
    }
  }

  /** `s.split(c)`: always at least one part. */
  function Split(s: string, c: char): (parts: seq<string>)
    ensures parts != []
  {
    if s == "" then [""]
    else
      var parts, last := Split(s[..|s| - 1], c), s[|s| - 1];
      if last == c then parts + [""] else LengthenLast(parts, [last])
  }

  lemma {:induction false} PartsHaveNoSeparator(s: string, c: char)
    ensures forall p :: p in Split(s, c) ==> c !in p
  {
    if s != "" {
      PartsHaveNoSeparator(s[..|s| - 1], c);
    }
  }

  function LengthenLast(parts: seq<string>, x: string): seq<string>
    requires parts != []
  {
    parts[..|parts| - 1] + [parts[|parts| - 1] + x]
  }

  lemma LengthenTwice(parts: seq<string>, x: string, y: string)
    requires parts != []
    ensures LengthenLast(LengthenLast(parts, x), y) == LengthenLast(parts, x + y)
    ensures LengthenLast(parts, "") == parts
  {
    var last := parts[|parts| - 1];
    assert (last + x) + y == last + (x + y);
    assert last + "" == last;
  }

  /** Text without the separator only lengthens the last part. */
  lemma {:induction false} SplitAppend(s: string, x: string, c: char)
    requires c !in x
    ensures Split(s + x, c) == LengthenLast(Split(s, c), x)
  {
    if x == "" {
      assert s + x == s;
      LengthenTwice(Split(s, c), "", "");
    } else {
      var y, last := x[..|x| - 1], x[|x| - 1];
      assert last in x && y + [last] == x;
      SplitAppend(s, y, c);
      assert (s + x)[..|s + x| - 1] == s + y;
      LengthenTwice(Split(s, c), y, [last]);
    }
  }

  lemma JoinedInit(a: string, b: string, c: char)
    requires b != ""
    ensures var s := a + [c] + b; s != "" && s[..|s| - 1] == a + [c] + b[..|b| - 1] && s[|s| - 1] == b[|b| - 1]
  {
  }

  lemma SplitOne(s: string, c: char)
    requires s != ""
    ensures var parts, last := Split(s[..|s| - 1], c), s[|s| - 1];
      Split(s, c) == if last == c then parts + [""] else LengthenLast(parts, [last])
  {
  }

  lemma ConcatOne(a: seq<string>, b: seq<string>, x: string)
    ensures a + (b + [x]) == a + b + [x]
  {
  }

  /** A separator separates. */
  lemma {:induction false} SplitJoined(a: string, b: string, c: char)
    ensures Split(a + [c] + b, c) == Split(a, c) + Split(b, c)
  {
    if b == "" {
      assert a + [c] + b == a + [c] && (a + [c])[..|a|] == a;
    } else {
      hide Split, LengthenLast;
      SplitJoined(a, b[..|b| - 1], c);
      JoinedInit(a, b, c);
      SplitOne(a + [c] + b, c);
      SplitOne(b, c);
      ConcatOne(Split(a, c), Split(b[..|b| - 1], c), "");
      LengthenSecond(Split(a, c), Split(b[..|b| - 1], c), [b[|b| - 1]]);
    }
  }

  lemma LengthenSecond(a: seq<string>, b: seq<string>, x: string)
    requires b != []
    ensures LengthenLast(a + b, x) == a + LengthenLast(b, x)
  {
    assert (a + b)[..|a + b| - 1] == a + b[..|b| - 1];
  }

  /** The text of a sequence of lines, each ended by a newline. */
  function Unlines(ls: seq<string>): string {
    if ls == [] then "" else Unlines(ls[..|ls| - 1]) + (ls[|ls| - 1] + "\n")
  }

  lemma {:induction false} SplitUnlines(ls: seq<string>)
    requires forall l :: l in ls ==> '\n' !in l
    ensures Split(Unlines(ls), '\n') == ls + [""]
  {
    if ls != [] {
      var init, l := ls[..|ls| - 1], ls[|ls| - 1];
      SplitUnlines(init);
      SplitAppend(Unlines(init), l, '\n');
      var s := Unlines(init) + l;
      assert Unlines(ls) == s + "\n";
      assert Unlines(ls)[..|s|] == s;
      assert "" + l == l && init + [l] == ls;
    }
  }
}
