/** The preference tool of config_diff.py: the text it reads, the text it writes, and the merge. */
module ConfigDiff {
  import opened Text
  import opened Wrappers

  /** One preference as the tool keeps it: locked or default, its name, and its value as text. */
  datatype Pref = Pref(lock: bool, key: string, value: string)

  type Prefs = map<string, Pref>

  datatype Parsed = Ok(prefs: Prefs) | Duplicate(key: string)

  datatype Line = Skipped | Entry(pref: Pref)

  const IGNORED := "_user.js.parrot"

  /** Lower case of one character.  Only `U+0130` lengthens; the other letters outside ASCII can neither
      make nor break a match with ASCII text. */
  function LowerChar(c: char): string {
    if 'A' <= c <= 'Z' then [c + 32 as char] else if c == '\U{130}' then "i\U{307}" else [c]
  }

  function Lower(s: string): string {
    if s == "" then "" else LowerChar(s[0]) + Lower(s[1..])
  }

  /** `s[0].lower() == "l"`. */
  predicate StartsLocked(s: string) {
    s != "" && (s[0] == 'l' || s[0] == 'L')
  }

  /** What one line of a preference file holds. */
  function ParseLine(i: string): Line {
    if At(Strip(i), "//", 0) then Skipped
    else if |i| < 4 || '"' !in i || ';' !in i || ',' !in i then Skipped
    else
      var n := Find(Lower(i), "pref(\"", 0);
      if n < 4 then Skipped else ParseFields(i, n + 6)
  }

  /** The name that starts at `from` and the value after it. */
  function ParseFields(i: string, from: nat): Line {
    var v := Find(i, "\"", from);
    if v == -1 then Skipped else ParseComma(i, Strip(i[from..v]), v + 1)
  }

  function ParseComma(i: string, key: string, from: nat): Line {
    var c := Find(i, ",", from);
    if c == -1 then Skipped else ParseValue(i, key, c + 1)
  }

  function ParseValue(i: string, key: string, from: nat): Line {
    var e := Find(i, ");", from);
    if e == -1 || key == IGNORED then Skipped
    else Entry(Pref(StartsLocked(Strip(i)), key, Strip(i[from..e])))
  }

  /** The preferences of the lines `ls`, added to those already in `r`. */
  function ParseFrom(r: Prefs, ls: seq<string>): Parsed {
    if ls == [] then Ok(r) else Added(ParseFrom(r, ls[..|ls| - 1]), ls[|ls| - 1])
  }

  /** One more line: the first repeated key stays the answer. */
  function Added(q: Parsed, l: string): Parsed {
    if q.Duplicate? then q
    else match ParseLine(l)
      case Skipped => q
      case Entry(p) => if p.key in q.prefs then Duplicate(p.key) else Ok(q.prefs[p.key := p])
  }

  lemma ParseNext(r: Prefs, ls: seq<string>, j: nat)
    requires j < |ls|
    ensures ParseFrom(r, ls[..j + 1]) == Added(ParseFrom(r, ls[..j]), ls[j])
  {
    assert ls[..j + 1][..j] == ls[..j];
  }

  function Parse(text: string): Parsed {
    ParseFrom(map[], Split(text, '\n'))
  }

  /** `split`: fills a dictionary line by line and stops at the first repeated key. */
  method ReadPrefs(text: string) returns (r: Parsed)
    ensures r == Parse(text)
  {
    hide ParseLine, Split;
    var lines, prefs, j := Split(text, '\n'), map[], 0;
    while j < |lines|
      invariant 0 <= j <= |lines|
      invariant ParseFrom(map[], lines[..j]) == Ok(prefs)
    {
      hide ParseFrom;
      ParseNext(map[], lines, j);
      match ParseLine(lines[j]) {
        case Skipped =>
        case Entry(p) =>
          if p.key in prefs {
            DuplicateStays(map[], lines, j + 1);
            return Duplicate(p.key);
          }
          prefs := prefs[p.key := p];
      }
      j := j + 1;
    }
    assert lines[..j] == lines;
    r := Ok(prefs);
  }

  lemma {:induction false} DuplicateStays(r: Prefs, ls: seq<string>, j: nat)
    requires j <= |ls| && ParseFrom(r, ls[..j]).Duplicate?
    ensures ParseFrom(r, ls) == ParseFrom(r, ls[..j])
    decreases |ls| - j
  {
    if j == |ls| {
      assert ls[..j] == ls;
    } else {
      ParseNext(r, ls, j);
      DuplicateStays(r, ls, j + 1);
    }
  }

  // ---- printing --------------------------------------------------------------------------

  function Spaces(n: int): string {
    if n <= 0 then "" else " " + Spaces(n - 1)
  }

  /** `s.ljust(width)`. */
  function Padded(s: string, width: nat): string {
    s + Spaces(width - |s|)
  }

  function Word(lock: bool): string {
    if lock then "lock" else "default"
  }

  function Head(lock: bool): string {
    Word(lock) + "Pref("
  }

  function Width(lock: bool): nat {
    if lock then 91 else 88
  }

  function PrefLine(p: Pref): string {
    Head(p.lock) + Padded("\"" + p.key + "\"", Width(p.lock)) + ", " + p.value + ");"
  }

  /** The first component of a dotted name, in lower case: the printer separates these groups. */
  function Group(k: string): string {
    Lower(Split(k, '.')[0])
  }

  /** The group printed last among the keys `ks` of one kind. */
  function LastGroup(p: Prefs, ks: seq<string>, lock: bool): (g: Option<string>)
    requires forall k :: k in ks ==> k in p
  {
    if ks == [] then None
    else var k := ks[|ks| - 1];
      if p[k].lock == lock then Some(Group(k)) else LastGroup(p, ks[..|ks| - 1], lock)
  }

  predicate SameGroup(n: Option<string>, k: string) {
    n == None || n == Some(Group(k))
  }

  /** The lines written for the keys `ks` of one kind, an empty one between groups. */
  function Section(p: Prefs, ks: seq<string>, lock: bool): seq<string>
    requires forall k :: k in ks ==> k in p
  {
    if ks == [] then []
    else
      var init, k := ks[..|ks| - 1], ks[|ks| - 1];
      var before := Section(p, init, lock);
      if p[k].lock != lock then before
      else if SameGroup(LastGroup(p, init, lock), k) then before + [PrefLine(p[k])]
      else before + ["", PrefLine(p[k])]
  }

  function Printed(p: Prefs, ks: seq<string>): string
    requires forall k :: k in ks ==> k in p
  {
    Unlines(Section(p, ks, false) + [""] + Section(p, ks, true))
  }

  /** `ks` lists each key once. */
  ghost predicate Enumerates(ks: seq<string>, p: Prefs) {
    (forall k :: k in ks <==> k in p) && forall i, j :: 0 <= i < j < |ks| ==> ks[i] != ks[j]
  }

  /** `output`: default preferences first, then locked ones.  `ks` is the order Python's `sorted` gives. */
  method WritePrefs(p: Prefs, ks: seq<string>) returns (text: string)
    requires Enumerates(ks, p)
    ensures text == Printed(p, ks)
  {
    text := WriteSection(p, ks, false);
    var locked := WriteSection(p, ks, true);
    UnlinesSnoc(Section(p, ks, false), "");
    UnlinesConcat(Section(p, ks, false) + [""], Section(p, ks, true));
    text := text + ("" + "\n") + locked;
  }

  /** One of the printer's two loops. */
  method WriteSection(p: Prefs, ks: seq<string>, lock: bool) returns (text: string)
    requires Enumerates(ks, p)
    ensures text == Unlines(Section(p, ks, lock))
  {
    var n: Option<string>, j := None, 0;
    text := "";
    while j < |ks|
      invariant 0 <= j <= |ks| && n == LastGroup(p, ks[..j], lock)
      invariant text == Unlines(Section(p, ks[..j], lock))
    {
      var k := ks[j];
      SectionNext(p, ks, j, lock);
      if p[k].lock == lock {
        UnlinesSnoc(Section(p, ks[..j], lock), PrefLine(p[k]));
        if !SameGroup(n, k) {
          UnlinesTwice(Section(p, ks[..j], lock), "", PrefLine(p[k]));
          text := text + ("" + "\n");
        }
        text := text + (PrefLine(p[k]) + "\n");
        n := Some(Group(k));
      }
      j := j + 1;
    }
    assert ks[..j] == ks;
  }

  lemma {:induction false} UnlinesConcat(a: seq<string>, b: seq<string>)
    ensures Unlines(a + b) == Unlines(a) + Unlines(b)
  {
    if b == [] {
      assert a + b == a;
    } else {
      UnlinesConcat(a, b[..|b| - 1]);
      assert (a + b)[..|a + b| - 1] == a + b[..|b| - 1];
      Associative(Unlines(a), Unlines(b[..|b| - 1]), b[|b| - 1] + "\n");
    }
  }

  lemma UnlinesSnoc(ls: seq<string>, l: string)
    ensures Unlines(ls + [l]) == Unlines(ls) + (l + "\n")
  {
    assert (ls + [l])[..|ls + [l]| - 1] == ls;
  }

  lemma UnlinesTwice(ls: seq<string>, a: string, b: string)
    ensures Unlines(ls + [a, b]) == Unlines(ls) + (a + "\n") + (b + "\n")
  {
    SnocTwice(ls, a, b);
    UnlinesSnoc(ls, a);
    UnlinesSnoc(ls + [a], b);
  }

  lemma SnocTwice(ls: seq<string>, a: string, b: string)
    ensures ls + [a] + [b] == ls + [a, b]
  {}

  /** What one more key adds to a section. */
  lemma SectionNext(p: Prefs, ks: seq<string>, j: nat, lock: bool)
    requires (forall k :: k in ks ==> k in p) && j < |ks|
    ensures var before, k := Section(p, ks[..j], lock), ks[j];
      Section(p, ks[..j + 1], lock)
      == if p[k].lock != lock then before
         else if SameGroup(LastGroup(p, ks[..j], lock), k) then before + [PrefLine(p[k])]
         else before + ["", PrefLine(p[k])]
    ensures LastGroup(p, ks[..j + 1], lock)
      == if p[ks[j]].lock == lock then Some(Group(ks[j])) else LastGroup(p, ks[..j], lock)
  {
    assert ks[..j + 1][..j] == ks[..j];
  }

  // ---- what is printed -------------------------------------------------------------------

  /** The keys of one kind, in their order. */
  function OfKind(p: Prefs, ks: seq<string>, lock: bool): (r: seq<string>)
    requires forall k :: k in ks ==> k in p
    ensures forall k :: k in r ==> k in ks
  {
    if ks == [] then []
    else (if p[ks[0]].lock == lock then [ks[0]] else []) + OfKind(p, ks[1..], lock)
  }

  /** A line for each key, and an empty one between two of different groups. */
  function Spaced(p: Prefs, ks: seq<string>): seq<string>
    requires forall k :: k in ks ==> k in p
  {
    if ks == [] then []
    else
      [PrefLine(p[ks[0]])]
      + (if |ks| > 1 && Group(ks[0]) != Group(ks[1]) then [""] else [])
      + Spaced(p, ks[1..])
  }

  lemma {:induction false} OfKindSnoc(p: Prefs, ks: seq<string>, k: string, lock: bool)
    requires k in p && forall i :: i in ks ==> i in p
    ensures OfKind(p, ks + [k], lock) == OfKind(p, ks, lock) + if p[k].lock == lock then [k] else []
  {
    if ks == [] {
      assert ([] + [k])[1..] == [];
    } else {
      OfKindSnoc(p, ks[1..], k, lock);
      assert (ks + [k])[1..] == ks[1..] + [k];
    }
  }

  lemma {:induction false} SpacedSnoc(p: Prefs, ks: seq<string>, k: string)
    requires k in p && forall i :: i in ks ==> i in p
    ensures Spaced(p, ks + [k])
      == Spaced(p, ks)
       + (if ks != [] && Group(ks[|ks| - 1]) != Group(k) then ["", PrefLine(p[k])] else [PrefLine(p[k])])
  {
    hide PrefLine, Group;
    if ks == [] {
      assert ([] + [k])[1..] == [];
    } else {
      SpacedSnoc(p, ks[1..], k);
      assert (ks + [k])[1..] == ks[1..] + [k];
    }
  }

  lemma {:induction false} LastGroupIs(p: Prefs, ks: seq<string>, lock: bool)
    requires forall k :: k in ks ==> k in p
    ensures var r := OfKind(p, ks, lock); LastGroup(p, ks, lock) == if r == [] then None else Some(Group(r[|r| - 1]))
  {
    if ks != [] {
      var init, k := ks[..|ks| - 1], ks[|ks| - 1];
      LastGroupIs(p, init, lock);
      OfKindSnoc(p, init, k, lock);
      assert init + [k] == ks;
    }
  }

  /** A section is made of the lines of its kind in the order of the keys, with an empty line exactly between two whose
      names begin differently. */
  lemma {:induction false} SectionIsSpaced(p: Prefs, ks: seq<string>, lock: bool)
    requires forall k :: k in ks ==> k in p
    ensures Section(p, ks, lock) == Spaced(p, OfKind(p, ks, lock))
  {
    if ks != [] {
      var init, k := ks[..|ks| - 1], ks[|ks| - 1];
      SectionIsSpaced(p, init, lock);
      SpacedMore(p, init, k, lock);
      assert init + [k] == ks;
    }
  }

  lemma SpacedMore(p: Prefs, init: seq<string>, k: string, lock: bool)
    requires k in p && (forall i :: i in init ==> i in p) && Section(p, init, lock) == Spaced(p, OfKind(p, init, lock))
    ensures Section(p, init + [k], lock) == Spaced(p, OfKind(p, init + [k], lock))
  {
    hide PrefLine, Group, Spaced, OfKind, LastGroup;
    LastGroupIs(p, init, lock);
    OfKindSnoc(p, init, k, lock);
    assert (init + [k])[..|init|] == init;
    if p[k].lock == lock {
      SpacedSnoc(p, OfKind(p, init, lock), k);
    } else {
      assert OfKind(p, init, lock) + [] == OfKind(p, init, lock);
    }
  }

  /** A name begins with what stands before its first dot, in whatever letter case. */
  lemma GroupIs(head: string, tail: string)
    requires '.' !in head
    ensures Group(head + "." + tail) == Lower(head) == Group(head)
  {
    SplitJoined(head, tail, '.');
    SplitAppend("", head, '.');
    assert "" + head == head;
  }

  /** The characters of a line: the values of both kinds begin in column 102, unless a name is too long. */
  lemma LineColumns(p: Pref)
    ensures var s, front := PrefLine(p), (if p.lock then "lockPref(\"" else "defaultPref(\"") + p.key + "\"";
      var comma := if |front| < 100 then 100 else |front|;
      && |s| == comma + |p.value| + 4 && s[..|front|] == front && (forall i :: |front| <= i < comma ==> s[i] == ' ')
      && s[comma..comma + 2] == ", " && s[comma + 2..comma + 2 + |p.value|] == p.value
      && s[comma + 2 + |p.value|..] == ");"
  {
    hide PrefLine;
    var front, pad := LineIs(p);
    Columns(front, pad, p.value);
  }

  lemma LineIs(p: Pref) returns (front: string, pad: string)
    ensures front == (if p.lock then "lockPref(\"" else "defaultPref(\"") + p.key + "\""
    ensures PrefLine(p) == front + pad + (", " + p.value + ");")
    ensures |pad| == (if |front| < 100 then 100 - |front| else 0) && forall i :: 0 <= i < |pad| ==> pad[i] == ' '
  {
    hide PrefLine;
    front := (if p.lock then "lockPref(\"" else "defaultPref(\"") + p.key + "\"";
    pad := Spaces(Width(p.lock) - |p.key| - 2);
    SpacesAre(Width(p.lock) - |p.key| - 2);
    assert forall i :: 0 <= i < |pad| ==> pad[i] in pad;
    LineParts(p);
    assert Head(p.lock) + "\"" == if p.lock then "lockPref(\"" else "defaultPref(\"";
    FrontFirst(Head(p.lock), p.key, pad, ", " + p.value + ");");
  }

  lemma FrontFirst(head: string, key: string, pad: string, rest: string)
    ensures head + ("\"" + key + "\"" + pad + rest) == (head + "\"") + key + "\"" + pad + rest
  {
  }

  lemma Columns(front: string, pad: string, value: string)
    requires forall i :: 0 <= i < |pad| ==> pad[i] == ' '
    ensures var s, n := front + pad + (", " + value + ");"), |front| + |pad|;
      && |s| == n + |value| + 4 && s[..|front|] == front && (forall i :: |front| <= i < n ==> s[i] == ' ')
      && s[n..n + 2] == ", " && s[n + 2..n + 2 + |value|] == value && s[n + 2 + |value|..] == ");"
  {
    var s, n := front + pad + (", " + value + ");"), |front| + |pad|;
    assert s[n..] == ", " + value + ");";
    assert s[..n] == front + pad;
    assert s[n + 2..n + 2 + |value|] == s[n..][2..2 + |value|];
  }

  // ---- one line there and back -----------------------------------------------------------

  /** A name and a value the text format can carry. */
  predicate WellFormed(p: Pref) {
    Stripped(p.key) && '"' !in p.key && '\n' !in p.key && p.key != IGNORED
    && Stripped(p.value) && '\n' !in p.value && Find(p.value, ");", 0) == -1
  }

  predicate AllWellFormed(p: Prefs) {
    forall k :: k in p ==> p[k].key == k && WellFormed(p[k])
  }

  lemma {:induction false} SpacesAre(n: int)
    ensures |Spaces(n)| == if n <= 0 then 0 else n
    ensures forall c :: c in Spaces(n) ==> c == ' '
  {
    if 0 < n {
      SpacesAre(n - 1);
    }
  }

  lemma {:induction false} LowerConcat(a: string, b: string)
    ensures Lower(a + b) == Lower(a) + Lower(b)
  {
    if a == "" {
      assert a + b == b;
    } else {
      LowerConcat(a[1..], b);
      assert (a + b)[1..] == a[1..] + b;
      Associative(LowerChar(a[0]), Lower(a[1..]), Lower(b));
    }
  }

  lemma LowerPref()
    ensures Lower("Pref(\"") == "pref(\""
  {
  }

  lemma {:induction false} LowerFixed(s: string)
    requires forall i :: 0 <= i < |s| ==> !('A' <= s[i] <= 'Z') && s[i] != '\U{130}'
    ensures Lower(s) == s
  {
    if s != "" {
      LowerFixed(s[1..]);
    }
  }

  /** Where the name starts in a printed line. */
  function KeyAt(lock: bool): nat {
    if lock then 10 else 13
  }

  /** Where the comma after the padded name stands. */
  function CommaAt(p: Pref): nat {
    KeyAt(p.lock) - 1 + if |p.key| + 2 < Width(p.lock) then Width(p.lock) else |p.key| + 2
  }

  /** Where the parts of a printed line stand. */
  ghost predicate IsLine(s: string, p: Pref) {
    var k, c := KeyAt(p.lock), CommaAt(p);
    && |s| == c + |p.value| + 4 && k + |p.key| < c
    && s[0] == (if p.lock then 'l' else 'd') && s[k - 1] == '"'
    && s[k..k + |p.key|] == p.key && s[k + |p.key|] == '"'
    && (forall i :: k + |p.key| < i < c ==> s[i] == ' ')
    && s[c] == ',' && s[c + 1] == ' '
    && s[c + 2..c + 2 + |p.value|] == p.value
    && s[c + 2 + |p.value|] == ')' && s[c + 3 + |p.value|] == ';'
  }

  /** A printed line from its opening quote on, the comma at `n`. */
  ghost predicate IsTail(t: string, key: string, value: string, n: nat) {
    && |t| == n + |value| + 4 && |key| + 2 <= n
    && t[0] == '"' && t[1..1 + |key|] == key && t[1 + |key|] == '"'
    && (forall i :: 1 + |key| < i < n ==> t[i] == ' ')
    && t[n] == ',' && t[n + 1] == ' '
    && t[n + 2..n + 2 + |value|] == value
    && t[n + 2 + |value|] == ')' && t[n + 3 + |value|] == ';'
  }

  lemma TailShape(key: string, pad: string, value: string)
    requires forall i :: 0 <= i < |pad| ==> pad[i] == ' '
    ensures IsTail("\"" + key + "\"" + pad + (", " + value + ");"), key, value, |key| + 2 + |pad|)
  {
  }

  lemma AfterHead(head: string, t: string, n: nat, p: Pref)
    requires |head| == KeyAt(p.lock) - 1 && head[0] == if p.lock then 'l' else 'd'
    requires |head| + n == CommaAt(p) && IsTail(t, p.key, p.value, n)
    ensures IsLine(head + t, p)
  {
    var s, h := head + t, |head|;
    assert forall i :: h <= i < |s| ==> s[i] == t[i - h];
    SliceAfter(head, t, 1, 1 + |p.key|);
    SliceAfter(head, t, n + 2, n + 2 + |p.value|);
  }

  lemma SliceAfter(a: string, b: string, i: nat, j: nat)
    requires i <= j <= |b|
    ensures (a + b)[|a| + i..|a| + j] == b[i..j]
  {}

  lemma LineShape(p: Pref)
    ensures IsLine(PrefLine(p), p)
  {
    var pad := Spaces(Width(p.lock) - |p.key| - 2);
    SpacesAre(Width(p.lock) - |p.key| - 2);
    assert forall i :: 0 <= i < |pad| ==> pad[i] in pad;
    TailShape(p.key, pad, p.value);
    LineParts(p);
    AfterHead(Head(p.lock), "\"" + p.key + "\"" + pad + (", " + p.value + ");"), |p.key| + 2 + |pad|, p);
  }

  lemma LineParts(p: Pref)
    ensures var pad := Spaces(Width(p.lock) - |p.key| - 2);
      PrefLine(p) == Head(p.lock) + ("\"" + p.key + "\"" + pad + (", " + p.value + ");"))
  {}

  lemma PrefQuote(x: string)
    ensures "Pref(" + ("\"" + x) == "Pref(\"" + x
  {}

  lemma LowerThree(a: string, b: string, c: string)
    ensures Lower(a + (b + c)) == Lower(a) + (Lower(b) + Lower(c))
  {
    LowerConcat(a, b + c);
    LowerConcat(b, c);
  }

  lemma LineFromWord(p: Pref) returns (tail: string)
    ensures PrefLine(p) == Word(p.lock) + ("Pref(" + ("\"" + tail))
  {
    var pad, rest := Spaces(Width(p.lock) - |p.key| - 2), ", " + p.value + ");";
    tail := p.key + "\"" + pad + rest;
    LineParts(p);
    QuoteFirst(p.key, "\"", pad, rest);
    Associative(Word(p.lock), "Pref(", "\"" + tail);
  }

  lemma QuoteFirst(a: string, b: string, c: string, d: string)
    ensures "\"" + a + b + c + d == "\"" + (a + b + c + d)
  {}

  /** In lower case a printed line still starts with its keyword, then `pref("`. */
  lemma LowerLine(p: Pref) returns (rest: string)
    ensures Lower(PrefLine(p)) == Word(p.lock) + ("pref(\"" + rest)
  {
    var tail := LineFromWord(p);
    PrefQuote(tail);
    LowerThree(Word(p.lock), "Pref(\"", tail);
    LowerPref();
    LowerWord(p.lock);
    rest := Lower(tail);
  }

  lemma LowerWord(lock: bool)
    ensures Lower(Word(lock)) == Word(lock)
  {
    LowerFixed(Word(lock));
  }

  lemma FirstAfterWord(word: string, sub: string, rest: string)
    requires sub != "" && sub[0] !in word
    ensures Find(word + (sub + rest), sub, 0) == |word|
  {
    var s := word + (sub + rest);
    forall k | 0 <= k < |word|
      ensures !At(s, sub, k)
    {
      assert s[k + 0] == word[k];
    }
    FindIs(s, sub, 0, |word|);
  }

  lemma FindsPref(p: Pref)
    ensures Find(Lower(PrefLine(p)), "pref(\"", 0) == KeyAt(p.lock) - 6
  {
    var rest := LowerLine(p);
    FirstAfterWord(Word(p.lock), "pref(\"", rest);
    assert |Word(p.lock)| == KeyAt(p.lock) - 6;
  }

  lemma FindsQuote(s: string, p: Pref)
    requires IsLine(s, p) && '"' !in p.key
    ensures Find(s, "\"", KeyAt(p.lock)) == KeyAt(p.lock) + |p.key|
  {
    var from := KeyAt(p.lock);
    forall k | from <= k < from + |p.key|
      ensures !At(s, "\"", k)
    {
      assert s[k] == s[from..from + |p.key|][k - from];
      AtOne(s, '"', k);
    }
    AtOne(s, '"', from + |p.key|);
    FindIs(s, "\"", from, from + |p.key|);
  }

  lemma FindsComma(s: string, p: Pref)
    requires IsLine(s, p)
    ensures Find(s, ",", KeyAt(p.lock) + |p.key| + 1) == CommaAt(p)
  {
    forall k | KeyAt(p.lock) + |p.key| + 1 <= k < CommaAt(p)
      ensures !At(s, ",", k)
    {
      AtOne(s, ',', k);
    }
    AtOne(s, ',', CommaAt(p));
    FindIs(s, ",", KeyAt(p.lock) + |p.key| + 1, CommaAt(p));
  }

  lemma AtEnd(s: string, i: int)
    ensures At(s, ");", i) <==> 0 <= i && i + 1 < |s| && s[i] == ')' && s[i + 1] == ';'
  {
    assert ");"[0] == ')' && ");"[1] == ';';
    if 0 <= i && i + 1 < |s| {
      assert s[i + 0] == s[i];
    }
  }

  /** A value without `);` has none at its end or just before it either. */
  lemma NoEndBefore(s: string, from: nat, v: string)
    requires Find(v, ");", 0) == -1 && from + |v| + 1 < |s| && s[from..from + |v|] == v && s[from + |v|] == ')'
    ensures forall k :: from <= k < from + |v| ==> !At(s, ");", k)
  {
    FindIsFirst(v, ");", 0);
    forall k | from <= k < from + |v|
      ensures !At(s, ");", k)
    {
      AtEnd(s, k);
      AtEnd(v, k - from);
      assert !At(v, ");", k - from);
      assert s[k] == v[k - from];
      assert k + 1 < from + |v| ==> s[k + 1] == v[k + 1 - from];
    }
  }

  lemma FindsEnd(s: string, p: Pref)
    requires IsLine(s, p) && Find(p.value, ");", 0) == -1
    ensures Find(s, ");", CommaAt(p) + 1) == CommaAt(p) + 2 + |p.value|
  {
    var from := CommaAt(p) + 2;
    NoEndBefore(s, from, p.value);
    AtEnd(s, from - 1);
    AtEnd(s, from + |p.value|);
    FindIs(s, ");", from - 1, from + |p.value|);
  }

  lemma LineIsStripped(s: string, p: Pref)
    requires IsLine(s, p)
    ensures Strip(s) == s
  {
  }

  /** Stripped, the parts of a printed line are those of its preference. */
  lemma FieldsStripped(s: string, p: Pref)
    requires IsLine(s, p) && Stripped(p.key) && Stripped(p.value)
    ensures Strip(s[KeyAt(p.lock)..KeyAt(p.lock) + |p.key|]) == p.key
    ensures Strip(s[CommaAt(p) + 1..CommaAt(p) + 2 + |p.value|]) == p.value
    ensures StartsLocked(Strip(s)) == p.lock
  {
    LineIsStripped(s, p);
    assert p.key[0..] == p.key;
    StripPadded(p.key, 0);
    var raw := s[CommaAt(p) + 1..CommaAt(p) + 2 + |p.value|];
    assert raw[0] == ' ' && raw[1..] == s[CommaAt(p) + 2..CommaAt(p) + 2 + |p.value|];
    StripPadded(raw, 1);
  }

  lemma NameRead(i: string, from: nat, v: nat)
    requires Find(i, "\"", from) == v
    ensures ParseFields(i, from) == ParseComma(i, Strip(i[from..v]), v + 1)
  {}

  lemma CommaRead(i: string, key: string, from: nat, c: nat)
    requires Find(i, ",", from) == c
    ensures ParseComma(i, key, from) == ParseValue(i, key, c + 1)
  {}

  lemma ValueRead(i: string, key: string, from: nat, e: nat)
    requires key != IGNORED && Find(i, ");", from) == e
    ensures ParseValue(i, key, from) == Entry(Pref(StartsLocked(Strip(i)), key, Strip(i[from..e])))
  {}

  lemma FieldsRoundTrip(s: string, p: Pref)
    requires IsLine(s, p) && WellFormed(p)
    ensures ParseFields(s, KeyAt(p.lock)) == Entry(p)
  {
    hide Find, Strip, At, IsSpace, StartsLocked, ParseFields, ParseComma, ParseValue;
    assert ParseFields(s, KeyAt(p.lock)) == ParseComma(s, p.key, KeyAt(p.lock) + |p.key| + 1) by {
      FieldsStripped(s, p);
      FindsQuote(s, p);
      NameRead(s, KeyAt(p.lock), KeyAt(p.lock) + |p.key|);
    }
    assert ParseComma(s, p.key, KeyAt(p.lock) + |p.key| + 1) == ParseValue(s, p.key, CommaAt(p) + 1) by {
      FindsComma(s, p);
      CommaRead(s, p.key, KeyAt(p.lock) + |p.key| + 1, CommaAt(p));
    }
    assert ParseValue(s, p.key, CommaAt(p) + 1) == Entry(p) by {
      FieldsStripped(s, p);
      FindsEnd(s, p);
      ValueRead(s, p.key, CommaAt(p) + 1, CommaAt(p) + 2 + |p.value|);
    }
  }

  /** What `ParseLine` asks of a line before it looks for the keyword. */
  predicate IsCandidate(i: string) {
    !At(Strip(i), "//", 0) && |i| >= 4 && '"' in i && ';' in i && ',' in i
  }

  lemma LineIsCandidate(s: string, p: Pref)
    requires IsLine(s, p)
    ensures IsCandidate(s)
  {
    LineIsStripped(s, p);
    assert s[KeyAt(p.lock) - 1] in s && s[CommaAt(p)] in s && s[CommaAt(p) + 3 + |p.value|] in s;
    assert !At(s, "//", 0) by { assert s[0 + 0] != "//"[0]; }
  }

  lemma CandidateIsRead(i: string, p: Pref)
    requires IsCandidate(i) && Find(Lower(i), "pref(\"", 0) == KeyAt(p.lock) - 6
    ensures ParseLine(i) == ParseFields(i, KeyAt(p.lock))
  {}

  /** A printed line reads back as the preference it was printed from. */
  lemma LineRoundTrip(p: Pref)
    requires WellFormed(p)
    ensures ParseLine(PrefLine(p)) == Entry(p)
  {
    var s := PrefLine(p);
    LineShape(p);
    FindsPref(p);
    LineIsCandidate(s, p);
    CandidateIsRead(s, p);
    FieldsRoundTrip(s, p);
  }

  lemma {:induction false} NotFound(s: string, sub: string, start: nat)
    requires forall k :: start <= k <= |s| - |sub| ==> !At(s, sub, k)
    ensures Find(s, sub, start) == -1
    decreases |s| - start
  {
    if start + |sub| <= |s| {
      NotFound(s, sub, start + 1);
    }
  }

  lemma AtShift(i: string, sub: string, from: nat, cut: string, k: nat)
    requires from + |cut| <= |i| && cut == i[from..from + |cut|] && k + |sub| <= |cut|
    ensures At(cut, sub, k) <==> At(i, sub, from + k)
  {
  }

  lemma SliceOfSlice(i: string, from: nat, n: nat, lo: nat, hi: nat)
    requires from <= n <= |i| && lo <= hi <= n - from
    ensures i[from..n][lo..hi] == i[from + lo..from + hi]
  {
    assert forall k :: 0 <= k < hi - lo ==> i[from..n][lo..hi][k] == i[from..n][lo + k] == i[from + lo + k];
  }

  lemma SliceHasNone(i: string, sub: string, lo: nat, hi: nat)
    requires sub != "" && lo <= hi <= |i| && forall k :: lo <= k < hi ==> !At(i, sub, k)
    ensures Find(i[lo..hi], sub, 0) == -1
  {
    var cut := i[lo..hi];
    forall k | 0 <= k <= |cut| - |sub|
      ensures !At(cut, sub, k)
    {
      AtShift(i, sub, lo, cut, k);
      assert !At(i, sub, lo + k);
    }
    NotFound(cut, sub, 0);
  }

  /** A stripped part of `i` from `from` to just before the first `sub` has no `sub`. */
  lemma CutHasNone(i: string, sub: string, from: nat, n: nat)
    requires sub != "" && from <= n <= |i| && forall k :: from <= k < n ==> !At(i, sub, k)
    ensures Find(Strip(i[from..n]), sub, 0) == -1
  {
    var raw := i[from..n];
    var lo := SkipSpaces(raw, 0);
    var hi := SkipSpacesBack(raw, |raw|, lo);
    SliceOfSlice(i, from, n, lo, hi);
    SliceHasNone(i, sub, from + lo, from + hi);
  }

  lemma NoneFound(s: string, c: char)
    requires Find(s, [c], 0) == -1
    ensures c !in s
  {
    FindIsFirst(s, [c], 0);
    forall k | 0 <= k < |s|
      ensures s[k] != c
    {
      AtOne(s, c, k);
      assert !At(s, [c], k);
    }
  }

  lemma CutKeyIsWellFormed(i: string, from: nat, n: nat)
    requires '\n' !in i && n == Find(i, "\"", from) && n != -1
    ensures var k := Strip(i[from..n]); Stripped(k) && '"' !in k && '\n' !in k
  {
    StripIsStripped(i[from..n]);
    FindIsFirst(i, "\"", from);
    CutHasNone(i, "\"", from, n);
    NoneFound(Strip(i[from..n]), '"');
  }

  lemma CutValueIsWellFormed(i: string, from: nat, n: nat)
    requires '\n' !in i && n == Find(i, ");", from) && n != -1
    ensures var v := Strip(i[from..n]); Stripped(v) && '\n' !in v && Find(v, ");", 0) == -1
  {
    StripIsStripped(i[from..n]);
    FindIsFirst(i, ");", from);
    CutHasNone(i, ");", from, n);
  }

  lemma FieldsFound(i: string, from: nat) returns (v: nat, c: nat, e: nat)
    requires ParseFields(i, from).Entry?
    ensures v == Find(i, "\"", from) && c == Find(i, ",", v + 1) && e == Find(i, ");", c + 1)
    ensures ParseFields(i, from).pref.key == Strip(i[from..v]) != IGNORED
    ensures ParseFields(i, from).pref.value == Strip(i[c + 1..e])
  {
    hide Find, Strip, StartsLocked;
    v := Find(i, "\"", from);
    c := Find(i, ",", v + 1);
    e := Find(i, ");", c + 1);
  }

  lemma FieldsAreWellFormed(i: string, from: nat)
    requires '\n' !in i && ParseFields(i, from).Entry?
    ensures WellFormed(ParseFields(i, from).pref)
  {
    var v, c, e := FieldsFound(i, from);
    CutKeyIsWellFormed(i, from, v);
    CutValueIsWellFormed(i, c + 1, e);
  }

  /** Whatever a line of a text holds is well formed. */
  lemma ParsedIsWellFormed(i: string)
    requires '\n' !in i && ParseLine(i).Entry?
    ensures WellFormed(ParseLine(i).pref)
  {
    FieldsAreWellFormed(i, Find(Lower(i), "pref(\"", 0) + 6);
  }

  // ---- the whole file there and back -----------------------------------------------------

  lemma {:induction false} ParseFromConcat(r: Prefs, a: seq<string>, b: seq<string>)
    ensures ParseFrom(r, a + b)
      == match ParseFrom(r, a) case Duplicate(k) => Duplicate(k) case Ok(q) => ParseFrom(q, b)
  {
    if b == [] {
      assert a + b == a;
    } else {
      assert (a + b)[..|a + b| - 1] == a + b[..|b| - 1];
      ParseFromConcat(r, a, b[..|b| - 1]);
    }
  }

  /** The part of `p` that one section prints. */
  function Kind(p: Prefs, ks: seq<string>, lock: bool): Prefs {
    map k | k in ks && k in p && p[k].lock == lock :: p[k]
  }

  lemma ParseSnoc(r: Prefs, ls: seq<string>, q: Prefs, l: string)
    requires ParseFrom(r, ls) == Ok(q)
    ensures ParseLine(l).Skipped? ==> ParseFrom(r, ls + [l]) == Ok(q)
    ensures ParseLine(l).Entry? && ParseLine(l).pref.key !in q
      ==> ParseFrom(r, ls + [l]) == Ok(q[ParseLine(l).pref.key := ParseLine(l).pref])
  {
    assert (ls + [l])[..|ls + [l]| - 1] == ls;
  }

  lemma UpdateSum(a: Prefs, b: Prefs, k: string, v: Pref)
    ensures (a + b)[k := v] == a + b[k := v]
  {}

  lemma KindSnoc(p: Prefs, init: seq<string>, k: string, lock: bool)
    requires k in p
    ensures Kind(p, init + [k], lock)
         == if p[k].lock == lock then Kind(p, init, lock)[k := p[k]] else Kind(p, init, lock)
  {}

  lemma LinesSnoc(r: Prefs, ls: seq<string>, q: Prefs, more: seq<string>, p: Pref)
    requires ParseFrom(r, ls) == Ok(q) && WellFormed(p) && p.key !in q
    requires more == ls + [PrefLine(p)] || more == ls + ["", PrefLine(p)]
    ensures ParseFrom(r, more) == Ok(q[p.key := p])
  {
    var l := PrefLine(p);
    LineRoundTrip(p);
    ParseSnoc(r, ls, q, l);
    ParseSnoc(r, ls, q, "");
    ParseSnoc(r, ls + [""], q, l);
    SnocTwice(ls, "", l);
  }

  lemma SectionSnoc(p: Prefs, init: seq<string>, k: string, lock: bool)
    requires k in p && (forall i :: i in init ==> i in p)
    ensures var before, after := Section(p, init, lock), Section(p, init + [k], lock);
      if p[k].lock != lock then after == before
      else after == before + [PrefLine(p[k])] || after == before + ["", PrefLine(p[k])]
  {
    assert (init + [k])[..|init + [k]| - 1] == init;
  }

  /** One more key: its line, if it is of the printed kind, adds its preference. */
  lemma SectionGrows(p: Prefs, init: seq<string>, k: string, lock: bool, r: Prefs)
    requires (forall i :: i in init ==> i in p) && k in p && k !in init && p[k].key == k && WellFormed(p[k])
    requires p[k].lock == lock ==> k !in r
    requires ParseFrom(r, Section(p, init, lock)) == Ok(r + Kind(p, init, lock))
    ensures ParseFrom(r, Section(p, init + [k], lock)) == Ok(r + Kind(p, init + [k], lock))
  {
    var q := r + Kind(p, init, lock);
    KindSnoc(p, init, k, lock);
    SectionSnoc(p, init, k, lock);
    if p[k].lock == lock {
      LinesSnoc(r, Section(p, init, lock), q, Section(p, init + [k], lock), p[k]);
      UpdateSum(r, Kind(p, init, lock), k, p[k]);
    }
  }

  lemma SliceSnoc(ks: seq<string>, n: nat)
    requires n < |ks|
    ensures ks[..n + 1] == ks[..n] + [ks[n]]
  {}

  lemma {:induction false} SectionRoundTrip(p: Prefs, ks: seq<string>, n: nat, lock: bool, r: Prefs)
    requires Enumerates(ks, p) && AllWellFormed(p) && n <= |ks|
    requires forall k :: k in r ==> k in p && p[k].lock != lock
    ensures ParseFrom(r, Section(p, ks[..n], lock)) == Ok(r + Kind(p, ks[..n], lock))
  {
    if n == 0 {
      assert r + Kind(p, [], lock) == r;
    } else {
      var init, k := ks[..n - 1], ks[n - 1];
      assert (forall i :: i in init ==> i in p) && k in p && k !in init && p[k].key == k && WellFormed(p[k]);
      SectionRoundTrip(p, ks, n - 1, lock, r);
      hide *;
      SectionGrows(p, init, k, lock, r);
      SliceSnoc(ks, n - 1);
    }
  }

  lemma LineHasNoNewline(p: Pref)
    requires WellFormed(p)
    ensures '\n' !in PrefLine(p)
  {
    var width := Width(p.lock) - |p.key| - 2;
    SpacesAre(width);
    assert '\n' !in Padded("\"" + p.key + "\"", Width(p.lock));
    assert '\n' !in Head(p.lock);
  }

  lemma {:induction false} SectionHasNoNewline(p: Prefs, ks: seq<string>, lock: bool)
    requires (forall k :: k in ks ==> k in p) && AllWellFormed(p)
    ensures forall l :: l in Section(p, ks, lock) ==> '\n' !in l
  {
    if ks != [] {
      SectionHasNoNewline(p, ks[..|ks| - 1], lock);
      LineHasNoNewline(p[ks[|ks| - 1]]);
    }
  }

  /** The printed file: the default preferences first, an empty line, and the locked ones. */
  lemma PrintedLines(p: Prefs, ks: seq<string>)
    requires Enumerates(ks, p) && AllWellFormed(p)
    ensures Split(Printed(p, ks), '\n')
      == Spaced(p, OfKind(p, ks, false)) + [""] + Spaced(p, OfKind(p, ks, true)) + [""]
  {
    SectionHasNoNewline(p, ks, false);
    SectionHasNoNewline(p, ks, true);
    SectionIsSpaced(p, ks, false);
    SectionIsSpaced(p, ks, true);
    SplitUnlines(Section(p, ks, false) + [""] + Section(p, ks, true));
  }

  lemma KindsCover(p: Prefs, ks: seq<string>)
    requires Enumerates(ks, p)
    ensures map[] + Kind(p, ks, false) + Kind(p, ks, true) == p
  {}

  /** Printing well-formed preferences, in any order of the keys, and reading the text gives them back. */
  lemma PrintThenParse(p: Prefs, ks: seq<string>)
    requires Enumerates(ks, p) && AllWellFormed(p)
    ensures Parse(Printed(p, ks)) == Ok(p)
  {
    var a, b := Section(p, ks, false), Section(p, ks, true);
    SectionHasNoNewline(p, ks, false);
    SectionHasNoNewline(p, ks, true);
    SplitUnlines(a + [""] + b);
    assert ks[..|ks|] == ks;
    SectionRoundTrip(p, ks, |ks|, false, map[]);
    var r := map[] + Kind(p, ks, false);
    ParseSnoc(map[], a, r, "");
    ParseFromConcat(map[], a + [""], b);
    SectionRoundTrip(p, ks, |ks|, true, r);
    KindsCover(p, ks);
    ParseSnoc(map[], a + [""] + b, p, "");
  }

  lemma AddedIsWellFormed(q: Parsed, l: string)
    requires '\n' !in l && (q.Ok? ==> AllWellFormed(q.prefs))
    ensures Added(q, l).Ok? ==> AllWellFormed(Added(q, l).prefs)
  {
    if ParseLine(l).Entry? {
      ParsedIsWellFormed(l);
    }
  }

  lemma {:induction false} ParsedAreWellFormed(ls: seq<string>)
    requires forall l :: l in ls ==> '\n' !in l
    ensures ParseFrom(map[], ls).Ok? ==> AllWellFormed(ParseFrom(map[], ls).prefs)
  {
    if ls != [] {
      ParsedAreWellFormed(ls[..|ls| - 1]);
      AddedIsWellFormed(ParseFrom(map[], ls[..|ls| - 1]), ls[|ls| - 1]);
    }
  }

  /** Reading a text yields well-formed preferences only. */
  lemma ParseIsWellFormed(text: string)
    ensures Parse(text).Ok? ==> AllWellFormed(Parse(text).prefs)
  {
    PartsHaveNoSeparator(text, '\n');
    ParsedAreWellFormed(Split(text, '\n'));
  }

  /** The printed text reads back as the same preferences exactly when these are well formed. */
  lemma RoundTripExactly(p: Prefs, ks: seq<string>)
    requires Enumerates(ks, p)
    ensures Parse(Printed(p, ks)) == Ok(p) <==> AllWellFormed(p)
  {
    ParseIsWellFormed(Printed(p, ks));
    if AllWellFormed(p) {
      PrintThenParse(p, ks);
    }
  }

  /** Any text without repeated keys is a fixed point of printing what it was read as. */
  lemma ParsePrintParse(text: string, ks: seq<string>)
    requires Parse(text).Ok? && Enumerates(ks, Parse(text).prefs)
    ensures Parse(Printed(Parse(text).prefs, ks)) == Parse(text)
  {
    ParseIsWellFormed(text);
    PrintThenParse(Parse(text).prefs, ks);
  }

  // ---- what any line holds ---------------------------------------------------------------

  /** Only spaces stand before position `k`. */
  predicate Leads(i: string, k: nat) {
    k < |i| && forall j :: 0 <= j < k ==> IsSpace(i[j])
  }

  ghost predicate IsComment(i: string) {
    exists k: nat :: Leads(i, k) && k + 1 < |i| && i[k] == '/' && i[k + 1] == '/'
  }

  ghost predicate IsLocked(i: string) {
    exists k: nat :: Leads(i, k) && (i[k] == 'l' || i[k] == 'L')
  }

  lemma StripStarts(i: string, k: nat)
    requires Leads(i, k) && !IsSpace(i[k])
    ensures Strip(i) != "" && Strip(i)[0] == i[k]
    ensures k + 1 < |i| && !IsSpace(i[k + 1]) ==> |Strip(i)| > 1 && Strip(i)[1] == i[k + 1]
  {
    SkipsOnlySpaces(i, 0);
    SkipsOnlySpacesBack(i, |i|, SkipSpaces(i, 0));
    assert SkipSpaces(i, 0) == k;
  }

  lemma StrippedLeads(i: string) returns (k: nat)
    requires Strip(i) != ""
    ensures Leads(i, k) && Strip(i)[0] == i[k] && (|Strip(i)| > 1 ==> k + 1 < |i| && Strip(i)[1] == i[k + 1])
  {
    SkipsOnlySpaces(i, 0);
    k := SkipSpaces(i, 0);
  }

  lemma CommentWhen(i: string)
    ensures At(Strip(i), "//", 0) <==> IsComment(i)
  {
    assert "//"[0] == '/' && "//"[1] == '/';
    if At(Strip(i), "//", 0) {
      assert Strip(i)[0 + 0] == '/' && Strip(i)[0 + 1] == '/';
      var k := StrippedLeads(i);
      assert Leads(i, k) && i[k] == '/' && i[k + 1] == '/';
    }
    if IsComment(i) {
      var k: nat :| Leads(i, k) && k + 1 < |i| && i[k] == '/' && i[k + 1] == '/';
      StripStarts(i, k);
    }
  }

  lemma LockedWhen(i: string)
    ensures StartsLocked(Strip(i)) <==> IsLocked(i)
  {
    if StartsLocked(Strip(i)) {
      var k := StrippedLeads(i);
      assert Leads(i, k) && (i[k] == 'l' || i[k] == 'L');
    }
    if IsLocked(i) {
      var k: nat :| Leads(i, k) && (i[k] == 'l' || i[k] == 'L');
      StripStarts(i, k);
    }
  }

  /** The parts of an entry: `pref("` first at `n` in the line in lower case, then a quote first at `v`, a comma
      first at `c` and `);` first at `e`. */
  predicate PartsAt(i: string, n: nat, v: nat, c: nat, e: nat) {
    && 4 <= n && FirstAt(Lower(i), "pref(\"", 0, n)
    && FirstAt(i, "\"", n + 6, v) && FirstAt(i, ",", v + 1, c) && FirstAt(i, ");", c + 1, e)
  }

  /** The preference that a line with these parts holds. */
  ghost function PrefOf(i: string, n: nat, v: nat, c: nat, e: nat): Pref
    requires PartsAt(i, n, v, c, e)
  {
    Pref(IsLocked(i), Strip(i[n + 6..v]), Strip(i[c + 1..e]))
  }

  /** Any line at all is an entry exactly when it is no comment and has the parts of one, with a name other than that of
      the marker; and then it holds what stands in its parts. */
  lemma EntryWhen(i: string, p: Pref)
    ensures ParseLine(i) == Entry(p) <==>
      !IsComment(i) && p.key != IGNORED && exists n, v, c, e :: PartsAt(i, n, v, c, e) && p == PrefOf(i, n, v, c, e)
  {
    CommentWhen(i);
    LockedWhen(i);
    if ParseLine(i) == Entry(p) {
      EntryHasParts(i, p);
    }
    if !IsComment(i) && p.key != IGNORED && exists n, v, c, e :: PartsAt(i, n, v, c, e) && p == PrefOf(i, n, v, c, e) {
      var n: nat, v: nat, c: nat, e: nat :| PartsAt(i, n, v, c, e) && p == PrefOf(i, n, v, c, e);
      PartsMakeEntry(i, n, v, c, e);
    }
  }

  lemma PartsFound(i: string, n: nat, v: nat, c: nat, e: nat)
    requires 4 <= n
    ensures PartsAt(i, n, v, c, e) <==>
      && Find(Lower(i), "pref(\"", 0) == n && Find(i, "\"", n + 6) == v && Find(i, ",", v + 1) == c
      && Find(i, ");", c + 1) == e
  {
    hide Find, FirstAt, Lower;
    FindWhen(Lower(i), "pref(\"", 0, n);
    FindWhen(i, "\"", n + 6, v);
    FindWhen(i, ",", v + 1, c);
    FindWhen(i, ");", c + 1, e);
  }

  lemma PartsAreThere(i: string, n: nat, v: nat, c: nat, e: nat)
    requires PartsAt(i, n, v, c, e)
    ensures |i| >= 4 && '"' in i && ';' in i && ',' in i
  {
    AtOne(i, '"', v);
    AtOne(i, ',', c);
    AtEnd(i, e);
    assert i[v] in i && i[c] in i && i[e + 1] in i;
  }

  lemma EntryHasParts(i: string, p: Pref)
    requires ParseLine(i) == Entry(p) && (StartsLocked(Strip(i)) <==> IsLocked(i))
    ensures p.key != IGNORED && exists n, v, c, e :: PartsAt(i, n, v, c, e) && p == PrefOf(i, n, v, c, e)
  {
    hide Find, PartsAt, Strip, StartsLocked, IsLocked, Lower, At;
    var n := Find(Lower(i), "pref(\"", 0);
    var v, c, e := FieldsFound(i, n + 6);
    PartsFound(i, n, v, c, e);
    assert PartsAt(i, n, v, c, e) && p == PrefOf(i, n, v, c, e);
  }

  lemma PartsMakeEntry(i: string, n: nat, v: nat, c: nat, e: nat)
    requires PartsAt(i, n, v, c, e) && !At(Strip(i), "//", 0) && (StartsLocked(Strip(i)) <==> IsLocked(i))
    requires PrefOf(i, n, v, c, e).key != IGNORED
    ensures ParseLine(i) == Entry(PrefOf(i, n, v, c, e))
  {
    hide Find, Strip, StartsLocked, IsLocked, Lower, At, ParseFields, ParseComma, ParseValue;
    PartsFound(i, n, v, c, e);
    PartsAreThere(i, n, v, c, e);
    NameRead(i, n + 6, v);
    CommaRead(i, Strip(i[n + 6..v]), v + 1, c);
    ValueRead(i, Strip(i[n + 6..v]), c + 1, e);
  }

  /** `pref("` in any letter case. */
  predicate SpelledAt(i: string, k: nat) {
    && k + 6 <= |i| && i[k] in "pP" && i[k + 1] in "rR" && i[k + 2] in "eE" && i[k + 3] in "fF"
    && i[k + 4] == '(' && i[k + 5] == '"'
  }

  lemma {:induction false} LowerAt(i: string, k: nat)
    requires '\U{130}' !in i && k < |i|
    ensures |Lower(i)| == |i| && LowerChar(i[k]) == [Lower(i)[k]]
  {
    assert i[0] in i && forall c :: c in i[1..] ==> c in i;
    if |i| > 1 {
      LowerAt(i[1..], if k == 0 then 0 else k - 1);
    }
  }

  lemma AtSix(s: string, k: nat)
    ensures At(s, "pref(\"", k) <==>
      k + 6 <= |s| && s[k] == 'p' && s[k + 1] == 'r' && s[k + 2] == 'e' && s[k + 3] == 'f' && s[k + 4] == '('
      && s[k + 5] == '"'
  {
    var sub := "pref(\"";
    assert sub[0] == 'p' && sub[1] == 'r' && sub[2] == 'e' && sub[3] == 'f' && sub[4] == '(' && sub[5] == '"';
    if At(s, sub, k) {
      assert s[k + 0] == sub[0];
    }
  }

  /** What the search in lower case looks for, unless the one letter that grows in lower case stands in the line. */
  lemma SpelledWhen(i: string, k: nat)
    requires '\U{130}' !in i
    ensures At(Lower(i), "pref(\"", k) <==> SpelledAt(i, k)
  {
    hide Lower, LowerChar, At;
    AtSix(Lower(i), k);
    if i == "" {
      LowerFixed(i);
    } else {
      LowerAt(i, 0);
    }
    if k + 6 <= |i| {
      SpelledOne(i, k, 'p', 'P');
      SpelledOne(i, k + 1, 'r', 'R');
      SpelledOne(i, k + 2, 'e', 'E');
      SpelledOne(i, k + 3, 'f', 'F');
      SpelledOne(i, k + 4, '(', '(');
      SpelledOne(i, k + 5, '"', '"');
    }
  }

  lemma SpelledOne(i: string, k: nat, small: char, big: char)
    requires '\U{130}' !in i && k < |i|
    requires (small == big && small < 'A') || ('a' <= small <= 'z' && big as int + 32 == small as int)
    ensures |Lower(i)| == |i| && (Lower(i)[k] == small <==> i[k] == small || i[k] == big)
  {
    LowerAt(i, k);
    assert i[k] in i;
  }

  /** Line `j` holds a preference named `k`. */
  predicate Holds(ls: seq<string>, j: nat, k: string) {
    j < |ls| && ParseLine(ls[j]).Entry? && ParseLine(ls[j]).pref.key == k
  }

  predicate NoRepeat(ls: seq<string>) {
    forall i, j :: 0 <= i < j < |ls| && ParseLine(ls[i]).Entry? && ParseLine(ls[j]).Entry? ==>
      ParseLine(ls[i]).pref.key != ParseLine(ls[j]).pref.key
  }

  /** What reading lines should give: exactly the preferences that they hold, unless two hold one of the same name; then
      the name that is repeated first. */
  ghost predicate Reads(ls: seq<string>, q: Parsed) {
    match q
    case Ok(m) =>
      && NoRepeat(ls)
      && (forall k :: k in m ==> exists j :: Holds(ls, j, k))
      && (forall j :: 0 <= j < |ls| && ParseLine(ls[j]).Entry? ==>
            ParseLine(ls[j]).pref.key in m && m[ParseLine(ls[j]).pref.key] == ParseLine(ls[j]).pref)
    case Duplicate(k) =>
      exists i, j :: i < j && Holds(ls, i, k) && Holds(ls, j, k) && NoRepeat(ls[..j])
  }

  lemma HoldsMore(ls: seq<string>, l: string, j: nat, k: string)
    ensures Holds(ls, j, k) ==> Holds(ls + [l], j, k)
  {
  }

  lemma ReadsEntry(ls: seq<string>, m: Prefs, l: string)
    requires Reads(ls, Ok(m)) && ParseLine(l).Entry? && ParseLine(l).pref.key !in m
    ensures Reads(ls + [l], Ok(m[ParseLine(l).pref.key := ParseLine(l).pref]))
  {
    hide ParseLine;
    var p := ParseLine(l).pref;
    assert Holds(ls + [l], |ls|, p.key);
    forall k | k in m
      ensures exists j :: Holds(ls + [l], j, k)
    {
      var j: nat :| Holds(ls, j, k);
      HoldsMore(ls, l, j, k);
    }
  }

  lemma ReadsSkipped(ls: seq<string>, m: Prefs, l: string)
    requires Reads(ls, Ok(m)) && ParseLine(l).Skipped?
    ensures Reads(ls + [l], Ok(m))
  {
    hide ParseLine;
    forall k | k in m
      ensures exists j :: Holds(ls + [l], j, k)
    {
      var j: nat :| Holds(ls, j, k);
      HoldsMore(ls, l, j, k);
    }
  }

  lemma ReadsRepeated(ls: seq<string>, m: Prefs, l: string)
    requires Reads(ls, Ok(m)) && ParseLine(l).Entry? && ParseLine(l).pref.key in m
    ensures Reads(ls + [l], Duplicate(ParseLine(l).pref.key))
  {
    hide ParseLine;
    var k := ParseLine(l).pref.key;
    var j: nat :| Holds(ls, j, k);
    HoldsMore(ls, l, j, k);
    assert Holds(ls + [l], |ls|, k) && (ls + [l])[..|ls|] == ls;
  }

  lemma ReadsAfterRepeat(ls: seq<string>, k: string, l: string)
    requires Reads(ls, Duplicate(k))
    ensures Reads(ls + [l], Duplicate(k))
  {
    hide ParseLine, NoRepeat;
    var i: nat, j: nat :| i < j && Holds(ls, i, k) && Holds(ls, j, k) && NoRepeat(ls[..j]);
    HoldsMore(ls, l, i, k);
    HoldsMore(ls, l, j, k);
    assert (ls + [l])[..j] == ls[..j];
  }

  lemma ReadsAdded(ls: seq<string>, q: Parsed, l: string)
    requires Reads(ls, q)
    ensures Reads(ls + [l], Added(q, l))
  {
    hide Reads, ParseLine;
    if q.Duplicate? {
      ReadsAfterRepeat(ls, q.key, l);
    } else if ParseLine(l).Skipped? {
      ReadsSkipped(ls, q.prefs, l);
    } else if ParseLine(l).pref.key in q.prefs {
      ReadsRepeated(ls, q.prefs, l);
    } else {
      ReadsEntry(ls, q.prefs, l);
    }
  }

  lemma NothingIsRead()
    ensures Reads([], Ok(map[]))
  {
  }

  /** Reading lines gives just that. */
  lemma {:induction false} ReadExactly(ls: seq<string>)
    ensures Reads(ls, ParseFrom(map[], ls))
  {
    hide Reads, Added;
    if ls == [] {
      NothingIsRead();
    } else {
      var init, l := ls[..|ls| - 1], ls[|ls| - 1];
      ReadExactly(init);
      ReadsAdded(init, ParseFrom(map[], init), l);
      assert init + [l] == ls;
    }
  }

  /** A line that holds nothing, and so a comment, can be left out of any text. */
  lemma SkippedLinesDoNotMatter(a: string, l: string, b: string)
    requires '\n' !in l && (ParseLine(l).Skipped? || IsComment(l))
    ensures Parse(a + "\n" + l + "\n" + b) == Parse(a + "\n" + b)
  {
    CommentWhen(l);
    assert ParseLine(l).Skipped?;
    hide ParseLine;
    SplitJoined(a + "\n" + l, b, '\n');
    SplitJoined(a, l, '\n');
    SplitJoined(a, b, '\n');
    SplitNothing(l);
    var first, rest := Split(a, '\n'), Split(b, '\n');
    ParseFromConcat(map[], first + [l], rest);
    ParseFromConcat(map[], first, rest);
    assert (first + [l])[..|first|] == first;
  }

  lemma SplitNothing(l: string)
    requires '\n' !in l
    ensures Split(l, '\n') == [l]
  {
    SplitAppend("", l, '\n');
    assert "" + l == l;
  }

  // ---- the merge -------------------------------------------------------------------------

  /** The main block's loop: every preference of `compare` that `base` lacks is added; the keys whose values
      differ are reported and left as `base` has them. */
  method Merge(base: Prefs, compare: Prefs) returns (g: Prefs, added: set<string>, differ: set<string>)
    ensures g.Keys == base.Keys + compare.Keys
    ensures forall k :: k in base ==> g[k] == base[k]
    ensures forall k :: k in compare && k !in base ==> g[k] == compare[k]
    ensures added == compare.Keys - base.Keys
    ensures differ == set k | k in base && k in compare && base[k] != compare[k]
  {
    g, added, differ := base, {}, {};
    var rest := compare.Keys;
    while rest != {}
      invariant rest <= compare.Keys
      invariant g == base + map k | k in compare && k !in base && k !in rest :: compare[k]
      invariant added == compare.Keys - base.Keys - rest
      invariant differ == set k | k in base && k in compare && k !in rest && base[k] != compare[k]
    {
      var k :| k in rest;
      rest := rest - {k};
      if k !in g {
        g := g[k := compare[k]];
        added := added + {k};
      } else if compare[k] != g[k] {
        differ := differ + {k};
      }
    }
  }

  /** The tool's output, read again, is the base with exactly the missing preferences added. */
  lemma MergedFileReadsBack(base: string, compare: string, g: Prefs, ks: seq<string>)
    requires Parse(base).Ok? && Parse(compare).Ok?
    requires g == Parse(compare).prefs + Parse(base).prefs && Enumerates(ks, g)
    ensures Parse(Printed(g, ks)) == Ok(g)
  {
    ParseIsWellFormed(base);
    ParseIsWellFormed(compare);
    PrintThenParse(g, ks);
  }
}
