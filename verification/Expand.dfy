/** Environment expansion: the in-place scanner of file.py and the grammar it implements.

    The scanner re-slices its own input and resets its index, so the text it still has to
    read is `p[i..]`.  The grammar is given twice: `Tokenize` reads a text from the left,
    `Canonical` says which token lists a text can stand for.  The two are inverse. */
module Expand {
  import opened Text

  type Env = map<string, string>

  /** One lexical element of a text that may hold variables. */
  datatype Token =
    | Plain(c: char)
    | Quoted(body: string)
    | OpenQuote(body: string)
    | EscPercent
    | EscDollar
    | Percent(name: string)
    | OpenPercent(tail: string)
    | Braced(name: string)
    | OpenBrace(tail: string)
    | Bare(name: string)

  predicate IsVarChar(c: char) {
    'a' <= c <= 'z' || 'A' <= c <= 'Z' || '0' <= c <= '9' || c == '_' || c == '-'
  }

  /** The text a token was read from. */
  function Source(t: Token): string {
    match t
    case Plain(c) => [c]
    case Quoted(body) => "'" + body + "'"
    case OpenQuote(body) => "'" + body
    case EscPercent => "%%"
    case EscDollar => "$$"
    case Percent(name) => "%" + name + "%"
    case OpenPercent(tail) => "%" + tail
    case Braced(name) => "${" + name + "}"
    case OpenBrace(tail) => "${" + tail
    case Bare(name) => "$" + name
  }

  /** The text a token is replaced by. */
  function Render(t: Token, e: Env): string {
    match t
    case EscPercent => "%"
    case EscDollar => "$"
    case Percent(name) => if name in e then e[name] else Source(t)
    case Braced(name) => if name in e then e[name] else Source(t)
    case Bare(name) => if name in e then e[name] else Source(t)
    case _ => Source(t)
  }

  function SourceAll(ts: seq<Token>): string {
    if ts == [] then "" else Source(ts[0]) + SourceAll(ts[1..])
  }

  function RenderAll(ts: seq<Token>, e: Env): string {
    if ts == [] then "" else Render(ts[0], e) + RenderAll(ts[1..], e)
  }

  /** The first index of `c` in `s` from `i` on, or `|s|` when there is none. */
  function IndexFrom(s: string, c: char, i: nat): (n: nat)
    requires i <= |s|
    ensures i <= n <= |s| && (n < |s| ==> s[n] == c)
    decreases |s| - i
  {
    if i == |s| || s[i] == c then i else IndexFrom(s, c, i + 1)
  }

  lemma {:induction false} IndexIsFirst(s: string, c: char, i: nat, n: nat)
    requires i <= n <= |s|
    ensures IndexFrom(s, c, i) == n <==> (forall k :: i <= k < n ==> s[k] != c) && (n == |s| || s[n] == c)
    decreases |s| - i
  {
    if i < n && s[i] != c {
      IndexIsFirst(s, c, i + 1, n);
    }
  }

  function IndexOf(s: string, c: char): nat {
    IndexFrom(s, c, 0)
  }

  /** The end of the run of name characters that starts at `i`. */
  function NameEnd(s: string, i: nat): (n: nat)
    requires i <= |s|
    ensures i <= n <= |s| && (n < |s| ==> !IsVarChar(s[n]))
    decreases |s| - i
  {
    if i == |s| || !IsVarChar(s[i]) then i else NameEnd(s, i + 1)
  }

  lemma {:induction false} NameEndIsFirst(s: string, i: nat, n: nat)
    requires i <= n <= |s|
    ensures NameEnd(s, i) == n <==> (forall k :: i <= k < n ==> IsVarChar(s[k])) && (n == |s| || !IsVarChar(s[n]))
    decreases |s| - i
  {
    if i < n && IsVarChar(s[i]) {
      NameEndIsFirst(s, i + 1, n);
    }
  }

  /** The token at the front of a text. */
  function First(s: string): (t: Token)
    requires s != ""
    ensures 0 < |Source(t)| <= |s|
  {
    if s[0] == '\'' then FirstQuote(s[1..])
    else if s[0] == '%' then FirstPercent(s[1..])
    else if s[0] == '$' then FirstDollar(s[1..])
    else Plain(s[0])
  }

  /** The token after a `'`. */
  function FirstQuote(rest: string): (t: Token)
    ensures 0 < |Source(t)| <= 1 + |rest|
  {
    var n := IndexOf(rest, '\'');
    if n < |rest| then Quoted(rest[..n]) else OpenQuote(rest)
  }

  /** The token after a `%`. */
  function FirstPercent(rest: string): (t: Token)
    ensures 0 < |Source(t)| <= 1 + |rest|
  {
    var n := IndexOf(rest, '%');
    if rest != "" && rest[0] == '%' then EscPercent
    else if n < |rest| then Percent(rest[..n]) else OpenPercent(rest)
  }

  /** The token after a `${`. */
  function FirstBrace(rest: string): (t: Token)
    ensures 0 < |Source(t)| <= 2 + |rest|
  {
    var n := IndexOf(rest, '}');
    if n < |rest| then Braced(rest[..n]) else OpenBrace(rest)
  }

  /** The token after a `$`. */
  function FirstDollar(rest: string): (t: Token)
    ensures 0 < |Source(t)| <= 1 + |rest|
  {
    if rest != "" && rest[0] == '$' then EscDollar
    else if rest != "" && rest[0] == '{' then
      FirstBrace(rest[1..])
    else Bare(rest[..NameEnd(rest, 0)])
  }

  function Tokenize(s: string): seq<Token> {
    if s == "" then []
    else var t := First(s); [t] + Tokenize(s[|Source(t)|..])
  }

  /** The text that is still unread when the scanner stands at `i`; it may stand one past the end. */
  function Unread(p: string, i: int): string
    requires 0 <= i
  {
    if i <= |p| then p[i..] else ""
  }

  /** What a text expands to. */
  function Expanded(s: string, e: Env): string {
    RenderAll(Tokenize(s), e)
  }

  /** Replaces every variable of `path` that is defined, in one scan from left to right.  `env` takes
      precedence over `environ`. */
  method ExpandCustom(path: string, environ: Env, env: Env) returns (r: string)
    ensures r == Expanded(path, environ + env)
  {
    var p := path;
    if '$' !in p && '%' !in p {
      PlainText(p, environ + env);
      return p;
    }
    var e := if env == map[] then environ else environ + env;
    assert e == environ + env;
    var b, i := "", 0;
    ghost var all := RenderAll(Tokenize(path), e);
    while i < |p|
      invariant 0 <= i
      invariant all == b + RenderAll(Tokenize(Unread(p, i)), e)
      decreases |p| - i
    {
      ghost var unread := p[i..];
      var t;
      p, i, t := Scan(p, i);
      RenderFirst(unread, e);
      assert Unread(p, i) == unread[|Source(t)|..];
      Associative(b, Render(t, e), RenderAll(Tokenize(Unread(p, i)), e));
      b := b + Render(t, e);
    }
    r := b;
  }

  lemma RenderFirst(s: string, e: Env)
    requires s != ""
    ensures RenderAll(Tokenize(s), e) == Render(First(s), e) + RenderAll(Tokenize(s[|Source(First(s))|..]), e)
  {
    var t, rest := First(s), Tokenize(s[|Source(First(s))|..]);
    assert Tokenize(s) == [t] + rest;
    assert ([t] + rest)[1..] == rest;
  }

  /** One turn of the scanner's loop at `start`: the token it finds there, the input as it re-slices it and
      the index as it resets it. */
  method Scan(input: string, start: nat) returns (p: string, i: nat, t: Token)
    requires start < |input|
    ensures t == First(input[start..])
    ensures Unread(p, i) == Unread(input, start + |Source(t)|)
    ensures |p| - i < |input| - start
  {
    ghost var rest := input[start..][1..];
    assert rest == input[start + 1..];
    var c := input[start];
    p, i := input, start + 1;
    if c == '\'' {
      p := input[start + 1..];
      i := IndexOf(p, '\'');
      if i < |p| {
        t := Quoted(p[..i]);
        i := i + 1;
      } else {
        t := OpenQuote(p);
      }
      assert t == FirstQuote(rest);
    } else if c == '%' {
      if i < |p| && p[i] == '%' {
        t := EscPercent;
        i := i + 1;
      } else {
        p := input[start + 1..];
        i := IndexOf(p, '%');
        if i < |p| {
          t := Percent(p[..i]);
          i := i + 1;
        } else {
          t := OpenPercent(p);
        }
      }
      assert t == FirstPercent(rest);
    } else if c == '$' {
      p, i, t := ScanDollar(input, i);
    } else {
      t := Plain(c);
    }
  }

  /** The scanner's turn after a `$`. */
  method ScanDollar(input: string, start: nat) returns (p: string, i: nat, t: Token)
    requires 0 < start <= |input|
    ensures t == FirstDollar(input[start..])
    ensures Unread(p, i) == Unread(input, start + |Source(t)| - 1)
    ensures |p| - i <= |input| - start
  {
    p, i := input, start;
    ghost var rest := input[start..];
    assert start < |input| ==> rest[0] == input[start];
    if i < |p| && p[i] == '$' {
      t := EscDollar;
      i := i + 1;
    } else if i < |p| && p[i] == '{' {
      p, i, t := ScanBrace(input, i + 1);
      assert input[start..][1..] == input[start + 1..];
    } else {
      i, t := ScanBare(input, i);
    }
  }

  /** The scanner's turn after a `$` that neither a `$` nor a `{` follows. */
  method ScanBare(input: string, start: nat) returns (i: nat, t: Token)
    requires 0 < start <= |input|
    ensures t == Bare(input[start..][..NameEnd(input[start..], 0)])
    ensures Unread(input, i) == Unread(input, start + |Source(t)| - 1)
    ensures start <= i
  {
    var name;
    name, i := ReadName(input, start);
    t := Bare(name);
    NameEndShift(input, start);
    assert name == input[start..][..NameEnd(input[start..], 0)];
    assert |Source(t)| == 1 + |name|;
    if i == |input| {
      assert input[i..] == "";
      i := i + 1;
    }
  }

  /** The scanner's turn after a `${`. */
  method ScanBrace(input: string, start: nat) returns (p: string, i: nat, t: Token)
    requires start <= |input|
    ensures t == FirstBrace(input[start..])
    ensures Unread(p, i) == Unread(input, start + |Source(t)| - 2)
    ensures |p| - i <= |input| - start
  {
    p := input[start..];
    i := IndexOf(p, '}');
    if i < |p| {
      t := Braced(p[..i]);
      assert p[i + 1..] == input[start + i + 1..];
      i := i + 1;
    } else {
      t := OpenBrace(p);
    }
  }

  lemma NameEndShift(s: string, i: nat)
    requires i <= |s|
    ensures NameEnd(s, i) == i + NameEnd(s[i..], 0)
  {
    var n := NameEnd(s, i);
    NameEndIsFirst(s, i, n);
    NameEndIsFirst(s[i..], 0, n - i);
  }

  /** Collects the name characters of `p` from `i` on. */
  method ReadName(p: string, i: nat) returns (name: string, n: nat)
    requires i <= |p|
    ensures n == NameEnd(p, i) && name == p[i..n]
  {
    name, n := "", i;
    while n < |p| && IsVarChar(p[n])
      invariant i <= n <= |p| && name == p[i..n]
      invariant NameEnd(p, i) == NameEnd(p, n)
    {
      name := name + [p[n]];
      n := n + 1;
    }
  }

  // ---- what the grammar guarantees -------------------------------------------------------

  lemma ClosedPrefix(open: string, rest: string, n: nat, close: string)
    requires n < |rest| && close == [rest[n]]
    ensures open + rest[..n] + close <= open + rest
  {
    assert rest == rest[..n] + close + rest[n + 1..];
  }

  lemma BracePrefix(rest: string)
    ensures Source(FirstBrace(rest)) <= "${" + rest
  {
    var n := IndexOf(rest, '}');
    if n < |rest| {
      ClosedPrefix("${", rest, n, "}");
    }
  }

  lemma DollarPrefix(rest: string)
    ensures Source(FirstDollar(rest)) <= "$" + rest
  {
    if rest != "" && rest[0] == '{' {
      BracePrefix(rest[1..]);
      assert "$" + rest == "${" + rest[1..];
    }
  }

  lemma PercentPrefix(rest: string)
    ensures Source(FirstPercent(rest)) <= "%" + rest
  {
    var n := IndexOf(rest, '%');
    if n < |rest| {
      ClosedPrefix("%", rest, n, "%");
    }
  }

  lemma QuotePrefix(rest: string)
    ensures Source(FirstQuote(rest)) <= "'" + rest
  {
    var n := IndexOf(rest, '\'');
    if n < |rest| {
      ClosedPrefix("'", rest, n, "'");
    }
  }

  lemma FirstIsPrefix(s: string)
    requires s != ""
    ensures Source(First(s)) == s[..|Source(First(s))|]
  {
    assert s == [s[0]] + s[1..];
    if s[0] == '\'' {
      QuotePrefix(s[1..]);
    } else if s[0] == '%' {
      PercentPrefix(s[1..]);
    } else if s[0] == '$' {
      DollarPrefix(s[1..]);
    }
  }

  /** Reading loses nothing: the tokens of a text spell the text. */
  lemma {:induction false} TokensSpellText(s: string)
    ensures SourceAll(Tokenize(s)) == s
  {
    if s != "" {
      FirstIsPrefix(s);
      TokensSpellText(s[|Source(First(s))|..]);
    }
  }

  /** A token that is complete in itself. */
  predicate Lexeme(t: Token) {
    match t
    case Plain(c) => c != '\'' && c != '%' && c != '$'
    case Quoted(body) => '\'' !in body
    case OpenQuote(body) => '\'' !in body
    case EscPercent => true
    case EscDollar => true
    case Percent(name) => name != "" && '%' !in name
    case OpenPercent(tail) => '%' !in tail
    case Braced(name) => '}' !in name
    case OpenBrace(tail) => '}' !in tail
    case Bare(name) => forall c :: c in name ==> IsVarChar(c)
  }

  /** What may follow a token in a text: nothing after an unterminated one, and nothing that would
      lengthen a bare name or turn a lone `$` into another token. */
  predicate MayPrecede(t: Token, rest: string) {
    match t
    case OpenQuote(_) => rest == ""
    case OpenPercent(_) => rest == ""
    case OpenBrace(_) => rest == ""
    case Bare(name) =>
      rest == "" || (!IsVarChar(rest[0]) && (name == "" ==> rest[0] != '$' && rest[0] != '{'))
    case _ => true
  }

  predicate Canonical(ts: seq<Token>) {
    ts == [] || (Lexeme(ts[0]) && MayPrecede(ts[0], SourceAll(ts[1..])) && Canonical(ts[1..]))
  }

  lemma IndexAfter(body: string, after: string, c: char)
    requires c !in body && (after == "" || after[0] == c)
    ensures IndexOf(body + after, c) == |body| && (body + after)[..|body|] == body
  {
    var s := body + after;
    assert forall k :: 0 <= k < |body| ==> s[k] == body[k] && body[k] in body;
    assert after != "" ==> s[|body|] == after[0];
    IndexIsFirst(s, c, 0, |body|);
  }

  lemma Peel(open: string, body: string, close: string, rest: string)
    ensures (open + body + close) + rest == open + (body + (close + rest))
    ensures (open + (body + (close + rest)))[|open|..] == body + (close + rest)
  {
  }

  lemma QuotedIsFirst(body: string, rest: string)
    requires '\'' !in body
    ensures First(Source(Quoted(body)) + rest) == Quoted(body)
  {
    Peel("'", body, "'", rest);
    QuoteEnds(body, "'" + rest);
  }

  lemma QuoteEnds(body: string, after: string)
    requires '\'' !in body && after != "" && after[0] == '\''
    ensures FirstQuote(body + after) == Quoted(body)
  {
    IndexAfter(body, after, '\'');
  }

  lemma PercentIsFirst(name: string, rest: string)
    requires '%' !in name && name != ""
    ensures First(Source(Percent(name)) + rest) == Percent(name)
  {
    Peel("%", name, "%", rest);
    PercentEnds(name, "%" + rest);
  }

  lemma PercentEnds(name: string, after: string)
    requires '%' !in name && name != "" && after != "" && after[0] == '%'
    ensures FirstPercent(name + after) == Percent(name)
  {
    IndexAfter(name, after, '%');
    assert (name + after)[0] == name[0] && name[0] in name;
  }

  lemma BracedIsFirst(name: string, rest: string)
    requires '}' !in name
    ensures First(Source(Braced(name)) + rest) == Braced(name)
  {
    Peel("${", name, "}", rest);
    BraceEnds(name, "}" + rest);
    var s := "${" + (name + ("}" + rest));
    assert s[0] == '$' && s[1..][0] == '{' && s[1..][1..] == s[2..];
  }

  lemma BraceEnds(name: string, after: string)
    requires '}' !in name && after != "" && after[0] == '}'
    ensures FirstBrace(name + after) == Braced(name)
  {
    IndexAfter(name, after, '}');
  }

  lemma OpenIsFirst(t: Token)
    requires Lexeme(t) && (t.OpenQuote? || t.OpenPercent? || t.OpenBrace?)
    ensures First(Source(t)) == t
  {
    var s := Source(t);
    match t
    case OpenQuote(body) =>
      IndexAfter(body, "", '\'');
      assert s[1..] == body == body + "";
    case OpenPercent(tail) =>
      IndexAfter(tail, "", '%');
      assert s[1..] == tail == tail + "";
      assert tail != "" ==> tail[0] in tail;
    case OpenBrace(tail) =>
      IndexAfter(tail, "", '}');
      assert s[1..][1..] == tail == tail + "" && s[1] == '{';
  }

  lemma NameAfter(name: string, rest: string)
    requires forall c :: c in name ==> IsVarChar(c)
    requires rest == "" || !IsVarChar(rest[0])
    ensures NameEnd(name + rest, 0) == |name| && (name + rest)[..|name|] == name
  {
    var s := name + rest;
    assert forall k :: 0 <= k < |name| ==> s[k] == name[k] && name[k] in name;
    assert rest != "" ==> s[|name|] == rest[0];
    NameEndIsFirst(s, 0, |name|);
  }

  lemma BareIsFirst(name: string, rest: string)
    requires Lexeme(Bare(name)) && MayPrecede(Bare(name), rest)
    ensures First(Source(Bare(name)) + rest) == Bare(name)
  {
    NameAfter(name, rest);
    var s := name + rest;
    assert (Source(Bare(name)) + rest)[1..] == s;
    if name != "" {
      assert s[0] == name[0] && name[0] in name;
    } else if rest != "" {
      assert s[0] == rest[0];
    }
  }

  /** The front token of a text is the only lexeme it can start with. */
  lemma FirstIsUnique(t: Token, rest: string)
    requires Lexeme(t) && MayPrecede(t, rest)
    ensures Source(t) + rest != "" && First(Source(t) + rest) == t
  {
    assert Source(t) + "" == Source(t);
    match t {
      case Plain(_) =>
      case EscPercent =>
      case EscDollar =>
      case Quoted(body) => QuotedIsFirst(body, rest);
      case OpenQuote(_) => OpenIsFirst(t);
      case Percent(body) => PercentIsFirst(body, rest);
      case OpenPercent(_) => OpenIsFirst(t);
      case Braced(body) => BracedIsFirst(body, rest);
      case OpenBrace(_) => OpenIsFirst(t);
      case Bare(name) => BareIsFirst(name, rest);
    }
  }

  /** The front token of any text is a lexeme that may stand before what follows it. */
  lemma FirstIsLexeme(s: string)
    requires s != ""
    ensures Lexeme(First(s)) && MayPrecede(First(s), s[|Source(First(s))|..])
  {
    var rest := s[1..];
    match First(s)
    case Quoted(_) => NoneBefore(rest, '\'');
    case OpenQuote(_) => NoneBefore(rest, '\'');
    case Percent(_) => NoneBefore(rest, '%');
    case OpenPercent(_) => NoneBefore(rest, '%');
    case Braced(_) => NoneBefore(rest[1..], '}');
    case OpenBrace(_) => NoneBefore(rest[1..], '}');
    case Bare(name) =>
      NameEndIsFirst(rest, 0, |name|);
      assert s[|name| + 1..] == rest[|name|..];
    case _ =>
  }

  lemma NoneBefore(s: string, c: char)
    ensures c !in s[..IndexOf(s, c)]
  {
    IndexIsFirst(s, c, 0, IndexOf(s, c));
  }

  /** Tokenizing yields a canonical list, and a canonical list is what its own text tokenizes to: each
      text has exactly one canonical reading. */
  lemma {:induction false} TokenizeIsCanonical(s: string)
    ensures Canonical(Tokenize(s))
  {
    if s != "" {
      var rest := s[|Source(First(s))|..];
      TokenizeIsCanonical(rest);
      FirstIsLexeme(s);
      TokensSpellText(rest);
    }
  }

  lemma {:induction false} CanonicalIsTokenized(ts: seq<Token>)
    requires Canonical(ts)
    ensures Tokenize(SourceAll(ts)) == ts
  {
    if ts != [] {
      var t, rest := ts[0], SourceAll(ts[1..]);
      CanonicalIsTokenized(ts[1..]);
      TokenizeFront(t, rest);
    }
  }

  lemma TokenizeFront(t: Token, rest: string)
    requires Lexeme(t) && MayPrecede(t, rest)
    ensures Tokenize(Source(t) + rest) == [t] + Tokenize(rest)
  {
    FirstIsUnique(t, rest);
    var s := Source(t) + rest;
    assert s[|Source(t)|..] == rest;
  }

  // ---- what expansion leaves alone -------------------------------------------------------

  /** The variable a token names. */
  predicate Names(t: Token, name: string) {
    (t.Percent? || t.Braced? || t.Bare?) && t.name == name
  }

  /** Some variable the text names is defined. */
  predicate MentionsDefined(ts: seq<Token>, e: Env) {
    ts != [] && (((ts[0].Percent? || ts[0].Braced? || ts[0].Bare?) && ts[0].name in e) || MentionsDefined(ts[1..], e))
  }

  /** The text with each `$$` and `%%` token halved and everything else as it was. */
  function Collapse(ts: seq<Token>): string {
    if ts == [] then ""
    else (if ts[0].EscPercent? then "%" else if ts[0].EscDollar? then "$" else Source(ts[0])) + Collapse(ts[1..])
  }

  /** When no variable the text names is defined, only doubled `$` and `%` signs change: quoted runs,
      unterminated tails and unknown names come back as they were written. */
  lemma {:induction false} UndefinedIsVerbatim(ts: seq<Token>, e: Env)
    requires !MentionsDefined(ts, e)
    ensures RenderAll(ts, e) == Collapse(ts)
  {
    if ts != [] {
      UndefinedIsVerbatim(ts[1..], e);
    }
  }

  /** Two environments that agree on the variables a text names expand it alike. */
  lemma {:induction false} OnlyNamedVariablesMatter(ts: seq<Token>, e: Env, f: Env)
    requires forall k, n :: 0 <= k < |ts| && Names(ts[k], n) ==> (n in e <==> n in f) && (n in e ==> e[n] == f[n])
    ensures RenderAll(ts, e) == RenderAll(ts, f)
  {
    if ts != [] {
      assert forall n :: Names(ts[0], n) ==> (n in e <==> n in f) && (n in e ==> e[n] == f[n]);
      if ts[0].Percent? || ts[0].Braced? || ts[0].Bare? {
        assert Names(ts[0], ts[0].name);
      }
      forall k, n | 0 <= k < |ts[1..]| && Names(ts[1..][k], n)
        ensures (n in e <==> n in f) && (n in e ==> e[n] == f[n])
      {
        assert Names(ts[k + 1], n);
      }
      OnlyNamedVariablesMatter(ts[1..], e, f);
    }
  }

  /** A text without `$` and `%` is its own expansion, which is why the scanner may return early. */
  lemma {:induction false} PlainText(s: string, e: Env)
    requires '$' !in s && '%' !in s
    ensures RenderAll(Tokenize(s), e) == s
  {
    if s != "" {
      var t := First(s);
      assert s[0] in s;
      FirstIsPrefix(s);
      var rest := s[|Source(t)|..];
      assert s == s[..|Source(t)|] + rest;
      PlainText(rest, e);
    }
  }

  // ---- what expansion does, told on texts ------------------------------------------------

  /** What a name stands for: its value, or nothing known, when it is to stay as it was written. */
  function ValueOr(name: string, e: Env, written: string): string {
    if name in e then e[name] else written
  }

  /** No sign that means anything to the scanner. */
  predicate Inert(s: string) {
    '\'' !in s && '%' !in s && '$' !in s
  }

  lemma ExpandedFront(t: Token, rest: string, e: Env)
    requires Lexeme(t) && MayPrecede(t, rest)
    ensures Expanded(Source(t) + rest, e) == Render(t, e) + Expanded(rest, e)
  {
    TokenizeFront(t, rest);
    assert ([t] + Tokenize(rest))[1..] == Tokenize(rest);
  }

  /** Text before the first sign comes out as it is. */
  lemma {:induction false} InertStays(pre: string, rest: string, e: Env)
    requires Inert(pre)
    ensures Expanded(pre + rest, e) == pre + Expanded(rest, e)
  {
    if pre == "" {
      assert pre + rest == rest && "" + Expanded(rest, e) == Expanded(rest, e);
    } else {
      assert pre[0] in pre && pre == [pre[0]] + pre[1..];
      InertStays(pre[1..], rest, e);
      ExpandedFront(Plain(pre[0]), pre[1..] + rest, e);
      Associative([pre[0]], pre[1..], rest);
      Associative([pre[0]], pre[1..], Expanded(rest, e));
    }
  }

  /** `${name}` becomes the value of the name, whatever that holds: the scan goes on behind it. */
  lemma BracedExpands(pre: string, name: string, post: string, e: Env)
    requires Inert(pre) && '}' !in name
    ensures Expanded(pre + ("${" + name + "}" + post), e)
         == pre + (ValueOr(name, e, "${" + name + "}") + Expanded(post, e))
  {
    InertStays(pre, "${" + name + "}" + post, e);
    ExpandedFront(Braced(name), post, e);
  }

  /** So does `%name%`. */
  lemma PercentExpands(pre: string, name: string, post: string, e: Env)
    requires Inert(pre) && name != "" && '%' !in name
    ensures Expanded(pre + ("%" + name + "%" + post), e)
         == pre + (ValueOr(name, e, "%" + name + "%") + Expanded(post, e))
  {
    InertStays(pre, "%" + name + "%" + post, e);
    ExpandedFront(Percent(name), post, e);
  }

  /** And `$name` with the longest name there is; a `$` that no name, `$` or `{` follows has the empty name. */
  lemma BareExpands(pre: string, name: string, post: string, e: Env)
    requires Inert(pre) && (forall c :: c in name ==> IsVarChar(c))
    requires post == "" || (!IsVarChar(post[0]) && (name == "" ==> post[0] != '$' && post[0] != '{'))
    ensures Expanded(pre + ("$" + name + post), e) == pre + (ValueOr(name, e, "$" + name) + Expanded(post, e))
  {
    InertStays(pre, "$" + name + post, e);
    ExpandedFront(Bare(name), post, e);
  }

  /** A doubled sign stands for one. */
  lemma DoubledExpands(pre: string, post: string, e: Env)
    requires Inert(pre)
    ensures Expanded(pre + ("$$" + post), e) == pre + ("$" + Expanded(post, e))
    ensures Expanded(pre + ("%%" + post), e) == pre + ("%" + Expanded(post, e))
  {
    InertStays(pre, "$$" + post, e);
    InertStays(pre, "%%" + post, e);
    ExpandedFront(EscDollar, post, e);
    ExpandedFront(EscPercent, post, e);
  }

  /** Nothing is expanded between single quotes, which stay. */
  lemma QuotedStays(pre: string, body: string, post: string, e: Env)
    requires Inert(pre) && '\'' !in body
    ensures Expanded(pre + ("'" + body + "'" + post), e) == pre + ("'" + body + "'" + Expanded(post, e))
  {
    InertStays(pre, "'" + body + "'" + post, e);
    ExpandedFront(Quoted(body), post, e);
  }

  /** Behind a `'`, a `%` or a `${` that is not closed nothing is expanded. */
  lemma OpenStays(pre: string, open: string, tail: string, e: Env)
    requires Inert(pre)
    requires (open == "'" && '\'' !in tail) || (open == "%" && '%' !in tail) || (open == "${" && '}' !in tail)
    ensures Expanded(pre + (open + tail), e) == pre + (open + tail)
  {
    var t := if open == "'" then OpenQuote(tail) else if open == "%" then OpenPercent(tail) else OpenBrace(tail);
    InertStays(pre, open + tail, e);
    ExpandedFront(t, "", e);
    assert Source(t) == open + tail && Source(t) + "" == Source(t) && Render(t, e) + "" == Render(t, e);
  }
}
