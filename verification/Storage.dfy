/** The nested configuration store of storage.py: dictionaries inside dictionaries, reached by dotted names. */
module Storage {
  import opened Text

  /** A stored value: nothing, something that is no dictionary, or a dictionary. */
  datatype Tree = Nil | Atom(v: int) | Node(kids: map<string, Tree>)

  type Data = map<string, Tree>

  datatype Outcome<T> = Ok(value: T) | Reserved | NotADict

  const INTERNAL: seq<string> := [
    "get", "set", "uid", "pid", "path", "send", "recv", "save", "load", "keys", "items", "update", "header", "values",
    "forward", "is_error", "multicast", "is_forward", "set_forward", "is_multicast", "set_multicast", "is_same_client"]

  predicate IsReserved(name: string) {
    name != "" && (name[0] == '_' || name in INTERNAL)
  }

  // ---- what the store means --------------------------------------------------------------

  /** The value under `path`, or `default` when the walk falls off: a missing entry and a `None` on the way
      both end it. */
  function Lookup(d: Data, path: seq<string>, default: Tree): Outcome<Tree>
    requires path != []
    decreases |path|
  {
    if |path| == 1 then Ok(if path[0] in d then d[path[0]] else default)
    else if path[0] !in d || d[path[0]] == Nil then Ok(default)
    else if d[path[0]].Atom? then NotADict
    else Lookup(d[path[0]].kids, path[1..], default)
  }

  /** The dictionary with `value` under `path`; missing dictionaries on the way are made. */
  function Store(d: Data, path: seq<string>, value: Tree): Outcome<Data>
    requires path != []
    decreases |path|
  {
    if |path| == 1 then Ok(d[path[0] := value])
    else if path[0] in d && d[path[0]].Atom? then NotADict
    else
      match Store(Below(d, path[0]), path[1..], value)
      case Ok(kids) => Ok(d[path[0] := Node(kids)])
      case other => other
  }

  /** The dictionary a walk enters through `key`: a new one when there is none. */
  function Below(d: Data, key: string): Data {
    if key in d && d[key].Node? then d[key].kids else map[]
  }

  /** `path` leads to an entry. */
  predicate Present(d: Data, path: seq<string>)
    requires path != []
    decreases |path|
  {
    path[0] in d && (|path| == 1 || (d[path[0]].Node? && Present(d[path[0]].kids, path[1..])))
  }

  /** The store after `path` was made to exist, with `value` when it did not. */
  function Ensured(d: Data, path: seq<string>, value: Tree): Outcome<Data>
    requires path != []
  {
    if Present(d, path) then Ok(d) else Store(d, path, value)
  }

  /** `set` on the whole store. */
  function Set(d: Data, path: seq<string>, value: Tree): Outcome<Data>
    requires path != []
  {
    if IsReserved(path[0]) then Reserved else Store(d, path, value)
  }

  /** `get` with `set_non_exist` on the whole store.  An undotted name is only checked when it is added. */
  function GetOrSet(d: Data, path: seq<string>, value: Tree): Outcome<Data>
    requires path != []
  {
    if IsReserved(path[0]) && (|path| > 1 || path[0] !in d) then Reserved else Ensured(d, path, value)
  }

  /** `update`: reserved names are dropped, except that `_` marks the store read-only. */
  function Updated(d: Data, more: Data): Data {
    d + Kept(more) + Mark(more)
  }

  function Kept(more: Data): Data {
    map k | k in more && !IsReserved(k) :: more[k]
  }

  function Mark(more: Data): Data {
    if "_" in more then map["_ro" := Atom(1)] else map[]
  }

  // ---- laws ------------------------------------------------------------------------------

  /** What is stored is found. */
  lemma {:induction false} GetAfterSet(d: Data, p: seq<string>, value: Tree, default: Tree)
    requires p != [] && Store(d, p, value).Ok?
    ensures Lookup(Store(d, p, value).value, p, default) == Ok(value)
    decreases |p|
  {
    if |p| > 1 {
      GetAfterSet(Below(d, p[0]), p[1..], value, default);
    }
  }

  /** Storing changes no path that neither leads to the place nor starts from it. */
  lemma {:induction false} SetFrame(d: Data, p: seq<string>, value: Tree, q: seq<string>, default: Tree)
    requires p != [] && q != [] && !(p <= q) && !(q <= p) && Store(d, p, value).Ok?
    ensures Lookup(Store(d, p, value).value, q, default) == Lookup(d, q, default)
    decreases |p|
  {
    if |p| > 1 && p[0] == q[0] {
      assert |q| > 1;
      assert p == [p[0]] + p[1..] && q == [q[0]] + q[1..];
      SetFrame(Below(d, p[0]), p[1..], value, q[1..], default);
    }
  }

  /** Below the place, the store holds exactly what the stored value holds. */
  lemma {:induction false} SetExtension(d: Data, p: seq<string>, value: Tree, r: seq<string>, default: Tree)
    requires p != [] && r != [] && Store(d, p, value).Ok?
    ensures Lookup(Store(d, p, value).value, p + r, default)
      == match value case Nil => Ok(default) case Atom(_) => NotADict case Node(kids) => Lookup(kids, r, default)
    decreases |p|
  {
    assert (p + r)[1..] == p[1..] + r;
    if |p| > 1 {
      SetExtension(Below(d, p[0]), p[1..], value, r, default);
    } else {
      assert p[1..] + r == r;
    }
  }

  /** Above the place there are dictionaries now, and each leads on to it. */
  lemma {:induction false} SetPrefix(d: Data, p: seq<string>, value: Tree, n: nat, default: Tree)
    requires 0 < n < |p| && Store(d, p, value).Ok?
    ensures var above := Lookup(Store(d, p, value).value, p[..n], default);
      above.Ok? && above.value.Node? && Lookup(above.value.kids, p[n..], default) == Ok(value)
    decreases |p|
  {
    if n == 1 {
      GetAfterSet(Below(d, p[0]), p[1..], value, default);
    } else {
      assert p[..n][1..] == p[1..][..n - 1] && p[1..][n - 1..] == p[n..];
      SetPrefix(Below(d, p[0]), p[1..], value, n - 1, default);
    }
  }

  /** A present entry is what `get` returns, and an absent one gives the default; `set` fails exactly where
      `get` does, on a value that is no dictionary in the middle of the path. */
  lemma {:induction false} PresentIsLookup(d: Data, p: seq<string>)
    requires p != []
    ensures Present(d, p) ==> forall x, y :: Lookup(d, p, x) == Lookup(d, p, y) && Lookup(d, p, x).Ok?
    ensures !Present(d, p) ==> forall x :: Lookup(d, p, x) in {Ok(x), NotADict}
    ensures forall x, v :: Lookup(d, p, x).NotADict? <==> Store(d, p, v).NotADict?
    ensures forall v :: !Store(d, p, v).Reserved?
    decreases |p|
  {
    if |p| > 1 {
      PresentIsLookup(Below(d, p[0]), p[1..]);
      if !(p[0] in d && d[p[0]].Node?) {
        forall v {
          StoreInEmpty(p[1..], v);
        }
      }
    }
  }

  lemma {:induction false} StoreInEmpty(p: seq<string>, value: Tree)
    requires p != []
    ensures Store(map[], p, value).Ok?
    decreases |p|
  {
    if |p| > 1 {
      StoreInEmpty(p[1..], value);
    }
  }

  /** `get` with `set_non_exist` gives what plain `get` gives, and from then on every `get` gives the same. */
  lemma GetOrSetAgrees(d: Data, p: seq<string>, value: Tree, later: Tree)
    requires p != [] && GetOrSet(d, p, value).Ok?
    ensures Lookup(GetOrSet(d, p, value).value, p, later) == Lookup(d, p, value)
  {
    PresentIsLookup(d, p);
    if !Present(d, p) {
      GetAfterSet(d, p, value, later);
    }
  }

  /** It changes nothing the second time, whatever the second default is. */
  lemma GetOrSetIdempotent(d: Data, p: seq<string>, value: Tree, again: Tree)
    requires p != [] && GetOrSet(d, p, value).Ok?
    ensures GetOrSet(GetOrSet(d, p, value).value, p, again) == GetOrSet(d, p, value)
  {
    if !Present(d, p) {
      StoredIsPresent(d, p, value);
    }
  }

  lemma {:induction false} StoredIsPresent(d: Data, p: seq<string>, value: Tree)
    requires p != [] && Store(d, p, value).Ok?
    ensures Present(Store(d, p, value).value, p) && p[0] in Store(d, p, value).value
    decreases |p|
  {
    if |p| > 1 {
      StoredIsPresent(Below(d, p[0]), p[1..], value);
    }
  }

  /** The dictionary under `q`, or a new one when there is none. */
  function Inner(d: Data, q: seq<string>): Data
    requires q != []
    decreases |q|
  {
    if |q| == 1 then Below(d, q[0]) else Inner(Below(d, q[0]), q[1..])
  }

  /** Making a path exist changes what is there in one way only: dictionaries on the path, or a `None` in the place of
      one, get the rest of the path stored in them. */
  lemma {:induction false} StoreKeepsValues(d: Data, p: seq<string>, value: Tree, q: seq<string>, default: Tree)
    requires p != [] && q != [] && !Present(d, p) && Store(d, p, value).Ok? && Present(d, q)
    ensures var after := Lookup(Store(d, p, value).value, q, default);
            if q <= p then
              |q| < |p| && Store(Inner(d, q), p[|q|..], value).Ok?
              && after == Ok(Node(Store(Inner(d, q), p[|q|..], value).value))
              && Lookup(d, q, default) in {Ok(Nil), Ok(Node(Inner(d, q)))}
            else after == Lookup(d, q, default)
    decreases |p|
  {
    hide Store, Lookup, Inner, Present;
    if p[0] == q[0] && |p| > 1 && |q| > 1 {
      StoreOne(d, p, value);
      PresentOne(d, p);
      PresentOne(d, q);
      LookupOne(d, q, default);
      LookupOne(Store(d, p, value).value, q, default);
      StoreKeepsValues(Below(d, p[0]), p[1..], value, q[1..], default);
      assert p == [p[0]] + p[1..] && q == [q[0]] + q[1..];
      if q[1..] <= p[1..] {
        assert p[1..][|q| - 1..] == p[|q|..];
      }
    } else {
      StoreKeepsTop(d, p, value, q, default);
    }
  }

  /** The same where the paths part at their first names, or one of them ends. */
  lemma StoreKeepsTop(d: Data, p: seq<string>, value: Tree, q: seq<string>, default: Tree)
    requires p != [] && q != [] && !Present(d, p) && Store(d, p, value).Ok? && Present(d, q)
    requires p[0] != q[0] || |p| == 1 || |q| == 1
    ensures var after := Lookup(Store(d, p, value).value, q, default);
            if q <= p then
              |q| < |p| && Store(Inner(d, q), p[|q|..], value).Ok?
              && after == Ok(Node(Store(Inner(d, q), p[|q|..], value).value))
              && Lookup(d, q, default) in {Ok(Nil), Ok(Node(Inner(d, q)))}
            else after == Lookup(d, q, default)
  {}

  lemma StoreOne(d: Data, p: seq<string>, value: Tree)
    requires |p| > 1 && Store(d, p, value).Ok?
    ensures var kids := Store(Below(d, p[0]), p[1..], value);
      kids.Ok? && Store(d, p, value).value == d[p[0] := Node(kids.value)]
  {}

  lemma PresentOne(d: Data, p: seq<string>)
    requires |p| > 1
    ensures Present(d, p) <==> p[0] in d && d[p[0]].Node? && Present(Below(d, p[0]), p[1..])
  {}

  lemma LookupOne(d: Data, q: seq<string>, default: Tree)
    requires |q| > 1 && q[0] in d && d[q[0]].Node?
    ensures Lookup(d, q, default) == Lookup(d[q[0]].kids, q[1..], default)
    ensures Inner(d, q) == Inner(d[q[0]].kids, q[1..])
  {}

  /** `get` with `set_non_exist` overwrites no value: every entry is what it was, but that, when the path is missing, a
      dictionary on the way to it, or a `None` in the place of one, gets the rest of the path. */
  lemma GetOrSetKeepsValues(d: Data, p: seq<string>, value: Tree, q: seq<string>, default: Tree)
    requires p != [] && q != [] && GetOrSet(d, p, value).Ok? && Present(d, q)
    ensures var after := Lookup(GetOrSet(d, p, value).value, q, default);
            if !Present(d, p) && q <= p then
              Lookup(d, q, default) in {Ok(Nil), Ok(Node(Inner(d, q)))}
              && |q| < |p| && Store(Inner(d, q), p[|q|..], value).Ok?
              && after == Ok(Node(Store(Inner(d, q), p[|q|..], value).value))
            else after == Lookup(d, q, default)
  {
    if !Present(d, p) {
      StoreKeepsValues(d, p, value, q, default);
    }
  }

  /** A `None` in the middle of a path does get overwritten. */
  lemma NoneIsOverwritten(a: string, b: string, value: Tree)
    requires !IsReserved(a)
    ensures GetOrSet(map[a := Nil], [a, b], value) == Ok(map[a := Node(map[b := value])])
  {
    var d: Data, p := map[a := Nil], [a, b];
    assert p[1..] == [b] && p[0] == a;
    assert Store(map[], [b], value) == Ok(map[b := value]);
    assert !Present(d, p);
    assert d[a := Node(map[b := value])] == map[a := Node(map[b := value])];
  }

  // ---- reserved names --------------------------------------------------------------------

  /** No reserved name is an entry of the store, except the read-only mark. */
  predicate Clean(d: Data) {
    forall k :: k in d ==> k == "_ro" || !IsReserved(k)
  }

  datatype Op =
    | DoSet(path: seq<string>, value: Tree)
    | DoGetOrSet(path: seq<string>, value: Tree)
    | DoUpdate(more: Data)

  /** The store after one call; a call that fails changes nothing. */
  function Apply(d: Data, op: Op): Data {
    match op
    case DoUpdate(more) => Updated(d, more)
    case DoSet(p, v) => if p == [] then d else (match Set(d, p, v) case Ok(e) => e case _ => d)
    case DoGetOrSet(p, v) => if p == [] then d else (match GetOrSet(d, p, v) case Ok(e) => e case _ => d)
  }

  function Run(d: Data, ops: seq<Op>): Data {
    if ops == [] then d else Apply(Run(d, ops[..|ops| - 1]), ops[|ops| - 1])
  }

  lemma StoreKeys(d: Data, p: seq<string>, value: Tree)
    requires p != [] && Store(d, p, value).Ok?
    ensures Store(d, p, value).value.Keys == d.Keys + {p[0]}
  {}

  lemma CallStaysClean(d: Data, op: Op)
    requires Clean(d)
    ensures Clean(Apply(d, op))
  {
    if !op.DoUpdate? && op.path != [] && Store(d, op.path, op.value).Ok? {
      StoreKeys(d, op.path, op.value);
    }
  }

  /** Whatever is set, fetched or received, the store never holds a reserved name other than `_ro`. */
  lemma {:induction false} RunsStayClean(ops: seq<Op>)
    ensures Clean(Run(map[], ops))
  {
    if ops != [] {
      RunsStayClean(ops[..|ops| - 1]);
      CallStaysClean(Run(map[], ops[..|ops| - 1]), ops[|ops| - 1]);
    }
  }

  /** What `update` leaves under a name: an entry of the payload replaces the one that is there, unless its name is
      reserved; and `_` in the payload sets the read-only mark and nothing else. */
  lemma UpdatedEntry(d: Data, more: Data, k: string)
    ensures k in Updated(d, more) <==> k in d || (k in more && !IsReserved(k)) || (k == "_ro" && "_" in more)
    ensures k in Updated(d, more) ==>
      Updated(d, more)[k]
      == if k == "_ro" && "_" in more then Atom(1) else if k in more && !IsReserved(k) then more[k] else d[k]
  {
    UnderscoreIsReserved();
  }

  /** A name is refused when it begins with an underscore or is one of the store's own methods; an undotted one that is
      there can be had all the same. */
  lemma RefusedWhen(d: Data, p: seq<string>, value: Tree)
    requires p != []
    ensures Set(d, p, value).Reserved? <==> p[0] != "" && (p[0][0] == '_' || p[0] in INTERNAL)
    ensures GetOrSet(d, p, value).Reserved? <==>
      p[0] != "" && (p[0][0] == '_' || p[0] in INTERNAL) && (|p| == 1 ==> p[0] !in d)
  {
    PresentIsLookup(d, p);
  }

  /** A receiver that fills an empty store from what a clean store sent gets it back but for `_ro`. */
  lemma ReceivedIsSent(d: Data)
    requires Clean(d)
    ensures Updated(map[], d) == d - {"_ro"}
  {
  }

  // ---- the store in memory ---------------------------------------------------------------

  /** An entry as a dictionary object holds it. */
  datatype Cell = Null | Leaf(v: int) | Sub(dict: Dict)

  /** What an entry that is no dictionary stands for. */
  function Scalar(c: Cell): Tree
    requires !c.Sub?
  {
    if c.Null? then Nil else Atom(c.v)
  }

  /** What an entry stands for. */
  ghost function TreeOf(c: Cell): Tree
    requires c.Sub? ==> c.dict.Valid()
    reads if c.Sub? then {c.dict} + c.dict.Repr else {}
  {
    if c.Sub? then Node(c.dict.Contents()) else Scalar(c)
  }

  /** The dictionary objects of an entry. */
  ghost function ReprOf(c: Cell): set<Dict>
    reads if c.Sub? then {c.dict} else {}
  {
    if c.Sub? then c.dict.Repr else {}
  }

  /** A dictionary object.  `Repr` holds it and every dictionary object inside it. */
  class Dict {
    var m: map<string, Cell>
    ghost var Repr: set<Dict>

    /** The dictionaries inside form a tree. */
    ghost predicate Valid()
      reads this, Repr
      decreases Repr
    {
      this in Repr
      && (forall k :: k in m && m[k].Sub? ==>
        m[k].dict in Repr && m[k].dict.Repr <= Repr && this !in m[k].dict.Repr && m[k].dict.Valid())
      && (forall j, k :: j in m && k in m && j != k && m[j].Sub? && m[k].Sub? ==> m[j].dict.Repr !! m[k].dict.Repr)
    }

    /** The value the object stands for. */
    ghost function Contents(): Data
      requires Valid()
      reads this, Repr
      decreases Repr
    {
      map k | k in m :: match m[k] case Null => Nil case Leaf(v) => Atom(v) case Sub(d) => Node(d.Contents())
    }

    constructor ()
      ensures Valid() && fresh(Repr) && Contents() == map[]
    {
      m, Repr := map[], {this};
    }

    /** An entry that can be put below this dictionary: if it is a dictionary, it is not part of this one. */
    ghost predicate Apart(value: Cell)
      reads this, if value.Sub? then {value.dict} + value.dict.Repr else {}
    {
      value.Sub? ==> value.dict.Valid() && value.dict.Repr !! Repr
    }

    method Assign(key: string, value: Cell)
      requires Valid() && Apart(value)
      modifies this
      ensures Valid() && Repr == old(Repr) + ReprOf(value)
      ensures Contents() == old(Contents())[key := old(TreeOf(value))]
    {
      m := m[key := value];
      Repr := Repr + ReprOf(value);
    }

    /** The writing walk of `__get`: enters `path` one name at a time, makes the dictionaries that are missing and
        stores `value` under the last name.  It stops at a value that is no dictionary. */
    method Put(path: seq<string>, value: Cell) returns (ok: bool)
      requires Valid() && path != [] && Apart(value)
      modifies Repr
      ensures Valid() && fresh(Repr - old(Repr) - old(ReprOf(value)))
      ensures ok <==> Store(old(Contents()), path, old(TreeOf(value))).Ok?
      ensures ok ==> Store(old(Contents()), path, old(TreeOf(value))) == Ok(Contents())
      ensures !ok ==> Contents() == old(Contents())
      decreases |path|, 1
    {
      var key := path[0];
      if |path| == 1 {
        Assign(key, value);
        return true;
      }
      if key in m && m[key].Leaf? {
        return false;
      }
      StoreInEmpty(path[1..], TreeOf(value));
      ok := PutUnder(key, path[1..], value);
    }

    /** Enters `key`, making its dictionary when it is missing, and goes on. */
    method PutUnder(key: string, path: seq<string>, value: Cell) returns (ok: bool)
      requires Valid() && path != [] && Apart(value) && (key in m ==> !m[key].Leaf?)
      modifies Repr
      ensures Valid() && fresh(Repr - old(Repr) - old(ReprOf(value)))
      ensures var kids := Below(old(Contents()), key);
        var r := Store(kids, path, old(TreeOf(value)));
        && (ok <==> r.Ok?)
        && Contents() == old(Contents())[key := Node(if ok then r.value else kids)]
      decreases |path|, 3
    {
      hide Store, Below;
      Enter(key);
      ghost var kids := Below(old(Contents()), key);
      ghost var r := Store(kids, path, old(TreeOf(value)));
      ok := PutBelow(key, path, value);
      if ok {
        SetTwice(old(Contents()), key, Node(kids), Node(r.value));
      }
    }

    /** The rest of the walk, from the dictionary under `key`. */
    method PutBelow(key: string, path: seq<string>, value: Cell) returns (ok: bool)
      requires Valid() && path != [] && Apart(value) && key in m && m[key].Sub?
      modifies Repr
      ensures Valid() && fresh(Repr - old(Repr) - old(ReprOf(value)))
      ensures var r := Store(old(m[key].dict.Contents()), path, old(TreeOf(value)));
        && (ok <==> r.Ok?)
        && Contents() == if ok then old(Contents())[key := Node(r.value)] else old(Contents())
      decreases |path|, 2
    {
      hide Store;
      var d := m[key].dict;
      ok := d.Put(path, value);
      Repr := Repr + d.Repr;
      assert Contents() == old(Contents())[key := Node(d.Contents())];
    }

    /** Makes the dictionary under `key` when it is missing. */
    method Enter(key: string)
      requires Valid() && (key in m ==> !m[key].Leaf?)
      modifies this
      ensures Valid() && fresh(Repr - old(Repr)) && key in m && m[key].Sub? && old(Repr) <= Repr
      ensures m[key].dict.Contents() == Below(old(Contents()), key)
      ensures Contents() == old(Contents())[key := Node(Below(old(Contents()), key))]
    {
      if key !in m || m[key].Null? {
        var d := new Dict();
        m := m[key := Sub(d)];
        Repr := Repr + d.Repr;
      }
    }

    /** The reading walk of `__get`, a loop over the names of `path`. */
    method Find(path: seq<string>, ghost default: Tree) returns (r: Outcome<Cell>, found: bool)
      requires Valid() && path != []
      ensures r.Ok? && r.value.Sub? ==> r.value.dict.Valid()
      ensures Lookup(Contents(), path, default)
           == match r
              case Ok(c) => Ok(if found then TreeOf(c) else default)
              case NotADict => NotADict
              case Reserved => Reserved
      ensures found <==> Present(Contents(), path)
    {
      var d, x := this, 0;
      while x < |path| - 1
        invariant 0 <= x < |path| && d.Valid()
        invariant Lookup(Contents(), path, default) == Lookup(d.Contents(), path[x..], default)
        invariant Present(Contents(), path) <==> Present(d.Contents(), path[x..])
      {
        assert path[x..][1..] == path[x + 1..];
        if path[x] !in d.m || d.m[path[x]].Null? {
          return Ok(Null), false;
        }
        if d.m[path[x]].Leaf? {
          return NotADict, false;
        }
        d := d.m[path[x]].dict;
        x := x + 1;
      }
      if path[x] in d.m {
        return Ok(d.m[path[x]]), true;
      }
      return Ok(Null), false;
    }
  }

  lemma SetTwice(d: Data, key: string, a: Tree, b: Tree)
    ensures d[key := a][key := b] == d[key := b]
  {
  }

  /** The store itself: the outermost dictionary, reached by dotted names. */
  class Flex {
    var data: Dict

    ghost predicate Valid()
      reads this, data, data.Repr
    {
      data.Valid()
    }

    constructor ()
      ensures Valid() && fresh(data.Repr) && data.Contents() == map[]
    {
      data := new Dict();
    }

    /** `set`. */
    method SetName(name: string, value: Cell) returns (r: Outcome<Cell>)
      requires Valid() && data.Apart(value)
      modifies data.Repr
      ensures Valid()
      ensures
        var was, path, tree := old(data.Contents()), Split(name, '.'), old(TreeOf(value));
        match r
        case Ok(v) => v == value && Set(was, path, tree) == Ok(data.Contents())
        case Reserved => Set(was, path, tree).Reserved? && data.Contents() == was
        case NotADict => Set(was, path, tree).NotADict? && data.Contents() == was
    {
      var v := Split(name, '.');
      if IsReserved(v[0]) {
        return Reserved;
      }
      PresentIsLookup(data.Contents(), v);
      var ok := data.Put(v, value);
      r := if ok then Ok(value) else NotADict;
    }

    /** `get` with `set_non_exist`. */
    method GetName(name: string, default: Cell) returns (r: Outcome<Cell>)
      requires Valid() && data.Apart(default)
      modifies data.Repr
      ensures Valid() && (r.Ok? && r.value.Sub? ==> r.value.dict.Valid())
      ensures
        var was, path, tree := old(data.Contents()), Split(name, '.'), old(TreeOf(default));
        match r
        case Ok(v) => GetOrSet(was, path, tree) == Ok(data.Contents()) && Lookup(was, path, tree) == Ok(TreeOf(v))
        case Reserved => GetOrSet(was, path, tree).Reserved? && data.Contents() == was
        case NotADict => GetOrSet(was, path, tree).NotADict? && data.Contents() == was
    {
      hide Lookup, Store, Present;
      var v := Split(name, '.');
      if IsReserved(v[0]) && (|v| > 1 || v[0] !in data.m) {
        return Reserved;
      }
      PresentIsLookup(data.Contents(), v);
      var c, found := data.Find(v, TreeOf(default));
      if c.NotADict? {
        return NotADict;
      }
      if found {
        return c;
      }
      var ok := data.Put(v, default);
      r := Ok(default);
    }

    /** `update`, from a dictionary that is not part of the store. */
    method Update(more: Dict)
      requires Valid() && more.Valid() && more.Repr !! data.Repr
      modifies data
      ensures Valid() && data == old(data)
      ensures data.Contents() == Updated(old(data.Contents()), old(more.Contents()))
    {
      hide Updated, EntryUpdated;
      var rest := more.m.Keys;
      ghost var all := more.Contents();
      UpdatedByNone(data.Contents(), all - rest);
      while rest != {}
        modifies data
        invariant Valid() && data == old(data) && more.Valid() && more !in data.Repr && rest <= more.m.Keys
        invariant forall k :: k in rest ==> data.Apart(more.m[k])
        invariant data !in more.Repr && more.Contents() == all
        invariant data.Contents() == Updated(old(data.Contents()), all - rest)
        decreases rest
      {
        var k :| k in rest;
        UpdateTurn(old(data.Contents()), all, rest, k);
        rest := rest - {k};
        UpdateEntry(k, more.m[k]);
      }
      assert all - rest == all;
    }

    /** One turn of its loop. */
    method UpdateEntry(k: string, value: Cell)
      requires Valid() && data.Apart(value)
      modifies data
      ensures Valid() && data == old(data) && data.Repr <= old(data.Repr) + ReprOf(value)
      ensures data.Contents() == EntryUpdated(old(data.Contents()), k, old(TreeOf(value)))
    {
      if k == "_" {
        data.Assign("_ro", Leaf(1));
      } else if !IsReserved(k) {
        data.Assign(k, value);
      }
    }
  }

  /** What one entry of a payload does to the store. */
  function EntryUpdated(d: Data, k: string, value: Tree): Data {
    if k == "_" then d["_ro" := Atom(1)] else if IsReserved(k) then d else d[k := value]
  }

  lemma UpdatedByNone(d: Data, more: Data)
    requires more == map[]
    ensures Updated(d, more) == d
  {}

  lemma UpdateTurn(d: Data, all: Data, rest: set<string>, k: string)
    requires k in rest && k in all
    ensures Updated(d, all - (rest - {k})) == EntryUpdated(Updated(d, all - rest), k, all[k])
  {
    hide Updated, EntryUpdated;
    UpdateOne(d, all - rest, k, all[k]);
    assert all - (rest - {k}) == (all - rest)[k := all[k]];
  }

  lemma UpdateOne(d: Data, more: Data, k: string, value: Tree)
    requires k !in more
    ensures Updated(d, more[k := value]) == EntryUpdated(Updated(d, more), k, value)
  {
    UnderscoreIsReserved();
    KeptOne(more, k, value);
    if k == "_" {
      SumWith(d + Kept(more), Mark(more), "_ro", Atom(1));
      assert Mark(more[k := value]) == Mark(more)["_ro" := Atom(1)];
    } else if !IsReserved(k) {
      SumUnder(d, Kept(more), Mark(more), k, value);
    }
  }

  lemma KeptOne(more: Data, k: string, value: Tree)
    ensures Kept(more[k := value]) == if IsReserved(k) then Kept(more) else Kept(more)[k := value]
  {}

  lemma SumWith(a: Data, b: Data, k: string, value: Tree)
    ensures a + b[k := value] == (a + b)[k := value]
  {}

  lemma SumUnder(a: Data, b: Data, c: Data, k: string, value: Tree)
    requires k !in c
    ensures a + b[k := value] + c == (a + b + c)[k := value]
  {}

  lemma UnderscoreIsReserved()
    ensures IsReserved("_") && IsReserved("_ro") && "_" != "_ro"
  {
  }
}
