/** The reserve of huge pages, hydra.py: how much each virtual machine has, and one file with the sum. */
module Pages {
  import opened Wrappers

  type Ledger = map<nat, nat>

  /** The ledger and the number last written to the reserve file. */
  datatype Reserve = Reserve(ledger: Ledger, file: int)

  ghost function Sum(m: Ledger): nat {
    if m == map[] then 0 else var k :| k in m; m[k] + Sum(m - {k})
  }

  lemma {:induction false} SumWithout(m: Ledger, k: nat)
    requires k in m
    ensures Sum(m) == m[k] + Sum(m - {k})
    decreases |m|
  {
    var first :| first in m && Sum(m) == m[first] + Sum(m - {first});
    if first != k {
      SumWithout(m - {first}, k);
      SumWithout(m - {k}, first);
      assert m - {first} - {k} == m - {k} - {first};
    }
  }

  lemma SumWith(m: Ledger, k: nat, n: nat)
    ensures Sum(m[k := n]) == Sum(m) + n - if k in m then m[k] else 0
  {
    var with := m[k := n];
    SumWithout(with, k);
    assert with - {k} == m - {k};
    if k in m {
      SumWithout(m, k);
    } else {
      assert m - {k} == m;
    }
  }

  function Held(m: Ledger, vmid: nat): nat {
    if vmid in m then m[vmid] else 0
  }

  /** `pages`, to reserve. */
  ghost function Added(r: Reserve, vmid: nat, size: int, written: bool): Reserve {
    if size <= 0 || !written then r
    else Reserve(r.ledger[vmid := Held(r.ledger, vmid) + size], Sum(r.ledger) + size)
  }

  /** `pages`, to release; no size means all that the machine has. */
  ghost function Released(r: Reserve, vmid: nat, size: Option<nat>, written: bool): Reserve {
    if vmid !in r.ledger || !written then r
    else
      var n := r.ledger[vmid];
      var s := if size.Some? then size.value else n;
      Reserve(if s >= n then r.ledger - {vmid} else r.ledger[vmid := n - s], Sum(r.ledger) - Max(n, s))
  }

  class HydraPages {
    var pages: Ledger
    var file: int

    ghost function View(): Reserve
      reads this
    {
      Reserve(pages, file)
    }

    /** `sum(self._pages.values())`. */
    method Total() returns (n: nat)
      ensures n == Sum(pages)
    {
      n := 0;
      var rest := pages;
      while rest != map[]
        invariant n + Sum(rest) == Sum(pages)
        decreases |rest|
      {
        var k :| k in rest;
        SumWithout(rest, k);
        n := n + rest[k];
        rest := rest - {k};
      }
    }

    /** Whether the file could be written, which the source says with an exception. */
    method Add(vmid: nat, size: int, written: bool) returns (ok: bool)
      modifies this
      ensures View() == Added(old(View()), vmid, size, written)
      ensures ok <==> size <= 0 || written
    {
      if size <= 0 {
        return true;
      }
      var x := Total();
      if !written {
        return false;
      }
      file := x + size;
      pages := pages[vmid := if vmid in pages then pages[vmid] + size else size];
      return true;
    }

    method Release(vmid: nat, size: Option<nat>, written: bool) returns (ok: bool)
      modifies this
      ensures View() == Released(old(View()), vmid, size, written)
      ensures ok <==> vmid !in old(pages) || written
    {
      if vmid !in pages {
        return true;
      }
      var n := pages[vmid];
      var s := if size.Some? then size.value else n;
      var x := Total();
      if !written {
        return false;
      }
      file := x - Max(n, s);
      if s >= n {
        pages := pages - {vmid};
      } else {
        pages := pages[vmid := n - s];
      }
      return true;
    }
  }

  // ---- conservation ----------------------------------------------------------------------

  /** The file holds the sum of the ledger. */
  ghost predicate Conserved(r: Reserve) {
    r.file == Sum(r.ledger)
  }

  /** A reservation keeps it so, and brings it about when it is written. */
  lemma AddedConserves(r: Reserve, vmid: nat, size: int, written: bool)
    ensures Conserved(Added(r, vmid, size, written)) <==> Conserved(r) || (size > 0 && written)
  {
    if size > 0 && written {
      SumWith(r.ledger, vmid, Held(r.ledger, vmid) + size);
    }
  }

  /** A written release makes the file agree with the ledger exactly when it releases all that the machine has: one
      of a part takes everything off the file but leaves the rest in the ledger, and one of more takes off too much. */
  lemma ReleasedConserves(r: Reserve, vmid: nat, size: Option<nat>)
    requires vmid in r.ledger
    ensures Conserved(Released(r, vmid, size, true)) <==> size.None? || size.value == r.ledger[vmid]
  {
    var n := r.ledger[vmid];
    SumWithout(r.ledger, vmid);
    if size.Some? && size.value < n {
      SumWith(r.ledger, vmid, n - size.value);
    }
  }

  datatype Op = Add(vmid: nat, size: int, written: bool) | ReleaseAll(vmid: nat, written: bool)

  ghost function Run(r: Reserve, ops: seq<Op>): Reserve
    decreases ops
  {
    if ops == [] then r
    else Run(match ops[0]
             case Add(vmid, size, written) => Added(r, vmid, size, written)
             case ReleaseAll(vmid, written) => Released(r, vmid, None, written), ops[1..])
  }

  /** Over every sequence of reservations and full releases, with writes that fail anywhere, the file holds the sum
      of the ledger. */
  lemma {:induction false} EveryRunConserves(r: Reserve, ops: seq<Op>)
    requires Conserved(r)
    ensures Conserved(Run(r, ops))
    decreases ops
  {
    if ops != [] {
      match ops[0] {
        case Add(vmid, size, written) =>
          AddedConserves(r, vmid, size, written);
          EveryRunConserves(Added(r, vmid, size, written), ops[1..]);
        case ReleaseAll(vmid, written) =>
          if vmid in r.ledger {
            ReleasedConserves(r, vmid, None);
          }
          EveryRunConserves(Released(r, vmid, None, written), ops[1..]);
      }
    }
  }

  /** What machine `vmid` has reserved since its last written release. */
  function Accumulated(ops: seq<Op>, vmid: nat, held: nat): nat
    decreases ops
  {
    if ops == [] then held
    else Accumulated(ops[1..], vmid,
      match ops[0]
      case Add(v, size, written) => if v == vmid && size > 0 && written then held + size else held
      case ReleaseAll(v, written) => if v == vmid && written then 0 else held)
  }

  lemma {:induction false} LedgerIsAccumulated(r: Reserve, ops: seq<Op>, vmid: nat)
    ensures Held(Run(r, ops).ledger, vmid) == Accumulated(ops, vmid, Held(r.ledger, vmid))
    decreases ops
  {
    if ops != [] {
      match ops[0] {
        case Add(v, size, written) => LedgerIsAccumulated(Added(r, v, size, written), ops[1..], vmid);
        case ReleaseAll(v, written) => LedgerIsAccumulated(Released(r, v, None, written), ops[1..], vmid);
      }
    }
  }

  /** A written release takes off the file exactly what its machine has accumulated over the whole run. */
  lemma ReleaseTakesTheAccumulated(r: Reserve, ops: seq<Op>, vmid: nat)
    requires Conserved(r)
    ensures var s := Run(r, ops);
            vmid in s.ledger ==>
              Released(s, vmid, None, true).file == s.file - Accumulated(ops, vmid, Held(r.ledger, vmid))
  {
    EveryRunConserves(r, ops);
    LedgerIsAccumulated(r, ops, vmid);
  }

  /** Shutting the manager down writes 0 and leaves the ledger alone, which is right exactly when every machine that
      had reserved something has released it. */
  lemma ShutdownConserves(r: Reserve)
    ensures Conserved(r.(file := 0)) <==> forall v :: v in r.ledger ==> r.ledger[v] == 0
  {
    SumIsZero(r.ledger);
  }

  lemma {:induction false} SumIsZero(m: Ledger)
    ensures Sum(m) == 0 <==> forall v :: v in m ==> m[v] == 0
    decreases |m|
  {
    if m != map[] {
      var k :| k in m;
      var rest := m - {k};
      SumWithout(m, k);
      SumIsZero(rest);
      assert forall v :: v in m <==> v == k || v in rest;
      assert forall v :: v in rest ==> rest[v] == m[v];
      if forall v :: v in rest ==> rest[v] == 0 {
        assert m[k] == 0 ==> forall v :: v in m ==> m[v] == 0;
      }
    }
  }

  /** For instance, of two pages one is released, or the manager shuts down while they are reserved: the file then holds
      0, and the ledger does not. */
  lemma PagesAreLost(v: nat)
    ensures var r := Reserve(map[v := 2], 2);
            && Conserved(r)
            && Released(r, v, Some(1), true) == Reserve(map[v := 1], 0)
            && !Conserved(Released(r, v, Some(1), true))
            && !Conserved(r.(file := 0))
  {
    SumWith(map[], v, 2);
    SumWith(map[], v, 1);
    var m: Ledger := map[];
    assert m[v := 2] == map[v := 2] && m[v := 1] == map[v := 1] && map[v := 2][v := 1] == map[v := 1];
  }
}
