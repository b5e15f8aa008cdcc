/** The nesting depth of a JSON value, measured with an explicit stack. */
module JsonNesting {

  const MAXIMUM_NESTING := 64

  /** A JSON value: a number, a boolean or null by its literal, a string, a list, or an object by its keys
      and their values in order. */
  datatype Tree =
    | Leaf(literal: string)
    | Text(text: string)
    | List(children: seq<Tree>)
    | Object(keys: seq<string>, children: seq<Tree>)

  predicate IsContainer(t: Tree) { t.List? || t.Object? }

  function Max(a: nat, b: nat): nat { if a < b then b else a }

  function Min(a: nat, b: nat): nat { if a < b then a else b }

  /** How deep containers are nested in a value; a scalar has depth 0. */
  function Depth(t: Tree): nat {
    if IsContainer(t) then 1 + Deepest(t.children) else 0
  }

  function Deepest(ts: seq<Tree>): nat
    decreases ts, 0
  {
    if ts == [] then 0 else Max(Deepest(ts[..|ts| - 1]), Depth(ts[|ts| - 1]))
  }

  // ----- the work list -----

  function Size(t: Tree): nat {
    if IsContainer(t) then 1 + SizeAll(t.children) else 1
  }

  function SizeAll(ts: seq<Tree>): nat
    decreases ts, 0
  {
    if ts == [] then 0 else SizeAll(ts[..|ts| - 1]) + Size(ts[|ts| - 1])
  }

  type Pending = seq<(Tree, nat)>

  function Work(pending: Pending): nat {
    if pending == [] then 0 else Work(pending[..|pending| - 1]) + Size(pending[|pending| - 1].0)
  }

  /** The depth the entries still to be visited will show. */
  function Ahead(pending: Pending): nat {
    if pending == [] then 0
    else Max(Ahead(pending[..|pending| - 1]), Reach(pending[|pending| - 1].0, pending[|pending| - 1].1))
  }

  /** The level of the deepest container of `t`, whose own level is `level`. */
  function Reach(t: Tree, level: nat): nat {
    if IsContainer(t) then Max(level, level - 1 + Depth(t)) else 0
  }

  function Leveled(ts: seq<Tree>, level: nat): (r: Pending)
    ensures forall i :: 0 <= i < |r| ==> r[i].1 == level
  {
    seq(|ts|, i requires 0 <= i < |ts| => (ts[i], level))
  }

  lemma {:induction false} ExtendWork(pending: Pending, ts: seq<Tree>, level: nat)
    requires level > 0
    ensures Work(pending + Leveled(ts, level)) == Work(pending) + SizeAll(ts)
    ensures Ahead(pending + Leveled(ts, level)) ==
            Max(Ahead(pending), if Deepest(ts) == 0 then 0 else level - 1 + Deepest(ts))
    decreases |ts|
  {
    var all := pending + Leveled(ts, level);
    if ts == [] {
      assert all == pending;
    } else {
      var before := ts[..|ts| - 1];
      assert all[..|all| - 1] == pending + Leveled(before, level);
      ExtendWork(pending, before, level);
    }
  }

  lemma Popped(pending: Pending)
    requires pending != []
    ensures var rest, (current, level) := pending[..|pending| - 1], pending[|pending| - 1];
      && Work(rest) < Work(pending)
      && Ahead(pending) ==
           Max(Ahead(rest), if IsContainer(current) then Max(level, level + Deepest(current.children)) else 0)
      && (IsContainer(current) ==> Work(rest) + SizeAll(current.children) < Work(pending))
  {
  }

  lemma OneEntry(value: Tree)
    ensures Ahead([(value, 1)]) == Depth(value) && Ahead([]) == 0
  {
    assert [(value, 1)][..0] == [];
  }

  /** `_json_nesting`: exact up to one more than the bound it is compared with, in spite of the early
      return. */
  method Nesting(value: Tree) returns (maximum: nat)
    ensures maximum == Min(Depth(value), MAXIMUM_NESTING + 1)
  {
    hide Depth, Deepest, SizeAll, Work, Ahead, Leveled;
    maximum := 0;
    var pending: Pending := [(value, 1)];
    OneEntry(value);
    while pending != []
      invariant maximum <= MAXIMUM_NESTING
      invariant forall i :: 0 <= i < |pending| ==> 1 <= pending[i].1 <= MAXIMUM_NESTING + 1
      invariant Max(maximum, Ahead(pending)) == Depth(value)
      decreases Work(pending)
    {
      Popped(pending);
      var (current, depth) := pending[|pending| - 1];
      pending := pending[..|pending| - 1];
      if IsContainer(current) {
        maximum := Max(maximum, depth);
        if maximum > MAXIMUM_NESTING { return; }
        ExtendWork(pending, current.children, depth + 1);
        pending := pending + Leveled(current.children, depth + 1);
      }
    }
  }
}
