/** The extent name provider the model visitor consults: a table from query
    sources to extent aliases. Sources can be linked so that they share one
    alias, an alias can be blanked, and fresh aliases are numbered
    `Extent1`, `Extent2`, ... The provider's own source is not part of this
    model; the operations below are the ones the visitor calls. */
module ExtentNames {
  import opened Common
  import opened QueryModel

  /** A value snapshot of the provider. `parent` maps a linked source to the
      representative of its class (representatives are never keys), `names`
      holds the alias of each representative that has one, `counter` the
      number of aliases minted, `prefix` the extent prefix the expression
      renderer applies. */
  datatype NameTable = NameTable(
    parent: map<SourceId, SourceId>,
    names: map<SourceId, string>,
    counter: nat,
    prefix: Option<string>)

  /** Representatives are never linked to anything else. */
  predicate Flat(t: NameTable)
  {
    forall x :: x in t.parent ==> t.parent[x] !in t.parent && t.parent[x] != x
  }

  function Root(t: NameTable, s: SourceId): SourceId
  {
    if s in t.parent then t.parent[s] else s
  }

  /** The alias a source currently resolves to, if it has one. */
  function NameOf(t: NameTable, s: SourceId): Option<string>
  {
    if Root(t, s) in t.names then Some(t.names[Root(t, s)]) else None
  }

  /** Two sources resolve to the same alias entry. */
  predicate Linked(t: NameTable, a: SourceId, b: SourceId)
  {
    Root(t, a) == Root(t, b)
  }

  /** The alias minted for the n-th fresh name. */
  function MintedName(n: nat): (r: string)
    ensures |r| > 0 && r[0] == '`'
  {
    "`Extent" + NatText(n) + "`"
  }

  /** LinkExtents(primary, secondary): the secondary's whole class joins the
      primary's; the merged class keeps the primary's alias if it has one,
      otherwise the secondary's. */
  function LinkTable(t: NameTable, primary: SourceId, secondary: SourceId): (r: NameTable)
    requires Flat(t)
    ensures Flat(r)
    ensures r.counter == t.counter && r.prefix == t.prefix
  {
    var ra := Root(t, primary);
    var rb := Root(t, secondary);
    if ra == rb then t
    else
      var parent := (map x | x in t.parent :: if t.parent[x] == rb then ra else t.parent[x])[rb := ra];
      var names := if ra !in t.names && rb in t.names then t.names[ra := t.names[rb]] else t.names;
      NameTable(parent, names, t.counter, t.prefix)
  }

  /** After a link the two sources share an alias, every earlier link still
      holds, and the primary keeps its alias when it had one. */
  lemma LinkJoins(t: NameTable, primary: SourceId, secondary: SourceId)
    requires Flat(t)
    ensures Linked(LinkTable(t, primary, secondary), primary, secondary)
    ensures NameOf(t, primary).Some? ==> NameOf(LinkTable(t, primary, secondary), secondary) == NameOf(t, primary)
    ensures NameOf(t, primary).None? ==> NameOf(LinkTable(t, primary, secondary), primary) == NameOf(t, secondary)
    ensures forall x, y :: Linked(t, x, y) ==> Linked(LinkTable(t, primary, secondary), x, y)
  {
    var r := LinkTable(t, primary, secondary);
    var ra := Root(t, primary);
    var rb := Root(t, secondary);
    if ra != rb {
      assert ra !in r.parent;
      assert Root(r, primary) == ra;
      assert Root(r, secondary) == ra;
      forall x | true
        ensures Root(r, x) == (if Root(t, x) == rb then ra else Root(t, x))
      {
      }
    }
  }

  /** A source outside both classes keeps its alias across a link. */
  lemma LinkKeepsOthers(t: NameTable, primary: SourceId, secondary: SourceId, other: SourceId)
    requires Flat(t)
    requires !Linked(t, other, primary) && !Linked(t, other, secondary)
    ensures NameOf(LinkTable(t, primary, secondary), other) == NameOf(t, other)
    ensures Root(LinkTable(t, primary, secondary), other) == Root(t, other)
  {
  }

  /** GetExtentName on a value: the existing alias, or a freshly minted one
      recorded for the source's class. */
  function ResolveTable(t: NameTable, s: SourceId): (r: (NameTable, string))
    requires Flat(t)
    ensures Flat(r.0) && r.0.parent == t.parent && r.0.prefix == t.prefix
    ensures NameOf(r.0, s) == Some(r.1)
    ensures NameOf(t, s).Some? ==> r.1 == NameOf(t, s).value && r.0 == t
    ensures NameOf(t, s).None? ==> r.1 == MintedName(t.counter + 1) && r.0.counter == t.counter + 1
    ensures forall x :: !Linked(t, x, s) ==> NameOf(r.0, x) == NameOf(t, x)
  {
    var root := Root(t, s);
    if root in t.names then (t, t.names[root])
    else
      var name := MintedName(t.counter + 1);
      (t.(names := t.names[root := name], counter := t.counter + 1), name)
  }

  /** Resolving a source twice yields the same alias and mints nothing new. */
  lemma {:induction false} ResolveIdempotent(t: NameTable, s: SourceId)
    requires Flat(t)
    ensures ResolveTable(ResolveTable(t, s).0, s) == ResolveTable(t, s)
  {
    var r1 := ResolveTable(t, s);
    assert NameOf(r1.0, s) == Some(r1.1);
  }

  /** GetUnlinkedExtentName on a value: a fresh alias recorded for no source. */
  function UnlinkedTable(t: NameTable): (r: (NameTable, string))
    ensures r.1 == MintedName(t.counter + 1)
    ensures r.0 == t.(counter := t.counter + 1)
    ensures forall x :: NameOf(r.0, x) == NameOf(t, x)
  {
    (t.(counter := t.counter + 1), MintedName(t.counter + 1))
  }

  /** SetBlankExtentName on a value: the source's class resolves to the
      empty alias; every other class keeps its alias. */
  function BlankTable(t: NameTable, s: SourceId): (r: NameTable)
    requires Flat(t)
    ensures Flat(r) && r.parent == t.parent && r.counter == t.counter && r.prefix == t.prefix
    ensures NameOf(r, s) == Some("")
    ensures forall x :: !Linked(t, x, s) ==> NameOf(r, x) == NameOf(t, x)
  {
    t.(names := t.names[Root(t, s) := ""])
  }

  /** The provider object the generation context holds. */
  class ExtentNameProvider {
    var parent: map<SourceId, SourceId>
    var names: map<SourceId, string>
    var counter: nat
    var prefix: Option<string>

    function Table(): NameTable
      reads this
    {
      NameTable(parent, names, counter, prefix)
    }

    ghost predicate Valid()
      reads this
    {
      Flat(Table())
    }

    constructor ()
      ensures Valid() && Table() == NameTable(map[], map[], 0, None)
    {
      parent, names, counter, prefix := map[], map[], 0, None;
    }

    method LinkExtents(primary: SourceId, secondary: SourceId)
      requires Valid()
      modifies this
      ensures Valid()
      ensures Table() == LinkTable(old(Table()), primary, secondary)
    {
      var t := LinkTable(Table(), primary, secondary);
      parent, names := t.parent, t.names;
    }

    method GetExtentName(s: SourceId) returns (name: string)
      requires Valid()
      modifies this
      ensures Valid()
      ensures (Table(), name) == ResolveTable(old(Table()), s)
    {
      var root := if s in parent then parent[s] else s;
      if root in names {
        name := names[root];
      } else {
        counter := counter + 1;
        name := MintedName(counter);
        names := names[root := name];
      }
    }

    /** GetUnlinkedExtentName: a fresh alias tied to no source. */
    method GetUnlinkedExtentName() returns (name: string)
      requires Valid()
      modifies this
      ensures Valid()
      ensures (Table(), name) == UnlinkedTable(old(Table()))
    {
      counter := counter + 1;
      name := MintedName(counter);
    }

    /** SetBlankExtentName: the source's class now resolves to the empty alias. */
    method SetBlankExtentName(s: SourceId)
      requires Valid()
      modifies this
      ensures Valid()
      ensures Table() == BlankTable(old(Table()), s)
    {
      var root := if s in parent then parent[s] else s;
      names := names[root := ""];
    }

    method SetPrefix(p: Option<string>)
      requires Valid()
      modifies this
      ensures Valid()
      ensures Table() == old(Table()).(prefix := p)
    {
      prefix := p;
    }
  }
}
