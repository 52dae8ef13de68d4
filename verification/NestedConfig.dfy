/**
  Nested configuration overrides (vllm/config/model.py, `_update_nested` and `_apply_dict_overrides`).
 */
module NestedConfig {
  import opened Prelude

  type Key = string

  /**
    A configuration value. A dict has items; an object with a `__dict__` has attributes, and may be a
    `PretrainedConfig`; anything else, `None` included, is a leaf.
   */
  datatype Val =
    | Leaf(n: int)
    | Dict(entries: map<Key, Val>)
    | Obj(pretrained: bool, entries: map<Key, Val>)
  {
    predicate Container() { !Leaf? }
  }

  /** Key k is not set but descended into. */
  predicate Merges(t: Val, u: Val, k: Key)
    requires t.Container() && u.Container() && k in u.entries
  {
    u.entries[k].Dict? && k in t.entries && t.entries[k].Container()
  }

  /** What overrides u make of t. */
  function Update(t: Val, u: Val): (r: Val)
    requires t.Container() && u.Container()
    ensures r.Container() && (r.Dict? <==> t.Dict?) && r.entries.Keys == t.entries.Keys + u.entries.Keys
    decreases u
  {
    t.(entries := map k | k in t.entries.Keys + u.entries.Keys ::
      if k !in u.entries then t.entries[k]
      else if Merges(t, u, k) then Update(t.entries[k], u.entries[k])
      else u.entries[k])
  }

  // ------------------------------------------------------------------
  // Looking up a path
  // ------------------------------------------------------------------

  function Lookup(v: Val, path: seq<Key>): Option<Val>
    decreases |path|
  {
    if path == [] then Some(v)
    else if v.Container() && path[0] in v.entries then Lookup(v.entries[path[0]], path[1..])
    else None
  }

  predicate ContainerAt(v: Val, path: seq<Key>) { Lookup(v, path).Some? && Lookup(v, path).value.Container() }

  /** Every proper prefix of path at which u has something is a dict there, and a container in t. */
  ghost predicate MergedDownTo(t: Val, u: Val, path: seq<Key>) {
    forall i :: 0 < i < |path| && Lookup(u, path[..i]).Some?
      ==> Lookup(u, path[..i]).value.Dict? && ContainerAt(t, path[..i])
  }

  lemma LookupStep(v: Val, path: seq<Key>, i: nat)
    requires 0 < i <= |path| && v.Container() && path[0] in v.entries
    ensures Lookup(v, path[..i]) == Lookup(v.entries[path[0]], path[1..][..i - 1])
  {
    assert path[..i][1..] == path[1..][..i - 1];
  }

  lemma LookupOne(v: Val, path: seq<Key>)
    requires |path| == 1 && v.Container()
    ensures Lookup(v, path) == if path[0] in v.entries then Some(v.entries[path[0]]) else None
  {
    assert path[1..] == [];
  }

  // Going one key down keeps the condition.
  lemma MergedBelow(t: Val, u: Val, path: seq<Key>)
    requires t.Container() && u.Dict? && |path| > 1
    ensures path[0] in u.entries && Merges(t, u, path[0])
            ==> (MergedDownTo(t, u, path) <==> MergedDownTo(t.entries[path[0]], u.entries[path[0]], path[1..]))
    ensures path[0] in u.entries && !Merges(t, u, path[0]) ==> !MergedDownTo(t, u, path)
    ensures path[0] !in u.entries ==> MergedDownTo(t, u, path)
  {
    var k := path[0];
    if k in u.entries {
      assert path[..1] == [k];
      LookupStep(u, path, 1);
      assert Lookup(u, path[..1]) == Some(u.entries[k]);
      if k in t.entries {
        LookupStep(t, path, 1);
      }
      if Merges(t, u, k) {
        forall i | 0 < i < |path|
          ensures Lookup(u, path[..i]) == Lookup(u.entries[k], path[1..][..i - 1])
          ensures Lookup(t, path[..i]) == Lookup(t.entries[k], path[1..][..i - 1])
        {
          LookupStep(u, path, i);
          LookupStep(t, path, i);
        }
        if MergedDownTo(t.entries[k], u.entries[k], path[1..]) {
          forall i | 0 < i < |path| && Lookup(u, path[..i]).Some?
            ensures Lookup(u, path[..i]).value.Dict? && ContainerAt(t, path[..i])
          {
            assert i == 1 || 0 < i - 1 < |path[1..]|;
          }
        }
        if MergedDownTo(t, u, path) {
          forall i | 0 < i < |path[1..]| && Lookup(u.entries[k], path[1..][..i]).Some?
            ensures Lookup(u.entries[k], path[1..][..i]).value.Dict? && ContainerAt(t.entries[k], path[1..][..i])
          {
            var j := i + 1;
            assert Lookup(u, path[..j]).Some?;
          }
        }
      }
    }
  }

  // What stands at any path after the update. Where the overrides have something else than a dict, that; where
  // they have a dict, the dict merged into the container it meets, or put in place of what it meets; where
  // they have nothing, the original, unless something on the way was replaced.
  lemma {:induction false} PathLookup(t: Val, u: Val, path: seq<Key>)
    requires t.Container() && u.Dict? && path != []
    ensures var merged := MergedDownTo(t, u, path);
            Lookup(Update(t, u), path)
            == match Lookup(u, path)
               case None => if merged then Lookup(t, path) else None
               case Some(v) =>
                 if v.Dict? && merged && ContainerAt(t, path) then Some(Update(Lookup(t, path).value, v)) else Some(v)
    decreases |path|
  {
    var k := path[0];
    var r := Update(t, u);
    if |path| == 1 {
      assert MergedDownTo(t, u, path);
      LookupOne(t, path);
      LookupOne(u, path);
      LookupOne(r, path);
    } else {
      MergedBelow(t, u, path);
      if k in u.entries && Merges(t, u, k) {
        PathLookup(t.entries[k], u.entries[k], path[1..]);
      }
    }
  }

  // Nothing beside the overridden keys changes, at any depth.
  lemma SiblingsKept(t: Val, u: Val, path: seq<Key>, k: Key)
    requires t.Container() && u.Dict?
    requires Lookup(u, path).Some? && Lookup(u, path).value.Dict? && k !in Lookup(u, path).value.entries
    requires path != [] ==> MergedDownTo(t, u, path) && ContainerAt(t, path)
    ensures Lookup(Update(t, u), path + [k]) == Lookup(t, path + [k])
  {
    LookupSnoc(u, path, k);
    assert MergedDownTo(t, u, path + [k]) by {
      forall i | 0 < i < |path + [k]| && Lookup(u, (path + [k])[..i]).Some?
        ensures Lookup(u, (path + [k])[..i]).value.Dict? && ContainerAt(t, (path + [k])[..i])
      {
        assert (path + [k])[..i] == path[..i];
        assert path[..|path|] == path;
      }
    }
    PathLookup(t, u, path + [k]);
  }

  lemma {:induction false} LookupSnoc(v: Val, path: seq<Key>, k: Key)
    ensures Lookup(v, path + [k])
            == if ContainerAt(v, path) && k in Lookup(v, path).value.entries
               then Some(Lookup(v, path).value.entries[k]) else None
    decreases |path|
  {
    if path == [] {
      assert path + [k] == [k];
      assert [k][1..] == [];
    } else {
      assert (path + [k])[1..] == path[1..] + [k];
      if v.Container() && path[0] in v.entries {
        LookupSnoc(v.entries[path[0]], path[1..], k);
      }
    }
  }

  // ------------------------------------------------------------------
  // Applying overrides twice, and one after another
  // ------------------------------------------------------------------

  lemma {:induction false} UpdateOfSelf(u: Val)
    requires u.Dict?
    ensures Update(u, u) == u
    decreases u
  {
    forall k | k in u.entries && u.entries[k].Dict?
      ensures Update(u.entries[k], u.entries[k]) == u.entries[k]
    {
      UpdateOfSelf(u.entries[k]);
    }
    assert Update(u, u).entries == u.entries;
  }

  // Applying the same overrides again changes nothing.
  lemma {:induction false} UpdateIdempotent(t: Val, u: Val)
    requires t.Container() && u.Dict?
    ensures Update(Update(t, u), u) == Update(t, u)
    decreases u
  {
    var once := Update(t, u);
    var twice := Update(once, u);
    forall k | k in once.entries
      ensures twice.entries[k] == once.entries[k]
    {
      if k in u.entries {
        if Merges(t, u, k) {
          UpdateIdempotent(t.entries[k], u.entries[k]);
        } else if u.entries[k].Dict? {
          UpdateOfSelf(u.entries[k]);
        }
      }
    }
    assert twice.entries == once.entries;
  }

  /** No path at which the first overrides have a leaf and the second a dict. */
  ghost predicate NoClash(first: Val, second: Val)
    requires first.Dict? && second.Dict?
    decreases first
  {
    forall k :: k in first.entries && k in second.entries && second.entries[k].Dict?
      ==> first.entries[k].Container() && (first.entries[k].Dict? ==> NoClash(first.entries[k], second.entries[k]))
  }

  /** Overriding twice is overriding once with the combined overrides. */
  ghost predicate Composes(t: Val, first: Val, second: Val)
    requires t.Container() && first.Dict? && second.Dict?
  {
    Update(Update(t, first), second) == Update(t, Update(first, second))
  }

  lemma {:induction false} NoClashComposes(t: Val, first: Val, second: Val)
    requires t.Container() && first.Dict? && second.Dict? && NoClash(first, second)
    ensures Composes(t, first, second)
    decreases first
  {
    var two := Update(Update(t, first), second);
    var one := Update(t, Update(first, second));
    forall k | k in one.entries
      ensures two.entries[k] == one.entries[k]
    {
      KeyComposes(t, first, second, k);
    }
    assert two.entries == one.entries;
  }

  lemma {:induction false} KeyComposes(t: Val, first: Val, second: Val, k: Key)
    requires t.Container() && first.Dict? && second.Dict? && NoClash(first, second)
    requires k in t.entries.Keys + first.entries.Keys + second.entries.Keys
    ensures Update(Update(t, first), second).entries[k] == Update(t, Update(first, second)).entries[k]
    decreases first, 0
  {
    if && k in first.entries && k in second.entries
       && first.entries[k].Dict? && second.entries[k].Dict? && Merges(t, first, k) {
      NoClashComposes(t.entries[k], first.entries[k], second.entries[k]);
    }
  }

  /** A tree on which overrides that clash do not compose. */
  lemma {:induction false} ClashWitness(first: Val, second: Val) returns (t: Val)
    requires first.Dict? && second.Dict? && !NoClash(first, second)
    ensures t.Container() && !Composes(t, first, second)
    decreases first
  {
    var k :| k in first.entries && k in second.entries && second.entries[k].Dict?
             && !(&& first.entries[k].Container()
                  && (first.entries[k].Dict? ==> NoClash(first.entries[k], second.entries[k])));
    if first.entries[k].Dict? {
      var below := ClashWitness(first.entries[k], second.entries[k]);
      t := Dict(map[k := below]);
    } else {
      t := Dict(map[k := Obj(false, map[])]);
    }
    assert Update(Update(t, first), second).entries[k] != Update(t, Update(first, second)).entries[k];
  }

  // Two overrides compose on every tree if and only if they do not clash.
  lemma ComposesIffNoClash(first: Val, second: Val)
    requires first.Dict? && second.Dict?
    ensures NoClash(first, second) <==> forall t: Val :: t.Container() ==> Composes(t, first, second)
  {
    if NoClash(first, second) {
      forall t: Val | t.Container()
        ensures Composes(t, first, second)
      {
        NoClashComposes(t, first, second);
      }
    } else {
      var t := ClashWitness(first, second);
    }
  }

  // ------------------------------------------------------------------
  // Overrides of the top level
  // ------------------------------------------------------------------

  type Overrides = seq<(Key, Val)>

  predicate PretrainedAt(t: Val, k: Key)
    requires t.Container()
  {
    k in t.entries && t.entries[k].Obj? && t.entries[k].pretrained
  }

  /** A nested model configuration takes its override apart, so the override has to be a dict. */
  predicate Rejected(t: Val, k: Key, v: Val)
    requires t.Container()
  {
    PretrainedAt(t, k) && !v.Dict?
  }

  function AppliedEntry(t: Val, k: Key, v: Val): Val
    requires t.Container() && !Rejected(t, k, v)
  {
    if PretrainedAt(t, k) then Update(t.entries[k], v) else v
  }

  /** The overrides in their order, up to the first that raises. */
  function Apply(t: Val, overrides: Overrides): (Val, Result<Unit>)
    requires t.Container()
    decreases |overrides|
  {
    if overrides == [] then (t, Ok(Unit))
    else
      var (k, v) := overrides[0];
      if Rejected(t, k, v) then (t, Raised(AttributeFailed))
      else Apply(WithEntry(t, k, AppliedEntry(t, k, v)), overrides[1..])
  }

  ghost predicate DistinctKeys(overrides: Overrides) {
    forall i, j :: 0 <= i < j < |overrides| ==> overrides[i].0 != overrides[j].0
  }

  /** The first n overrides took effect on t, each on its own, and nothing else did. */
  ghost predicate AppliedUpTo(t: Val, overrides: Overrides, n: nat, r: Val)
    requires t.Container() && n <= |overrides|
  {
    && r.Container()
    && (forall i :: 0 <= i < n ==>
          && !Rejected(t, overrides[i].0, overrides[i].1) && overrides[i].0 in r.entries
          && r.entries[overrides[i].0] == AppliedEntry(t, overrides[i].0, overrides[i].1))
    && (forall k :: (k in r.entries || k in t.entries) && (forall i :: 0 <= i < n ==> overrides[i].0 != k)
          ==> k in r.entries && k in t.entries && r.entries[k] == t.entries[k])
  }

  lemma AppliedOneMore(t: Val, overrides: Overrides, n: nat, r: Val)
    requires t.Container() && overrides != [] && DistinctKeys(overrides) && n < |overrides|
    requires !Rejected(t, overrides[0].0, overrides[0].1)
    requires var (k, v) := overrides[0]; AppliedUpTo(WithEntry(t, k, AppliedEntry(t, k, v)), overrides[1..], n, r)
    ensures AppliedUpTo(t, overrides, n + 1, r)
  {
    var rest := overrides[1..];
    assert forall j :: 0 <= j < n ==> rest[j] == overrides[j + 1];
    forall i | 0 <= i < n + 1
      ensures !Rejected(t, overrides[i].0, overrides[i].1) && overrides[i].0 in r.entries
      ensures r.entries[overrides[i].0] == AppliedEntry(t, overrides[i].0, overrides[i].1)
    {
      if i > 0 {
        assert overrides[i] == rest[i - 1];
      }
    }
  }

  // Top-level overrides: only nested model configurations are merged; dict-valued parameters and everything
  // else are replaced whole. The call raises exactly when some override of a nested configuration is not a
  // dict, and then the overrides before the first such one have taken effect.
  lemma {:induction false} ApplyOutcome(t: Val, overrides: Overrides) returns (n: nat)
    requires t.Container() && DistinctKeys(overrides)
    ensures n <= |overrides| && AppliedUpTo(t, overrides, n, Apply(t, overrides).0)
    ensures n < |overrides| ==> Rejected(t, overrides[n].0, overrides[n].1)
    ensures Apply(t, overrides).1 == if n == |overrides| then Ok(Unit) else Raised(AttributeFailed)
    decreases |overrides|
  {
    n := 0;
    if overrides != [] {
      var (k, v) := overrides[0];
      if !Rejected(t, k, v) {
        var t' := WithEntry(t, k, AppliedEntry(t, k, v));
        var m := ApplyOutcome(t', overrides[1..]);
        n := m + 1;
        AppliedOneMore(t, overrides, m, Apply(t, overrides).0);
        assert n < |overrides| ==> overrides[n] == overrides[1..][m];
      }
    }
  }

  // ------------------------------------------------------------------
  // The objects, updated in place
  // ------------------------------------------------------------------

  datatype Kind = IsDict | IsObject | IsPretrained

  datatype Item = Plain(n: int) | Nested(node: ConfigNode)

  /** The overrides without the keys that are still to do. */
  function Without(u: Val, todo: set<Key>): Val
    requires u.Container()
  {
    u.(entries := map k | k in u.entries && k !in todo :: u.entries[k])
  }

  function WithEntry(t: Val, k: Key, v: Val): Val
    requires t.Container()
  {
    t.(entries := t.entries[k := v])
  }

  /** What the update does for one key. */
  function UpdatedEntry(t: Val, k: Key, v: Val): Val
    requires t.Container()
  {
    if v.Dict? && k in t.entries && t.entries[k].Container() then Update(t.entries[k], v) else v
  }

  lemma EntryAfter(t: Val, u: Val, todo: set<Key>, j: Key)
    requires t.Container() && u.Container() && j in t.entries.Keys + Without(u, todo).entries.Keys
    ensures Update(t, Without(u, todo)).entries[j]
            == if j in u.entries && j !in todo then UpdatedEntry(t, j, u.entries[j]) else t.entries[j]
  {
  }

  lemma OneMoreKeyAt(t: Val, u: Val, todo: set<Key>, k: Key, j: Key)
    requires t.Container() && u.Container() && k in u.entries && k in todo
    requires j in t.entries.Keys + Without(u, todo - {k}).entries.Keys
    ensures var before := Update(t, Without(u, todo));
            Update(t, Without(u, todo - {k})).entries[j]
            == if j == k then UpdatedEntry(before, k, u.entries[k]) else before.entries[j]
  {
    EntryAfter(t, u, todo - {k}, j);
    if j != k || k in t.entries {
      EntryAfter(t, u, todo, j);
    }
  }

  lemma IsWithEntry(before: Val, after: Val, k: Key, v: Val)
    requires before.Container() && after.Container() && KindOf(before) == KindOf(after)
    requires after.entries.Keys == before.entries.Keys + {k}
    requires forall j :: j in after.entries ==> after.entries[j] == if j == k then v else before.entries[j]
    ensures after == WithEntry(before, k, v)
  {
    assert after.entries == before.entries[k := v];
  }

  lemma OneMoreKeyThroughout(t: Val, u: Val, todo: set<Key>, k: Key)
    requires t.Container() && u.Container() && k in u.entries && k in todo
    ensures var before := Update(t, Without(u, todo));
            var after := Update(t, Without(u, todo - {k}));
            && after.entries.Keys == before.entries.Keys + {k}
            && forall j :: j in after.entries ==>
                 after.entries[j] == if j == k then UpdatedEntry(before, k, u.entries[k]) else before.entries[j]
  {
    var before := Update(t, Without(u, todo));
    var after := Update(t, Without(u, todo - {k}));
    assert after.entries.Keys == before.entries.Keys + {k};
    forall j | j in after.entries
      ensures after.entries[j] == if j == k then UpdatedEntry(before, k, u.entries[k]) else before.entries[j]
    {
      OneMoreKeyAt(t, u, todo, k, j);
    }
  }

  // Keys can be handled one after another, in any order.
  lemma OneMoreKey(t: Val, u: Val, todo: set<Key>, k: Key)
    requires t.Container() && u.Container() && k in u.entries && k in todo
    ensures var before := Update(t, Without(u, todo));
            Update(t, Without(u, todo - {k})) == WithEntry(before, k, UpdatedEntry(before, k, u.entries[k]))
  {
    var before := Update(t, Without(u, todo));
    OneMoreKeyThroughout(t, u, todo, k);
    IsWithEntry(before, Update(t, Without(u, todo - {k})), k, UpdatedEntry(before, k, u.entries[k]));
  }

  lemma WithoutAllOrNone(t: Val, u: Val)
    requires t.Container() && u.Container()
    ensures Update(t, Without(u, u.entries.Keys)) == t
    ensures Without(u, {}) == u
  {
    assert Update(t, Without(u, u.entries.Keys)).entries == t.entries;
    assert Without(u, {}).entries == u.entries;
  }

  function KindOf(v: Val): Kind
    requires v.Container()
  {
    if v.Dict? then IsDict else if v.pretrained then IsPretrained else IsObject
  }

  // After k's part has come in, the others are still apart from what is there.
  lemma StillApart<T>(parts: map<Key, set<T>>, todo: set<Key>, k: Key, before: set<T>, after: set<T>)
    requires todo <= parts.Keys && k in todo && after <= before + parts[k]
    requires forall j :: j in todo ==> parts[j] !! before
    requires forall i, j :: i in parts && j in parts && i != j ==> parts[i] !! parts[j]
    ensures forall j :: j in todo - {k} ==> parts[j] !! after
  {
  }

  /** What a tree of nodes is at one time: its contents, its nodes, and those below each key. */
  datatype Tree = Tree(contents: Val, nodes: set<ConfigNode>, parts: map<Key, set<ConfigNode>>) {
    ghost predicate Apart() {
      && (forall k :: k in parts ==> parts[k] <= nodes)
      && (forall i, j :: i in parts && j in parts && i != j ==> parts[i] !! parts[j])
    }
  }

  class ConfigNode {
    const kind: Kind
    var entries: map<Key, Item>
    ghost var Contents: Val
    ghost var Repr: set<ConfigNode>

    ghost function ValueOf(item: Item): Val
      reads if item.Nested? then {item.node} else {}
    {
      if item.Nested? then item.node.Contents else Leaf(item.n)
    }

    ghost predicate Holds(item: Item, v: Val)
      reads if item.Nested? then {item.node} else {}
    {
      v == ValueOf(item)
    }

    ghost predicate Owns(c: ConfigNode)
      reads this, Repr
      decreases Repr, 0
    {
      this in Repr && c in Repr && c in c.Repr && c.Repr <= Repr && this !in c.Repr && c.Valid()
    }

    ghost predicate Apart()
      reads this, set k | k in entries && entries[k].Nested? :: entries[k].node
    {
      forall j, k :: j in entries && k in entries && j != k && entries[j].Nested? && entries[k].Nested?
        ==> entries[j].node.Repr !! entries[k].node.Repr
    }

    /** The nodes below this one form a tree, and the contents are what stands in them. */
    ghost predicate Valid()
      reads this, Repr
      decreases Repr, 1
    {
      && this in Repr
      && Contents.Container() && KindOf(Contents) == kind && Contents.entries.Keys == entries.Keys
      && (forall k :: k in entries && entries[k].Nested? ==> Owns(entries[k].node))
      && Apart()
      && (forall k :: k in entries ==> Holds(entries[k], Contents.entries[k]))
    }

    constructor (v: Val)
      requires v.Container()
      ensures Valid() && fresh(Repr) && Contents == v.(entries := map[])
    {
      kind := KindOf(v);
      entries := map[];
      Contents := v.(entries := map[]);
      Repr := {this};
    }

    /** The nodes that come with an item. */
    ghost function NodesOf(item: Item): set<ConfigNode>
      reads if item.Nested? then {item.node} else {}
    {
      if item.Nested? then item.node.Repr else {}
    }

    /** The nodes at each key. */
    ghost function Parts(): map<Key, set<ConfigNode>>
      reads this, set k | k in entries && entries[k].Nested? :: entries[k].node
    {
      map k | k in entries :: NodesOf(entries[k])
    }

    ghost predicate Owned(k: Key)
      requires k in entries
      reads this, Repr
      reads if entries[k].Nested? then {entries[k].node} else {}
    {
      entries[k].Nested? ==> Owns(entries[k].node)
    }

    // They are apart from each other and from this node.
    lemma PartsApart()
      requires Valid()
      ensures forall k :: k in Parts() ==> Parts()[k] <= Repr && this !in Parts()[k]
      ensures forall j, k :: j in Parts() && k in Parts() && j != k ==> Parts()[j] !! Parts()[k]
    {
    }

    /** An item that can be installed: a tree of its own. */
    ghost predicate Installable(item: Item)
      reads this, if item.Nested? then {item.node} + item.node.Repr else {}
    {
      item.Nested? ==> item.node.Valid() && item.node.Repr !! Repr
    }

    /** A dict that meets a container at its key is not installed but merged into it. */
    predicate Descends(k: Key, item: Item)
      reads this
    {
      k in entries && entries[k].Nested? && item.Nested? && item.node.kind == IsDict
    }

    /** `target[key] = value`, or `setattr`: the item itself, not a copy of it. */
    method SetItem(k: Key, item: Item)
      requires Valid() && Installable(item)
      modifies this
      ensures Valid() && Repr == old(Repr) + NodesOf(item)
      ensures entries == old(entries)[k := item]
      ensures Contents == WithEntry(old(Contents), k, old(ValueOf(item)))
    {
      entries := entries[k := item];
      AdoptNodes(k);
      AdoptContents(k);
    }

    /** Valid, except that the entry at k has just come in. */
    ghost predicate ValidBeside(k: Key)
      requires k in entries
      reads this, Repr, if entries[k].Nested? then {entries[k].node} + entries[k].node.Repr else {}
    {
      && this in Repr && Installable(entries[k])
      && Contents.Container() && KindOf(Contents) == kind && Contents.entries.Keys + {k} == entries.Keys
      && (forall j :: j in entries && entries[j].Nested? && j != k ==> Owns(entries[j].node))
      && Apart()
      && (forall j :: j in entries && j != k ==> Holds(entries[j], Contents.entries[j]))
    }

    /** Valid, except for the contents at k. */
    ghost predicate ValidButContents(k: Key)
      requires k in entries
      reads this, Repr
      reads set k | k in entries && entries[k].Nested? :: entries[k].node
    {
      && this in Repr
      && Contents.Container() && KindOf(Contents) == kind && Contents.entries.Keys + {k} == entries.Keys
      && (forall j :: j in entries && entries[j].Nested? ==> Owns(entries[j].node))
      && Apart()
      && (forall j :: j in entries && j != k ==> Holds(entries[j], Contents.entries[j]))
    }

    /** Takes the nodes of the entry at k in, */
    ghost method AdoptNodes(k: Key)
      requires k in entries && ValidBeside(k)
      modifies this`Repr
      ensures ValidButContents(k) && Repr == old(Repr) + NodesOf(entries[k])
    {
      Repr := Repr + NodesOf(entries[k]);
    }

    /** and its contents. */
    ghost method AdoptContents(k: Key)
      requires k in entries && ValidButContents(k)
      modifies this`Contents
      ensures Valid()
      ensures Contents == WithEntry(old(Contents), k, ValueOf(entries[k]))
    {
      Contents := WithEntry(Contents, k, ValueOf(entries[k]));
    }

    /**
      Every item of the overrides, one after another. The overrides themselves do not change, but what is
      installed of them is shared from then on.
     */
    method UpdateNested(updates: ConfigNode)
      requires Valid() && updates.Valid() && updates.Repr !! Repr
      modifies Repr
      ensures Valid() && Repr <= old(Repr) + old(updates.Repr)
      ensures Contents == Update(old(Contents), old(updates.Contents))
      decreases updates.Repr, 2
    {
      ghost var o := Tree(updates.Contents, updates.Repr, updates.Parts());
      WithoutAllOrNone(Contents, o.contents);
      updates.PartsApart();
      PartsApart();
      var todo := updates.entries.Keys;
      while todo != {}
        invariant todo <= updates.entries.Keys && updates.entries == old(updates.entries)
        invariant updates.Is(o) && Underway(o, todo, old(Contents), old(Repr))
        decreases |todo|
      {
        var k :| k in todo;
        UpdateOne(updates, o, todo, k, old(Contents), old(Repr));
        todo := todo - {k};
      }
    }

    /** This node's tree is what the record says. */
    ghost predicate Is(o: Tree)
      reads this, Repr
      reads set k | k in entries && entries[k].Nested? :: entries[k].node
    {
      Valid() && Contents == o.contents && Repr == o.nodes && Parts() == o.parts
    }

    // It stays so as long as none of its nodes is touched.
    twostate lemma StaysApart(o: Tree)
      requires old(Is(o)) && unchanged(o.nodes)
      ensures Is(o) && entries == old(entries)
    {
      assert old(forall k :: k in entries && entries[k].Nested? ==> Owns(entries[k].node));
    }

    /** Only the keys in `todo` are still to do, and what belongs to them is apart. */
    ghost predicate Underway(o: Tree, todo: set<Key>, start: Val, nodes: set<ConfigNode>)
      reads this, Repr
      reads set k | k in entries && entries[k].Nested? :: entries[k].node
    {
      && Valid() && Repr <= nodes + o.nodes
      && todo <= o.parts.Keys && start.Container() && o.contents.Container()
      && Contents == Update(start, Without(o.contents, todo))
      && forall k :: k in todo ==> o.parts[k] !! Repr && Below(k, nodes)
    }

    method UpdateOne(updates: ConfigNode, ghost o: Tree, ghost todo: set<Key>, k: Key, ghost start: Val,
                     ghost nodes: set<ConfigNode>)
      requires updates.Is(o) && updates != this && k in todo && o.Apart()
      requires Underway(o, todo, start, nodes) && o.nodes !! nodes && this in nodes
      modifies this, if k in entries then NodesOf(entries[k]) else {}
      ensures updates.Is(o) && updates.entries == old(updates.entries)
      ensures Underway(o, todo - {k}, start, nodes)
      decreases updates.Repr, 1
    {
      ghost var before := Repr;
      assert NodesOf(updates.entries[k]) == o.parts[k] && Below(k, nodes);
      UpdateFrom(updates, k, nodes);
      updates.StaysApart(o);
      StillApart(o.parts, todo, k, before, Repr);
      OneMoreKey(start, o.contents, todo, k);
    }

    /** The nodes at k are among these. */
    ghost predicate Below(k: Key, nodes: set<ConfigNode>)
      reads this, set k | k in entries && entries[k].Nested? :: entries[k].node
    {
      k in entries ==> NodesOf(entries[k]) <= nodes
    }

    /** The item of the overrides at k; `nodes` is any set that the other keys stay below. */
    method UpdateFrom(updates: ConfigNode, k: Key, ghost nodes: set<ConfigNode>)
      requires Valid() && updates.Valid() && k in updates.entries && NodesOf(updates.entries[k]) !! Repr
      requires updates != this
      modifies this, if k in entries then NodesOf(entries[k]) else {}
      ensures Valid() && Repr <= old(Repr) + old(NodesOf(updates.entries[k]))
      ensures forall j :: j != k && old(Below(j, nodes)) ==> Below(j, nodes)
      ensures Contents == WithEntry(old(Contents), k, UpdatedEntry(old(Contents), k, old(updates.Contents.entries[k])))
      decreases updates.Repr, 0
    {
      assert updates.Owned(k) && updates.Holds(updates.entries[k], updates.Contents.entries[k]);
      UpdateKey(k, updates.entries[k]);
    }

    /** One item: it is merged into the container it meets, or becomes the entry itself. */
    method UpdateKey(k: Key, item: Item)
      requires Valid() && Installable(item)
      modifies this, if Descends(k, item) then entries[k].node.Repr else {}
      ensures Valid() && Repr <= old(Repr) + NodesOf(item)
      ensures entries == if old(Descends(k, item)) then old(entries) else old(entries)[k := item]
      ensures forall j :: j in entries && j != k ==> NodesOf(entries[j]) == old(NodesOf(entries[j]))
      ensures Contents == WithEntry(old(Contents), k, UpdatedEntry(old(Contents), k, old(ValueOf(item))))
      decreases NodesOf(item), 4
    {
      assert k in entries ==> Holds(entries[k], Contents.entries[k]);
      if k in entries && entries[k].Nested? && item.Nested? && item.node.kind == IsDict {
        assert entries[k].node.Valid();
        Descend(k, item.node);
      } else {
        SetItem(k, item);
      }
    }

    /** Valid, except that the node at k may have changed on its own. */
    ghost predicate ValidBut(k: Key)
      requires k in entries && entries[k].Nested?
      reads this, Repr, entries[k].node, entries[k].node.Repr
    {
      && this in Repr && this !in entries[k].node.Repr
      && entries[k].node in Repr && entries[k].node in entries[k].node.Repr && entries[k].node.Valid()
      && Contents.Container() && KindOf(Contents) == kind && Contents.entries.Keys == entries.Keys
      && (forall j :: j in entries && entries[j].Nested? && j != k ==> Owns(entries[j].node))
      && Apart()
      && (forall j :: j in entries && j != k ==> Holds(entries[j], Contents.entries[j]))
    }

    /** Takes the change at k into account: its nodes, */
    ghost method ResettleNodes(k: Key)
      requires k in entries && entries[k].Nested? && ValidBut(k)
      modifies this`Repr
      ensures ValidButContents(k) && Repr == old(Repr) + entries[k].node.Repr
    {
      Repr := Repr + entries[k].node.Repr;
    }

    /** and its contents. */
    ghost method Resettle(k: Key)
      requires k in entries && entries[k].Nested? && ValidBut(k)
      modifies this`Contents, this`Repr
      ensures Valid() && Repr == old(Repr) + entries[k].node.Repr
      ensures Contents == WithEntry(old(Contents), k, entries[k].node.Contents)
    {
      ResettleNodes(k);
      AdoptContents(k);
    }

    /** The recursive case. What happens inside the nested container stays there. */
    method Descend(k: Key, updates: ConfigNode)
      requires Valid() && updates.Valid() && updates.Repr !! Repr && updates.kind == IsDict
      requires k in entries && entries[k].Nested? && Contents.entries[k].Container()
      modifies this`Contents, this`Repr, entries[k].node.Repr
      ensures Valid() && Repr <= old(Repr) + updates.Repr
      ensures Contents == WithEntry(old(Contents), k, Update(old(Contents).entries[k], old(updates.Contents)))
      decreases updates.Repr, 3
    {
      var node := entries[k].node;
      assert Owns(node) && Holds(entries[k], Contents.entries[k]);
      assert forall j ::
        (j in entries && entries[j].Nested? && j != k ==> Owns(entries[j].node) && entries[j].node.Repr !! node.Repr);
      node.UpdateNested(updates);
      Resettle(k);
    }

    /** One top-level override; false when it raises, with nothing changed. */
    method ApplyOverride(k: Key, item: Item, ghost nodes: set<ConfigNode>) returns (ok: bool)
      requires Valid() && Installable(item)
      modifies this, if k in entries && entries[k].Nested? then entries[k].node.Repr else {}
      ensures Valid() && Repr <= old(Repr) + NodesOf(item)
      ensures ok == !Rejected(old(Contents), k, old(ValueOf(item)))
      ensures Contents == if ok then WithEntry(old(Contents), k, AppliedEntry(old(Contents), k, old(ValueOf(item))))
                          else old(Contents)
      ensures forall j :: j != k && old(Below(j, nodes)) ==> Below(j, nodes)
    {
      assert k in entries ==> Holds(entries[k], Contents.entries[k]);
      if k in entries && entries[k].Nested? {
        assert entries[k].node.Valid();
        if entries[k].node.kind == IsPretrained {
          if !item.Nested? || item.node.kind != IsDict {
            return false;
          }
          Descend(k, item.node);
          return true;
        }
      }
      SetItem(k, item);
      return true;
    }

    /**
      `_apply_dict_overrides` on this node. The overrides are the items of a dict, so their keys are distinct;
      `values` is what they hold.
     */
    method ApplyDictOverrides(overrides: seq<(Key, Item)>, ghost values: Overrides) returns (r: Result<Unit>)
      requires Valid() && DistinctKeys(values) && |values| == |overrides|
      requires forall i :: 0 <= i < |overrides| ==>
                 values[i] == (overrides[i].0, ValueOf(overrides[i].1)) && Installable(overrides[i].1)
      requires forall i, j :: 0 <= i < j < |overrides| ==> NodesOf(overrides[i].1) !! NodesOf(overrides[j].1)
      modifies Repr
      ensures Valid()
      ensures (Contents, r) == Apply(old(Contents), values)
    {
      PartsApart();
      ghost var parts := seq(|overrides|, i requires 0 <= i < |overrides| => old(NodesOf(overrides[i].1)));
      for i := 0 to |overrides|
        invariant Valid()
        invariant forall j :: i <= j < |overrides| ==> parts[j] !! Repr
        invariant forall j :: i <= j < |overrides| ==> Below(values[j].0, old(Repr))
        invariant Apply(old(Contents), values) == Apply(Contents, values[i..])
      {
        var (k, item) := overrides[i];
        assert values[i..][0] == values[i] && values[i..][1..] == values[i + 1..];
        assert NodesOf(item) == parts[i];
        var ok := ApplyOverride(k, item, old(Repr));
        if !ok {
          return Raised(AttributeFailed);
        }
      }
      return Ok(Unit);
    }
  }
}
