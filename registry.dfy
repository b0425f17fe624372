/** The viewer's mesh registry: the two parallel dicts `wireframes` (name to mesh) and
    `wireframe_colours` (name to display colour), filled by addWireframe and addWireframeGroup. */
module MeshRegistry {
  import opened Geometry
  import opened Dicts
  import opened Mesh

  /** The colour addWireframe records for every mesh it adds. */
  const DefaultColour := Vec3(250.0, 250.0, 250.0)

  datatype Registry = Registry(wireframes: Dict<Wireframe>, colours: Dict<Vec3>)

  /** Both dicts are well-formed and have the same keys, in the same insertion order. */
  ghost predicate Valid(reg: Registry) {
    reg.wireframes.Valid() && reg.colours.Valid() && reg.wireframes.keys == reg.colours.keys
  }

  /** Name n is absent from both registries, or has the same mesh and colour in both. */
  predicate SameEntry(a: Registry, b: Registry, n: string) {
    (n in a.wireframes.values <==> n in b.wireframes.values) &&
    (n in a.colours.values <==> n in b.colours.values) &&
    (n in a.wireframes.values && n in b.wireframes.values ==> a.wireframes.values[n] == b.wireframes.values[n]) &&
    (n in a.colours.values && n in b.colours.values ==> a.colours.values[n] == b.colours.values[n])
  }

  /** addWireframe(name, w): records w and the default colour under name, overwriting an earlier
      entry of that name; every other name keeps its entries. A new name is drawn last, and an
      overwritten one keeps its place in the drawing order. */
  function AddWireframe(reg: Registry, name: string, w: Wireframe): (r: Registry)
    ensures Valid(reg) ==> Valid(r)
    ensures name in r.wireframes.values && r.wireframes.values[name] == w
    ensures name in r.colours.values && r.colours.values[name] == DefaultColour
    ensures forall n :: n != name ==> SameEntry(r, reg, n)
    ensures name in reg.wireframes.values ==> r.wireframes.keys == reg.wireframes.keys
    ensures name !in reg.wireframes.values ==> r.wireframes.keys == reg.wireframes.keys + [name]
  {
    Registry(Insert(reg.wireframes, name, w), Insert(reg.colours, name, DefaultColour))
  }

  /** The state after the first |names| passes of addWireframeGroup's loop, which visits the
      group's names in the order given. */
  function AddAll(reg: Registry, g: Dict<Wireframe>, names: seq<string>): Registry
    requires forall n :: n in names ==> n in g.values
  {
    if names == [] then reg
    else
      var last := names[|names| - 1];
      AddWireframe(AddAll(reg, g, names[..|names| - 1]), last, g.values[last])
  }

  /** One more pass of the loop adds the next name of the group. */
  lemma AddAllStep(reg: Registry, g: Dict<Wireframe>, i: nat)
    requires g.Valid() && i < |g.keys|
    ensures AddAll(reg, g, g.keys[..i + 1]) == AddWireframe(AddAll(reg, g, g.keys[..i]), g.keys[i], g.values[g.keys[i]])
  {
    assert g.keys[..i + 1][..i] == g.keys[..i];
  }

  /** addWireframeGroup(g): adds every mesh of g, in g's own key order. */
  function AddGroup(reg: Registry, g: Dict<Wireframe>): Registry
    requires g.Valid()
  {
    AddAll(reg, g, g.keys)
  }

  /** The loop's passes keep the two dicts well-formed and parallel. */
  lemma {:induction false} AddAllKeepsValid(reg: Registry, g: Dict<Wireframe>, names: seq<string>)
    requires forall n :: n in names ==> n in g.values
    requires Valid(reg)
    ensures Valid(AddAll(reg, g, names))
    decreases |names|
  {
    if names != [] {
      AddAllKeepsValid(reg, g, names[..|names| - 1]);
    }
  }

  /** The loop's passes amount to a dict merge: the names visited take g's meshes and the default
      colour, overwriting earlier entries, and every other entry is kept. */
  lemma {:induction false} AddAllMerges(reg: Registry, g: Dict<Wireframe>, names: seq<string>)
    requires forall n :: n in names ==> n in g.values
    ensures forall n :: n in names ==>
              n in AddAll(reg, g, names).wireframes.values && AddAll(reg, g, names).wireframes.values[n] == g.values[n] &&
              n in AddAll(reg, g, names).colours.values && AddAll(reg, g, names).colours.values[n] == DefaultColour
    ensures forall n :: n !in names ==> SameEntry(AddAll(reg, g, names), reg, n)
    decreases |names|
  {
    if names != [] {
      var init, last := names[..|names| - 1], names[|names| - 1];
      assert forall n :: n in names <==> n in init || n == last;
      AddAllMerges(reg, g, init);
      var before := AddAll(reg, g, init);
      var after := AddAll(reg, g, names);
      assert after == AddWireframe(before, last, g.values[last]);
      forall n | n !in names
        ensures SameEntry(after, reg, n)
      {
        assert SameEntry(after, before, n) && SameEntry(before, reg, n);
      }
    }
  }

  /** The names of `names` that are not in `known`, in their order in `names`. */
  function NewNames(names: seq<string>, known: seq<string>): seq<string> {
    if names == [] then []
    else
      var last := names[|names| - 1];
      NewNames(names[..|names| - 1], known) + (if last in known then [] else [last])
  }

  /** The loop's passes keep the old names in their places and append each name not seen before,
      in the order visited. */
  lemma {:induction false} AddAllKeys(reg: Registry, g: Dict<Wireframe>, names: seq<string>)
    requires forall n :: n in names ==> n in g.values
    requires forall i, j :: 0 <= i < j < |names| ==> names[i] != names[j]
    requires Valid(reg)
    ensures AddAll(reg, g, names).wireframes.keys == reg.wireframes.keys + NewNames(names, reg.wireframes.keys)
    decreases |names|
  {
    if names != [] {
      var init, last := names[..|names| - 1], names[|names| - 1];
      AddAllKeys(reg, g, init);
      AddAllMerges(reg, g, init);
      assert last !in init by {
        forall i | 0 <= i < |init|
          ensures init[i] != last
        {
          assert init[i] == names[i];
        }
      }
      assert SameEntry(AddAll(reg, g, init), reg, last);
    }
  }

  /** After addWireframeGroup(g) every name of g maps to g's mesh and the default colour, names
      outside g keep their entries, and the two dicts still have the same keys: the old keys in
      their old order, then g's new names in g's order. */
  lemma AddGroupMerges(reg: Registry, g: Dict<Wireframe>)
    requires g.Valid()
    ensures Valid(reg) ==> Valid(AddGroup(reg, g))
    ensures AddGroup(reg, g).wireframes.values == reg.wireframes.values + g.values
    ensures forall n :: n in g.values ==> n in AddGroup(reg, g).colours.values && AddGroup(reg, g).colours.values[n] == DefaultColour
    ensures forall n :: n !in g.values ==> SameEntry(AddGroup(reg, g), reg, n)
    ensures Valid(reg) ==> AddGroup(reg, g).wireframes.keys == reg.wireframes.keys + NewNames(g.keys, reg.wireframes.keys)
  {
    if Valid(reg) {
      AddAllKeepsValid(reg, g, g.keys);
      AddAllKeys(reg, g, g.keys);
    }
    AddAllMerges(reg, g, g.keys);
    var r := AddGroup(reg, g);
    forall n | n in r.wireframes.values
      ensures n in reg.wireframes.values + g.values && r.wireframes.values[n] == (reg.wireframes.values + g.values)[n]
    {
      if n !in g.values {
        assert SameEntry(r, reg, n);
      }
    }
    forall n | n in reg.wireframes.values + g.values
      ensures n in r.wireframes.values
    {
      if n !in g.values {
        assert SameEntry(r, reg, n);
      }
    }
  }
}
