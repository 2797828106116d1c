/** Capability declarations and their registry (backend/src/capabilities/contract.py, registry.py). */
module Capabilities {
  import opened Wrappers

  datatype CapabilityKind = Knowledge | Execution

  datatype SkillDeclaration = SkillDeclaration(skillId: string, skillVersion: int)

  datatype Definition = Definition(
    id: string, version: int, kind: CapabilityKind, slots: seq<string>, comparisonDelivery: bool,
    toolBindings: seq<string>, skill: Option<SkillDeclaration>, ruleVersion: Option<string>)

  type Key = (string, int)

  datatype Resolution =
    | UnknownId
    | UnknownVersion
    | InactiveVersion(actual: CapabilityKind)
    | KindMismatch(actual: CapabilityKind)
    | Resolved(definition: Definition)
  {
    /** `resolution.actual_kind or fallback` */
    function ActualKind(fallback: CapabilityKind): CapabilityKind {
      if InactiveVersion? || KindMismatch? then actual else fallback
    }
  }

  /** Every definition sits under its own id and version. */
  ghost predicate WellKeyed(definitions: map<Key, Definition>) {
    forall k | k in definitions :: definitions[k].id == k.0 && definitions[k].version == k.1
  }

  predicate Known(definitions: map<Key, Definition>, id: string) {
    exists k | k in definitions :: k.0 == id
  }

  /** `version` is the highest registered version of `id`. */
  predicate Active(definitions: map<Key, Definition>, id: string, version: int) {
    (id, version) in definitions && forall k | k in definitions && k.0 == id :: k.1 <= version
  }

  function Resolve(definitions: map<Key, Definition>, id: string, version: int, expected: Option<CapabilityKind>): Resolution {
    if !Known(definitions, id) then UnknownId
    else if (id, version) !in definitions then UnknownVersion
    else
      var definition := definitions[(id, version)];
      if !Active(definitions, id, version) then InactiveVersion(definition.kind)
      else if expected.Some? && definition.kind != expected.value then KindMismatch(definition.kind)
      else Resolved(definition)
  }

  class CapabilityRegistry {
    var definitions: map<Key, Definition>

    ghost predicate Valid()
      reads this
    {
      WellKeyed(definitions)
    }

    constructor ()
      ensures Valid() && definitions == map[]
    {
      definitions := map[];
    }

    /** A second registration of one version fails and changes nothing. */
    method Register(definition: Definition) returns (ok: bool)
      requires Valid()
      modifies this
      ensures Valid()
      ensures ok <==> (definition.id, definition.version) !in old(definitions)
      ensures definitions == if ok then old(definitions)[(definition.id, definition.version) := definition]
                             else old(definitions)
    {
      var key := (definition.id, definition.version);
      if key in definitions { return false; }
      definitions := definitions[key := definition];
      return true;
    }

    /** The highest version of `id`, found by one pass over the keys. */
    method ActiveVersion(id: string) returns (version: Option<int>)
      ensures version.None? <==> !Known(definitions, id)
      ensures version.Some? ==> Active(definitions, id, version.value)
    {
      version := None;
      var rest := definitions.Keys;
      while rest != {}
        invariant rest <= definitions.Keys
        invariant version.None? <==> forall k | k in definitions && k !in rest :: k.0 != id
        invariant version.Some? ==> (id, version.value) in definitions
        invariant version.Some? ==> forall k | k in definitions && k !in rest && k.0 == id :: k.1 <= version.value
        decreases rest
      {
        var key :| key in rest;
        rest := rest - {key};
        if key.0 == id && (version.None? || key.1 > version.value) {
          version := Some(key.1);
        }
      }
    }

    /** The active definition of every id, folded as `catalog` does before it sorts. */
    method Catalog() returns (active: map<string, Definition>)
      requires Valid()
      ensures forall id :: id in active <==> Known(definitions, id)
      ensures forall id | id in active ::
                active[id].id == id && Active(definitions, id, active[id].version)
                && active[id] == definitions[(id, active[id].version)]
    {
      active := map[];
      var rest := definitions.Keys;
      while rest != {}
        invariant rest <= definitions.Keys
        invariant forall id :: id in active <==> exists k | k in definitions && k !in rest :: k.0 == id
        invariant forall id | id in active ::
                    && active[id].id == id && (id, active[id].version) in definitions
                    && active[id] == definitions[(id, active[id].version)]
                    && forall k | k in definitions && k !in rest && k.0 == id :: k.1 <= active[id].version
        decreases rest
      {
        var key :| key in rest;
        rest := rest - {key};
        if key.0 !in active || key.1 > active[key.0].version {
          active := active[key.0 := definitions[key]];
        }
      }
    }
  }

  /** Each answer of `resolve` says what is wrong, and a definition comes out exactly for the active version of the expected kind. */
  lemma ResolveTellsWhy(definitions: map<Key, Definition>, id: string, version: int, expected: Option<CapabilityKind>)
    requires WellKeyed(definitions)
    ensures match Resolve(definitions, id, version, expected)
            case UnknownId => forall v :: (id, v) !in definitions
            case UnknownVersion => (id, version) !in definitions && exists v :: (id, v) in definitions
            case InactiveVersion(actual) =>
              && (id, version) in definitions && definitions[(id, version)].kind == actual
              && exists v :: v > version && (id, v) in definitions
            case KindMismatch(actual) =>
              && Active(definitions, id, version) && definitions[(id, version)].kind == actual
              && expected.Some? && actual != expected.value
            case Resolved(d) =>
              && Active(definitions, id, version) && d.id == id && d.version == version
              && (expected.Some? ==> d.kind == expected.value)
  {
    if Known(definitions, id) {
      var k :| k in definitions && k.0 == id;
      assert (id, k.1) in definitions;
      if (id, version) in definitions && !Active(definitions, id, version) {
        var higher :| higher in definitions && higher.0 == id && higher.1 > version;
        assert (id, higher.1) in definitions;
      }
    }
  }

  /** An id has one active version: two versions cannot both be highest. */
  lemma ActiveIsUnique(definitions: map<Key, Definition>, id: string, v: int, w: int)
    requires Active(definitions, id, v) && Active(definitions, id, w)
    ensures v == w
  {
    assert (id, v).1 <= w && (id, w).1 <= v;
  }

  /** Registering a higher version takes the previous one out of use, and touches no other id. */
  lemma NewVersionSupersedes(definitions: map<Key, Definition>, d: Definition, id: string, v: int)
    requires Active(definitions, id, v) && (d.id, d.version) !in definitions
    ensures var next := definitions[(d.id, d.version) := d];
            Active(next, id, v) <==> !(d.id == id && d.version > v)
  {
    var next := definitions[(d.id, d.version) := d];
    assert (d.id, d.version) in next;
    if !(d.id == id && d.version > v) {
      forall k | k in next && k.0 == id
        ensures k.1 <= v
      {
        assert k in definitions || k == (d.id, d.version);
      }
    } else {
      assert (d.id, d.version).1 > v;
    }
  }
}
