/** The property container: a table of values keyed by property identity,
    with an index by serialisation name and a set of property wrappers that
    are allowed to change their value after the container is built. */
module Properties {
  import opened Wrappers

  /** A property. Objects are compared by identity, as the source's
      `IdentityHashMap` does; only the serialisation name is modelled. */
  class Property {
    const name: string

    constructor (name: string)
      ensures this.name == name
    {
      this.name := name;
    }
  }

  /** A wrapper marking a property as settable after `build`. */
  class MutableProperty {
    const property: Property

    constructor (property: Property)
      ensures this.property == property
    {
      this.property := property;
    }
  }

  /** The name index agrees with the key set: every indexed property is a key
      and sits under its own name, and every key is indexed. */
  ghost predicate NameIndexed<V>(values: map<Property, Option<V>>, byName: map<string, Property>)
  {
    && byName.Values == values.Keys
    && forall n :: n in byName ==> byName[n].name == n
  }

  /** Distinct wrappers never wrap the same property. */
  ghost predicate OneWrapperEach(wrappers: set<MutableProperty>)
  {
    forall m1, m2 :: m1 in wrappers && m2 in wrappers && m1.property == m2.property ==> m1 == m2
  }

  /** Every key is found under its own name. */
  lemma KeyIsIndexed<V>(values: map<Property, Option<V>>, byName: map<string, Property>, p: Property)
    requires NameIndexed(values, byName)
    requires p in values
    ensures p.name in byName && byName[p.name] == p
  {
    assert p in byName.Values;
    var n :| n in byName && byName[n] == p;
  }

  /** No two keys share a name. */
  lemma NamesUnique<V>(values: map<Property, Option<V>>, byName: map<string, Property>, p: Property, q: Property)
    requires NameIndexed(values, byName)
    requires p in values && q in values && p.name == q.name
    ensures p == q
  {
    KeyIsIndexed(values, byName, p);
    KeyIsIndexed(values, byName, q);
  }

  /** The name index has exactly as many entries as the table has keys. */
  lemma {:induction false} IndexSize<V>(values: map<Property, Option<V>>, byName: map<string, Property>)
    requires NameIndexed(values, byName)
    ensures |byName| == |values|
    decreases |byName|
  {
    if byName != map[] {
      var n :| n in byName;
      var p := byName[n];
      assert p in byName.Values;
      var values', byName' := values - {p}, byName - {n};
      assert byName'.Values == values'.Keys by {
        forall q | q in byName'.Values
          ensures q in values'
        {
          var m :| m in byName' && byName'[m] == q;
          assert q in byName.Values;
        }
        forall q | q in values'
          ensures q in byName'.Values
        {
          KeyIsIndexed(values, byName, q);
          assert byName'[q.name] == q;
        }
      }
      IndexSize(values', byName');
    } else {
      assert values.Keys == {};
    }
  }

  /** A wrapper registered in the builder's property-to-wrapper index is the
      one found under its own property. */
  lemma WrapperIsIndexed(index: map<Property, MutableProperty>, m: MutableProperty)
    requires forall p :: p in index ==> index[p].property == p
    requires m in index.Values
    ensures m.property in index && index[m.property] == m
  {
    var p :| p in index && index[p] == m;
  }

  /** The wrappers of an index that maps each property to its own wrapper
      wrap pairwise distinct properties. */
  lemma IndexedWrappersUnique(index: map<Property, MutableProperty>)
    requires forall p :: p in index ==> index[p].property == p
    ensures OneWrapperEach(index.Values)
  {
    forall m1, m2 | m1 in index.Values && m2 in index.Values && m1.property == m2.property
      ensures m1 == m2
    {
      WrapperIsIndexed(index, m1);
      WrapperIsIndexed(index, m2);
    }
  }

  /** The table after reading serialised data: a key whose name appears in the
      data takes the decoded value, every other key keeps its value, and no key
      is added for a name the table does not know. */
  function Deserialized<V, E>(values: map<Property, Option<V>>, nbt: map<string, E>,
                              decode: (Property, E) -> Option<V>): (r: map<Property, Option<V>>)
    ensures r.Keys == values.Keys
    ensures forall p :: p in values && p.name !in nbt ==> r[p] == values[p]
    ensures forall p :: p in values && p.name in nbt ==> r[p] == decode(p, nbt[p.name])
  {
    map p | p in values :: if p.name in nbt then decode(p, nbt[p.name]) else values[p]
  }

  /** Data naming only unknown properties leaves the table as it was. */
  lemma DeserializeUnknownIsNoOp<V, E>(values: map<Property, Option<V>>, nbt: map<string, E>,
                                        decode: (Property, E) -> Option<V>)
    requires forall p :: p in values ==> p.name !in nbt
    ensures Deserialized(values, nbt, decode) == values
  {
    var r := Deserialized(values, nbt, decode);
    assert forall p :: p in r ==> r[p] == values[p];
  }

  /** Reading the same data twice leaves the table as reading it once. */
  lemma DeserializeIdempotent<V, E>(values: map<Property, Option<V>>, nbt: map<string, E>,
                                     decode: (Property, E) -> Option<V>)
    ensures Deserialized(Deserialized(values, nbt, decode), nbt, decode) == Deserialized(values, nbt, decode)
  {
    var once := Deserialized(values, nbt, decode);
    var twice := Deserialized(once, nbt, decode);
    assert forall p :: p in twice ==> twice[p] == once[p];
  }

  /** Collects the properties of a container, rejecting a second property
      with a name already in use and demoting a mutable property that is put
      again as a plain one. */
  class Builder<V> {
    var properties: map<Property, Option<V>>
    var propertyByName: map<string, Property>
    /** Lets a later plain put find, and drop, the wrapper of its property. */
    var propertyToMutableIndex: map<Property, MutableProperty>
    var mutableProperties: set<MutableProperty>

    ghost predicate Valid()
      reads this
    {
      && NameIndexed(properties, propertyByName)
      && (forall p :: p in propertyToMutableIndex ==>
            p in properties && propertyToMutableIndex[p].property == p)
      && mutableProperties == propertyToMutableIndex.Values
    }

    constructor ()
      ensures Valid()
      ensures properties == map[] && propertyByName == map[]
      ensures propertyToMutableIndex == map[] && mutableProperties == {}
    {
      properties := map[];
      propertyByName := map[];
      propertyToMutableIndex := map[];
      mutableProperties := {};
    }

    /** Puts `prop` with `value` as an immutable property. Fails, changing
        nothing, when another property already holds that name. */
    method PutProperty(prop: Property, value: Option<V>) returns (r: Outcome)
      requires Valid()
      modifies this
      ensures Valid()
      ensures r.Fail? <==> prop.name in old(propertyByName) && old(propertyByName)[prop.name] != prop
      ensures r.Fail? ==> r.error == IllegalArgument && unchanged(this)
      ensures r.Pass? ==>
        && properties == old(properties)[prop := value]
        && propertyByName == old(propertyByName)[prop.name := prop]
        && propertyToMutableIndex == old(propertyToMutableIndex) - {prop}
        && mutableProperties == old(mutableProperties) -
             (if prop in old(propertyToMutableIndex) then {old(propertyToMutableIndex)[prop]} else {})
      ensures r.Pass? ==> forall m :: m in mutableProperties ==> m.property != prop
    {
      if prop.name in propertyByName && propertyByName[prop.name] != prop {
        return Fail(IllegalArgument);
      }
      if prop.name in propertyByName {
        assert prop in propertyByName.Values;
      }
      properties := properties[prop := value];
      propertyByName := propertyByName[prop.name := prop];
      if prop in propertyToMutableIndex {
        var mutable := propertyToMutableIndex[prop];
        mutableProperties := mutableProperties - {mutable};
        IndexedWrappersUnique(propertyToMutableIndex);
      }
      propertyToMutableIndex := propertyToMutableIndex - {prop};
      assert propertyByName.Values == properties.Keys by {
        forall q | q in propertyByName.Values
          ensures q in properties
        {
          var n :| n in propertyByName && propertyByName[n] == q;
          if n != prop.name {
            assert q in old(propertyByName).Values;
          }
        }
        forall q | q in properties
          ensures q in propertyByName.Values
        {
          if q != prop {
            KeyIsIndexed(old(properties), old(propertyByName), q);
            assert propertyByName[q.name] == q;
          }
          assert propertyByName[q.name] in propertyByName.Values;
        }
      }
      forall m | m in mutableProperties
        ensures m.property != prop
      {
        WrapperIsIndexed(old(propertyToMutableIndex), m);
      }
      assert mutableProperties == propertyToMutableIndex.Values by {
        forall m | m in mutableProperties
          ensures m in propertyToMutableIndex.Values
        {
          WrapperIsIndexed(old(propertyToMutableIndex), m);
          assert propertyToMutableIndex[m.property] in propertyToMutableIndex.Values;
        }
      }
      r := Pass;
    }

    /** Puts the property underneath `prop` with `value` and registers `prop`
        as its only mutable wrapper. Fails, changing nothing, when another
        property already holds that name. */
    method PutMutableProperty(prop: MutableProperty, value: Option<V>) returns (r: Outcome)
      requires Valid()
      modifies this
      ensures Valid()
      ensures r.Fail? <==>
        prop.property.name in old(propertyByName) && old(propertyByName)[prop.property.name] != prop.property
      ensures r.Fail? ==> r.error == IllegalArgument && unchanged(this)
      ensures r.Pass? ==>
        && properties == old(properties)[prop.property := value]
        && propertyByName == old(propertyByName)[prop.property.name := prop.property]
        && propertyToMutableIndex == old(propertyToMutableIndex)[prop.property := prop]
      ensures r.Pass? ==> prop in mutableProperties
      ensures r.Pass? ==> forall m :: m in mutableProperties && m.property == prop.property ==> m == prop
      ensures r.Pass? ==> forall m :: m in mutableProperties && m != prop ==> m in old(mutableProperties)
    {
      r := PutProperty(prop.property, value);
      if r.Pass? {
        ghost var index := propertyToMutableIndex;
        mutableProperties := mutableProperties + {prop};
        propertyToMutableIndex := propertyToMutableIndex[prop.property := prop];
        assert mutableProperties == propertyToMutableIndex.Values by {
          forall m | m in propertyToMutableIndex.Values
            ensures m in mutableProperties
          {
            var q :| q in propertyToMutableIndex && propertyToMutableIndex[q] == m;
            if q != prop.property {
              assert index[q] in index.Values;
            }
          }
          forall m | m in mutableProperties
            ensures m in propertyToMutableIndex.Values
          {
            if m != prop {
              WrapperIsIndexed(index, m);
              assert propertyToMutableIndex[m.property] in propertyToMutableIndex.Values;
            }
            assert propertyToMutableIndex[prop.property] in propertyToMutableIndex.Values;
          }
        }
      }
    }

    /** Hands the collected tables over to a new container. */
    method Build() returns (c: PropertyContainer<V>)
      requires Valid()
      ensures fresh(c) && c.Valid()
      ensures c.properties == properties
      ensures c.propertyByName == propertyByName
      ensures c.mutableProperties == mutableProperties
    {
      IndexedWrappersUnique(propertyToMutableIndex);
      c := new PropertyContainer(properties, propertyByName, mutableProperties);
    }
  }

  /** A built container. Its name index and its mutable wrappers never change,
      so its key set is fixed: only the values of existing keys are updated. */
  class PropertyContainer<V> {
    var properties: map<Property, Option<V>>
    const propertyByName: map<string, Property>
    const mutableProperties: set<MutableProperty>

    ghost predicate Valid()
      reads this
    {
      && NameIndexed(properties, propertyByName)
      && (forall m :: m in mutableProperties ==> m.property in properties)
      && OneWrapperEach(mutableProperties)
    }

    constructor (properties: map<Property, Option<V>>, propertyByName: map<string, Property>,
                 mutableProperties: set<MutableProperty>)
      requires NameIndexed(properties, propertyByName)
      requires forall m :: m in mutableProperties ==> m.property in properties
      requires OneWrapperEach(mutableProperties)
      ensures Valid()
      ensures this.properties == properties
      ensures this.propertyByName == propertyByName
      ensures this.mutableProperties == mutableProperties
    {
      this.properties := properties;
      this.propertyByName := propertyByName;
      this.mutableProperties := mutableProperties;
    }

    /** The stored value of `property`; empty both when the property is not
        in the container and when its stored value is null. */
    function GetProperty(property: Property): (r: Option<V>)
      reads this
      ensures r.Some? <==> property in properties && properties[property].Some?
      ensures r.Some? ==> properties[property] == r
    {
      if property in properties then properties[property] else None
    }

    /** The properties of the container: exactly those reachable through
        their names. */
    function ListProperties(): (r: set<Property>)
      requires Valid()
      reads this
      ensures forall p :: p in r ==> p.name in propertyByName && propertyByName[p.name] == p
      ensures forall n :: n in propertyByName ==> propertyByName[n] in r
    {
      var keys := properties.Keys;
      assert forall p :: p in keys ==> p.name in propertyByName && propertyByName[p.name] == p by {
        forall p | p in keys
          ensures p.name in propertyByName && propertyByName[p.name] == p
        {
          KeyIsIndexed(properties, propertyByName, p);
        }
      }
      keys
    }

    /** Writes `value` when `property` is a registered mutable wrapper, and
        reports whether it did; the key set never changes. */
    method SetProperty(property: MutableProperty, value: Option<V>) returns (ok: bool)
      requires Valid()
      modifies this
      ensures Valid()
      ensures ok <==> property in mutableProperties
      ensures ok ==> properties == old(properties)[property.property := value]
      ensures ok ==> GetProperty(property.property) == value
      ensures !ok ==> unchanged(this)
      ensures properties.Keys == old(properties.Keys)
    {
      if property in mutableProperties {
        properties := properties[property.property := value];
        return true;
      }
      return false;
    }

    /** One entry per property, under the property's name, holding its
        encoded value. */
    method SerializeNBT<E>(encode: (Property, Option<V>) -> E) returns (nbt: map<string, E>)
      requires Valid()
      ensures nbt.Keys == propertyByName.Keys
      ensures forall p :: p in properties ==> p.name in nbt && nbt[p.name] == encode(p, properties[p])
      ensures |nbt| == |properties|
    {
      nbt := map[];
      var todo := properties.Keys;
      ghost var done: set<Property> := {};
      while todo != {}
        invariant done + todo == properties.Keys && done !! todo
        invariant forall p :: p in done ==> p.name in nbt && nbt[p.name] == encode(p, properties[p])
        invariant forall n :: n in nbt ==> n in propertyByName && propertyByName[n] !in todo
        decreases todo
      {
        var p :| p in todo;
        KeyIsIndexed(properties, propertyByName, p);
        assert p.name !in nbt;
        nbt := nbt[p.name := encode(p, properties[p])];
        todo := todo - {p};
        done := done + {p};
      }
      assert done == properties.Keys;
      assert nbt.Keys == propertyByName.Keys by {
        forall n | n in propertyByName
          ensures n in nbt
        {
          assert propertyByName[n] in propertyByName.Values;
        }
      }
      IndexSize(properties, propertyByName);
      assert |nbt.Keys| == |propertyByName.Keys|;
    }

    /** Overwrites the value of every property whose name appears in `nbt`;
        names the container does not know are skipped. */
    method DeserializeNBT<E>(nbt: map<string, E>, decode: (Property, E) -> Option<V>)
      requires Valid()
      modifies this
      ensures Valid()
      ensures properties == Deserialized(old(properties), nbt, decode)
    {
      var todo := nbt.Keys;
      while todo != {}
        invariant Valid()
        invariant todo <= nbt.Keys
        invariant properties == Deserialized(old(properties), nbt - todo, decode)
        decreases todo
      {
        var key :| key in todo;
        ghost var before := properties;
        if key in propertyByName {
          var prop := propertyByName[key];
          assert prop in propertyByName.Values;
          properties := properties[prop := decode(prop, nbt[key])];
        }
        // An unknown name is only logged by the source.
        todo := todo - {key};
        assert properties == Deserialized(old(properties), nbt - todo, decode) by {
          forall p | p in properties
            ensures properties[p] == Deserialized(old(properties), nbt - todo, decode)[p]
          {
            KeyIsIndexed(before, propertyByName, p);
          }
        }
      }
      assert nbt - todo == nbt;
    }
  }

  /** Putting a property as mutable and then again as plain demotes it: after
      `build` the old wrapper can no longer set it, and it keeps the plain
      value. */
  method DemotionScenario<V>(name: string, first: V, second: V, later: V) returns (ok: bool, got: Option<V>)
    ensures !ok
    ensures got == Some(second)
  {
    var prop := new Property(name);
    var wrapper := new MutableProperty(prop);
    var builder := new Builder<V>();
    var r1 := builder.PutMutableProperty(wrapper, Some(first));
    var r2 := builder.PutProperty(prop, Some(second));
    var container := builder.Build();
    ok := container.SetProperty(wrapper, Some(later));
    got := container.GetProperty(prop);
  }
}
