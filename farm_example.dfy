/** A worked scenario in the style of the repository's tests: a `Farm` whose
    `assets` field has union type `Asset`, resolved by the presence of `brand`
    or `description`. The schema below is a small stand-in written for this
    model, not the test suite's schema document. */
module FarmExample {
  import opened Values
  import opened Schemas
  import opened Failures
  import opened Annotator
  import opened AnnotatorFacts

  function AssetResolver(abstractType: string, v: Value): Resolution {
    if abstractType == "Asset" && v.Obj? then
      var brand := Get(v.props, "brand");
      var description := Get(v.props, "description");
      if brand.Some? && Truthy(brand.value) then TypeName("Equipment")
      else if description.Some? && Truthy(description.value) then TypeName("Building")
      else Unresolved
    else Unresolved
  }

  function FarmSchema(): Schema {
    Schema([
      ObjectType("Farm", [Field("assets", "Asset"), Field("equipment", "Equipment")], true),
      UnionType("Asset", true),
      ObjectType("Building", [Field("id", "Int"), Field("description", "String")], true),
      ObjectType("Equipment", [Field("id", "Int"), Field("brand", "String")], true),
      ScalarType("Int"),
      ScalarType("String")
    ], AssetResolver)
  }

  lemma FarmSchemaIsValid()
    ensures Valid(FarmSchema())
  {
    var s := FarmSchema();
    var names := ["Farm", "Asset", "Building", "Equipment", "Int", "String"];
    assert forall i :: 0 <= i < |s.types| ==> s.types[i].name == names[i];
    assert forall i, j :: 0 <= i < j < |names| ==> names[i] != names[j] by {
      assert names[0][0] == 'F' && names[1][0] == 'A' && names[2][0] == 'B';
      assert names[3][0] == 'E' && names[4][0] == 'I' && names[5][0] == 'S';
    }
    forall t, f | t in s.types && t.ObjectType? && f in t.fields
      ensures GetType(s, f.typeName).Some?
    {
      assert f.typeName in names[1..];
      var k :| 1 <= k < |names| && names[k] == f.typeName;
      assert s.types[k] in s.types;
    }
  }

  lemma FarmLookups()
    ensures GetType(FarmSchema(), "Farm") == Some(FarmSchema().types[0])
    ensures GetType(FarmSchema(), "Asset") == Some(FarmSchema().types[1])
    ensures GetType(FarmSchema(), "Building") == Some(FarmSchema().types[2])
    ensures GetType(FarmSchema(), "Equipment") == Some(FarmSchema().types[3])
    ensures FieldOf(FarmSchema().types[0].fields, "assets") == Some(Field("assets", "Asset"))
    ensures FieldOf(FarmSchema().types[0].fields, "equipment") == Some(Field("equipment", "Equipment"))
  {
    var t := FarmSchema().types;
    assert Find(t, "Farm") == Some(t[0]);
    assert Find(t[1..], "Asset") == Some(t[1]);
    assert Find(t[2..], "Building") == Some(t[2]);
    assert Find(t[3..], "Equipment") == Some(t[3]);
  }

  lemma EquipmentFieldResolves()
    ensures Valid(FarmSchema())
    ensures Resolve(FarmSchema(), [("id", Num(2.0))], Some("Farm"), Some("equipment")) == Ok(Stamp("Equipment"))
  {
    var s := FarmSchema();
    FarmSchemaIsValid();
    FarmLookups();
    var props := [("id", Num(2.0))];
    assert Get(props, TypenameKey) == None;
    assert Given(Some("Farm")) && Given(Some("equipment"));
    ContextRules(s, props, Some("Farm"), Some("equipment"));
  }

  /** Context alone types an untagged object: `{id}` in `Farm.equipment` is an
      `Equipment`. */
  lemma ContextTypesObject()
    ensures Valid(FarmSchema())
    ensures AddTypenames(FarmSchema(), Obj([("id", Num(2.0))]), Some("Farm"), Some("equipment"))
      == Ok(Obj([("__typename", Str("Equipment")), ("id", Num(2.0))]))
  {
    var s := FarmSchema();
    var props := [("id", Num(2.0))];
    EquipmentFieldResolves();
    var init := [(TypenameKey, Str("Equipment"))];
    StampEntry(s, props, Some("Farm"), Some("equipment"), "Equipment");
    assert AnnotateChild(s, Num(2.0), "Equipment", "id") == Ok(Num(2.0));
    var acc := Put(init, "id", Num(2.0));
    assert acc == [(TypenameKey, Str("Equipment")), ("id", Num(2.0))];
    assert StampProps(s, props, 0, init, "Equipment") == StampProps(s, props, 1, acc, "Equipment");
  }

  function House(): Value {
    Obj([("id", Num(1.0)), ("description", Str("The house"))])
  }

  function TaggedHouse(): Value {
    Obj([("__typename", Str("Building")), ("id", Num(1.0)), ("description", Str("The house"))])
  }

  lemma HouseSitsInAsset()
    ensures Valid(FarmSchema())
    ensures Resolve(FarmSchema(), House().props, Some("Farm"), Some("assets"))
      == ClassifyType(FarmSchema(), House(), UnionType("Asset", true))
  {
    var s := FarmSchema();
    var props := House().props;
    FarmSchemaIsValid();
    FarmLookups();
    assert Get(props, TypenameKey) == None;
    assert Given(Some("Farm")) && Given(Some("assets"));
    ContextRules(s, props, Some("Farm"), Some("assets"));
  }

  lemma HouseAnswer()
    ensures FarmSchema().resolveType("Asset", House()) == TypeName("Building")
  {
    var props := House().props;
    assert Get(props, "brand") == None;
    assert Get(props, "description") == Some(Str("The house"));
  }

  lemma HouseIsBuilding()
    ensures ClassifyType(FarmSchema(), House(), UnionType("Asset", true)) == Ok(Stamp("Building"))
  {
    HouseAnswer();
    assert ResolvedByName(FarmSchema(), "Asset", "Building") == Ok(Stamp("Building")) by {
      FarmLookups();
    }
  }

  /** The union's resolver types an untagged house as a `Building`. */
  lemma HouseResolves()
    ensures Valid(FarmSchema())
    ensures Resolve(FarmSchema(), House().props, Some("Farm"), Some("assets")) == Ok(Stamp("Building"))
  {
    HouseSitsInAsset();
    HouseIsBuilding();
  }

  lemma HouseEntry()
    ensures Valid(FarmSchema())
    ensures AddTypenames(FarmSchema(), House(), Some("Farm"), Some("assets"))
      == StampProps(FarmSchema(), House().props, 0, [(TypenameKey, Str("Building"))], "Building")
  {
    HouseResolves();
    StampEntry(FarmSchema(), House().props, Some("Farm"), Some("assets"), "Building");
  }

  lemma HouseIdStep()
    ensures Valid(FarmSchema())
    ensures StampProps(FarmSchema(), House().props, 0, [(TypenameKey, Str("Building"))], "Building")
      == StampProps(FarmSchema(), House().props, 1, [(TypenameKey, Str("Building")), ("id", Num(1.0))], "Building")
  {
    FarmSchemaIsValid();
    var s := FarmSchema();
    var init := [(TypenameKey, Str("Building"))];
    assert AnnotateChild(s, Num(1.0), "Building", "id") == Ok(Num(1.0));
    assert Put(init, "id", Num(1.0)) == [(TypenameKey, Str("Building")), ("id", Num(1.0))];
  }

  lemma HouseDescriptionStep()
    ensures Valid(FarmSchema())
    ensures StampProps(FarmSchema(), House().props, 1, [(TypenameKey, Str("Building")), ("id", Num(1.0))], "Building")
      == StampProps(FarmSchema(), House().props, 2, TaggedHouse().props, "Building")
  {
    FarmSchemaIsValid();
    var s := FarmSchema();
    var acc1 := [(TypenameKey, Str("Building")), ("id", Num(1.0))];
    assert AnnotateChild(s, Str("The house"), "Building", "description") == Ok(Str("The house"));
    assert Put([("id", Num(1.0))], "description", Str("The house")) ==
      [("id", Num(1.0)), ("description", Str("The house"))];
    assert acc1[1..] == [("id", Num(1.0))];
    assert Put(acc1, "description", Str("The house")) == TaggedHouse().props;
  }

  /** Through `Farm.assets`, of union type `Asset`, an untagged house is
      tagged `Building` by the union's resolver. */
  lemma HouseInAssetsIsBuilding()
    ensures Valid(FarmSchema())
    ensures AddTypenames(FarmSchema(), House(), Some("Farm"), Some("assets")) == Ok(TaggedHouse())
  {
    HouseEntry();
    HouseIdStep();
    HouseDescriptionStep();
    assert StampProps(FarmSchema(), House().props, 2, TaggedHouse().props, "Building") == Ok(TaggedHouse());
  }

  lemma FarmEntry()
    ensures Valid(FarmSchema())
    ensures AddTypenames(FarmSchema(), Obj([("__typename", Str("Farm")), ("assets", Arr([House()]))]), None, None)
      == StampProps(FarmSchema(), [("__typename", Str("Farm")), ("assets", Arr([House()]))], 0, [(TypenameKey, Str("Farm"))], "Farm")
  {
    var s := FarmSchema();
    FarmSchemaIsValid();
    FarmLookups();
    var props := [("__typename", Str("Farm")), ("assets", Arr([House()]))];
    assert Get(props, TypenameKey) == Some(Str("Farm"));
    TagPicksItsType(s, props, None, None, "Farm");
    StampEntry(s, props, None, None, "Farm");
  }

  lemma FarmTagStep()
    ensures Valid(FarmSchema())
    ensures StampProps(FarmSchema(), [("__typename", Str("Farm")), ("assets", Arr([House()]))], 0, [(TypenameKey, Str("Farm"))], "Farm")
      == StampProps(FarmSchema(), [("__typename", Str("Farm")), ("assets", Arr([House()]))], 1, [(TypenameKey, Str("Farm"))], "Farm")
  {
    FarmSchemaIsValid();
    var init := [(TypenameKey, Str("Farm"))];
    assert AnnotateChild(FarmSchema(), Str("Farm"), "Farm", TypenameKey) == Ok(Str("Farm"));
    assert Put(init, TypenameKey, Str("Farm")) == init;
  }

  lemma FarmAssetsStep()
    ensures Valid(FarmSchema())
    ensures StampProps(FarmSchema(), [("__typename", Str("Farm")), ("assets", Arr([House()]))], 1, [(TypenameKey, Str("Farm"))], "Farm")
      == StampProps(FarmSchema(), [("__typename", Str("Farm")), ("assets", Arr([House()]))], 2,
                    [(TypenameKey, Str("Farm")), ("assets", Arr([TaggedHouse()]))], "Farm")
  {
    var s := FarmSchema();
    HouseInAssetsIsBuilding();
    assert AnnotateElems(s, [House()], 1, [TaggedHouse()], "Farm", "assets") == Ok(Arr([TaggedHouse()]));
    assert AnnotateChild(s, Arr([House()]), "Farm", "assets") == Ok(Arr([TaggedHouse()]));
    assert Put([(TypenameKey, Str("Farm"))], "assets", Arr([TaggedHouse()]))
      == [(TypenameKey, Str("Farm")), ("assets", Arr([TaggedHouse()]))];
  }

  /** A farm tagged `Farm` keeps its tag, and the untagged house in its
      union-typed `assets` list is tagged `Building`. */
  lemma UnionListIsResolved()
    ensures Valid(FarmSchema())
    ensures AddTypenames(FarmSchema(), Obj([("__typename", Str("Farm")), ("assets", Arr([House()]))]), None, None)
      == Ok(Obj([("__typename", Str("Farm")), ("assets", Arr([TaggedHouse()]))]))
  {
    FarmEntry();
    FarmTagStep();
    FarmAssetsStep();
    var props := [("__typename", Str("Farm")), ("assets", Arr([House()]))];
    var acc := [(TypenameKey, Str("Farm")), ("assets", Arr([TaggedHouse()]))];
    assert StampProps(FarmSchema(), props, 2, acc, "Farm") == Ok(Obj(acc));
  }
}
