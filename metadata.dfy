/** Entity metadata: what the mapping context knows about a persistent type.
    Only the facts the request factory and the hit mapper consult are kept:
    the property list with property names, wire field names and value types,
    the declared version type and whether a seq-no/primary-term property exists. */
module Metadata {
  import opened Wrappers

  /** A persistent property: its name in the domain type, the field name it has
      in the stored document, and the type of its values (for a collection,
      the element type), which may itself be an entity. */
  datatype Property = Property(name: string, fieldName: string, actualType: string)

  /** The version types a document annotation may declare. */
  datatype DocumentVersionType = Internal | External | ExternalGte

  datatype Entity = Entity(
    typeName: string,
    properties: seq<Property>,
    versionType: Option<DocumentVersionType>,
    hasSeqNoPrimaryTermProperty: bool)

  /** The mapping context: the entities it holds, by type name. */
  type MappingContext = map<string, Entity>

  /** `mappingContext.getPersistentEntity(type)`: absent for a type the context holds no entity for. */
  function PersistentEntity(ctx: MappingContext, typeName: string): (r: Option<Entity>)
    ensures r.Some? <==> typeName in ctx
    ensures r.Some? ==> r.value == ctx[typeName]
  {
    if typeName in ctx then Some(ctx[typeName]) else None
  }

  /** `entity.getPersistentProperty(name)`: the first property with that property name. */
  function PropertyNamed(properties: seq<Property>, name: string): (r: Option<Property>)
    ensures r.Some? ==> r.value in properties && r.value.name == name
    ensures r.None? <==> forall p :: p in properties ==> p.name != name
  {
    if properties == [] then None
    else if properties[0].name == name then Some(properties[0])
    else PropertyNamed(properties[1..], name)
  }

  /** `entity.getPersistentPropertyWithFieldName(fieldName)`: the first property
      whose wire field name is `fieldName`. */
  function PropertyWithFieldName(properties: seq<Property>, fieldName: string): (r: Option<Property>)
    ensures r.Some? ==> r.value in properties && r.value.fieldName == fieldName
    ensures r.None? <==> forall p :: p in properties ==> p.fieldName != fieldName
  {
    if properties == [] then None
    else if properties[0].fieldName == fieldName then Some(properties[0])
    else PropertyWithFieldName(properties[1..], fieldName)
  }

  /** Property names and field names are each unique within an entity. */
  ghost predicate WellFormed(e: Entity) {
    forall i, j :: 0 <= i < j < |e.properties| ==>
      e.properties[i].name != e.properties[j].name &&
      e.properties[i].fieldName != e.properties[j].fieldName
  }

  /** In a well-formed entity the field-name lookup finds the one property with that field name. */
  lemma {:induction false} FieldNameLookupUnique(properties: seq<Property>, p: Property)
    requires forall i, j :: 0 <= i < j < |properties| ==> properties[i].fieldName != properties[j].fieldName
    requires p in properties
    ensures PropertyWithFieldName(properties, p.fieldName) == Some(p)
  {
    if properties[0] != p {
      assert properties[0].fieldName != p.fieldName by {
        var k :| 0 <= k < |properties| && properties[k] == p;
        assert k > 0;
      }
      FieldNameLookupUnique(properties[1..], p);
    }
  }

  /** In a well-formed entity the name lookup finds the one property with that name. */
  lemma {:induction false} NameLookupUnique(properties: seq<Property>, p: Property)
    requires forall i, j :: 0 <= i < j < |properties| ==> properties[i].name != properties[j].name
    requires p in properties
    ensures PropertyNamed(properties, p.name) == Some(p)
  {
    if properties[0] != p {
      assert properties[0].name != p.name by {
        var k :| 0 <= k < |properties| && properties[k] == p;
        assert k > 0;
      }
      NameLookupUnique(properties[1..], p);
    }
  }
}
