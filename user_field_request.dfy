/** The request that carries the names of a user's fields of interest. */
module UserFieldRequests {
  import opened Text
  import opened Domain

  datatype UserFieldRequest = UserFieldRequest(fieldName: seq<String>)

  /**
   * A field built from its name alone, as the Field(String) constructor
   * does: it belongs to no user yet.
   */
  function NewField(name: String): Field
  {
    Field(name, None)
  }

  /** toEntity: one new Field per name, in the order of the names. */
  function ToEntity(fieldName: seq<String>): (fields: seq<Field>)
    ensures |fields| == |fieldName|
    ensures forall i :: 0 <= i < |fieldName| ==> fields[i].name == fieldName[i] && fields[i].owner == None
  {
    if fieldName == [] then []
    else [NewField(fieldName[0])] + ToEntity(fieldName[1..])
  }

  /** Converting a concatenation of name lists concatenates the conversions. */
  lemma ToEntityAppend(a: seq<String>, b: seq<String>)
    ensures ToEntity(a + b) == ToEntity(a) + ToEntity(b)
  {
  }

  /** The names can be read back from the converted fields. */
  function Names(fields: seq<Field>): (names: seq<String>)
    ensures |names| == |fields|
    ensures forall i :: 0 <= i < |fields| ==> names[i] == fields[i].name
  {
    if fields == [] then [] else [fields[0].name] + Names(fields[1..])
  }

  /** toEntity loses nothing: the names round-trip through the fields. */
  lemma NamesOfToEntity(fieldName: seq<String>)
    ensures Names(ToEntity(fieldName)) == fieldName
  {
  }

  /** Equal conversions come from equal name lists. */
  lemma ToEntityInjective(a: seq<String>, b: seq<String>)
    requires ToEntity(a) == ToEntity(b)
    ensures a == b
  {
  }
}
