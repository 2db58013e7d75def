/** The `[BsonUnique]` attribute: a per-property uniqueness descriptor. It is
    a value (both properties have private setters and are only set by the two
    constructors), and it attaches to a single property, so a schema carries at
    most one descriptor per field. */
module BsonUnique {
  import opened Wrappers

  /** `Self`: the field alone must be unique. `PropertyNames`: the sibling
      properties that, together with this field, must be unique; C#'s `null`
      array is `None`. */
  datatype BsonUnique = BsonUnique(self: bool, propertyNames: Option<seq<string>>)

  /** `BsonUnique(bool self = false, params string[] propertyNames)`: keeps
      exactly the flag and the names given (an empty `params` list is an empty
      array, not `null`). */
  function Declared(self: bool, propertyNames: seq<string>): (d: BsonUnique)
    ensures d.self == self && d.propertyNames == Some(propertyNames)
  {
    BsonUnique(self, Some(propertyNames))
  }

  /** `BsonUnique()`: a pure self constraint, with no sibling list at all. */
  function SelfUnique(): (d: BsonUnique)
    ensures d.self && d.propertyNames == None
  {
    BsonUnique(true, None)
  }

  /** The test the engine applies before building a composite clause:
      `names != null && names.Length > 0`. */
  predicate HasSiblings(d: BsonUnique)
  {
    d.propertyNames.Some? && |d.propertyNames.value| > 0
  }
}
