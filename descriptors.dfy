/**
 * The already-parsed annotation data a plural attribute key source is built from:
 * the columns of one plural association attribute and its attribute-level
 * foreign-key policy. These descriptors are immutable values; the parsing layer
 * that produces them is not part of this model.
 */
module Descriptors {

  /** Stands in for a Java reference that may be null. */
  datatype Option<+T> = None | Some(value: T)

  /** The two values of the `@OnDelete` annotation's action. */
  datatype OnDeleteAction = OnDeleteNoAction | OnDeleteCascade

  /**
   * One mapped column. `referencedColumnName` is the name of the target column
   * a join column points at; it is null (None) or empty when none was declared.
   */
  datatype Column = Column(name: string, referencedColumnName: Option<string>)

  /**
   * A plural association attribute: its own columns, the columns of its join
   * condition (order is the order of the composite foreign key), the action
   * declared for deletes (null when the attribute declares none) and the
   * explicit foreign-key name (null when the binder is to generate one).
   */
  datatype PluralAssociationAttribute = PluralAssociationAttribute(
    columnValues: seq<Column>,
    joinColumnValues: seq<Column>,
    onDeleteAction: Option<OnDeleteAction>,
    explicitForeignKeyName: Option<string>)

  /** A string that is present and not of length zero. */
  predicate IsNotEmpty(s: Option<string>)
  {
    s.Some? && |s.value| > 0
  }

  /** Some join column names the column it references. */
  predicate HasReferencedColumn(joinColumns: seq<Column>)
  {
    exists i :: 0 <= i < |joinColumns| && IsNotEmpty(joinColumns[i].referencedColumnName)
  }
}
