/**
 * The foreign-key source of a plural association attribute. It is built once,
 * during the declaration phase, from the attribute's descriptor and never
 * changes afterwards; its resolution delegate is invoked later, once a
 * resolution context knows every table and column.
 */
module KeySource {
  import opened Descriptors
  import opened ValueSources

  class PluralAttributeKeySourceImpl {
    const attribute: PluralAssociationAttribute
    /** Fixed at construction from the attribute's declared delete action. */
    const deleteAction: ReferentialAction := DeleteActionOf(attribute.onDeleteAction)

    constructor (attribute: PluralAssociationAttribute)
      ensures this.attribute == attribute
      ensures deleteAction == (if attribute.onDeleteAction == Some(OnDeleteCascade) then Cascade else NoAction)
    {
      this.attribute := attribute;
    }

    /** One value source per column of the attribute itself, in declaration order. */
    method GetValueSources() returns (valueSources: seq<ColumnSource>)
      ensures valueSources == SourcesOf(attribute, attribute.columnValues)
      ensures ColumnsOf(valueSources) == attribute.columnValues
      ensures forall i :: 0 <= i < |valueSources| ==> valueSources[i] == ColumnSource(attribute, attribute.columnValues[i])
    {
      valueSources := [];
      var columns := attribute.columnValues;
      if columns != [] {
        for i := 0 to |columns|
          invariant valueSources == SourcesOf(attribute, columns[..i])
        {
          SourcesOfAppend(attribute, columns[..i], [columns[i]]);
          assert columns[..i + 1] == columns[..i] + [columns[i]];
          valueSources := valueSources + [ColumnSource(attribute, columns[i])];
        }
        assert columns[..|columns|] == columns;
      }
      ColumnsOfSourcesOf(attribute, columns);
      forall i | 0 <= i < |valueSources|
        ensures valueSources[i] == ColumnSource(attribute, columns[i])
      {
        SourcesOfAt(attribute, columns, i);
      }
    }

    /** CASCADE exactly when the attribute declares a cascading delete, NO_ACTION otherwise. */
    function GetOnDeleteAction(): (r: ReferentialAction)
      ensures r == Cascade <==> attribute.onDeleteAction == Some(OnDeleteCascade)
      ensures r == NoAction <==> attribute.onDeleteAction != Some(OnDeleteCascade)
    {
      deleteAction
    }

    function AreValuesIncludedInInsertByDefault(): (r: bool)
      ensures r
    {
      true
    }

    function AreValuesIncludedInUpdateByDefault(): (r: bool)
      ensures r
    {
      true
    }

    function AreValuesNullableByDefault(): (r: bool)
      ensures r
    {
      true
    }

    /** The attribute's explicit foreign-key name, absent when the binder is to choose one. */
    function GetExplicitForeignKeyName(): (r: Option<string>)
      ensures r == attribute.explicitForeignKeyName
    {
      attribute.explicitForeignKeyName
    }

    /**
     * A delegate over this attribute when some join column names the column it
     * references; null when none does, including when there are no join columns.
     */
    method GetForeignKeyTargetColumnResolutionDelegate() returns (delegate: JoinColumnResolutionDelegateImpl?)
      ensures delegate != null <==> HasReferencedColumn(attribute.joinColumnValues)
      ensures delegate != null ==> delegate.attribute == attribute && attribute.joinColumnValues != []
    {
      var joinColumns := attribute.joinColumnValues;
      for i := 0 to |joinColumns|
        invariant forall k :: 0 <= k < i ==> !IsNotEmpty(joinColumns[k].referencedColumnName)
      {
        if IsNotEmpty(joinColumns[i].referencedColumnName) {
          delegate := new JoinColumnResolutionDelegateImpl(attribute);
          return;
        }
      }
      delegate := null;
    }

    /**
     * One value source per join column, in declaration order; the empty list
     * when there are no join columns.
     */
    method RelationalValueSources() returns (result: seq<ColumnSource>)
      ensures result == SourcesOf(attribute, attribute.joinColumnValues)
      ensures ColumnsOf(result) == attribute.joinColumnValues
      ensures forall i :: 0 <= i < |result| ==> result[i] == ColumnSource(attribute, attribute.joinColumnValues[i])
    {
      var joinColumns := attribute.joinColumnValues;
      if joinColumns == [] {
        result := [];
        return;
      }
      result := [];
      for i := 0 to |joinColumns|
        invariant result == SourcesOf(attribute, joinColumns[..i])
      {
        SourcesOfAppend(attribute, joinColumns[..i], [joinColumns[i]]);
        assert joinColumns[..i + 1] == joinColumns[..i] + [joinColumns[i]];
        result := result + [ColumnSource(attribute, joinColumns[i])];
      }
      assert joinColumns[..|joinColumns|] == joinColumns;
      ColumnsOfSourcesOf(attribute, joinColumns);
      forall i | 0 <= i < |result|
        ensures result[i] == ColumnSource(attribute, joinColumns[i])
      {
        SourcesOfAt(attribute, joinColumns, i);
      }
    }
  }

  /**
   * Resolves the target columns of an attribute's join columns by the names
   * they reference, once a resolution context exists.
   */
  class JoinColumnResolutionDelegateImpl {
    const attribute: PluralAssociationAttribute

    constructor (attribute: PluralAssociationAttribute)
      ensures this.attribute == attribute
    {
      this.attribute := attribute;
    }

    /**
     * Null when the attribute has no join columns. Otherwise, for every join
     * column in order, what the context resolves its referenced name to, even
     * when that name is empty or absent. `context` is the context's column
     * lookup by referenced name.
     */
    method GetJoinColumns<V>(context: Option<string> -> V) returns (joinColumnValues: Option<seq<V>>)
      ensures joinColumnValues == None <==> attribute.joinColumnValues == []
      ensures joinColumnValues.Some? ==> joinColumnValues.value == Resolved(context, attribute.joinColumnValues)
      ensures joinColumnValues.Some? ==>
        |joinColumnValues.value| == |attribute.joinColumnValues| &&
        forall i :: 0 <= i < |joinColumnValues.value| ==>
          joinColumnValues.value[i] == context(attribute.joinColumnValues[i].referencedColumnName)
    {
      var columns := attribute.joinColumnValues;
      if columns == [] {
        return None;
      }
      var result := [];
      for i := 0 to |columns|
        invariant result == Resolved(context, columns[..i])
      {
        ResolvedAppend(context, columns[..i], [columns[i]]);
        assert columns[..i + 1] == columns[..i] + [columns[i]];
        result := result + [context(columns[i].referencedColumnName)];
      }
      assert columns[..|columns|] == columns;
      forall i | 0 <= i < |result|
        ensures result[i] == context(columns[i].referencedColumnName)
      {
        ResolvedAt(context, columns, i);
      }
      joinColumnValues := Some(result);
    }

    /** This delegate resolves by column name only, never by a target attribute's name. */
    function GetReferencedAttributeName(): (r: Option<string>)
      ensures r == None
    {
      None
    }
  }

  /**
   * Declaration then resolution for a join condition of two columns, the first
   * referencing "id" and the second referencing nothing: a delegate exists, and
   * it asks the context about both columns, in order.
   */
  method DeclareThenResolve<V>(context: Option<string> -> V) returns (targets: Option<seq<V>>)
    ensures targets == Some([context(Some("id")), context(Some(""))])
  {
    var attribute := PluralAssociationAttribute(
      [], [Column("fk_a", Some("id")), Column("fk_b", Some(""))], None, None);
    var keySource := new PluralAttributeKeySourceImpl(attribute);
    assert IsNotEmpty(attribute.joinColumnValues[0].referencedColumnName);
    var delegate := keySource.GetForeignKeyTargetColumnResolutionDelegate();
    targets := delegate.GetJoinColumns(context);
    assert |targets.value| == 2;
    assert targets.value[0] == context(Some("id")) && targets.value[1] == context(Some(""));
    assert targets.value == [context(Some("id")), context(Some(""))];
  }
}
