/**
 * Specification functions for what a key source hands to the binder: the
 * relational value sources wrapping an attribute's columns, the referential
 * action of its foreign key, and the target values a resolution context yields
 * for its join columns. The methods of module KeySource are proved against them.
 */
module ValueSources {
  import opened Descriptors

  /**
   * The referential actions a relational foreign key can carry. The key
   * source of a plural attribute only ever chooses the first two.
   */
  datatype ReferentialAction = NoAction | Cascade | SetNull | SetDefault | Restrict

  /**
   * A value source wrapping one column of an attribute: the column source built
   * with the attribute and the column. Its second constructor argument, null at
   * both call sites, is dropped.
   */
  datatype ColumnSource = ColumnSource(attribute: PluralAssociationAttribute, column: Column)

  /** The foreign-key delete action chosen for a declared `@OnDelete` action. */
  function DeleteActionOf(declared: Option<OnDeleteAction>): (r: ReferentialAction)
    ensures r == Cascade <==> declared == Some(OnDeleteCascade)
    ensures r == Cascade || r == NoAction
  {
    if declared == Some(OnDeleteCascade) then Cascade else NoAction
  }

  /** One value source per column, in column order. */
  function SourcesOf(attribute: PluralAssociationAttribute, columns: seq<Column>): (r: seq<ColumnSource>)
    ensures |r| == |columns|
  {
    if columns == [] then [] else [ColumnSource(attribute, columns[0])] + SourcesOf(attribute, columns[1..])
  }

  /** The columns a sequence of value sources wraps, in order. */
  function ColumnsOf(sources: seq<ColumnSource>): (r: seq<Column>)
    ensures |r| == |sources|
  {
    if sources == [] then [] else [sources[0].column] + ColumnsOf(sources[1..])
  }

  /** The value the context resolves each column's referenced name to, in column order. */
  function Resolved<V>(context: Option<string> -> V, columns: seq<Column>): (r: seq<V>)
    ensures |r| == |columns|
  {
    if columns == [] then [] else [context(columns[0].referencedColumnName)] + Resolved(context, columns[1..])
  }

  /** Position k of the value sources wraps column k of the attribute. */
  lemma {:induction false} SourcesOfAt(attribute: PluralAssociationAttribute, columns: seq<Column>, k: nat)
    requires k < |columns|
    ensures SourcesOf(attribute, columns)[k] == ColumnSource(attribute, columns[k])
  {
    if k > 0 {
      SourcesOfAt(attribute, columns[1..], k - 1);
    }
  }

  /** Wrapping a concatenation wraps each part in turn: the order of the columns is kept. */
  lemma {:induction false} SourcesOfAppend(attribute: PluralAssociationAttribute, a: seq<Column>, b: seq<Column>)
    ensures SourcesOf(attribute, a + b) == SourcesOf(attribute, a) + SourcesOf(attribute, b)
  {
    if a != [] {
      assert (a + b)[0] == a[0] && (a + b)[1..] == a[1..] + b;
      SourcesOfAppend(attribute, a[1..], b);
      assert SourcesOf(attribute, a) == [ColumnSource(attribute, a[0])] + SourcesOf(attribute, a[1..]);
    } else {
      assert a + b == b;
    }
  }

  /** Unwrapping the value sources gives back exactly the columns, in order. */
  lemma {:induction false} ColumnsOfSourcesOf(attribute: PluralAssociationAttribute, columns: seq<Column>)
    ensures ColumnsOf(SourcesOf(attribute, columns)) == columns
  {
    if columns != [] {
      ColumnsOfSourcesOf(attribute, columns[1..]);
    }
  }

  /**
   * Every value source is built with the attribute the columns belong to and
   * wraps one of its columns: a membership form of SourcesOfAt.
   */
  lemma {:induction false} SourcesOfOwner(attribute: PluralAssociationAttribute, columns: seq<Column>, s: ColumnSource)
    requires s in SourcesOf(attribute, columns)
    ensures s.attribute == attribute && s.column in columns
  {
    if columns != [] && s != ColumnSource(attribute, columns[0]) {
      SourcesOfOwner(attribute, columns[1..], s);
    }
  }

  /**
   * Position k of the resolved values is what the context gives for column k's
   * referenced name, whether that name is present, empty or absent.
   */
  lemma {:induction false} ResolvedAt<V>(context: Option<string> -> V, columns: seq<Column>, k: nat)
    requires k < |columns|
    ensures Resolved(context, columns)[k] == context(columns[k].referencedColumnName)
  {
    if k > 0 {
      ResolvedAt(context, columns[1..], k - 1);
    }
  }

  /** Resolving a concatenation resolves each part in turn. */
  lemma {:induction false} ResolvedAppend<V>(context: Option<string> -> V, a: seq<Column>, b: seq<Column>)
    ensures Resolved(context, a + b) == Resolved(context, a) + Resolved(context, b)
  {
    if a != [] {
      assert (a + b)[0] == a[0] && (a + b)[1..] == a[1..] + b;
      ResolvedAppend(context, a[1..], b);
      assert Resolved(context, a) == [context(a[0].referencedColumnName)] + Resolved(context, a[1..]);
    } else {
      assert a + b == b;
    }
  }

  /**
   * Resolution depends only on the referenced names: two join-column lists
   * that reference the same names in the same order resolve to the same values.
   * This is a property of the model's abstraction, where the context is a pure
   * function of the referenced name.
   */
  lemma {:induction false} ResolvedByReferencedNames<V>(context: Option<string> -> V, a: seq<Column>, b: seq<Column>)
    requires |a| == |b|
    requires forall i :: 0 <= i < |a| ==> a[i].referencedColumnName == b[i].referencedColumnName
    ensures Resolved(context, a) == Resolved(context, b)
  {
    if a != [] {
      ResolvedByReferencedNames(context, a[1..], b[1..]);
    }
  }
}
