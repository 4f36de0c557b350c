# Plural attribute key source

A model of Hibernate's foreign-key source for a plural association attribute.
It covers `PluralAttributeKeySourceImpl` and its nested `JoinColumnResolutionDelegateImpl`.

The key source works in two phases.

- **Declaration phase.** The key source is built once from an attribute
  descriptor. The descriptor holds the attribute's own columns, its join
  columns, a declared `@OnDelete` action and an optional explicit foreign-key
  name. From it the key source derives the foreign key's delete action, the
  fixed insert, update and nullable defaults, and two ordered lists of value
  sources. It also derives a resolution delegate, which exists only when some
  join column names the column it references.
- **Resolution phase.** The binder later gives the delegate a resolution
  context. The delegate asks the context for the target of every join column,
  in declaration order. It answers null, not an empty list, when there are no
  join columns.

Files:

- `descriptors.dfy` (module `Descriptors`): the immutable descriptors (`Column`,
  `PluralAssociationAttribute`, `OnDeleteAction`), an `Option` for Java's null,
  and `IsNotEmpty`, the test that a string is present and not empty.
- `value_sources.dfy` (module `ValueSources`): the referential actions, the value
  source wrapper, and the specification functions the methods are proved against.
  These are `DeleteActionOf`, `SourcesOf`, `ColumnsOf` and `Resolved`, with their
  lemmas: position-wise content, concatenation, round trip and ownership.
- `key_source.dfy` (module `KeySource`): the two Java classes as Dafny classes
  with `const` fields, since neither changes after construction. The list
  builders and the delegate scan are methods with the source's loops. The
  getters are functions. It also holds a client method, `DeclareThenResolve`,
  which runs both phases on a two-column join condition.

Two details of the code shape the model.

- The delete action comes from an `OnDeleteAction` value that may be null, not
  from a boolean flag. It is CASCADE only for `OnDeleteAction.CASCADE`; null and
  `NO_ACTION` both give NO_ACTION (PluralAttributeKeySourceImpl.java:49-50).
- The resolution context is called with the referenced column name and three
  nulls (PluralAttributeKeySourceImpl.java:129). So the model's context is a
  function of that name alone. The name may be absent or empty, and the context
  decides what such a lookup yields.

## Model

| member | source | states |
|---|---|---|
| `ValueSources.DeleteActionOf` | hibernate-core/src/main/java/org/hibernate/metamodel/internal/source/annotations/PluralAttributeKeySourceImpl.java:49-50 | the chosen action is CASCADE exactly when the declared action is CASCADE, and is always CASCADE or NO_ACTION |
| `ValueSources.SourcesOfAt` | hibernate-core/src/main/java/org/hibernate/metamodel/internal/source/annotations/PluralAttributeKeySourceImpl.java:57-59 | value source k wraps column k, built with the owning attribute |
| `ValueSources.SourcesOfAppend` | hibernate-core/src/main/java/org/hibernate/metamodel/internal/source/annotations/PluralAttributeKeySourceImpl.java:107-109 | wrapping a concatenation of columns is the concatenation of the wrapped parts, so the builder's appends keep column order |
| `ValueSources.ColumnsOfSourcesOf` | hibernate-core/src/main/java/org/hibernate/metamodel/internal/source/annotations/PluralAttributeKeySourceImpl.java:57-59 | unwrapping the value sources gives back exactly the columns, in order (round trip) |
| `ValueSources.SourcesOfOwner` | hibernate-core/src/main/java/org/hibernate/metamodel/internal/source/annotations/PluralAttributeKeySourceImpl.java:108 | every value source is built with the key source's attribute and wraps one of its columns |
| `ValueSources.ResolvedAt` | hibernate-core/src/main/java/org/hibernate/metamodel/internal/source/annotations/PluralAttributeKeySourceImpl.java:128-130 | resolved value k is the context's answer for join column k's referenced name, whether that name is present, empty or null |
| `ValueSources.ResolvedAppend` | hibernate-core/src/main/java/org/hibernate/metamodel/internal/source/annotations/PluralAttributeKeySourceImpl.java:127-131 | resolving a concatenation of columns resolves each part in turn, so the appends keep declaration order |
| `ValueSources.ResolvedByReferencedNames` | hibernate-core/src/main/java/org/hibernate/metamodel/internal/source/annotations/PluralAttributeKeySourceImpl.java:129 | resolution depends only on the referenced names: join columns that reference the same names in the same order resolve to the same values |
| `KeySource.PluralAttributeKeySourceImpl.constructor` | hibernate-core/src/main/java/org/hibernate/metamodel/internal/source/annotations/PluralAttributeKeySourceImpl.java:47-51 | keeps the attribute; the delete action is CASCADE for a declared CASCADE and NO_ACTION for anything else, null included |
| `KeySource.PluralAttributeKeySourceImpl.GetValueSources` | hibernate-core/src/main/java/org/hibernate/metamodel/internal/source/annotations/PluralAttributeKeySourceImpl.java:54-62 | one wrapper per own column, same length and order, wrapper i around column i; no columns give the empty list |
| `KeySource.PluralAttributeKeySourceImpl.GetOnDeleteAction` | hibernate-core/src/main/java/org/hibernate/metamodel/internal/source/annotations/PluralAttributeKeySourceImpl.java:65-67 | CASCADE exactly when the attribute declares CASCADE, NO_ACTION exactly when it does not |
| `KeySource.PluralAttributeKeySourceImpl.AreValuesIncludedInInsertByDefault` | hibernate-core/src/main/java/org/hibernate/metamodel/internal/source/annotations/PluralAttributeKeySourceImpl.java:70-72 | the columns take part in inserts by default |
| `KeySource.PluralAttributeKeySourceImpl.AreValuesIncludedInUpdateByDefault` | hibernate-core/src/main/java/org/hibernate/metamodel/internal/source/annotations/PluralAttributeKeySourceImpl.java:75-77 | the columns take part in updates by default |
| `KeySource.PluralAttributeKeySourceImpl.AreValuesNullableByDefault` | hibernate-core/src/main/java/org/hibernate/metamodel/internal/source/annotations/PluralAttributeKeySourceImpl.java:80-82 | the columns are nullable by default |
| `KeySource.PluralAttributeKeySourceImpl.GetExplicitForeignKeyName` | hibernate-core/src/main/java/org/hibernate/metamodel/internal/source/annotations/PluralAttributeKeySourceImpl.java:85-87 | the attribute's explicit foreign-key name, passed through unchanged, absent included |
| `KeySource.PluralAttributeKeySourceImpl.GetForeignKeyTargetColumnResolutionDelegate` | hibernate-core/src/main/java/org/hibernate/metamodel/internal/source/annotations/PluralAttributeKeySourceImpl.java:90-98 | a delegate if and only if some join column has a non-null, non-empty referenced name; the delegate is bound to this attribute, whose join columns are then non-empty |
| `KeySource.PluralAttributeKeySourceImpl.RelationalValueSources` | hibernate-core/src/main/java/org/hibernate/metamodel/internal/source/annotations/PluralAttributeKeySourceImpl.java:101-111 | the empty list when there are no join columns; otherwise one wrapper per join column, same length and order, wrapper i around join column i |
| `KeySource.JoinColumnResolutionDelegateImpl.constructor` | hibernate-core/src/main/java/org/hibernate/metamodel/internal/source/annotations/PluralAttributeKeySourceImpl.java:116-119 | keeps the attribute it resolves for |
| `KeySource.JoinColumnResolutionDelegateImpl.GetJoinColumns` | hibernate-core/src/main/java/org/hibernate/metamodel/internal/source/annotations/PluralAttributeKeySourceImpl.java:122-132 | null exactly when there are no join columns; otherwise as many values as join columns, value i being the context's answer for join column i's referenced name, empty names included |
| `KeySource.JoinColumnResolutionDelegateImpl.GetReferencedAttributeName` | hibernate-core/src/main/java/org/hibernate/metamodel/internal/source/annotations/PluralAttributeKeySourceImpl.java:135-137 | always null: this delegate resolves by column name only |
| `KeySource.DeclareThenResolve` | hibernate-core/src/main/java/org/hibernate/metamodel/internal/source/annotations/PluralAttributeKeySourceImpl.java:90-131 | with join columns referencing "id" and "", a delegate exists and yields the context's answers for "id" and then "", in that order |

## Left out

- The internals of `ColumnSourceImpl`, `PluralAssociationAttribute`, `Column` and `ForeignKey` are not part of this model. A column is a name and an optional referenced name. A value source is an uninterpreted pair of the attribute and one column. The second constructor argument of `ColumnSourceImpl`, null at both call sites, is dropped.
- `ForeignKey.ReferentialAction` is not part of this model. Its values are modelled as NO_ACTION, CASCADE, SET_NULL, SET_DEFAULT and RESTRICT. Only the first two are ever produced.
- `JoinColumnResolutionContext.resolveColumn` is an external lookup. It is modelled as a pure total function of the referenced name. The three other arguments are always null and are dropped. Exceptions, side effects and caching in the context are not modelled. The delegate only passes its answers through.
- The attribute's column lists are never null, so no null list is modelled.
- `StringHelper.isNotEmpty` is inlined as "present and of length greater than zero".
- The model states only the contents of the returned lists, not their identity or whether they can be modified. With no join columns, `relationalValueSources` returns the shared, unmodifiable `Collections.emptyList()`, to which a caller cannot add; the other lists are fresh `ArrayList`s.
- Annotation parsing, the rest of the schema-binding pipeline and the transaction runtime are not modelled.
