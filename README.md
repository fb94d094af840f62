# Stream folding builder, modelled in Dafny

StreamWiggle is an IntelliJ plugin that folds Java stream pipelines in the
editor. Its folding builder (`StreamFoldingBuilder`) walks every method call
under a syntax-tree root and works in two passes:

- **stream pass:** every `stream()` call whose erased return type is
  `java.util.stream.Stream` gets a `~` fold. The fold runs from the method
  name to the end of the call.
- **collect pass:** every `collect(...)` call whose receiver has the erased
  type `Stream` or jOOλ's `org.jooq.lambda.Seq` gets a `~>` fold. The fold
  starts at the dot before the name.
  - If the call has exactly one argument, the `~>` fold ends just after `(`.
    The closing `)` gets a fold with an empty placeholder.
  - If that argument is a call qualified by `Collectors` or `MoreCollectors`,
    the qualifier and the dot after it get a fold with an empty placeholder.

All descriptors share the group "simple", and every fold is collapsed by
default.

The project has three modules:

- `Psi` (`psi.dfy`) holds the program-structure values the builder reads. A
  call is a value carrying:
  - its resolved method (name, parameter count, erased return type);
  - the erased type of its receiver;
  - the offsets of its name, argument list and end;
  - its arguments.

  `WellLaidOut` states the textual shape a parsed call has.
- `StreamFoldingBuilder` (`stream_folding_builder.dfy`) holds:
  - the two matchers;
  - the descriptors one call contributes;
  - functions defining what the two passes produce (`StreamFolds`,
    `CollectFoldsAll`, and `FoldRegions` for the whole result);
  - the imperative builder. Its two loops append to a local list, as the
    source's `ArrayList` does. Each loop is proved to produce exactly what
    the corresponding function defines.
- `FoldProperties` (`fold_properties.dfy`) holds lemmas about the model:
  - the matchers exclude each other;
  - each pass keeps exactly the matching calls, with multiplicity and in
    enumeration order;
  - the exact shape, count and offsets of each call's descriptors, and how
    the whole result is laid out;
  - the placeholder counts over the whole result;
  - every emitted range is non-empty when the calls are well laid out, and
    the folds of one collect call do not overlap one another (folds of
    different calls may overlap: a stream fold runs to the end of its call
    and can contain a later collect call's folds);
  - literal scenarios with concrete offsets.

`isCollectCall` (line 47) dereferences the qualifier of a resolved
`collect` call, and that qualifier's erased type, without a null check. A
resolved `collect(...)` call with no qualifier, such as a class calling its
own `collect` method, therefore makes the whole pass throw. The builder
likewise dereferences the reference-name element and the argument list of
every matched call. The model keeps these cases out of its domain:

- `IsCollectCall` requires `CollectReceiverTyped`, and so do the builder and
  `FoldRegions`;
- the reference-name and argument-list offsets are fields that are always
  present.

## Model

| member | source | states |
|---|---|---|
| StreamFoldingBuilder.IsStreamCall | src/main/java/de/balpha/streamwiggle/StreamFoldingBuilder.java:20-37 | A call is a stream producer exactly when it resolves, its method is named `stream`, takes no parameters, and has the erased return type `java.util.stream.Stream`. |
| StreamFoldingBuilder.IsCollectCall | src/main/java/de/balpha/streamwiggle/StreamFoldingBuilder.java:39-49 | A call whose receiver is typed is a collect terminal exactly when it resolves to a method named `collect` and its receiver's erased type is `Stream` or `org.jooq.lambda.Seq`. The arity is not looked at. |
| StreamFoldingBuilder.CollectReceiverTyped | src/main/java/de/balpha/streamwiggle/StreamFoldingBuilder.java:47 | The domain of `isCollectCall`: a resolved `collect` call has a typed qualifier. Without one, line 47 dereferences null. It is the precondition of `IsCollectCall`, `CollectCalls`, `FoldRegions` and `BuildFoldRegions`. |
| StreamFoldingBuilder.IsFactoryFacade | src/main/java/de/balpha/streamwiggle/StreamFoldingBuilder.java:92 | The qualifier text is exactly `Collectors` or `MoreCollectors`. No contract; it is the condition under which `CollectFoldsShape` places the qualifier fold. |
| StreamFoldingBuilder.HasFacadeQualifier | src/main/java/de/balpha/streamwiggle/StreamFoldingBuilder.java:89-92 | The single argument is a call whose qualifier is present and is a collectors facade. No contract; `CollectFoldsShape` states that exactly these calls get the qualifier fold as their second descriptor. |
| StreamFoldingBuilder.StreamCalls | src/main/java/de/balpha/streamwiggle/StreamFoldingBuilder.java:60-62 | The stream filter over the enumerated calls. No contract; `StreamCallsMultiplicity`, `StreamCallsMembers` and `StreamCallsAppend` characterise it. |
| StreamFoldingBuilder.CollectCalls | src/main/java/de/balpha/streamwiggle/StreamFoldingBuilder.java:71-73 | The collect filter over the enumerated calls. No contract; `CollectCallsMultiplicity`, `CollectCallsMembers` and `CollectCallsAppend` characterise it. |
| StreamFoldingBuilder.StreamFold | src/main/java/de/balpha/streamwiggle/StreamFoldingBuilder.java:65-68 | The `~` descriptor of one stream call. No contract; its range [name start, call end) is stated by `StreamFolds` and `FoldRegionsLayout`. |
| StreamFoldingBuilder.CollectFoldCount | src/main/java/de/balpha/streamwiggle/StreamFoldingBuilder.java:81-103 | How many descriptors one collect call emits (1, 2 or 3). No contract; `CollectFoldsLength` and `CollectFoldsShape` tie it to `CollectFolds`. |
| StreamFoldingBuilder.QualifierFolds | src/main/java/de/balpha/streamwiggle/StreamFoldingBuilder.java:89-97 | The facade qualifier fold of a single argument, if any. No contract; `CollectFoldsShape` states its range [qualifier start, qualifier end + 1). |
| StreamFoldingBuilder.CollectFolds | src/main/java/de/balpha/streamwiggle/StreamFoldingBuilder.java:77-103 | The block one collect call emits, in emission order. No contract; `CollectFoldsShape` determines it completely, and `CollectFoldsProper`, `CollectFoldsLast` and `CollectFoldsOccurrences` state further properties. |
| StreamFoldingBuilder.CollectFoldsAll | src/main/java/de/balpha/streamwiggle/StreamFoldingBuilder.java:75-105 | The collect pass: each collect call's block, in order. No contract; `CollectFoldsAllLength`, `CollectFoldsAllConcat`, `CollectBlock` and `CollectBlockLast` characterise it. |
| StreamFoldingBuilder.FoldRegions | src/main/java/de/balpha/streamwiggle/StreamFoldingBuilder.java:53-107 | The whole result: the stream pass followed by the collect pass. No contract; `BuildFoldRegions` is proved equal to it, and `FoldRegionsLayout`, `FoldRegionsPlaceholderCounts` and `FoldRegionsProper` state its properties. |
| FoldProperties.CrossCallOverlapScenario | src/main/java/de/balpha/streamwiggle/StreamFoldingBuilder.java:64-105 | Folds of different calls may overlap even when every call is well laid out: a stream call whose text contains a three-argument `collect` yields [11, 40) `~` and [19, 27) `~>`. |
| StreamFoldingBuilder.IsCollapsedByDefault | src/main/java/de/balpha/streamwiggle/StreamFoldingBuilder.java:115-118 | Every fold is collapsed by default. |
| StreamFoldingBuilder.StreamFolds | src/main/java/de/balpha/streamwiggle/StreamFoldingBuilder.java:64-69 | The stream pass yields exactly one descriptor per stream call, in order. The i-th descriptor is that call's `~` fold. |
| StreamFoldingBuilder.BuildFoldRegions | src/main/java/de/balpha/streamwiggle/StreamFoldingBuilder.java:53-107 | The builder returns the stream pass's descriptors followed by the collect pass's descriptors, both over the same enumeration of calls. |
| StreamFoldingBuilder.AddStreamFolds | src/main/java/de/balpha/streamwiggle/StreamFoldingBuilder.java:64-69 | The stream loop appends the stream pass's descriptors to the list it is given and leaves the earlier entries as they were. |
| StreamFoldingBuilder.AddCollectFolds | src/main/java/de/balpha/streamwiggle/StreamFoldingBuilder.java:75-105 | The collect loop appends each collect call's block of descriptors, call by call in order, to the list it is given. |
| FoldProperties.MatchersExclusive | src/main/java/de/balpha/streamwiggle/StreamFoldingBuilder.java:20-49 | No call is both a stream producer and a collect terminal. |
| FoldProperties.PassesDisjoint | src/main/java/de/balpha/streamwiggle/StreamFoldingBuilder.java:60-73 | No call is folded by both passes. |
| FoldProperties.StreamCallsMultiplicity | src/main/java/de/balpha/streamwiggle/StreamFoldingBuilder.java:60-62 | The stream filter keeps every stream call as many times as it is enumerated, and drops every other call. |
| FoldProperties.CollectCallsMultiplicity | src/main/java/de/balpha/streamwiggle/StreamFoldingBuilder.java:71-73 | The collect filter keeps every collect call as many times as it is enumerated, and drops every other call. |
| FoldProperties.StreamCallsMembers | src/main/java/de/balpha/streamwiggle/StreamFoldingBuilder.java:60-62 | A call is in the stream list if and only if it was enumerated and is a stream call. |
| FoldProperties.CollectCallsMembers | src/main/java/de/balpha/streamwiggle/StreamFoldingBuilder.java:71-73 | A call is in the collect list if and only if it was enumerated and is a collect call. |
| FoldProperties.StreamCallsAppend | src/main/java/de/balpha/streamwiggle/StreamFoldingBuilder.java:60-62 | The stream filter keeps enumeration order: filtering a concatenation gives the concatenation of the filtered parts. |
| FoldProperties.CollectCallsAppend | src/main/java/de/balpha/streamwiggle/StreamFoldingBuilder.java:71-73 | The collect filter keeps enumeration order in the same sense. |
| FoldProperties.CollectFoldsShape | src/main/java/de/balpha/streamwiggle/StreamFoldingBuilder.java:77-103 | A collect call whose argument count is not one yields only the `~>` fold over the dot and the name. A single-argument call yields, in order: the fold over the closing `)`; the fold over the facade qualifier and its dot, if there is one; and the `~>` fold from the dot through the `(`. All folds other than the last have empty placeholders. |
| FoldProperties.CollectFoldsProper | src/main/java/de/balpha/streamwiggle/StreamFoldingBuilder.java:77-103 | For a well-laid-out call, each of its folds is a non-empty range with a non-negative start. Each lies between the dot before the name and the end of the argument list, and no two folds of that one call overlap. |
| FoldProperties.CollectFoldsLast | src/main/java/de/balpha/streamwiggle/StreamFoldingBuilder.java:101-103 | A collect call's block is never empty, and it ends with its `~>` fold. |
| FoldProperties.CollectFoldsLength | src/main/java/de/balpha/streamwiggle/StreamFoldingBuilder.java:77-103 | A collect call contributes one, two or three descriptors, as `CollectFoldCount` says. |
| FoldProperties.CollectFoldsAllLength | src/main/java/de/balpha/streamwiggle/StreamFoldingBuilder.java:75-105 | The collect pass emits exactly the sum of its calls' descriptor counts. |
| FoldProperties.CollectFoldsAllConcat | src/main/java/de/balpha/streamwiggle/StreamFoldingBuilder.java:75-105 | The collect pass over a concatenation of calls is the concatenation of the passes over each part. |
| FoldProperties.CollectBlock | src/main/java/de/balpha/streamwiggle/StreamFoldingBuilder.java:75-105 | The j-th collect call's descriptors form one contiguous block of the collect pass. The block starts right after the blocks of the calls before it. |
| FoldProperties.CollectBlockLast | src/main/java/de/balpha/streamwiggle/StreamFoldingBuilder.java:101-103 | The block of every collect call ends with that call's `~>` fold. |
| FoldProperties.CollectFoldsAllPlaceholders | src/main/java/de/balpha/streamwiggle/StreamFoldingBuilder.java:75-105 | Every descriptor of the collect pass is in the shared group. Its placeholder is `~>` or empty. |
| FoldProperties.FoldRegionsLayout | src/main/java/de/balpha/streamwiggle/StreamFoldingBuilder.java:64-106 | The result starts with one `~` fold per stream call, each from the name start to the call end. Everything after those folds is the collect pass, which has only `~>` or empty placeholders. The length is the number of stream calls plus the collect descriptor count. |
| FoldProperties.CollectFoldsOccurrences | src/main/java/de/balpha/streamwiggle/StreamFoldingBuilder.java:77-103 | A collect call contributes exactly one `~>` fold and no `~` fold. |
| FoldProperties.StreamFoldsOccurrences | src/main/java/de/balpha/streamwiggle/StreamFoldingBuilder.java:64-69 | The stream pass contributes one `~` fold per stream call and no `~>` fold. |
| FoldProperties.FoldRegionsPlaceholderCounts | src/main/java/de/balpha/streamwiggle/StreamFoldingBuilder.java:64-106 | The result holds exactly as many `~` folds as there are stream calls, and exactly as many `~>` folds as there are collect calls. |
| FoldProperties.FoldRegionsProper | src/main/java/de/balpha/streamwiggle/StreamFoldingBuilder.java:64-106 | When every enumerated call is well laid out, every emitted range is non-empty and has a non-negative start. |
| FoldProperties.StreamScenario | src/main/java/de/balpha/streamwiggle/StreamFoldingBuilder.java:64-69 | `list.stream()` with its name at [11, 17), ending at 40, folds to the single `~` range [11, 40). |
| FoldProperties.StreamMatcherScenarios | src/main/java/de/balpha/streamwiggle/StreamFoldingBuilder.java:20-37 | Each of these calls is rejected: the method `parallelStream`, a `stream` with one parameter, one returning `IntStream`, and an unresolved call. |
| FoldProperties.CollectorsScenario | src/main/java/de/balpha/streamwiggle/StreamFoldingBuilder.java:75-105 | `collect(Collectors.toList())` with its name at [50, 57), its argument list at [57, 76) and `Collectors` at [58, 68) yields three folds: [75, 76) empty, [58, 69) empty and [49, 58) `~>`. |
| FoldProperties.AccumulatorScenario | src/main/java/de/balpha/streamwiggle/StreamFoldingBuilder.java:77-103 | A three-argument `collect` yields only the `~>` fold [49, 57) over the dot and the name. |
| FoldProperties.SeqReceiverScenario | src/main/java/de/balpha/streamwiggle/StreamFoldingBuilder.java:48 | A `collect` on a jOOλ `Seq` receiver is a collect terminal. |
| FoldProperties.UnrelatedCollectScenario | src/main/java/de/balpha/streamwiggle/StreamFoldingBuilder.java:39-49 | A `collect` on a receiver of any other type folds nothing. |

## Left out

- Tree enumeration (`PsiTreeUtil.findChildrenOfType`), `resolveMethod`, type erasure and canonical type text all belong to the host IDE. Their results are inputs: the builder's `calls` parameter and the fields of `Call`. Both passes enumerate the same unchanged tree, so the model enumerates once and filters twice.
- `FoldingGroup.newGroup("simple")` creates a fresh group object on each call. The model uses the constant name "simple", which every descriptor carries.
- The AST node each `FoldingDescriptor` is attached to is not modelled. Only the range, group and placeholder are.
- The `literalExpressions` enumeration and the `document` and `quick` parameters are not modelled: the builder never uses them.
- `getPlaceholderText` returns the constant "HELLO", but every descriptor carries its own placeholder, so the host never consults this method for these folds. It is not modelled.
- A resolved `collect` call with no qualifier or an untyped qualifier makes `isCollectCall` (line 47) throw, which aborts the whole pass. The model does not represent the exception: it makes the receiver type a precondition (`CollectReceiverTyped`).
- A call without a reference-name element or argument list has the same problem: the builder dereferences both without a null check. Their offsets are therefore non-optional fields of `Call`.
- `TextRange` and `FoldingDescriptor` check their ranges inside the IDE library, which is not part of this model. `TextRange` allows any pair of integers. `CollectFoldsProper` and `FoldRegionsProper` prove that well-laid-out calls give valid, non-empty ranges.
- Offsets are unbounded integers. Java's 32-bit `int` arithmetic (`nameStart - 1`, `end + 1`) is not modelled, because document offsets stay far below the limit.
- The result is a sequence. The final `toArray` conversion is not modelled.
- The builder's two loops are split into the helper methods `AddStreamFolds` and `AddCollectFolds`, so each loop is proved on its own. The statements are the same as the source's.
- The matchers take a parameter count of type `nat`. The source's test `> 0` is therefore the same as `!= 0`.
