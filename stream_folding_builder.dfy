/** The folding-region engine of StreamFoldingBuilder: two matchers that
    recognise `stream()` producers and `collect(...)` terminals, and the
    builder that turns the matched calls into a flat, ordered list of
    folding descriptors. */
module StreamFoldingBuilder {
  import opened Psi

  const StreamType := "java.util.stream.Stream"
  const SeqType := "org.jooq.lambda.Seq"

  /** The one folding group every descriptor joins. */
  const Group := "simple"

  /** A half-open text range [start, end). Offsets are integers because the
      builder computes `nameStart - 1`; range validity is the host's
      concern (see FoldProperties.CollectFoldsProper). */
  datatype TextRange = TextRange(start: int, end: int)

  /** A folding descriptor: the range to fold, its group and the fixed
      placeholder shown when it is folded. */
  datatype FoldingDescriptor = FoldingDescriptor(range: TextRange, group: string, placeholder: string)

  // ---------------------------------------------------------------- matcher

  /** A call producing a sequential stream: it resolves to a method named
      `stream` without parameters whose erased return type is Stream. */
  function IsStreamCall(c: Call): (b: bool)
    ensures b <==> && c.resolved.Some?
                   && c.resolved.value.name == "stream"
                   && c.resolved.value.parameterCount == 0
                   && c.resolved.value.returnType == Some(StreamType)
  {
    match c.resolved
    case None => false
    case Some(m) =>
      if m.name != "stream" then false
      else if m.parameterCount > 0 then false
      else match m.returnType
        case None => false
        case Some(erased) => erased == StreamType
  }

  /** isCollectCall dereferences the qualifier of a resolved `collect` call
      and the erasure of its type without a null check; a call on which it
      would fail is outside what the builder can handle. */
  predicate CollectReceiverTyped(c: Call)
  {
    c.resolved.Some? && c.resolved.value.name == "collect" ==> c.qualifierType.Some?
  }

  /** A terminal collect call: it resolves to a method named `collect` and
      its receiver's erased type is Stream or jOOλ's Seq. The number of
      arguments is not looked at. */
  function IsCollectCall(c: Call): (b: bool)
    requires CollectReceiverTyped(c)
    ensures b <==> && c.resolved.Some?
                   && c.resolved.value.name == "collect"
                   && (c.qualifierType == Some(StreamType) || c.qualifierType == Some(SeqType))
  {
    match c.resolved
    case None => false
    case Some(m) =>
      if m.name != "collect" then false
      else
        var erased := c.qualifierType.value;
        erased == StreamType || erased == SeqType
  }

  /** The collectors facades whose qualifier is folded away. */
  predicate IsFactoryFacade(text: string)
  {
    text == "Collectors" || text == "MoreCollectors"
  }

  /** The single argument of c is a call qualified by a collectors facade. */
  predicate HasFacadeQualifier(c: Call)
  {
    && |c.args| == 1
    && c.args[0].CallArg?
    && c.args[0].qualifier.Some?
    && IsFactoryFacade(c.args[0].qualifier.value.text)
  }

  /** Every descriptor is collapsed by default. The host passes the folded
      AST node, which this model does not represent; the descriptor stands
      in for it and is not read. */
  function IsCollapsedByDefault(d: FoldingDescriptor): (collapsed: bool)
    ensures collapsed
  {
    true
  }

  // ---------------------------------------------------- the calls each pass folds

  /** The calls the stream pass keeps, in enumeration order. */
  function StreamCalls(calls: seq<Call>): seq<Call>
  {
    if calls == [] then []
    else
      assert calls == [calls[0]] + calls[1..];
      (if IsStreamCall(calls[0]) then [calls[0]] else []) + StreamCalls(calls[1..])
  }

  /** The calls the collect pass keeps, in enumeration order. */
  function CollectCalls(calls: seq<Call>): seq<Call>
    requires forall c :: c in calls ==> CollectReceiverTyped(c)
  {
    if calls == [] then []
    else
      assert calls == [calls[0]] + calls[1..];
      (if IsCollectCall(calls[0]) then [calls[0]] else []) + CollectCalls(calls[1..])
  }

  // ------------------------------------------------- descriptors of one call

  /** The `~` fold of a stream call: from its name through the end of the call. */
  function StreamFold(c: Call): FoldingDescriptor
  {
    FoldingDescriptor(TextRange(c.nameStart, c.callEnd), Group, "~")
  }

  /** How many descriptors a collect call contributes. */
  function CollectFoldCount(c: Call): nat
  {
    if |c.args| != 1 then 1 else if HasFacadeQualifier(c) then 3 else 2
  }

  /** The descriptors a collect call contributes, in emission order. */
  function CollectFolds(c: Call): seq<FoldingDescriptor>
  {
    var end := if |c.args| == 1 then c.argListStart + 1 else c.nameEnd;
    var inner :=
      if |c.args| == 1 then [FoldingDescriptor(TextRange(c.argListEnd - 1, c.argListEnd), Group, "")] + QualifierFolds(c.args[0])
      else [];
    inner + [FoldingDescriptor(TextRange(c.nameStart - 1, end), Group, "~>")]
  }

  /** The fold hiding `Collectors.` or `MoreCollectors.` in a single
      collector argument, if that argument is such a call. */
  function QualifierFolds(a: Arg): seq<FoldingDescriptor>
  {
    if a.CallArg? && a.qualifier.Some? && IsFactoryFacade(a.qualifier.value.text) then
      [FoldingDescriptor(TextRange(a.qualifier.value.start, a.qualifier.value.end + 1), Group, "")]
    else []
  }

  // --------------------------------------------- descriptors of a whole pass

  /** The descriptors of the stream pass: one per stream call. */
  function StreamFolds(s: seq<Call>): (r: seq<FoldingDescriptor>)
    ensures |r| == |s|
    ensures forall i :: 0 <= i < |s| ==> r[i] == StreamFold(s[i])
  {
    if s == [] then [] else StreamFolds(s[..|s| - 1]) + [StreamFold(s[|s| - 1])]
  }

  /** The descriptors of the collect pass: each call's block, in order. */
  function CollectFoldsAll(s: seq<Call>): seq<FoldingDescriptor>
  {
    if s == [] then [] else CollectFoldsAll(s[..|s| - 1]) + CollectFolds(s[|s| - 1])
  }

  /** The number of descriptors the collect pass emits for s. */
  function CollectFoldTotal(s: seq<Call>): nat
  {
    if s == [] then 0 else CollectFoldTotal(s[..|s| - 1]) + CollectFoldCount(s[|s| - 1])
  }

  /** Sequence associativity, stated for the loops below as a proof hint. */
  lemma Append(a: seq<FoldingDescriptor>, b: seq<FoldingDescriptor>, c: seq<FoldingDescriptor>)
    ensures (a + b) + c == a + (b + c)
  {
  }

  lemma StreamFoldsStep(s: seq<Call>, i: nat)
    requires i < |s|
    ensures StreamFolds(s[..i + 1]) == StreamFolds(s[..i]) + [StreamFold(s[i])]
  {
    assert s[..i + 1][..i] == s[..i];
  }

  lemma CollectFoldsAllStep(s: seq<Call>, i: nat)
    requires i < |s|
    ensures CollectFoldsAll(s[..i + 1]) == CollectFoldsAll(s[..i]) + CollectFolds(s[i])
  {
    assert s[..i + 1][..i] == s[..i];
  }

  /** All descriptors built for the calls enumerated under the root. */
  function FoldRegions(calls: seq<Call>): seq<FoldingDescriptor>
    requires forall c :: c in calls ==> CollectReceiverTyped(c)
  {
    StreamFolds(StreamCalls(calls)) + CollectFoldsAll(CollectCalls(calls))
  }

  // ---------------------------------------------------------------- builder

  /** buildFoldRegions: `calls` is every method call expression under the
      root, as the tree enumeration yields them; both passes enumerate the
      same unchanged tree. The descriptors are appended to one list, the
      stream pass first. */
  method BuildFoldRegions(calls: seq<Call>) returns (descriptors: seq<FoldingDescriptor>)
    requires forall c :: c in calls ==> CollectReceiverTyped(c)
    ensures descriptors == FoldRegions(calls)
  {
    descriptors := [];

    var streamCalls := StreamCalls(calls);
    descriptors := AddStreamFolds(descriptors, streamCalls);

    var collectCalls := CollectCalls(calls);
    descriptors := AddCollectFolds(descriptors, collectCalls);
  }

  /** The stream pass's loop: one `~` descriptor per stream call,
      appended in order. */
  method AddStreamFolds(list: seq<FoldingDescriptor>, streamCalls: seq<Call>) returns (descriptors: seq<FoldingDescriptor>)
    ensures descriptors == list + StreamFolds(streamCalls)
  {
    descriptors := list;
    for i := 0 to |streamCalls|
      invariant descriptors == list + StreamFolds(streamCalls[..i])
    {
      var streamCall := streamCalls[i];
      descriptors := descriptors + [FoldingDescriptor(TextRange(streamCall.nameStart, streamCall.callEnd), Group, "~")];
      StreamFoldsStep(streamCalls, i);
      Append(list, StreamFolds(streamCalls[..i]), [StreamFold(streamCall)]);
    }
    assert streamCalls[..|streamCalls|] == streamCalls;
  }

  /** The collect pass's loop: each collect call's descriptors, appended in
      order; the `~>` descriptor of a call is appended last, after its end
      offset has been moved for a single-argument call. */
  method AddCollectFolds(list: seq<FoldingDescriptor>, collectCalls: seq<Call>) returns (descriptors: seq<FoldingDescriptor>)
    ensures descriptors == list + CollectFoldsAll(collectCalls)
  {
    descriptors := list;
    for i := 0 to |collectCalls|
      invariant descriptors == list + CollectFoldsAll(collectCalls[..i])
    {
      var collectCall := collectCalls[i];
      ghost var before := descriptors;
      var start := collectCall.nameStart - 1;
      var end := collectCall.nameEnd;

      var args := collectCall.args;
      ghost var inner: seq<FoldingDescriptor> := [];
      if |args| == 1 {
        end := collectCall.argListStart + 1;
        var closing := FoldingDescriptor(TextRange(collectCall.argListEnd - 1, collectCall.argListEnd), Group, "");
        descriptors, inner := descriptors + [closing], [closing];

        if args[0].CallArg? {
          var qualifier := args[0].qualifier;
          if qualifier.Some? && IsFactoryFacade(qualifier.value.text) {
            var hidden := FoldingDescriptor(TextRange(qualifier.value.start, qualifier.value.end + 1), Group, "");
            Append(before, inner, [hidden]);
            descriptors, inner := descriptors + [hidden], inner + [hidden];
          }
        }
        assert inner == [closing] + QualifierFolds(args[0]);
      }

      var folded := FoldingDescriptor(TextRange(start, end), Group, "~>");
      Append(before, inner, [folded]);
      descriptors := descriptors + [folded];
      assert inner + [folded] == CollectFolds(collectCall);
      CollectFoldsAllStep(collectCalls, i);
      Append(list, CollectFoldsAll(collectCalls[..i]), CollectFolds(collectCall));
    }
    assert collectCalls[..|collectCalls|] == collectCalls;
  }
}
