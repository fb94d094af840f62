/** Properties of the folding-region engine: the matchers exclude each
    other, the two passes keep exactly the matching calls, and the
    descriptor list has a fixed layout, count and exact offsets. */
module FoldProperties {
  import opened Psi
  import opened StreamFoldingBuilder

  // ---------------------------------------------------------------- matcher

  /** No call is both a stream producer and a collect terminal: the names
      they require differ. */
  lemma MatchersExclusive(c: Call)
    requires CollectReceiverTyped(c)
    ensures !(IsStreamCall(c) && IsCollectCall(c))
  {
  }

  /** Hence no call is folded by both passes. */
  lemma PassesDisjoint(calls: seq<Call>)
    requires forall c :: c in calls ==> CollectReceiverTyped(c)
    ensures forall c :: c in StreamCalls(calls) ==> c !in CollectCalls(calls)
  {
    StreamCallsMembers(calls);
    CollectCallsMembers(calls);
    forall c | c in StreamCalls(calls)
      ensures c !in CollectCalls(calls)
    {
      MatchersExclusive(c);
    }
  }

  // ---------------------------------------------------- the calls each pass folds

  /** The stream pass keeps every stream call as often as it is
      enumerated, and nothing else. */
  lemma {:induction false} StreamCallsMultiplicity(calls: seq<Call>)
    ensures forall c :: multiset(StreamCalls(calls))[c] == if IsStreamCall(c) then multiset(calls)[c] else 0
  {
    if calls != [] {
      StreamCallsMultiplicity(calls[1..]);
      assert calls == [calls[0]] + calls[1..];
    }
  }

  /** The collect pass keeps every collect call as often as it is
      enumerated, and nothing else. */
  lemma {:induction false} CollectCallsMultiplicity(calls: seq<Call>)
    requires forall c :: c in calls ==> CollectReceiverTyped(c)
    ensures forall c :: multiset(CollectCalls(calls))[c] == if c in calls && IsCollectCall(c) then multiset(calls)[c] else 0
  {
    if calls != [] {
      CollectCallsMultiplicity(calls[1..]);
      assert calls == [calls[0]] + calls[1..];
    }
  }

  /** The stream pass keeps exactly the enumerated stream calls. */
  lemma StreamCallsMembers(calls: seq<Call>)
    ensures forall c :: c in StreamCalls(calls) <==> c in calls && IsStreamCall(c)
  {
    StreamCallsMultiplicity(calls);
    forall c ensures c in StreamCalls(calls) <==> c in calls && IsStreamCall(c) {
      assert c in StreamCalls(calls) <==> multiset(StreamCalls(calls))[c] > 0;
      assert c in calls <==> multiset(calls)[c] > 0;
    }
  }

  /** The collect pass keeps exactly the enumerated collect calls. */
  lemma CollectCallsMembers(calls: seq<Call>)
    requires forall c :: c in calls ==> CollectReceiverTyped(c)
    ensures forall c :: c in CollectCalls(calls) <==> c in calls && IsCollectCall(c)
  {
    CollectCallsMultiplicity(calls);
    forall c ensures c in CollectCalls(calls) <==> c in calls && IsCollectCall(c) {
      assert c in CollectCalls(calls) <==> multiset(CollectCalls(calls))[c] > 0;
      assert c in calls <==> multiset(calls)[c] > 0;
    }
  }

  /** The stream pass keeps enumeration order: filtering a concatenation
      concatenates the filtered parts. */
  lemma {:induction false} StreamCallsAppend(a: seq<Call>, b: seq<Call>)
    ensures StreamCalls(a + b) == StreamCalls(a) + StreamCalls(b)
  {
    if a != [] {
      assert (a + b)[1..] == a[1..] + b;
      StreamCallsAppend(a[1..], b);
    } else {
      assert a + b == b;
    }
  }

  /** The collect pass keeps enumeration order. */
  lemma {:induction false} CollectCallsAppend(a: seq<Call>, b: seq<Call>)
    requires forall c :: c in a ==> CollectReceiverTyped(c)
    requires forall c :: c in b ==> CollectReceiverTyped(c)
    ensures forall c :: c in a + b ==> CollectReceiverTyped(c)
    ensures CollectCalls(a + b) == CollectCalls(a) + CollectCalls(b)
  {
    if a != [] {
      var rest := a[1..];
      assert (a + b)[0] == a[0] && (a + b)[1..] == rest + b;
      assert forall c :: c in rest ==> c in a;
      CollectCallsAppend(rest, b);
      assert CollectCalls(a) == (if IsCollectCall(a[0]) then [a[0]] else []) + CollectCalls(rest);
    } else {
      assert a + b == b;
    }
  }

  // ------------------------------------------------- descriptors of one call

  /** What one collect call contributes: one descriptor when it does not
      have exactly one argument, two or three otherwise; the closing-`)`
      fold first, then the facade fold if any, and the `~>` fold last,
      starting at the dot before the name and ending after the name or
      after the `(` of a single-argument call. */
  lemma CollectFoldsShape(c: Call)
    ensures var r := CollectFolds(c);
      && |r| == CollectFoldCount(c)
      && (|c.args| != 1 ==> |r| == 1)
      && (|c.args| == 1 ==> 2 <= |r| <= 3)
      && r[|r| - 1] == FoldingDescriptor(
           TextRange(c.nameStart - 1, if |c.args| == 1 then c.argListStart + 1 else c.nameEnd),
           Group, "~>")
      && (forall i :: 0 <= i < |r| - 1 ==> r[i].placeholder == "" && r[i].group == Group)
      && (|c.args| == 1 ==>
            r[0] == FoldingDescriptor(TextRange(c.argListEnd - 1, c.argListEnd), Group, ""))
      && (HasFacadeQualifier(c) ==>
            var q := c.args[0].qualifier.value;
            r[1] == FoldingDescriptor(TextRange(q.start, q.end + 1), Group, ""))
  {
  }

  /** In a well laid out call, the descriptors of a collect call are proper
      non-empty ranges that lie between the dot before the name and the end
      of the argument list and do not overlap one another. */
  lemma CollectFoldsProper(c: Call)
    requires WellLaidOut(c)
    ensures var r := CollectFolds(c);
      && (forall i :: 0 <= i < |r| ==>
            && 0 <= r[i].range.start < r[i].range.end
            && c.nameStart - 1 <= r[i].range.start
            && r[i].range.end <= c.argListEnd)
      && (forall i, j :: 0 <= i < j < |r| ==>
            r[i].range.end <= r[j].range.start || r[j].range.end <= r[i].range.start)
  {
    var r := CollectFolds(c);
    if |c.args| == 1 {
      assert c.args[0] in c.args;
      match c.args[0]
      case CallArg(Some(q)) =>
        assert c.argListStart + 1 <= q.start <= q.end < c.argListEnd - 1;
      case _ =>
    }
  }

  // --------------------------------------------- descriptors of a whole pass

  /** The last descriptor a collect call contributes is its `~>` fold. */
  lemma CollectFoldsLast(c: Call)
    ensures |CollectFolds(c)| > 0 && CollectFolds(c)[|CollectFolds(c)| - 1].placeholder == "~>"
  {
  }

  /** A collect call contributes CollectFoldCount descriptors. */
  lemma CollectFoldsLength(c: Call)
    ensures |CollectFolds(c)| == CollectFoldCount(c)
  {
  }

  /** The collect pass emits CollectFoldTotal descriptors. */
  lemma {:induction false} CollectFoldsAllLength(s: seq<Call>)
    ensures |CollectFoldsAll(s)| == CollectFoldTotal(s)
  {
    if s != [] {
      CollectFoldsAllLength(s[..|s| - 1]);
      CollectFoldsLength(s[|s| - 1]);
    }
  }

  /** The collect pass over a concatenation is the concatenation of the
      two passes. */
  lemma {:induction false} CollectFoldsAllConcat(a: seq<Call>, b: seq<Call>)
    ensures CollectFoldsAll(a + b) == CollectFoldsAll(a) + CollectFoldsAll(b)
  {
    if b == [] {
      assert a + b == a;
    } else {
      var init := b[..|b| - 1];
      assert (a + b)[..|a + b| - 1] == a + init;
      assert (a + b)[|a + b| - 1] == b[|b| - 1];
      CollectFoldsAllConcat(a, init);
      Append(CollectFoldsAll(a), CollectFoldsAll(init), CollectFolds(b[|b| - 1]));
    }
  }

  /** The j-th collect call's descriptors form one contiguous block of the
      collect pass, right after the blocks of the calls before it. */
  lemma CollectBlock(s: seq<Call>, j: nat)
    requires j < |s|
    ensures CollectFoldTotal(s[..j + 1]) == CollectFoldTotal(s[..j]) + CollectFoldCount(s[j])
    ensures CollectFoldTotal(s[..j + 1]) <= |CollectFoldsAll(s)|
    ensures CollectFoldsAll(s)[CollectFoldTotal(s[..j]) .. CollectFoldTotal(s[..j + 1])] == CollectFolds(s[j])
  {
    var front, block, rest := CollectFoldsAll(s[..j]), CollectFolds(s[j]), CollectFoldsAll(s[j + 1..]);
    assert s == s[..j + 1] + s[j + 1..];
    CollectFoldsAllConcat(s[..j + 1], s[j + 1..]);
    CollectFoldsAllStep(s, j);
    assert s[..j + 1][..j] == s[..j];
    CollectFoldsAllLength(s[..j]);
    CollectFoldsLength(s[j]);
    Append(front, block, rest);
    SliceLeft(block, rest, 0, |block|);
    SliceRight(front, block + rest, 0, |block|);
    assert block[0 .. |block|] == block;
  }

  /** The block of the j-th collect call ends with its `~>` fold. */
  lemma CollectBlockLast(s: seq<Call>, j: nat)
    requires j < |s|
    ensures 1 <= CollectFoldTotal(s[..j + 1]) <= |CollectFoldsAll(s)|
    ensures CollectFoldsAll(s)[CollectFoldTotal(s[..j + 1]) - 1].placeholder == "~>"
  {
    CollectBlock(s, j);
    CollectFoldsLast(s[j]);
    var lo, hi := CollectFoldTotal(s[..j]), CollectFoldTotal(s[..j + 1]);
    var block := CollectFoldsAll(s)[lo .. hi];
    assert CollectFoldsAll(s)[hi - 1] == block[hi - lo - 1];
  }

  lemma SliceLeft<T>(a: seq<T>, b: seq<T>, lo: nat, hi: nat)
    requires lo <= hi <= |a|
    ensures (a + b)[lo .. hi] == a[lo .. hi]
  {
  }

  lemma SliceRight<T>(a: seq<T>, b: seq<T>, lo: nat, hi: nat)
    requires lo <= hi <= |b|
    ensures (a + b)[|a| + lo .. |a| + hi] == b[lo .. hi]
  {
  }

  /** Every descriptor of the collect pass is a `~>` fold or an empty-
      placeholder fold, in the shared group. */
  lemma {:induction false} CollectFoldsAllPlaceholders(s: seq<Call>)
    ensures forall d :: d in CollectFoldsAll(s) ==>
              d.group == Group && (d.placeholder == "~>" || d.placeholder == "")
  {
    if s != [] {
      CollectFoldsAllPlaceholders(s[..|s| - 1]);
      CollectFoldsShape(s[|s| - 1]);
    }
  }

  /** The output of buildFoldRegions has one `~` fold per stream call,
      [name start, call end), all of them first; everything after them
      comes from the collect pass; and its length is the number of stream
      calls plus CollectFoldCount of each collect call. */
  lemma FoldRegionsLayout(calls: seq<Call>)
    requires forall c :: c in calls ==> CollectReceiverTyped(c)
    ensures var ss := StreamCalls(calls);
      var r := FoldRegions(calls);
      && |r| == |ss| + CollectFoldTotal(CollectCalls(calls))
      && r[|ss|..] == CollectFoldsAll(CollectCalls(calls))
      && (forall i :: 0 <= i < |ss| ==>
            r[i] == FoldingDescriptor(TextRange(ss[i].nameStart, ss[i].callEnd), Group, "~"))
      && (forall i :: |ss| <= i < |r| ==> r[i].placeholder == "~>" || r[i].placeholder == "")
  {
    var ss := StreamCalls(calls);
    var r := FoldRegions(calls);
    var tail := CollectFoldsAll(CollectCalls(calls));
    assert r[|ss|..] == tail;
    CollectFoldsAllLength(CollectCalls(calls));
    CollectFoldsAllPlaceholders(CollectCalls(calls));
    forall i | |ss| <= i < |r|
      ensures r[i].placeholder == "~>" || r[i].placeholder == ""
    {
      assert r[i] == tail[i - |ss|];
      assert tail[i - |ss|] in tail;
    }
  }

  /** How many descriptors carry placeholder p. */
  function Occurrences(r: seq<FoldingDescriptor>, p: string): nat
  {
    if r == [] then 0 else Occurrences(r[..|r| - 1], p) + (if r[|r| - 1].placeholder == p then 1 else 0)
  }

  lemma {:induction false} OccurrencesAppend(a: seq<FoldingDescriptor>, b: seq<FoldingDescriptor>, p: string)
    ensures Occurrences(a + b, p) == Occurrences(a, p) + Occurrences(b, p)
  {
    if b != [] {
      assert (a + b)[..|a + b| - 1] == a + b[..|b| - 1];
      OccurrencesAppend(a, b[..|b| - 1], p);
    } else {
      assert a + b == a;
    }
  }

  lemma {:induction false} StreamFoldsOccurrences(s: seq<Call>)
    ensures Occurrences(StreamFolds(s), "~") == |s|
    ensures Occurrences(StreamFolds(s), "~>") == 0
  {
    if s != [] {
      StreamFoldsOccurrences(s[..|s| - 1]);
      OccurrencesAppend(StreamFolds(s[..|s| - 1]), [StreamFold(s[|s| - 1])], "~");
      OccurrencesAppend(StreamFolds(s[..|s| - 1]), [StreamFold(s[|s| - 1])], "~>");
      assert [StreamFold(s[|s| - 1])][..0] == [];
    }
  }

  lemma CollectFoldsOccurrences(c: Call)
    ensures Occurrences(CollectFolds(c), "~>") == 1
    ensures Occurrences(CollectFolds(c), "~") == 0
  {
    var r := CollectFolds(c);
    CollectFoldsShape(c);
    var init := r[..|r| - 1];
    assert forall k :: 0 <= k < |init| ==> init[k].placeholder == "";
    EmptyPlaceholdersOccurrences(init);
  }

  lemma {:induction false} EmptyPlaceholdersOccurrences(r: seq<FoldingDescriptor>)
    requires forall k :: 0 <= k < |r| ==> r[k].placeholder == ""
    ensures Occurrences(r, "~>") == 0 && Occurrences(r, "~") == 0
  {
    if r != [] {
      EmptyPlaceholdersOccurrences(r[..|r| - 1]);
    }
  }

  lemma {:induction false} CollectFoldsAllOccurrences(s: seq<Call>)
    ensures Occurrences(CollectFoldsAll(s), "~>") == |s|
    ensures Occurrences(CollectFoldsAll(s), "~") == 0
  {
    if s != [] {
      var init := s[..|s| - 1];
      CollectFoldsAllOccurrences(init);
      CollectFoldsOccurrences(s[|s| - 1]);
      OccurrencesAppend(CollectFoldsAll(init), CollectFolds(s[|s| - 1]), "~>");
      OccurrencesAppend(CollectFoldsAll(init), CollectFolds(s[|s| - 1]), "~");
    }
  }

  /** Each stream call yields exactly one `~` fold and each collect call
      exactly one `~>` fold. */
  lemma FoldRegionsPlaceholderCounts(calls: seq<Call>)
    requires forall c :: c in calls ==> CollectReceiverTyped(c)
    ensures Occurrences(FoldRegions(calls), "~") == |StreamCalls(calls)|
    ensures Occurrences(FoldRegions(calls), "~>") == |CollectCalls(calls)|
  {
    var ss, cs := StreamCalls(calls), CollectCalls(calls);
    StreamFoldsOccurrences(ss);
    CollectFoldsAllOccurrences(cs);
    OccurrencesAppend(StreamFolds(ss), CollectFoldsAll(cs), "~");
    OccurrencesAppend(StreamFolds(ss), CollectFoldsAll(cs), "~>");
  }

  /** With every call well laid out, every emitted range is a proper,
      non-empty range of the document. */
  lemma FoldRegionsProper(calls: seq<Call>)
    requires forall c :: c in calls ==> CollectReceiverTyped(c) && WellLaidOut(c)
    ensures forall d :: d in FoldRegions(calls) ==> 0 <= d.range.start < d.range.end
  {
    var ss, cs := StreamCalls(calls), CollectCalls(calls);
    StreamCallsMembers(calls);
    CollectCallsMembers(calls);
    CollectFoldsAllProper(cs);
    forall i | 0 <= i < |ss|
      ensures 0 <= StreamFolds(ss)[i].range.start < StreamFolds(ss)[i].range.end
    {
      assert ss[i] in calls;
    }
  }

  lemma {:induction false} CollectFoldsAllProper(s: seq<Call>)
    requires forall c :: c in s ==> WellLaidOut(c)
    ensures forall d :: d in CollectFoldsAll(s) ==> 0 <= d.range.start < d.range.end
  {
    if s != [] {
      CollectFoldsAllProper(s[..|s| - 1]);
      CollectFoldsProper(s[|s| - 1]);
    }
  }

  // ------------------------------------------------------ literal scenarios

  /** `list.stream()` spanning [10, 40) with its name at [11, 17). */
  function StreamCallAt(): Call
  {
    Call(Some(MethodInfo("stream", 0, Some(StreamType))), Some("java.util.List"), 11, 17, 40, 17, 19, [])
  }

  lemma StreamScenario()
    ensures FoldRegions([StreamCallAt()]) == [FoldingDescriptor(TextRange(11, 40), Group, "~")]
  {
    assert [StreamCallAt()][1..] == [];
  }

  /** Matcher fixtures: a wrong name, a wrong arity, a wrong return type and
      an unresolved call are not stream calls. */
  lemma StreamMatcherScenarios()
    ensures IsStreamCall(StreamCallAt())
    ensures !IsStreamCall(StreamCallAt().(resolved := Some(MethodInfo("parallelStream", 0, Some(StreamType)))))
    ensures !IsStreamCall(StreamCallAt().(resolved := Some(MethodInfo("stream", 1, Some(StreamType)))))
    ensures !IsStreamCall(StreamCallAt().(resolved := Some(MethodInfo("stream", 0, Some("java.util.stream.IntStream")))))
    ensures !IsStreamCall(StreamCallAt().(resolved := None))
  {
  }

  /** `s.collect(a, b, c)` spanning [19, 35) with its name at [20, 27),
      lying inside the text of the stream call above. */
  function NestedCollectAt(): Call
  {
    Call(Some(MethodInfo("collect", 3, Some("java.lang.Object"))), Some(StreamType),
         20, 27, 35, 27, 30, [OtherArg, OtherArg, OtherArg])
  }

  /** Folds of different calls are not disjoint in general: the stream
      fold runs to the end of its call and so covers a collect call
      nested in it, although both calls are well laid out. */
  lemma CrossCallOverlapScenario()
    ensures WellLaidOut(StreamCallAt()) && WellLaidOut(NestedCollectAt())
    ensures FoldRegions([StreamCallAt(), NestedCollectAt()]) == [
              FoldingDescriptor(TextRange(11, 40), Group, "~"),
              FoldingDescriptor(TextRange(19, 27), Group, "~>")]
  {
    var calls := [StreamCallAt(), NestedCollectAt()];
    assert calls[1..] == [NestedCollectAt()] && calls[1..][1..] == [];
    assert StreamCalls(calls) == [StreamCallAt()];
    assert CollectCalls(calls) == [NestedCollectAt()];
    assert [NestedCollectAt()][..0] == [];
  }

  /** `s.collect(Collectors.toList())`: name [50, 57), argument list
      [57, 76), qualifier `Collectors` at [58, 68). */
  function CollectorsCallAt(): Call
  {
    Call(Some(MethodInfo("collect", 1, Some("java.lang.Object"))), Some(StreamType),
         50, 57, 76, 57, 76, [CallArg(Some(Qualifier("Collectors", 58, 68)))])
  }

  lemma CollectorsScenario()
    ensures FoldRegions([CollectorsCallAt()]) == [
              FoldingDescriptor(TextRange(75, 76), Group, ""),
              FoldingDescriptor(TextRange(58, 69), Group, ""),
              FoldingDescriptor(TextRange(49, 58), Group, "~>")]
  {
    assert [CollectorsCallAt()][1..] == [] && [CollectorsCallAt()][..0] == [];
  }

  /** `s.collect(supplier, accumulator, combiner)` laid out like the call
      above. */
  function AccumulatorCallAt(): Call
  {
    CollectorsCallAt().(args := [OtherArg, OtherArg, OtherArg])
  }

  /** Three arguments: only the `~>` fold over the dot and the name. */
  lemma AccumulatorScenario()
    ensures FoldRegions([AccumulatorCallAt()]) == [FoldingDescriptor(TextRange(49, 57), Group, "~>")]
  {
    assert [AccumulatorCallAt()][1..] == [] && [AccumulatorCallAt()][..0] == [];
    assert IsCollectCall(AccumulatorCallAt()) && !IsStreamCall(AccumulatorCallAt());
    assert StreamCalls([AccumulatorCallAt()]) == [];
    assert CollectCalls([AccumulatorCallAt()]) == [AccumulatorCallAt()];
  }

  /** The receiver may also be jOOλ's Seq. */
  lemma SeqReceiverScenario()
    ensures IsCollectCall(CollectorsCallAt().(qualifierType := Some(SeqType)))
  {
  }

  /** A `collect` on a receiver of another type folds nothing. */
  lemma UnrelatedCollectScenario()
    ensures FoldRegions([CollectorsCallAt().(qualifierType := Some("com.example.Bag"))]) == []
  {
    var bag := CollectorsCallAt().(qualifierType := Some("com.example.Bag"));
    assert [bag][1..] == [];
    assert !IsCollectCall(bag) && !IsStreamCall(bag);
    assert StreamCalls([bag]) == [];
    assert CollectCalls([bag]) == [];
  }
}
