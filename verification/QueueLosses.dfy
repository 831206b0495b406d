/**
 What the queue loads when printed records contain the characters at which `splitlines` cuts:
 of such a record the lines that can be read by themselves, of every other the record.
 */
module QueueLosses {
  import opened ActionQueue
  import opened Text
  import opened Wrappers

  lemma FirstBreakOfLine(e: string, rest: string)
    requires FirstBreak(e) < |e|
    ensures FirstBreak(e + "\n" + rest) == FirstBreak(e)
  {
    var s := e + "\n" + rest;
    assert forall i :: 0 <= i < |e| ==> s[i] == e[i];
  }

  lemma FirstLineCut(e: string, rest: string, b: nat)
    requires b < |e| && b == FirstBreak(e) && e[b] != '\r'
    ensures Lines(e + "\n" + rest) == [e[..b]] + Lines(e[b + 1..] + "\n" + rest)
  {
    var s := e + "\n" + rest;
    FirstBreakOfLine(e, rest);
    assert s[b] == e[b] && s[..b] == e[..b];
    assert s[b + 1..] == e[b + 1..] + "\n" + rest;
  }

  /** The only breaks are those that JSON strings may contain. */
  ghost predicate OnlyUnescaped(e: string) {
    forall i :: 0 <= i < |e| && IsBreak(e[i]) ==> IsUnescapedBreak(e[i])
  }

  lemma TailUnescaped(e: string)
    requires OnlyUnescaped(e) && FirstBreak(e) < |e|
    ensures e[FirstBreak(e)] != '\r' && OnlyUnescaped(e[FirstBreak(e) + 1..])
  {
    var b := FirstBreak(e);
    var tail := e[b + 1..];
    forall i | 0 <= i < |tail| && IsBreak(tail[i]) ensures IsUnescapedBreak(tail[i]) {
      assert tail[i] == e[b + 1 + i];
    }
  }

  lemma FirstBreakNone(e: string)
    requires FirstBreak(e) == |e|
    ensures forall i :: 0 <= i < |e| ==> !IsBreak(e[i])
  {
  }

  /** The lines of the printed record when it is followed by a newline. */
  function PartsOf(e: string): (parts: seq<string>)
    decreases |e|
  {
    if FirstBreak(e) == |e| then [e] else [e[..FirstBreak(e)]] + PartsOf(e[FirstBreak(e) + 1..])
  }

  /** Its lines are its parts, whatever follows. */
  lemma {:induction false} LinesOfRecord(e: string, rest: string)
    requires OnlyUnescaped(e)
    ensures Lines(e + "\n" + rest) == PartsOf(e) + Lines(rest)
    decreases |e|
  {
    var b := FirstBreak(e);
    if b == |e| {
      FirstBreakNone(e);
      LineThenRest(e, rest);
    } else {
      TailUnescaped(e);
      FirstLineCut(e, rest, b);
      LinesOfRecord(e[b + 1..], rest);
      Regroup([e[..b]], PartsOf(e[b + 1..]), Lines(rest));
    }
  }

  lemma Regroup(a: seq<string>, b: seq<string>, c: seq<string>)
    ensures (a + b) + c == a + (b + c)
  {
  }

  lemma {:induction false} DecodedNothing(lines: seq<string>, codec: Codec)
    ensures Decoded(lines, codec) == [] <==> forall k :: 0 <= k < |lines| ==> Item(lines[k], codec) == None
  {
    if lines != [] {
      var n := |lines| - 1;
      DecodedNothing(lines[..n], codec);
      assert forall k :: 0 <= k < n ==> lines[..n][k] == lines[k];
    }
  }

  /** What loads of a written record. */
  function LoadedFrom(a: Action, codec: Codec): seq<Action> {
    Decoded(PartsOf(codec.encode(a)), codec)
  }

  function LoadedAll(actions: seq<Action>, codec: Codec): seq<Action> {
    if actions == [] then [] else LoadedFrom(actions[0], codec) + LoadedAll(actions[1..], codec)
  }

  lemma LoadedOne(a: Action, codec: Codec)
    ensures LoadedAll([a], codec) == LoadedFrom(a, codec)
  {
    assert [a][1..] == [];
  }

  lemma {:induction false} LoadedAllAppend(actions: seq<Action>, a: Action, codec: Codec)
    ensures LoadedAll(actions + [a], codec) == LoadedAll(actions, codec) + LoadedFrom(a, codec)
  {
    if actions == [] {
      assert [] + [a] == [a];
      LoadedOne(a, codec);
    } else {
      assert (actions + [a])[1..] == actions[1..] + [a];
      LoadedAllAppend(actions[1..], a, codec);
    }
  }

  /** A file loads as what loads of each of its records, one after the other. */
  lemma {:induction false} TextLoadsAs(actions: seq<Action>, codec: Codec)
    requires forall a :: a in actions ==> FaithfulFor(codec, a)
    ensures Loaded(TextOf(actions, codec), codec) == LoadedAll(actions, codec)
  {
    if actions != [] {
      assert FaithfulFor(codec, actions[0]);
      LinesOfRecord(codec.encode(actions[0]), TextOf(actions[1..], codec));
      DecodedAppend(PartsOf(codec.encode(actions[0])), Lines(TextOf(actions[1..], codec)), codec);
      TextLoadsAs(actions[1..], codec);
    }
  }

  /** The records that are not cut. */
  ghost function Kept(actions: seq<Action>, codec: Codec): seq<Action> {
    if actions == [] then []
    else (if Unbroken(actions[0], codec) then [actions[0]] else []) + Kept(actions[1..], codec)
  }

  lemma {:induction false} KeptUnbroken(actions: seq<Action>, codec: Codec)
    ensures AllUnbroken(Kept(actions, codec), codec)
  {
    if actions != [] {
      KeptUnbroken(actions[1..], codec);
    }
  }

  /** Nothing is dropped exactly when no record is cut. */
  lemma {:induction false} KeptAllExactly(actions: seq<Action>, codec: Codec)
    ensures |Kept(actions, codec)| <= |actions|
    ensures Kept(actions, codec) == actions <==> AllUnbroken(actions, codec)
  {
    if actions != [] {
      KeptAllExactly(actions[1..], codec);
      assert AllUnbroken(actions, codec) <==> Unbroken(actions[0], codec) && AllUnbroken(actions[1..], codec) by {
        assert forall i :: 1 <= i < |actions| ==> actions[i] == actions[1..][i - 1];
      }
      if Unbroken(actions[0], codec) {
        assert Kept(actions, codec)[1..] == Kept(actions[1..], codec);
      }
    }
  }

  lemma {:induction false} KeptAppend(actions: seq<Action>, a: Action, codec: Codec)
    ensures Kept(actions + [a], codec) == Kept(actions, codec) + if Unbroken(a, codec) then [a] else []
  {
    if actions == [] {
      assert [] + [a] == [a] && [a][1..] == [];
    } else {
      assert (actions + [a])[1..] == actions[1..] + [a];
      KeptAppend(actions[1..], a, codec);
    }
  }

  /** None of the lines a cut record leaves can be read. */
  ghost predicate SilentWhenCut(a: Action, codec: Codec) {
    var parts := PartsOf(codec.encode(a));
    !Unbroken(a, codec) ==> forall k :: 0 <= k < |parts| ==> Item(parts[k], codec) == None
  }

  ghost predicate AllSilentWhenCut(actions: seq<Action>, codec: Codec) {
    forall i :: 0 <= i < |actions| ==> SilentWhenCut(actions[i], codec)
  }

  lemma UnbrokenLoads(a: Action, codec: Codec)
    requires FaithfulFor(codec, a) && Unbroken(a, codec)
    ensures LoadedFrom(a, codec) == [a]
  {
    var e := codec.encode(a);
    UnbrokenLine(a, codec);
    assert FirstBreak(e) == |e|;
    DecodedOne(e, codec);
  }

  lemma AllSilentCons(actions: seq<Action>, codec: Codec)
    requires actions != []
    ensures AllSilentWhenCut(actions, codec) <==>
              SilentWhenCut(actions[0], codec) && AllSilentWhenCut(actions[1..], codec)
  {
    assert forall i :: 1 <= i < |actions| ==> actions[i] == actions[1..][i - 1];
  }

  /** At least the records that are not cut load, and nothing else exactly when cut ones are silent. */
  lemma {:induction false} KeptAtLeast(actions: seq<Action>, codec: Codec)
    requires forall a :: a in actions ==> FaithfulFor(codec, a)
    ensures |LoadedAll(actions, codec)| >= |Kept(actions, codec)|
    ensures |LoadedAll(actions, codec)| == |Kept(actions, codec)| ==> AllSilentWhenCut(actions, codec)
    ensures AllSilentWhenCut(actions, codec) ==> LoadedAll(actions, codec) == Kept(actions, codec)
  {
    if actions != [] {
      var a := actions[0];
      KeptAtLeast(actions[1..], codec);
      AllSilentCons(actions, codec);
      assert FaithfulFor(codec, a);
      if Unbroken(a, codec) {
        UnbrokenLoads(a, codec);
      } else {
        DecodedNothing(PartsOf(codec.encode(a)), codec);
      }
    }
  }

  /**
   A file loads as exactly its records that are not cut, in order, if and only if no line that
   a cut record leaves can be read by itself.
   */
  lemma TextLoadsExactly(actions: seq<Action>, codec: Codec)
    requires forall a :: a in actions ==> FaithfulFor(codec, a)
    ensures Loaded(TextOf(actions, codec), codec) == Kept(actions, codec) <==> AllSilentWhenCut(actions, codec)
  {
    TextLoadsAs(actions, codec);
    KeptAtLeast(actions, codec);
  }

  /** The list the file is the text of. */
  function FileList(actions: seq<Action>, ops: seq<Operation>, codec: Codec): seq<Action> {
    if ops == [] then actions
    else
      var before := FileList(actions, ops[..|ops| - 1], codec);
      match ops[|ops| - 1]
      case Enqueue(a) => before + [a]
      case Update(id, status, at) =>
        var loaded := LoadedAll(before, codec);
        if !Raises(loaded, id) && HasId(loaded, id) then Updated(loaded, id, status, at) else before
  }

  /** What a run makes loadable. A successful update writes everything that loads once more. */
  function LoadedAfter(loaded: seq<Action>, ops: seq<Operation>, codec: Codec): seq<Action> {
    if ops == [] then loaded
    else
      var before := LoadedAfter(loaded, ops[..|ops| - 1], codec);
      match ops[|ops| - 1]
      case Enqueue(a) => before + LoadedFrom(a, codec)
      case Update(id, status, at) =>
        if !Raises(before, id) && HasId(before, id) then LoadedAll(Updated(before, id, status, at), codec) else before
  }

  /** Every run, whatever is cut and whatever the fragments read as. */
  lemma {:induction false} RunLoadsAs(actions: seq<Action>, ops: seq<Operation>, codec: Codec)
    requires Faithful(codec)
    ensures FileAfter(TextOf(actions, codec), ops, codec) == TextOf(FileList(actions, ops, codec), codec)
    ensures LoadedAll(FileList(actions, ops, codec), codec) == LoadedAfter(LoadedAll(actions, codec), ops, codec)
    ensures Loaded(FileAfter(TextOf(actions, codec), ops, codec), codec)
         == LoadedAfter(LoadedAll(actions, codec), ops, codec)
  {
    if ops != [] {
      var n := |ops| - 1;
      var before := FileList(actions, ops[..n], codec);
      RunLoadsAs(actions, ops[..n], codec);
      TextLoadsAs(before, codec);
      if ops[n].Enqueue? {
        TextAppend(before, ops[n].action, codec);
        LoadedAllAppend(before, ops[n].action, codec);
      }
    }
    TextLoadsAs(FileList(actions, ops, codec), codec);
  }

  /** The list under appending and first-id update, without the records that are cut when written. */
  ghost function VisibleAfter(visible: seq<Action>, ops: seq<Operation>, codec: Codec): seq<Action> {
    if ops == [] then visible
    else
      var before := VisibleAfter(visible, ops[..|ops| - 1], codec);
      match ops[|ops| - 1]
      case Enqueue(a) => before + if Unbroken(a, codec) then [a] else []
      case Update(id, status, at) => Kept(AfterSearch(before, id, status, at), codec)
  }

  /** What the operation writes is silent when it is cut. */
  ghost predicate Silent(op: Operation, codec: Codec) {
    match op
    case Enqueue(a) => SilentWhenCut(a, codec)
    case Update(_, status, at) =>
      forall a: Action :: a.Action? && Unbroken(a, codec) ==> SilentWhenCut(Marked(a, status, at), codec)
  }

  lemma {:induction false} UpdatedSilent(actions: seq<Action>, id: string, status: string, at: int, codec: Codec)
    requires AllUnbroken(actions, codec) && Silent(Update(id, status, at), codec)
    ensures AllSilentWhenCut(Updated(actions, id, status, at), codec)
  {
    if actions != [] {
      var all := Updated(actions, id, status, at);
      if Named(actions[0], id) {
        assert Unbroken(actions[0], codec) && SilentWhenCut(all[0], codec);
      } else {
        UpdatedSilent(actions[1..], id, status, at, codec);
        assert all[1..] == Updated(actions[1..], id, status, at);
        AllSilentCons(all, codec);
      }
    }
  }

  lemma UpdateVisible(before: seq<Action>, id: string, status: string, at: int, codec: Codec)
    requires Faithful(codec) && AllUnbroken(before, codec) && Silent(Update(id, status, at), codec)
    ensures Kept(AfterSearch(before, id, status, at), codec)
         == if !Raises(before, id) && HasId(before, id) then LoadedAll(Updated(before, id, status, at), codec)
            else before
  {
    KeptAllExactly(before, codec);
    if !Raises(before, id) {
      if HasId(before, id) {
        UpdatedSilent(before, id, status, at, codec);
        KeptAtLeast(Updated(before, id, status, at), codec);
      } else {
        UpdateWithoutId(before, id, status, at);
      }
    }
  }

  lemma {:induction false} VisibleUnbroken(visible: seq<Action>, ops: seq<Operation>, codec: Codec)
    requires AllUnbroken(visible, codec)
    ensures AllUnbroken(VisibleAfter(visible, ops, codec), codec)
  {
    if ops != [] {
      var n := |ops| - 1;
      VisibleUnbroken(visible, ops[..n], codec);
      if ops[n].Update? {
        KeptUnbroken(AfterSearch(VisibleAfter(visible, ops[..n], codec), ops[n].id, ops[n].status, ops[n].at), codec);
      }
    }
  }

  /** What the operation adds to the loaded records. */
  lemma StepVisible(before: seq<Action>, op: Operation, codec: Codec)
    requires Faithful(codec) && AllUnbroken(before, codec) && Silent(op, codec)
    ensures LoadedAfter(before, [op], codec) == VisibleAfter(before, [op], codec)
  {
    assert [op][..0] == [];
    match op
    case Enqueue(a) =>
      KeptAtLeast([a], codec);
      LoadedOne(a, codec);
      assert [a][1..] == [];
    case Update(id, status, at) => UpdateVisible(before, id, status, at, codec);
  }

  lemma LastStep(start: seq<Action>, ops: seq<Operation>, codec: Codec)
    requires ops != []
    ensures LoadedAfter(start, ops, codec)
         == LoadedAfter(LoadedAfter(start, ops[..|ops| - 1], codec), [ops[|ops| - 1]], codec)
    ensures VisibleAfter(start, ops, codec)
         == VisibleAfter(VisibleAfter(start, ops[..|ops| - 1], codec), [ops[|ops| - 1]], codec)
  {
    assert [ops[|ops| - 1]][..0] == [];
  }

  lemma {:induction false} SilentRun(visible: seq<Action>, ops: seq<Operation>, codec: Codec)
    requires Faithful(codec) && AllUnbroken(visible, codec)
    requires forall i :: 0 <= i < |ops| ==> Silent(ops[i], codec)
    ensures LoadedAfter(visible, ops, codec) == VisibleAfter(visible, ops, codec)
  {
    if ops != [] {
      var n := |ops| - 1;
      assert forall i :: 0 <= i < n ==> ops[..n][i] == ops[i];
      SilentRun(visible, ops[..n], codec);
      VisibleUnbroken(visible, ops[..n], codec);
      StepVisible(VisibleAfter(visible, ops[..n], codec), ops[n], codec);
      LastStep(visible, ops, codec);
    }
  }

  /**
   Over a run that writes no cut record with a readable line, the file loads as the list under
   appending and first-id update, except that a record is lost when it is written cut.
   */
  lemma RunLoadsExactly(actions: seq<Action>, ops: seq<Operation>, codec: Codec)
    requires Faithful(codec) && AllSilentWhenCut(actions, codec)
    requires forall i :: 0 <= i < |ops| ==> Silent(ops[i], codec)
    ensures Loaded(FileAfter(TextOf(actions, codec), ops, codec), codec)
         == VisibleAfter(Kept(actions, codec), ops, codec)
  {
    RunLoadsAs(actions, ops, codec);
    KeptAtLeast(actions, codec);
    KeptUnbroken(actions, codec);
    SilentRun(Kept(actions, codec), ops, codec);
  }

  ghost predicate NoBreak(s: string) {
    forall i :: 0 <= i < |s| ==> !IsBreak(s[i])
  }

  lemma CutOff(first: string, rest: string)
    requires NoBreak(first)
    ensures PartsOf(first + "\U{2028}" + rest) == [first] + PartsOf(rest)
  {
    var s := first + "\U{2028}" + rest;
    assert s[|first|] == '\U{2028}' && forall i :: 0 <= i < |first| ==> s[i] == first[i];
    assert FirstBreak(s) == |first|;
    assert s[..|first|] == first && s[|first| + 1..] == rest;
  }

  lemma Uncut(last: string)
    requires NoBreak(last)
    ensures PartsOf(last) == [last]
  {
    assert FirstBreak(last) == |last|;
  }

  lemma ThreeLines(first: string, middle: string, last: string, codec: Codec)
    requires NoBreak(first) && NoBreak(middle) && NoBreak(last)
    requires Item(first, codec) == None && Item(last, codec) == None
    ensures Decoded(PartsOf(first + "\U{2028}" + (middle + "\U{2028}" + last)), codec) == AsList(Item(middle, codec))
  {
    CutOff(first, middle + "\U{2028}" + last);
    CutOff(middle, last);
    Uncut(last);
    DecodedAppend([first], [middle] + [last], codec);
    DecodedAppend([middle], [last], codec);
    DecodedOne(first, codec);
    DecodedOne(middle, codec);
    DecodedOne(last, codec);
  }

  const BEFORE := "{\"reason\": \"a"
  const BETWEEN := "1"
  const BEHIND := "b\"}"

  lemma WitnessLines()
    ensures NoBreak(BEFORE) && NoBreak(BETWEEN) && NoBreak(BEHIND) && !Blank(BETWEEN)
  {
    NotBlankAt(BETWEEN, 0);
  }

  lemma CutRecordReads(a: Action, codec: Codec, first: string, middle: string, last: string)
    requires codec.encode(a) == first + "\U{2028}" + (middle + "\U{2028}" + last) && FaithfulFor(codec, a)
    requires NoBreak(first) && NoBreak(middle) && NoBreak(last)
    requires Item(first, codec) == None && Item(last, codec) == None
    ensures Loaded(TextOf([a], codec), codec) == AsList(Item(middle, codec))
  {
    TextLoadsAs([a], codec);
    LoadedOne(a, codec);
    ThreeLines(first, middle, last, codec);
  }

  lemma LoneValueRaises(value: string, id: string)
    ensures WithStatus([NotADict(value)], Some("pending")) == None && Raises([NotADict(value)], id)
  {
  }

  /**
   A cut record with a readable line, the number 1, between two that no parser reads: the
   queue then loads the number, filtering by a status raises, and so does every update.
   */
  lemma ReadableFragmentWitness(a: Action, codec: Codec, id: string)
    requires codec.encode(a) == BEFORE + "\U{2028}" + (BETWEEN + "\U{2028}" + BEHIND) && FaithfulFor(codec, a)
    requires codec.decode(BEFORE) == None && codec.decode(BEHIND) == None
    requires codec.decode(BETWEEN) == Some(NotADict(BETWEEN))
    ensures var loaded := Loaded(TextOf([a], codec), codec);
            && loaded == [NotADict(BETWEEN)]
            && WithStatus(loaded, Some("pending")) == None
            && Raises(loaded, id)
  {
    WitnessLines();
    CutRecordReads(a, codec, BEFORE, BETWEEN, BEHIND);
    LoneValueRaises(BETWEEN, id);
  }
}
