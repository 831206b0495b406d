/**
 The queue of pending actions, one JSON line each (runtime/actions/queue.py). The printer and
 parser of records are parameters.
 */
module ActionQueue {
  import opened Text
  import opened Wrappers

  /**
   What a line can hold: a dictionary, whose id and status are `None` unless they are texts and
   whose `rest` stands for all other fields, or some other JSON value.
   */
  datatype Action =
    | Action(id: Option<string>, status: Option<string>, updatedAt: Option<int>, rest: string)
    | NotADict(value: string)

  /** `json.dumps` and `json.loads`, the latter `None` when it raises. */
  datatype Codec = Codec(encode: Action -> string, decode: string -> Option<Action>)

  /** Where `str.splitlines` ends a line. */
  predicate IsBreak(c: char) {
    '\n' <= c <= '\r' || '\U{1C}' <= c <= '\U{1E}' || c == '\U{85}' || c == '\U{2028}' || c == '\U{2029}'
  }

  /** The breaks that section 7 of RFC 8259 leaves unescaped in JSON strings. */
  predicate IsUnescapedBreak(c: char) {
    c == '\U{85}' || c == '\U{2028}' || c == '\U{2029}'
  }

  /**
   What is assumed of the codec for a record: it reads back what it wrote, writes text that
   is not blank and has no control character, and reads the record from no proper part of it.
   */
  ghost predicate FaithfulFor(codec: Codec, a: Action) {
    var e := codec.encode(a);
    && codec.decode(e) == Some(a) && !Blank(e)
    && (forall i :: 0 <= i < |e| && IsBreak(e[i]) ==> IsUnescapedBreak(e[i]))
    && forall s :: Within(s, e) && |s| < |e| ==> codec.decode(s) != Some(a)
  }

  ghost predicate Faithful(codec: Codec) {
    forall a :: FaithfulFor(codec, a)
  }

  ghost predicate Within(part: string, text: string) {
    exists i, j :: 0 <= i <= j <= |text| && part == text[i..j]
  }

  /** The index of the first line break, or the length. */
  function FirstBreak(s: string): (k: nat)
    ensures k <= |s|
    ensures k < |s| ==> IsBreak(s[k])
    ensures forall i :: 0 <= i < k ==> !IsBreak(s[i])
  {
    if s == "" || IsBreak(s[0]) then 0
    else
      var k := FirstBreak(s[1..]);
      assert forall i :: 1 <= i < |s| ==> s[i] == s[1..][i - 1];
      k + 1
  }

  /** Where the line after the first break starts: a carriage return takes a following newline with it. */
  function NextStart(s: string): (n: nat)
    requires FirstBreak(s) < |s|
    ensures FirstBreak(s) < n <= |s|
  {
    var k := FirstBreak(s);
    if s[k] == '\r' && k + 1 < |s| && s[k + 1] == '\n' then k + 2 else k + 1
  }

  /** `str.splitlines`. */
  function Lines(s: string): seq<string>
    decreases |s|
  {
    if s == "" then []
    else if FirstBreak(s) == |s| then [s]
    else [s[..FirstBreak(s)]] + Lines(s[NextStart(s)..])
  }

  /** The record on a line, if it is not blank and can be read. */
  function Item(line: string, codec: Codec): Option<Action> {
    if Blank(line) then None else codec.decode(line)
  }

  function AsList(item: Option<Action>): seq<Action> {
    if item.Some? then [item.value] else []
  }

  /** The records of the lines. */
  function Decoded(lines: seq<string>, codec: Codec): seq<Action> {
    if lines == [] then []
    else Decoded(lines[..|lines| - 1], codec) + AsList(Item(lines[|lines| - 1], codec))
  }

  lemma DecodedSnoc(lines: seq<string>, n: nat, codec: Codec)
    requires n < |lines|
    ensures Decoded(lines[..n + 1], codec) == Decoded(lines[..n], codec) + AsList(Item(lines[n], codec))
  {
    assert lines[..n + 1][..n] == lines[..n];
  }

  /** What `load_actions()` returns. */
  function Loaded(text: string, codec: Codec): seq<Action> {
    Decoded(Lines(text), codec)
  }

  /** The filter of `load_actions`: an empty status is no filter. */
  predicate Unfiltered(status: Option<string>) {
    status.None? || status.value == ""
  }

  predicate Shown(a: Action, status: Option<string>) {
    Unfiltered(status) || (a.Action? && a.status == status)
  }

  predicate AllDicts(actions: seq<Action>) {
    forall i :: 0 <= i < |actions| ==> actions[i].Action?
  }

  /** What is left of the records for a status. */
  function Filtered(actions: seq<Action>, status: Option<string>): seq<Action> {
    if actions == [] then []
    else
      var last := actions[|actions| - 1];
      Filtered(actions[..|actions| - 1], status)
      + if Shown(last, status) then [last] else []
  }

  /** `load_actions(status)`: filtering raises on a value that is no dictionary. */
  function WithStatus(actions: seq<Action>, status: Option<string>): Option<seq<Action>> {
    if Unfiltered(status) || AllDicts(actions) then Some(Filtered(actions, status)) else None
  }

  predicate Named(a: Action, id: string) {
    a.Action? && a.id == Some(id)
  }

  predicate HasId(actions: seq<Action>, id: string) {
    exists i :: 0 <= i < |actions| && Named(actions[i], id)
  }

  /** The search for an id meets a value that is no dictionary before it finds the id. */
  predicate Raises(actions: seq<Action>, id: string) {
    actions != [] && (actions[0].NotADict? || (!Named(actions[0], id) && Raises(actions[1..], id)))
  }

  function Marked(a: Action, status: string, at: int): Action
    requires a.Action?
  {
    a.(status := Some(status), updatedAt := Some(at))
  }

  /** The list after the first record with the id is marked. */
  function Updated(actions: seq<Action>, id: string, status: string, at: int): seq<Action> {
    if actions == [] then []
    else if Named(actions[0], id) then [Marked(actions[0], status, at)] + actions[1..]
    else [actions[0]] + Updated(actions[1..], id, status, at)
  }

  /** The list an update leaves: as it was when the update raises or finds nothing. */
  function AfterSearch(actions: seq<Action>, id: string, status: string, at: int): seq<Action> {
    if Raises(actions, id) then actions else Updated(actions, id, status, at)
  }

  /** One line per record. */
  function TextOf(actions: seq<Action>, codec: Codec): string {
    if actions == [] then "" else codec.encode(actions[0]) + "\n" + TextOf(actions[1..], codec)
  }

  function AfterEnqueue(text: string, a: Action, codec: Codec): string {
    text + (codec.encode(a) + "\n")
  }

  function AfterUpdate(text: string, id: string, status: string, at: int, codec: Codec): string {
    var actions := Loaded(text, codec);
    if !Raises(actions, id) && HasId(actions, id) then TextOf(Updated(actions, id, status, at), codec) else text
  }

  /** The queue file. */
  class QueueFile {
    var text: string
    const codec: Codec

    constructor (codec: Codec)
      ensures text == "" && this.codec == codec
    {
      text, this.codec := "", codec;
    }

    /** `enqueue_action`. */
    method Enqueue(a: Action)
      requires a.Action?
      modifies this
      ensures text == AfterEnqueue(old(text), a, codec)
    {
      text := text + (codec.encode(a) + "\n");
    }

    /** `load_actions`: `None` when it raises. */
    method Load(status: Option<string>) returns (actions: Option<seq<Action>>)
      ensures actions == WithStatus(Loaded(text, codec), status)
    {
      var lines := Lines(text);
      var kept := [];
      for i := 0 to |lines|
        invariant kept == Filtered(Decoded(lines[..i], codec), status)
        invariant Unfiltered(status) || AllDicts(Decoded(lines[..i], codec))
      {
        var item := Item(lines[i], codec);
        LineRead(lines, i, codec, status);
        if item.Some? {
          if !Unfiltered(status) && item.value.NotADict? {
            NotADictStays(lines, i, codec);
            return None;
          }
          if Shown(item.value, status) {
            kept := kept + [item.value];
          }
        }
      }
      assert lines[..|lines|] == lines;
      actions := Some(kept);
    }

    /** `update_action_status`: `None` when it raises, else whether a record was changed. */
    method Update(id: string, status: string, at: int) returns (changed: Option<bool>)
      modifies this
      ensures var actions := Loaded(old(text), codec);
              changed == if Raises(actions, id) then None else Some(HasId(actions, id))
      ensures text == AfterUpdate(old(text), id, status, at, codec)
    {
      var loaded := Load(None);
      AnyStatus(Loaded(text, codec));
      var updated;
      updated, changed := MarkFirst(loaded.value, id, status, at);
      if changed == Some(true) {
        text := TextOf(updated, codec);
      }
    }
  }

  /** What one more line adds. */
  lemma LineRead(lines: seq<string>, i: nat, codec: Codec, status: Option<string>)
    requires i < |lines|
    ensures var before, after := Decoded(lines[..i], codec), Decoded(lines[..i + 1], codec);
            var item := Item(lines[i], codec);
            && (item.None? ==> after == before)
            && (item.Some? ==>
                  && Filtered(after, status)
                     == Filtered(before, status) + (if Shown(item.value, status) then [item.value] else [])
                  && (AllDicts(before) && item.value.Action? ==> AllDicts(after)))
  {
    var before := Decoded(lines[..i], codec);
    DecodedSnoc(lines, i, codec);
    if Item(lines[i], codec).None? {
      assert before + [] == before;
    } else {
      assert (before + [Item(lines[i], codec).value])[..|before|] == before;
    }
  }

  /** What one line holds is among what all lines hold. */
  lemma {:induction false} NotADictStays(lines: seq<string>, i: nat, codec: Codec)
    requires i < |lines| && Item(lines[i], codec).Some? && Item(lines[i], codec).value.NotADict?
    ensures !AllDicts(Decoded(lines, codec))
    decreases |lines|
  {
    var n := |lines| - 1;
    var rest := Decoded(lines[..n], codec);
    if i == n {
      assert Decoded(lines, codec)[|rest|].NotADict?;
    } else {
      NotADictStays(lines[..n], i, codec);
      var k :| 0 <= k < |rest| && !rest[k].Action?;
      assert Decoded(lines, codec)[k] == rest[k];
    }
  }

  lemma {:induction false} AnyStatus(actions: seq<Action>)
    ensures Filtered(actions, None) == actions && WithStatus(actions, None) == Some(actions)
  {
    if actions != [] {
      AnyStatus(actions[..|actions| - 1]);
    }
  }

  /** The search from one index on, in terms of the next. */
  lemma SearchStep(actions: seq<Action>, i: nat, id: string, status: string, at: int)
    requires i < |actions|
    ensures Raises(actions[i..], id) ==
              (actions[i].NotADict? || (!Named(actions[i], id) && Raises(actions[i + 1..], id)))
    ensures Updated(actions[i..], id, status, at)
         == (if Named(actions[i], id) then [Marked(actions[i], status, at)] + actions[i + 1..]
             else [actions[i]] + Updated(actions[i + 1..], id, status, at))
  {
    assert actions[i..][0] == actions[i] && actions[i..][1..] == actions[i + 1..];
  }

  lemma MarkedAt(actions: seq<Action>, i: nat, marked: Action)
    requires i < |actions|
    ensures actions[..i] + ([marked] + actions[i + 1..]) == actions[i := marked]
  {
  }

  lemma OneFurther(actions: seq<Action>, i: nat, rest: seq<Action>)
    requires i < |actions|
    ensures actions[..i] + ([actions[i]] + rest) == actions[..i + 1] + rest
  {
  }

  /** The search loop of an update. */
  method MarkFirst(actions: seq<Action>, id: string, status: string, at: int)
    returns (updated: seq<Action>, changed: Option<bool>)
    ensures changed == if Raises(actions, id) then None else Some(HasId(actions, id))
    ensures updated == AfterSearch(actions, id, status, at)
  {
    for i := 0 to |actions|
      invariant Updated(actions, id, status, at) == actions[..i] + Updated(actions[i..], id, status, at)
      invariant Raises(actions, id) == Raises(actions[i..], id)
      invariant forall k :: 0 <= k < i ==> !Named(actions[k], id)
    {
      SearchStep(actions, i, id, status, at);
      if actions[i].NotADict? {
        return actions, None;
      }
      OneFurther(actions, i, Updated(actions[i + 1..], id, status, at));
      if Named(actions[i], id) {
        MarkedAt(actions, i, Marked(actions[i], status, at));
        return actions[i := Marked(actions[i], status, at)], Some(true);
      }
    }
    assert actions[|actions|..] == [];
    return actions, Some(false);
  }

  /** The printed record has no character at which a line could be cut. */
  ghost predicate Unbroken(a: Action, codec: Codec) {
    forall i :: 0 <= i < |codec.encode(a)| ==> !IsUnescapedBreak(codec.encode(a)[i])
  }

  ghost predicate AllUnbroken(actions: seq<Action>, codec: Codec) {
    forall i :: 0 <= i < |actions| ==> Unbroken(actions[i], codec)
  }

  lemma {:induction false} FirstBreakAfter(e: string, rest: string)
    requires forall i :: 0 <= i < |e| ==> !IsBreak(e[i])
    ensures FirstBreak(e + "\n" + rest) == |e|
  {
    if e == "" {
      assert (e + "\n" + rest)[0] == '\n';
    } else {
      FirstBreakAfter(e[1..], rest);
      assert (e + "\n" + rest)[1..] == e[1..] + "\n" + rest;
      assert (e + "\n" + rest)[0] == e[0];
    }
  }

  lemma LineThenRest(e: string, rest: string)
    requires forall i :: 0 <= i < |e| ==> !IsBreak(e[i])
    ensures Lines(e + "\n" + rest) == [e] + Lines(rest)
  {
    var s := e + "\n" + rest;
    FirstBreakAfter(e, rest);
    assert s[..|e|] == e && s[|e| + 1..] == rest && s[|e|] == '\n';
  }

  lemma DecodedLast(lines: seq<string>, last: string, codec: Codec)
    ensures Decoded(lines + [last], codec) == Decoded(lines, codec) + AsList(Item(last, codec))
  {
    assert (lines + [last])[..|lines|] == lines;
  }

  lemma {:induction false} DecodedAppend(a: seq<string>, b: seq<string>, codec: Codec)
    ensures Decoded(a + b, codec) == Decoded(a, codec) + Decoded(b, codec)
    decreases |b|
  {
    if b == [] {
      assert a + b == a;
    } else {
      var init, last := b[..|b| - 1], b[|b| - 1];
      assert a + b == (a + init) + [last] && b == init + [last];
      DecodedAppend(a, init, codec);
      DecodedLast(a + init, last, codec);
      DecodedLast(init, last, codec);
    }
  }

  lemma DecodedOne(line: string, codec: Codec)
    ensures Decoded([line], codec) == AsList(Item(line, codec))
  {
    assert [line][..0] == [];
  }

  lemma UnbrokenLine(a: Action, codec: Codec)
    requires FaithfulFor(codec, a) && Unbroken(a, codec)
    ensures forall i :: 0 <= i < |codec.encode(a)| ==> !IsBreak(codec.encode(a)[i])
    ensures Item(codec.encode(a), codec) == Some(a)
  {
  }

  /** The first line is the first record; the rest is left for later. */
  lemma FirstLineLoads(a: Action, rest: string, codec: Codec)
    requires FaithfulFor(codec, a) && Unbroken(a, codec)
    ensures Loaded(codec.encode(a) + "\n" + rest, codec) == [a] + Loaded(rest, codec)
  {
    var e := codec.encode(a);
    UnbrokenLine(a, codec);
    LineThenRest(e, rest);
    DecodedAppend([e], Lines(rest), codec);
    DecodedOne(e, codec);
  }

  /** Unbroken records load back in order. */
  lemma {:induction false} TextLoads(actions: seq<Action>, codec: Codec)
    requires Faithful(codec) && AllUnbroken(actions, codec)
    ensures Loaded(TextOf(actions, codec), codec) == actions
  {
    if actions != [] {
      assert FaithfulFor(codec, actions[0]) && Unbroken(actions[0], codec);
      FirstLineLoads(actions[0], TextOf(actions[1..], codec), codec);
      TextLoads(actions[1..], codec);
    }
  }

  lemma {:induction false} TextAppend(actions: seq<Action>, a: Action, codec: Codec)
    ensures TextOf(actions + [a], codec) == TextOf(actions, codec) + (codec.encode(a) + "\n")
  {
    if actions == [] {
      assert [a][1..] == [];
      assert [] + [a] == [a];
      assert codec.encode(a) + "\n" + "" == codec.encode(a) + "\n";
    } else {
      assert (actions + [a])[1..] == actions[1..] + [a];
      TextAppend(actions[1..], a, codec);
    }
  }

  datatype Operation = Enqueue(action: Action) | Update(id: string, status: string, at: int)

  function FileAfter(text: string, ops: seq<Operation>, codec: Codec): string {
    if ops == [] then text
    else
      var before := FileAfter(text, ops[..|ops| - 1], codec);
      match ops[|ops| - 1]
      case Enqueue(a) => AfterEnqueue(before, a, codec)
      case Update(id, status, at) => AfterUpdate(before, id, status, at, codec)
  }

  function ListAfter(actions: seq<Action>, ops: seq<Operation>): seq<Action> {
    if ops == [] then actions
    else
      var before := ListAfter(actions, ops[..|ops| - 1]);
      match ops[|ops| - 1]
      case Enqueue(a) => before + [a]
      case Update(id, status, at) => AfterSearch(before, id, status, at)
  }

  /** The operation writes only records without cuttable characters. */
  ghost predicate Harmless(op: Operation, codec: Codec) {
    match op
    case Enqueue(a) => Unbroken(a, codec)
    case Update(_, status, at) =>
      forall a: Action :: a.Action? && Unbroken(a, codec) ==> Unbroken(Marked(a, status, at), codec)
  }

  lemma {:induction false} UpdatedUnbroken(actions: seq<Action>, id: string, status: string, at: int, codec: Codec)
    requires AllUnbroken(actions, codec) && Harmless(Update(id, status, at), codec)
    ensures AllUnbroken(Updated(actions, id, status, at), codec)
  {
    if actions != [] {
      UpdatedUnbroken(actions[1..], id, status, at, codec);
    }
  }

  lemma {:induction false} UpdateWithoutId(actions: seq<Action>, id: string, status: string, at: int)
    requires !HasId(actions, id)
    ensures Updated(actions, id, status, at) == actions
  {
    if actions != [] {
      assert !Named(actions[0], id);
      assert forall i :: 0 <= i < |actions[1..]| ==> actions[1..][i] == actions[i + 1];
      UpdateWithoutId(actions[1..], id, status, at);
    }
  }

  /**
   Refinement: over any run of harmless operations the file is the text of a list that
   follows appending and first-id update, and loads as that list.
   */
  lemma {:induction false} RunRefines(actions: seq<Action>, ops: seq<Operation>, codec: Codec)
    requires Faithful(codec) && AllUnbroken(actions, codec)
    requires forall i :: 0 <= i < |ops| ==> Harmless(ops[i], codec)
    ensures AllUnbroken(ListAfter(actions, ops), codec)
    ensures FileAfter(TextOf(actions, codec), ops, codec) == TextOf(ListAfter(actions, ops), codec)
    ensures Loaded(FileAfter(TextOf(actions, codec), ops, codec), codec) == ListAfter(actions, ops)
  {
    if ops != [] {
      var n := |ops| - 1;
      var before := ListAfter(actions, ops[..n]);
      assert forall i :: 0 <= i < n ==> ops[..n][i] == ops[i];
      RunRefines(actions, ops[..n], codec);
      match ops[n] {
        case Enqueue(a) => TextAppend(before, a, codec);
        case Update(id, status, at) =>
          if HasId(before, id) {
            UpdatedUnbroken(before, id, status, at, codec);
          } else {
            UpdateWithoutId(before, id, status, at);
          }
      }
    }
    TextLoads(ListAfter(actions, ops), codec);
  }

  lemma WithinDrop(part: string, s: string, n: nat)
    requires n <= |s| && Within(part, s[n..])
    ensures Within(part, s)
  {
    var i, j :| 0 <= i <= j <= |s[n..]| && part == s[n..][i..j];
    assert part == s[n + i..n + j];
  }

  lemma WithinLength(part: string, s: string)
    requires Within(part, s)
    ensures |part| <= |s|
  {
  }

  /** A part without a newline lies before a final one. */
  lemma WithinBeforeNewline(part: string, s: string)
    requires Within(part, s + "\n") && '\n' !in part
    ensures Within(part, s)
  {
    var t := s + "\n";
    var i, j :| 0 <= i <= j <= |t| && part == t[i..j];
    PartBefore(s, t, part, i, j);
  }

  lemma PartBefore(s: string, t: string, part: string, i: nat, j: nat)
    requires t == s + "\n" && i <= j <= |t| && part == t[i..j] && '\n' !in part
    ensures Within(part, s)
  {
    if i == j {
      assert part == s[0..0];
    } else if j == |t| {
      EndsInNewline(t, i);
    } else {
      assert part == s[i..j];
    }
  }

  lemma EndsInNewline(t: string, i: nat)
    requires i < |t| && t[|t| - 1] == '\n'
    ensures '\n' in t[i..|t|]
  {
    assert t[i..|t|][|t| - i - 1] == '\n';
  }

  lemma {:induction false} LinesWithin(s: string, line: string)
    requires line in Lines(s)
    ensures Within(line, s) && '\n' !in line
    decreases |s|
  {
    var k := FirstBreak(s);
    if k == |s| {
      assert line == s[0..k];
    } else if line == s[..k] {
      assert line == s[0..k];
    } else {
      LinesWithin(s[NextStart(s)..], line);
      WithinDrop(line, s, NextStart(s));
    }
  }

  lemma {:induction false} DecodedFrom(lines: seq<string>, codec: Codec, a: Action) returns (line: string)
    requires a in Decoded(lines, codec)
    ensures line in lines && codec.decode(line) == Some(a)
  {
    var n := |lines| - 1;
    if a in Decoded(lines[..n], codec) {
      line := DecodedFrom(lines[..n], codec, a);
    } else {
      line := lines[n];
    }
  }

  /** When a printed record is cut, every line holds less than the record. */
  lemma CutLines(e: string, line: string, k: nat)
    requires k < |e| && IsBreak(e[k]) && line in Lines(e + "\n")
    requires forall i :: 0 <= i < |e| && IsBreak(e[i]) ==> IsUnescapedBreak(e[i])
    ensures |line| < |e| && Within(line, e)
  {
    var s := e + "\n";
    var b := FirstBreak(s);
    assert s[k] == e[k];
    assert b <= k && s[b] == e[b];
    CutAt(e, s, b, line);
  }

  lemma CutAt(e: string, s: string, b: nat, line: string)
    requires s == e + "\n" && b < |e| && b == FirstBreak(s) && e[b] != '\r' && line in Lines(s)
    ensures |line| < |e| && Within(line, e)
  {
    var tail := e[b + 1..];
    assert s[b] == e[b] && NextStart(s) == b + 1 && s[b + 1..] == tail + "\n";
    if line == s[..b] {
      assert line == e[0..b];
    } else {
      LinesWithin(tail + "\n", line);
      WithinBeforeNewline(line, tail);
      WithinLength(line, tail);
      WithinDrop(line, e, b + 1);
    }
  }

  /** A single record loads back exactly when it has no cuttable character. */
  lemma OneRecordExact(a: Action, codec: Codec)
    requires Faithful(codec)
    ensures Loaded(AfterEnqueue("", a, codec), codec) == [a] <==> Unbroken(a, codec)
  {
    var e := codec.encode(a);
    assert "" + (e + "\n") == e + "\n";
    assert FaithfulFor(codec, a);
    if Unbroken(a, codec) {
      assert [a][1..] == [];
      assert e + "\n" + "" == e + "\n";
      TextLoads([a], codec);
    } else {
      var k :| 0 <= k < |e| && IsUnescapedBreak(e[k]);
      var loaded := Loaded(e + "\n", codec);
      if a in loaded {
        var line := DecodedFrom(Lines(e + "\n"), codec, a);
        CutLines(e, line, k);
      }
    }
  }
}
