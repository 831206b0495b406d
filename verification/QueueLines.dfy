/** What the queue reads from its file and writes back, said about the text and its lines. */
module QueueLines {
  import opened ActionQueue
  import opened Sequences
  import opened Text
  import opened Wrappers

  /** The characters that end a line. */
  lemma BreaksExactly(c: char)
    ensures IsBreak(c) <==>
              c in {'\n', '\U{0B}', '\U{0C}', '\r', '\U{1C}', '\U{1D}', '\U{1E}', '\U{85}', '\U{2028}', '\U{2029}'}
  {
  }

  /** The lines with what ended them, put together again. */
  ghost function Woven(lines: seq<string>, ends: seq<string>): string
    requires |ends| == |lines|
  {
    if lines == [] then "" else lines[0] + ends[0] + Woven(lines[1..], ends[1..])
  }

  ghost predicate Unbroken(s: string) {
    forall i :: 0 <= i < |s| ==> !IsBreak(s[i])
  }

  /** A line break, or nothing at the very end. */
  ghost predicate IsEnd(end: string, last: bool) {
    end == "\r\n" || (|end| == 1 && IsBreak(end[0])) || (end == "" && last)
  }

  /** Line `i` has no break, is ended by one, and does not end between a carriage return and a newline. */
  ghost predicate LineFine(lines: seq<string>, ends: seq<string>, i: nat)
    requires |ends| == |lines| && i < |lines|
  {
    && Unbroken(lines[i]) && IsEnd(ends[i], i == |lines| - 1) && lines[i] + ends[i] != ""
    && (ends[i] == "\r" && i + 1 < |lines| ==>
          (lines[i + 1] + ends[i + 1]) != "" && (lines[i + 1] + ends[i + 1])[0] != '\n')
  }

  ghost predicate LinesFine(lines: seq<string>, ends: seq<string>) {
    |ends| == |lines| && forall i :: 0 <= i < |lines| ==> LineFine(lines, ends, i)
  }

  lemma LinesCons(line: string, end: string, lines: seq<string>, ends: seq<string>)
    requires LinesFine(lines, ends) && Unbroken(line) && end != "" && IsEnd(end, false)
    requires end == "\r" && lines != [] ==> lines[0] + ends[0] != "" && (lines[0] + ends[0])[0] != '\n'
    ensures LinesFine([line] + lines, [end] + ends)
    ensures Woven([line] + lines, [end] + ends) == line + end + Woven(lines, ends)
  {
    var all, allEnds := [line] + lines, [end] + ends;
    assert all[1..] == lines && allEnds[1..] == ends;
    forall i | 0 <= i < |all| ensures LineFine(all, allEnds, i) {
      if i > 0 {
        assert LineFine(lines, ends, i - 1);
      } else if lines != [] {
        assert LineFine(lines, ends, 0);
      }
    }
  }

  lemma FirstWoven(lines: seq<string>, ends: seq<string>)
    requires LinesFine(lines, ends) && lines != []
    ensures lines[0] + ends[0] != "" && Woven(lines, ends) != "" && (lines[0] + ends[0])[0] == Woven(lines, ends)[0]
  {
    assert LineFine(lines, ends, 0);
  }

  lemma ThreeParts(s: string, k: nat, n: nat)
    requires k <= n <= |s|
    ensures s == s[..k] + s[k..n] + s[n..]
  {
  }

  /** What ends the first line. */
  lemma FirstEnd(s: string)
    requires FirstBreak(s) < |s|
    ensures var k, n := FirstBreak(s), NextStart(s);
            if s[k] == '\r' && k + 1 < |s| && s[k + 1] == '\n' then s[k..n] == "\r\n" else s[k..n] == [s[k]] && n == k + 1
  {
  }

  lemma FirstLineFine(s: string)
    requires FirstBreak(s) < |s|
    ensures var k, n := FirstBreak(s), NextStart(s);
            && IsEnd(s[k..n], false) && s[k..n] != "" && Unbroken(s[..k])
            && (s[k..n] == "\r" && n < |s| ==> s[n] != '\n')
  {
    FirstEnd(s);
  }

  /**
   Splitting loses nothing: the lines and their breaks make up the text, no line has a break in
   it, and a carriage return with a newline after it ends one line, not two.
   */
  lemma {:induction false} LinesExactly(s: string) returns (ends: seq<string>)
    ensures LinesFine(Lines(s), ends) && Woven(Lines(s), ends) == s
    decreases |s|
  {
    var k := FirstBreak(s);
    if s == "" {
      ends := [];
    } else if k == |s| {
      ends := [""];
    } else {
      var n := NextStart(s);
      FirstLineFine(s);
      ThreeParts(s, k, n);
      var line, end, rest := s[..k], s[k..n], s[n..];
      var more := LinesExactly(rest);
      if Lines(rest) != [] {
        FirstWoven(Lines(rest), more);
      }
      LinesCons(line, end, Lines(rest), more);
      ends := [end] + more;
    }
  }

  /** The record on a line: none on a line of whitespace or one that cannot be read. */
  ghost function RecordsOn(codec: Codec): string -> seq<Action> {
    (line: string) =>
      if forall i :: 0 <= i < |line| ==> IsSpace(line[i]) then []
      else if codec.decode(line).Some? then [codec.decode(line).value]
      else []
  }

  ghost function WithState(status: string): Action -> seq<Action> {
    (a: Action) => if a.Action? && a.status == Some(status) then [a] else []
  }

  lemma {:induction false} DecodedExactly(lines: seq<string>, codec: Codec)
    ensures Decoded(lines, codec) == FlatMap(lines, RecordsOn(codec))
  {
    if lines != [] {
      var n := |lines| - 1;
      DecodedExactly(lines[..n], codec);
      StripFacts(lines[n]);
    }
  }

  lemma {:induction false} FilteredExactly(actions: seq<Action>, status: string)
    requires status != ""
    ensures Filtered(actions, Some(status)) == FlatMap(actions, WithState(status))
  {
    if actions != [] {
      FilteredExactly(actions[..|actions| - 1], status);
    }
  }

  /**
   What loading returns: the readable records line by line; with a nonempty status only those
   that have it, unless a value among them is no dictionary, which raises.
   */
  lemma LoadedExactly(text: string, codec: Codec, status: Option<string>)
    ensures var all := FlatMap(Lines(text), RecordsOn(codec));
            WithStatus(Loaded(text, codec), status)
            == if status == None || status == Some("") then Some(all)
               else if exists i :: 0 <= i < |all| && all[i].NotADict? then None
               else Some(FlatMap(all, WithState(status.value)))
  {
    DecodedExactly(Lines(text), codec);
    var all := Loaded(text, codec);
    if Unfiltered(status) {
      EverythingShown(all, status);
    } else {
      FilteredExactly(all, status.value);
    }
  }

  lemma {:induction false} EverythingShown(actions: seq<Action>, status: Option<string>)
    requires Unfiltered(status)
    ensures Filtered(actions, status) == actions
  {
    if actions != [] {
      EverythingShown(actions[..|actions| - 1], status);
    }
  }

  /** The first value where the search for an id ends: one with this id, or one that is no dictionary. */
  ghost predicate StopsAt(actions: seq<Action>, id: string, k: nat) {
    && k < |actions| && (actions[k].NotADict? || actions[k].id == Some(id))
    && forall j :: 0 <= j < k ==> actions[j].Action? && actions[j].id != Some(id)
  }

  ghost predicate NeverStops(actions: seq<Action>, id: string) {
    forall j :: 0 <= j < |actions| ==> actions[j].Action? && actions[j].id != Some(id)
  }

  lemma StopsLater(actions: seq<Action>, id: string, k: nat)
    requires actions != [] && actions[0].Action? && actions[0].id != Some(id)
    ensures StopsAt(actions, id, k + 1) <==> StopsAt(actions[1..], id, k)
    ensures NeverStops(actions, id) <==> NeverStops(actions[1..], id)
  {
    var rest := actions[1..];
    assert forall i :: 1 <= i < |actions| ==> actions[i] == rest[i - 1];
    assert forall i :: 0 <= i < |rest| ==> rest[i] == actions[i + 1];
  }

  lemma {:induction false} StopOrNone(actions: seq<Action>, id: string) returns (k: nat)
    ensures StopsAt(actions, id, k) || NeverStops(actions, id)
  {
    k := 0;
    if actions != [] && actions[0].Action? && actions[0].id != Some(id) {
      var j := StopOrNone(actions[1..], id);
      StopsLater(actions, id, j);
      k := j + 1;
    }
  }

  lemma {:induction false} NothingFound(actions: seq<Action>, id: string)
    requires NeverStops(actions, id)
    ensures !Raises(actions, id) && !HasId(actions, id)
  {
    if actions != [] {
      StopsLater(actions, id, 0);
      NothingFound(actions[1..], id);
    }
  }

  lemma {:induction false} FoundAt(actions: seq<Action>, id: string, status: string, at: int, k: nat)
    requires StopsAt(actions, id, k)
    ensures if actions[k].NotADict? then Raises(actions, id)
            else !Raises(actions, id)
                 && Updated(actions, id, status, at)
                    == actions[k := Action(Some(id), Some(status), Some(at), actions[k].rest)]
  {
    if k > 0 {
      StopsLater(actions, id, k - 1);
      FoundAt(actions[1..], id, status, at, k - 1);
    }
  }

  lemma SearchExactly(actions: seq<Action>, id: string, status: string, at: int) returns (k: nat)
    ensures StopsAt(actions, id, k) || NeverStops(actions, id)
    ensures NeverStops(actions, id) ==> !Raises(actions, id) && !HasId(actions, id)
    ensures StopsAt(actions, id, k) ==>
              if actions[k].NotADict? then Raises(actions, id)
              else !Raises(actions, id) && HasId(actions, id)
                   && Updated(actions, id, status, at)
                      == actions[k := Action(Some(id), Some(status), Some(at), actions[k].rest)]
  {
    k := StopOrNone(actions, id);
    if NeverStops(actions, id) {
      NothingFound(actions, id);
    }
    if StopsAt(actions, id, k) {
      FoundAt(actions, id, status, at, k);
      assert actions[k].Action? ==> Named(actions[k], id);
    }
  }

  /**
   What an update does to the file: when the first value that has the id or is no dictionary
   has the id, the file is written anew with the status and the time of that record changed
   and nothing else; otherwise it stays as it is, and a value that is no dictionary raises.
   */
  lemma UpdateExactly(text: string, id: string, status: string, at: int, codec: Codec) returns (k: nat)
    ensures var actions := FlatMap(Lines(text), RecordsOn(codec));
            if NeverStops(actions, id)
            then AfterUpdate(text, id, status, at, codec) == text && !HasId(actions, id) && !Raises(actions, id)
            else
              && StopsAt(actions, id, k) && (Raises(actions, id) <==> actions[k].NotADict?)
              && AfterUpdate(text, id, status, at, codec)
                 == if actions[k].NotADict? then text
                    else TextOf(actions[k := Action(Some(id), Some(status), Some(at), actions[k].rest)], codec)
  {
    DecodedExactly(Lines(text), codec);
    k := SearchExactly(Loaded(text, codec), id, status, at);
  }
}
