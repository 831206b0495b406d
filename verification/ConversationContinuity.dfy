/** Pairing recent messages into turns and fitting them to a budget (runtime/conversation_continuity.py). */
module ConversationContinuity {
  import opened Text
  import opened Wrappers

  const MAX_MESSAGE_CHARS := 500

  /** A memory entry: its role and content as strings, or something that is not a dictionary. */
  datatype Message = NotAMessage | Message(role: string, content: string)

  datatype Turn = Turn(userText: string, assistantText: string)

  /** `_bounded_text`. */
  function BoundedText(content: string): string {
    var text := Strip(content);
    if |text| <= MAX_MESSAGE_CHARS then text else StripRight(text[..MAX_MESSAGE_CHARS])
  }

  predicate SaidBy(m: Message, role: string) {
    m.Message? && Strip(m.role) == role && BoundedText(m.content) != ""
  }

  predicate FromUser(m: Message) {
    SaidBy(m, "user")
  }

  predicate FromAssistant(m: Message) {
    SaidBy(m, "assistant")
  }

  /** Positions of a user message and of the assistant message that answers it. */
  datatype Pair = Pair(user: nat, assistant: nat)

  /** The pairs so far and the position of the user message still waiting. */
  datatype Pairing = Pairing(pairs: seq<Pair>, pending: Option<nat>)

  function Paired(memory: seq<Message>): Pairing {
    if memory == [] then Pairing([], None)
    else
      var n := |memory| - 1;
      var before := Paired(memory[..n]);
      if FromUser(memory[n]) then Pairing(before.pairs, Some(n))
      else if FromAssistant(memory[n]) && before.pending.Some?
      then Pairing(before.pairs + [Pair(before.pending.value, n)], None)
      else before
  }

  predicate WithinMemory(memory: seq<Message>, p: Pair) {
    && p.user < p.assistant < |memory|
    && memory[p.user].Message? && memory[p.assistant].Message?
  }

  function TurnAt(memory: seq<Message>, p: Pair): Turn
    requires WithinMemory(memory, p)
  {
    Turn(BoundedText(memory[p.user].content), BoundedText(memory[p.assistant].content))
  }

  function TurnsOf(memory: seq<Message>, pairs: seq<Pair>): (turns: seq<Turn>)
    requires forall i :: 0 <= i < |pairs| ==> WithinMemory(memory, pairs[i])
    ensures |turns| == |pairs|
    ensures forall i :: 0 <= i < |turns| ==> turns[i] == TurnAt(memory, pairs[i])
  {
    seq(|pairs|, i requires 0 <= i < |pairs| => TurnAt(memory, pairs[i]))
  }

  /** The user message and the next message of either side, which is the assistant's. */
  ghost predicate Answers(memory: seq<Message>, p: Pair) {
    && p.user < p.assistant < |memory| && FromUser(memory[p.user]) && FromAssistant(memory[p.assistant])
    && forall k :: p.user < k < p.assistant ==> !FromUser(memory[k]) && !FromAssistant(memory[k])
  }

  /** A user message that nobody spoke after. */
  ghost predicate Waiting(memory: seq<Message>, u: nat) {
    && u < |memory| && FromUser(memory[u])
    && forall k :: u < k < |memory| ==> !FromUser(memory[k]) && !FromAssistant(memory[k])
  }

  lemma AnswersGrow(memory: seq<Message>, p: Pair)
    requires memory != []
    ensures var init := memory[..|memory| - 1];
            Answers(memory, p) <==>
              || Answers(init, p)
              || (p.assistant == |memory| - 1 && Waiting(init, p.user) && FromAssistant(memory[|memory| - 1]))
  {
    assert forall k :: 0 <= k < |memory| - 1 ==> memory[..|memory| - 1][k] == memory[k];
  }

  lemma WaitingGrows(memory: seq<Message>, u: nat)
    requires memory != []
    ensures var n := |memory| - 1;
            Waiting(memory, u) <==>
              (u == n && FromUser(memory[n]))
              || (Waiting(memory[..n], u) && !FromUser(memory[n]) && !FromAssistant(memory[n]))
  {
    assert forall k :: 0 <= k < |memory| - 1 ==> memory[..|memory| - 1][k] == memory[k];
  }

  lemma OneRole(m: Message)
    ensures !(FromUser(m) && FromAssistant(m))
  {
  }

  /**
   The pairs are exactly the user messages with the next message of either side, when that
   is the assistant's; they are disjoint and in order.
   */
  lemma {:induction false} PairsExact(memory: seq<Message>)
    ensures forall p :: p in Paired(memory).pairs <==> Answers(memory, p)
    ensures forall u: nat :: Paired(memory).pending == Some(u) <==> Waiting(memory, u)
    ensures forall i, j :: 0 <= i < j < |Paired(memory).pairs| ==>
              Paired(memory).pairs[i].assistant < Paired(memory).pairs[j].user
    ensures forall i :: 0 <= i < |Paired(memory).pairs| ==>
              Paired(memory).pending.Some? ==> Paired(memory).pairs[i].assistant < Paired(memory).pending.value
  {
    if memory != [] {
      var n := |memory| - 1;
      var before := Paired(memory[..n]);
      PairsExact(memory[..n]);
      OneRole(memory[n]);
      forall p ensures p in Paired(memory).pairs <==> Answers(memory, p) {
        AnswersGrow(memory, p);
      }
      forall u: nat ensures Paired(memory).pending == Some(u) <==> Waiting(memory, u) {
        WaitingGrows(memory, u);
      }
      forall i | 0 <= i < |before.pairs| ensures before.pairs[i].assistant < n {
        assert Answers(memory[..n], before.pairs[i]);
      }
    }
  }

  lemma PairsWithin(memory: seq<Message>)
    ensures forall i :: 0 <= i < |Paired(memory).pairs| ==> WithinMemory(memory, Paired(memory).pairs[i])
  {
    PairsExact(memory);
    forall i | 0 <= i < |Paired(memory).pairs| ensures WithinMemory(memory, Paired(memory).pairs[i]) {
      assert Answers(memory, Paired(memory).pairs[i]);
    }
  }

  /** All turns of the memory. */
  function AllTurns(memory: seq<Message>): seq<Turn> {
    PairsWithin(memory);
    TurnsOf(memory, Paired(memory).pairs)
  }

  /** Python's `turns[-count:]`. */
  function Latest(turns: seq<Turn>, count: int): seq<Turn> {
    if count == 0 then turns
    else if count > 0 then (if count >= |turns| then turns else turns[|turns| - count..])
    else if -count >= |turns| then []
    else turns[-count..]
  }

  function Size(t: Turn): nat {
    |t.userText| + |t.assistantText|
  }

  function Sizes(turns: seq<Turn>): (r: seq<nat>)
    ensures |r| == |turns|
    ensures forall i :: 0 <= i < |r| ==> r[i] == Size(turns[i])
  {
    seq(|turns|, i requires 0 <= i < |turns| => Size(turns[i]))
  }

  function Total(sizes: seq<nat>): nat {
    if sizes == [] then 0 else sizes[0] + Total(sizes[1..])
  }

  /** How many leading turns `_fit_turn_budget` drops, with `n` still to look at and `kept` counted. */
  function Dropped(sizes: seq<nat>, n: nat, kept: nat, maxChars: int): (d: nat)
    requires n <= |sizes|
    ensures d <= n
  {
    if n == 0 then 0
    else if n < |sizes| && kept + sizes[n - 1] > maxChars then n
    else Dropped(sizes, n - 1, kept + sizes[n - 1], maxChars)
  }

  /** What `_fit_turn_budget` returns. */
  function Fitted(turns: seq<Turn>, maxChars: int): seq<Turn> {
    turns[Dropped(Sizes(turns), |turns|, 0, maxChars)..]
  }

  /** `_fit_turn_budget`: from the latest turn back, keeping at least that one. */
  method FitTurnBudget(turns: seq<Turn>, maxChars: int) returns (selected: seq<Turn>)
    ensures selected == Fitted(turns, maxChars)
  {
    selected := [];
    var total: nat, n: nat := 0, |turns|;
    while n > 0
      invariant n <= |turns| && selected == turns[n..]
      invariant Dropped(Sizes(turns), |turns|, 0, maxChars) == Dropped(Sizes(turns), n, total, maxChars)
    {
      var size := Size(turns[n - 1]);
      if selected != [] && total + size > maxChars {
        return;
      }
      selected := [turns[n - 1]] + selected;
      total := total + size;
      n := n - 1;
    }
  }

  /** `build_conversation_continuity`. */
  function Continuity(memory: seq<Message>, maxTurns: int, maxChars: int): seq<Turn> {
    Fitted(Latest(AllTurns(memory), maxTurns), maxChars)
  }

  method BuildContinuity(memory: seq<Message>, maxTurns: int, maxChars: int) returns (turns: seq<Turn>)
    ensures turns == Continuity(memory, maxTurns, maxChars)
  {
    turns := [];
    var pending := "";
    for i := 0 to |memory|
      invariant turns == AllTurns(memory[..i])
      invariant Paired(memory[..i]).pending.None? <==> pending == ""
      invariant Paired(memory[..i]).pending.Some? ==>
                  var u := Paired(memory[..i]).pending.value;
                  u < i && memory[u].Message? && pending == BoundedText(memory[u].content)
    {
      assert memory[..i + 1][..i] == memory[..i];
      TurnsGrow(memory, i);
      var m := memory[i];
      if FromUser(m) {
        pending := BoundedText(m.content);
      } else if FromAssistant(m) && pending != "" {
        turns := turns + [Turn(pending, BoundedText(m.content))];
        pending := "";
      }
    }
    assert memory[..|memory|] == memory;
    turns := FitTurnBudget(Latest(turns, maxTurns), maxChars);
  }

  /** One more message adds the turn of the pair it completes, if any. */
  lemma TurnsGrow(memory: seq<Message>, n: nat)
    requires n < |memory|
    ensures var before := Paired(memory[..n]);
            AllTurns(memory[..n + 1])
            == if !FromUser(memory[n]) && FromAssistant(memory[n]) && before.pending.Some?
               then PairsExact(memory[..n]);
                    AllTurns(memory[..n]) + [TurnAt(memory, Pair(before.pending.value, n))]
               else AllTurns(memory[..n])
  {
    var init, longer := memory[..n], memory[..n + 1];
    assert longer[..n] == init;
    PairsWithin(init);
    PairsWithin(longer);
    SameTurns(init, longer, Paired(init).pairs);
    if !FromUser(memory[n]) && FromAssistant(memory[n]) && Paired(init).pending.Some? {
      var p := Pair(Paired(init).pending.value, n);
      assert Paired(longer).pairs == Paired(init).pairs + [p];
      assert WithinMemory(longer, Paired(longer).pairs[|Paired(init).pairs|]);
      SameTurn(longer, memory, p);
      assert TurnsOf(longer, Paired(init).pairs + [p]) == TurnsOf(longer, Paired(init).pairs) + [TurnAt(longer, p)];
    }
  }

  lemma SameTurn(a: seq<Message>, b: seq<Message>, p: Pair)
    requires a <= b && WithinMemory(a, p)
    ensures WithinMemory(b, p) && TurnAt(b, p) == TurnAt(a, p)
  {
  }

  lemma SameTurns(a: seq<Message>, b: seq<Message>, pairs: seq<Pair>)
    requires a <= b && forall i :: 0 <= i < |pairs| ==> WithinMemory(a, pairs[i])
    ensures forall i :: 0 <= i < |pairs| ==> WithinMemory(b, pairs[i])
    ensures TurnsOf(a, pairs) == TurnsOf(b, pairs)
  {
    forall i | 0 <= i < |pairs| ensures WithinMemory(b, pairs[i]) && TurnAt(b, pairs[i]) == TurnAt(a, pairs[i]) {
      SameTurn(a, b, pairs[i]);
    }
  }

  /** Every pair of positions of the result, in order, is a question and its direct answer. */
  lemma TurnsAreAnswers(memory: seq<Message>, i: nat) returns (p: Pair)
    requires i < |AllTurns(memory)|
    ensures WithinMemory(memory, p) && Answers(memory, p) && AllTurns(memory)[i] == TurnAt(memory, p)
  {
    PairsExact(memory);
    PairsWithin(memory);
    p := Paired(memory).pairs[i];
  }

  lemma TotalFrom(sizes: seq<nat>, n: nat)
    requires n < |sizes|
    ensures Total(sizes[n..]) == sizes[n] + Total(sizes[n + 1..])
  {
    assert sizes[n..][1..] == sizes[n + 1..];
  }

  /** Dropping `d` leaves a maximal suffix within the budget, or the last turn alone. */
  ghost predicate Maximal(sizes: seq<nat>, d: nat, maxChars: int)
    requires d <= |sizes|
  {
    && (d < |sizes| - 1 ==> Total(sizes[d..]) <= maxChars)
    && (d > 0 ==> d < |sizes| && Total(sizes[d - 1..]) > maxChars)
    && (sizes != [] ==> d < |sizes|)
  }

  lemma StopIsMaximal(sizes: seq<nat>, n: nat, maxChars: int)
    requires 0 < n < |sizes| && (n < |sizes| - 1 ==> Total(sizes[n..]) <= maxChars)
    requires Total(sizes[n..]) + sizes[n - 1] > maxChars
    ensures Maximal(sizes, n, maxChars)
  {
    TotalFrom(sizes, n - 1);
  }

  lemma {:induction false} DroppedExact(sizes: seq<nat>, n: nat, kept: nat, maxChars: int)
    requires n <= |sizes| && kept == Total(sizes[n..])
    requires n < |sizes| - 1 ==> kept <= maxChars
    ensures Maximal(sizes, Dropped(sizes, n, kept, maxChars), maxChars)
  {
    if n > 0 {
      if n < |sizes| && kept + sizes[n - 1] > maxChars {
        StopIsMaximal(sizes, n, maxChars);
      } else {
        TotalFrom(sizes, n - 1);
        DroppedExact(sizes, n - 1, kept + sizes[n - 1], maxChars);
      }
    }
  }

  /**
   The budget keeps a suffix: the last turn always, and otherwise the longest one within the
   budget.
   */
  lemma FittedExact(turns: seq<Turn>, maxChars: int) returns (d: nat)
    ensures d <= |turns| && Fitted(turns, maxChars) == turns[d..]
    ensures turns != [] ==> d < |turns|
    ensures d < |turns| - 1 ==> Total(Sizes(turns)[d..]) <= maxChars
    ensures d > 0 ==> Total(Sizes(turns)[d - 1..]) > maxChars
  {
    d := Dropped(Sizes(turns), |turns|, 0, maxChars);
    assert Sizes(turns)[|turns|..] == [];
    DroppedExact(Sizes(turns), |turns|, 0, maxChars);
  }

  lemma SizesFrom(turns: seq<Turn>, d: nat)
    requires d <= |turns|
    ensures Sizes(turns[d..]) == Sizes(turns)[d..]
  {
  }

  lemma {:induction false} StripRightShortens(s: string)
    ensures |StripRight(s)| <= |s|
    decreases |s|
  {
    if s != "" && IsSpace(s[|s| - 1]) {
      StripRightShortens(s[..|s| - 1]);
    }
  }

  lemma BoundedLength(content: string)
    ensures |BoundedText(content)| <= MAX_MESSAGE_CHARS
  {
    var text := Strip(content);
    if |text| > MAX_MESSAGE_CHARS {
      StripRightShortens(text[..MAX_MESSAGE_CHARS]);
    }
  }

  /** A message is dropped exactly when it is blank: cutting never empties a text. */
  lemma BoundedBlank(content: string)
    ensures BoundedText(content) == "" <==> Blank(content)
  {
    var text := Strip(content);
    StripFacts(content);
    if |text| > MAX_MESSAGE_CHARS {
      StripRightFacts(text[..MAX_MESSAGE_CHARS]);
      assert text[..MAX_MESSAGE_CHARS][0] == text[0];
    }
  }

  ghost predicate SmallTurns(turns: seq<Turn>) {
    forall i :: 0 <= i < |turns| ==> Size(turns[i]) <= 2 * MAX_MESSAGE_CHARS
  }

  lemma TurnsAreSmall(memory: seq<Message>)
    ensures SmallTurns(AllTurns(memory))
  {
    forall i | 0 <= i < |AllTurns(memory)| ensures Size(AllTurns(memory)[i]) <= 2 * MAX_MESSAGE_CHARS {
      var p := TurnsAreAnswers(memory, i);
      BoundedLength(memory[p.user].content);
      BoundedLength(memory[p.assistant].content);
    }
  }

  /** Any budget is kept exactly unless the last turn alone is larger. */
  lemma BudgetExact(turns: seq<Turn>, maxChars: int)
    requires turns != []
    ensures Total(Sizes(Fitted(turns, maxChars))) <= maxChars <==> Size(turns[|turns| - 1]) <= maxChars
  {
    var d := FittedExact(turns, maxChars);
    SizesFrom(turns, d);
    var sizes := Sizes(turns)[d..];
    LastCounts(sizes);
    if |sizes| == 1 {
      assert sizes[1..] == [];
    }
  }

  lemma {:induction false} LastCounts(sizes: seq<nat>)
    requires sizes != []
    ensures sizes[|sizes| - 1] <= Total(sizes)
  {
    if |sizes| > 1 {
      LastCounts(sizes[1..]);
    }
  }

  lemma LatestIsSuffix(turns: seq<Turn>, count: int)
    requires count >= 1
    ensures |Latest(turns, count)| <= count && Latest(turns, count) == turns[|turns| - |Latest(turns, count)|..]
    ensures turns != [] ==> Latest(turns, count) != []
  {
  }

  /**
   The kept turns never exceed a budget of at least a thousand characters, and a positive
   limit on turns is kept as well.
   */
  lemma WithinBudget(memory: seq<Message>, maxTurns: int, maxChars: int)
    requires maxTurns >= 1 && maxChars >= 2 * MAX_MESSAGE_CHARS
    ensures Total(Sizes(Continuity(memory, maxTurns, maxChars))) <= maxChars
    ensures |Continuity(memory, maxTurns, maxChars)| <= maxTurns
  {
    var all := AllTurns(memory);
    var latest := Latest(all, maxTurns);
    TurnsAreSmall(memory);
    LatestIsSuffix(all, maxTurns);
    var d := FittedExact(latest, maxChars);
    if latest != [] {
      assert latest[|latest| - 1] == all[|all| - 1];
      BudgetExact(latest, maxChars);
    }
  }
}
