/**
 * The bounded conversation history kept by both chatbots: the system message
 * first, then user/assistant pairs committed by successful turns, trimmed to
 * the newest `maxHistory` non-system messages.
 */
module History {
  import opened Messages

  /** Appends one committed turn: the user message, then the assistant reply. */
  function Commit(msgs: seq<Message>, userText: string, reply: string): (r: seq<Message>)
    ensures |r| == |msgs| + 2 && r[..|msgs|] == msgs
    ensures r[|msgs|] == Message(User, userText) && r[|msgs| + 1] == Message(Assistant, reply)
  {
    msgs + [Message(User, userText), Message(Assistant, reply)]
  }

  /** Python's `xs[start:]` for any integer `start`; a negative start counts from the end. */
  function PySliceFrom<T>(xs: seq<T>, start: int): (r: seq<T>)
    ensures |r| <= |xs| && r == xs[|xs| - |r|..]
    ensures start >= 0 ==> |r| == (if start <= |xs| then |xs| - start else 0)
    ensures start < 0 ==> |r| == (if -start <= |xs| then -start else |xs|)
  {
    if start >= 0 then (if start <= |xs| then xs[start..] else [])
    else if -start <= |xs| then xs[|xs| + start..]
    else xs
  }

  /**
   * The trim exactly as the chatbots write it:
   * `if len(m) > k + 1: m = [m[0]] + m[-k:]`.
   */
  function TrimAsWritten(msgs: seq<Message>, maxHistory: int): (r: seq<Message>)
    requires |msgs| >= 1
    ensures |r| >= 1 && r[0] == msgs[0]
    ensures |msgs| <= maxHistory + 1 ==> r == msgs
  {
    if |msgs| > maxHistory + 1 then [msgs[0]] + PySliceFrom(msgs, -maxHistory) else msgs
  }

  /** The number of non-system messages a history cap keeps; a cap below zero keeps none. */
  function Kept(maxHistory: int): nat {
    if maxHistory > 0 then maxHistory else 0
  }

  /**
   * The trim the chatbots intend: the first (system) message plus the newest
   * `maxHistory` messages after it. It agrees with `TrimAsWritten` for every
   * cap of 1 or more; for a cap of 0 or less it keeps the system message alone.
   */
  function Trim(msgs: seq<Message>, maxHistory: int): (r: seq<Message>)
    requires |msgs| >= 1
    ensures |r| >= 1 && r[0] == msgs[0]
    ensures |msgs| <= Kept(maxHistory) + 1 ==> r == msgs
    ensures |msgs| > Kept(maxHistory) + 1 ==> |r| == Kept(maxHistory) + 1
  {
    var keep := Kept(maxHistory);
    if |msgs| > keep + 1 then [msgs[0]] + msgs[|msgs| - keep..] else msgs
  }

  /**
   * A trimmed history is the first message followed by the newest
   * `min(maxHistory, |msgs| - 1)` messages, in their original order: it is
   * never longer than the cap plus one, and the oldest messages are the ones
   * dropped.
   */
  lemma TrimKeepsNewest(msgs: seq<Message>, maxHistory: int)
    requires |msgs| >= 1
    ensures var n := if |msgs| - 1 < Kept(maxHistory) then |msgs| - 1 else Kept(maxHistory);
      Trim(msgs, maxHistory) == [msgs[0]] + msgs[|msgs| - n..]
    ensures 1 <= |Trim(msgs, maxHistory)| <= Kept(maxHistory) + 1
    ensures Trim(msgs, maxHistory)[0] == msgs[0]
  {
    if |msgs| <= Kept(maxHistory) + 1 {
      assert [msgs[0]] + msgs[1..] == msgs;
    }
  }

  /** For every cap of 1 or more the written trim is the intended one. */
  lemma TrimAsWrittenAgrees(msgs: seq<Message>, maxHistory: int)
    requires |msgs| >= 1 && maxHistory >= 1
    ensures TrimAsWritten(msgs, maxHistory) == Trim(msgs, maxHistory)
  {
  }

  /**
   * With a cap of 0 the written trim keeps the whole list, because
   * `m[-0:]` is `m[0:]`, and puts the system message in front of it a second
   * time: the history grows on every turn instead of staying bounded.
   */
  lemma TrimAsWrittenZeroRepeatsSystem(msgs: seq<Message>)
    requires |msgs| >= 2
    ensures TrimAsWritten(msgs, 0) == [msgs[0]] + msgs
    ensures |TrimAsWritten(msgs, 0)| == |msgs| + 1
  {
  }

  /** One turn with cap 0 on a fresh history: the system message now appears twice. */
  lemma TrimAsWrittenZeroCounterexample(system: Message, userText: string, reply: string)
    ensures var after := TrimAsWritten(Commit([system], userText, reply), 0);
      after == [system, system, Message(User, userText), Message(Assistant, reply)]
      && |after| > 0 + 1
  {
  }

  /** The intended trim with cap 0 leaves the system message alone. */
  lemma TrimZeroKeepsSystemOnly(msgs: seq<Message>)
    requires |msgs| >= 1
    ensures Trim(msgs, 0) == [msgs[0]]
  {
  }

  /** Every message after the first is a user message or a non-empty assistant reply. */
  predicate TurnsAfterFirst(msgs: seq<Message>) {
    forall i :: 1 <= i < |msgs| ==>
      msgs[i].role == User || (msgs[i].role == Assistant && msgs[i].content != "")
  }

  /** Committing a turn with a non-empty reply keeps every later message a turn message. */
  lemma CommitKeepsTurns(msgs: seq<Message>, userText: string, reply: string)
    requires |msgs| >= 1 && TurnsAfterFirst(msgs) && reply != ""
    ensures TurnsAfterFirst(Commit(msgs, userText, reply))
  {
  }

  /** Trimming keeps the first message and only ever keeps later messages after it. */
  lemma {:induction false} TrimKeepsTurns(msgs: seq<Message>, maxHistory: int)
    requires |msgs| >= 1 && TurnsAfterFirst(msgs)
    ensures |Trim(msgs, maxHistory)| >= 1 && Trim(msgs, maxHistory)[0] == msgs[0]
    ensures TurnsAfterFirst(Trim(msgs, maxHistory))
  {
    var keep := Kept(maxHistory);
    if |msgs| > keep + 1 {
      var r := Trim(msgs, maxHistory);
      forall i | 1 <= i < |r|
        ensures r[i].role == User || (r[i].role == Assistant && r[i].content != "")
      {
        assert r[i] == msgs[|msgs| - keep + i - 1];
      }
    }
  }

  /**
   * A history made of the system message followed by complete
   * user/assistant pairs.
   */
  ghost predicate Paired(msgs: seq<Message>) {
    |msgs| >= 1 && |msgs| % 2 == 1 && msgs[0].role == System
    && forall i :: 1 <= i < |msgs| ==> msgs[i].role == (if i % 2 == 1 then User else Assistant)
  }

  /** Committing a turn keeps the pairs complete. */
  lemma CommitKeepsPairs(msgs: seq<Message>, userText: string, reply: string)
    requires Paired(msgs)
    ensures Paired(Commit(msgs, userText, reply))
  {
  }

  /** Shifting by an even amount keeps parity. */
  lemma EvenShiftKeepsParity(d: int, i: int)
    requires d % 2 == 0
    ensures (d + i) % 2 == i % 2
  {
  }

  /** With an even cap and an odd length, the number of messages a trim drops is even. */
  lemma EvenCapDropsEven(n: int, maxHistory: int)
    requires n % 2 == 1 && maxHistory % 2 == 0 && n > Kept(maxHistory) + 1
    ensures (n - Kept(maxHistory) - 1) % 2 == 0
  {
  }

  /** With an even cap, trimming drops whole pairs: what is kept still starts with a user message. */
  lemma {:induction false} TrimEvenKeepsPairs(msgs: seq<Message>, maxHistory: int)
    requires Paired(msgs) && maxHistory % 2 == 0
    ensures Paired(Trim(msgs, maxHistory))
  {
    var keep := Kept(maxHistory);
    if |msgs| > keep + 1 {
      var r := Trim(msgs, maxHistory);
      var d := |msgs| - keep - 1;
      EvenCapDropsEven(|msgs|, maxHistory);
      assert |r| == keep + 1;
      forall i | 1 <= i < |r|
        ensures r[i].role == (if i % 2 == 1 then User else Assistant)
      {
        assert r[i] == msgs[d + i];
        EvenShiftKeepsParity(d, i);
      }
    }
  }

  /**
   * With an odd cap, a trim that drops anything splits a pair: the oldest
   * message kept after the system message is an assistant reply.
   */
  lemma {:induction false} TrimOddSplitsPair(msgs: seq<Message>, maxHistory: int)
    requires Paired(msgs) && maxHistory >= 1 && maxHistory % 2 == 1 && |msgs| > maxHistory + 1
    ensures |Trim(msgs, maxHistory)| >= 2 && Trim(msgs, maxHistory)[1].role == Assistant
  {
    var r := Trim(msgs, maxHistory);
    var d := |msgs| - maxHistory - 1;
    assert r[1] == msgs[d + 1];
    assert d % 2 == 1;
  }
}
