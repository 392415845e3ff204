/** `_pad_transcript`: filling a synthetic transcript, message by message, up to an exact number of
    characters.  The last message is never filled. */
module PadTranscript {
  import opened PhaseFWorld

  const LIMIT: nat := 4000
  const FILL: char := '填'

  datatype Message = Message(role: string, content: string)

  function Padding(n: int): (s: string)
    ensures |s| == if n > 0 then n else 0
  {
    if n <= 0 then "" else Padding(n - 1) + [FILL]
  }

  function Total(messages: seq<Message>): nat {
    if messages == [] then 0 else |messages[0].content| + Total(messages[1..])
  }

  function Capacity(m: Message): int {
    LIMIT - |m.content|
  }

  /** What the messages before the last can still take. */
  function Room(messages: seq<Message>): int {
    if |messages| <= 1 then 0 else Capacity(messages[0]) + Room(messages[1..])
  }

  predicate Fits(messages: seq<Message>) {
    forall i | 0 <= i < |messages| - 1 :: |messages[i].content| <= LIMIT
  }

  predicate Extends(m: Message, padded: Message) {
    padded.role == m.role && m.content <= padded.content
    && forall k | |m.content| <= k < |padded.content| :: padded.content[k] == FILL
  }

  /** How many characters the message at the head is given; negative when it is too long already. */
  function Take(m: Message, remaining: int): int {
    if Capacity(m) < remaining then Capacity(m) else remaining
  }

  function Filled(m: Message, take: int): Message {
    m.(content := m.content + Padding(take))
  }

  /** The messages after the loop, and what it could not place. */
  function Poured(messages: seq<Message>, remaining: int): (seq<Message>, int) {
    if |messages| <= 1 then (messages, remaining)
    else
      var take := Take(messages[0], remaining);
      var head := Filled(messages[0], take);
      if remaining - take == 0 then ([head] + messages[1..], 0)
      else
        var (rest, left) := Poured(messages[1..], remaining - take);
        ([head] + rest, left)
  }

  /** The excess of the messages that were too long when the loop came to them. */
  function Excess(messages: seq<Message>, remaining: int): nat {
    if |messages| <= 1 then 0
    else
      var take := Take(messages[0], remaining);
      (if take < 0 then -take else 0)
      + (if remaining - take == 0 then 0 else Excess(messages[1..], remaining - take))
  }

  method Sum(messages: seq<Message>) returns (total: nat)
    ensures total == Total(messages)
  {
    total := 0;
    var i := 0;
    while i < |messages|
      invariant 0 <= i <= |messages| && total + Total(messages[i..]) == Total(messages)
    {
      total := total + |messages[i].content|;
      i := i + 1;
    }
  }

  /** One turn of the loop. */
  lemma PouredAt(messages: seq<Message>, i: nat, remaining: int)
    requires i < |messages| - 1
    ensures
      var take := Take(messages[i], remaining);
      var head := Filled(messages[i], take);
      var rest := messages[i + 1..];
      Poured(messages[i..], remaining) ==
        if remaining - take == 0 then ([head] + rest, 0)
        else ([head] + Poured(rest, remaining - take).0, Poured(rest, remaining - take).1)
  {
    assert messages[i..][0] == messages[i] && messages[i..][1..] == messages[i + 1..];
  }

  lemma PouredLast(messages: seq<Message>, i: nat, remaining: int)
    requires |messages| - 1 <= i <= |messages|
    ensures Poured(messages[i..], remaining) == (messages[i..], remaining)
  {
  }

  method PadTranscript(messages: seq<Message>, target: int) returns (padded: Option<seq<Message>>)
    ensures
      var remaining := target - Total(messages);
      padded == if remaining < 0 || Poured(messages, remaining).1 != 0 then None else Some(Poured(messages, remaining).0)
  {
    hide Poured, Filled, Take, Total;
    var total := Sum(messages);
    var remaining := target - total;
    if remaining < 0 {
      return None;
    }
    ghost var asked := remaining;
    var done: seq<Message> := [];
    assert messages[0..] == messages;
    assert [] + Poured(messages, asked).0 == Poured(messages, asked).0;
    var i := 0;
    while i < |messages| - 1
      invariant 0 <= i == |done| && (i < |messages| || i == 0)
      invariant Poured(messages, asked).0 == done + Poured(messages[i..], remaining).0
      invariant Poured(messages, asked).1 == Poured(messages[i..], remaining).1
    {
      PouredAt(messages, i, remaining);
      var take := Take(messages[i], remaining);
      var head := Filled(messages[i], take);
      ghost var before := done;
      done := done + [head];
      remaining := remaining - take;
      if remaining == 0 {
        assert before + ([head] + messages[i + 1..]) == done + messages[i + 1..];
        return Some(done + messages[i + 1..]);
      }
      ghost var rest := Poured(messages[i + 1..], remaining).0;
      assert before + ([head] + rest) == done + rest;
      i := i + 1;
    }
    PouredLast(messages, i, remaining);
    if remaining != 0 {
      return None;
    }
    return Some(done + messages[i..]);
  }

  // ----- What it achieves -----

  lemma TotalCons(m: Message, rest: seq<Message>)
    ensures Total([m] + rest) == |m.content| + Total(rest)
  {
    assert ([m] + rest)[1..] == rest;
  }

  /** Every message grows only by fill characters, and the last one not at all. */
  lemma {:induction false} PouredExtends(messages: seq<Message>, remaining: int)
    ensures
      var out := Poured(messages, remaining).0;
      && |out| == |messages|
      && (forall i | 0 <= i < |out| :: Extends(messages[i], out[i]))
      && (messages != [] ==> out[|out| - 1] == messages[|out| - 1])
      && (forall i | 0 <= i < |out| - 1 && |messages[i].content| <= LIMIT :: |out[i].content| <= LIMIT)
    decreases |messages|
  {
    if |messages| > 1 {
      var take := Take(messages[0], remaining);
      FilledExtends(messages[0], take);
      PouredExtends(messages[1..], remaining - take);
      var out, rest := Poured(messages, remaining).0, Poured(messages[1..], remaining - take).0;
      forall i | 0 < i < |out|
        ensures Extends(messages[i], out[i]) && (i == |out| - 1 ==> out[i] == messages[i])
        ensures i < |out| - 1 && |messages[i].content| <= LIMIT ==> |out[i].content| <= LIMIT
      {
        assert messages[i] == messages[1..][i - 1];
        if remaining - take != 0 {
          assert out[i] == rest[i - 1];
          assert Extends(messages[1..][i - 1], rest[i - 1]);
        }
      }
    }
  }

  lemma FilledExtends(m: Message, take: int)
    ensures Extends(m, Filled(m, take)) && |Filled(m, take).content| == |m.content| + (if take > 0 then take else 0)
  {
    PaddingIsFill(take);
  }

  lemma {:induction false} PaddingIsFill(n: int)
    ensures forall k | 0 <= k < |Padding(n)| :: Padding(n)[k] == FILL
    decreases n
  {
    if n > 0 {
      PaddingIsFill(n - 1);
    }
  }

  /** Characters are conserved, up to the excess of messages that were too long to begin with. */
  lemma {:induction false} PouredTotal(messages: seq<Message>, remaining: int)
    ensures
      var (out, left) := Poured(messages, remaining);
      Total(out) == Total(messages) + remaining - left + Excess(messages, remaining)
    decreases |messages|
  {
    if |messages| > 1 {
      var take := Take(messages[0], remaining);
      FilledExtends(messages[0], take);
      TotalCons(messages[0], messages[1..]);
      assert messages == [messages[0]] + messages[1..];
      TotalCons(Filled(messages[0], take), messages[1..]);
      PouredTotal(messages[1..], remaining - take);
      TotalCons(Filled(messages[0], take), Poured(messages[1..], remaining - take).0);
    }
  }

  /** When no message but the last is too long, everything is placed exactly when it fits. */
  lemma {:induction false} PouredFits(messages: seq<Message>, remaining: int)
    requires Fits(messages) && remaining >= 0
    ensures Excess(messages, remaining) == 0
    ensures Poured(messages, remaining).1 == 0 <==> remaining <= Room(messages)
    ensures Room(messages) >= 0 && Poured(messages, remaining).1 >= 0
    decreases |messages|
  {
    if |messages| > 1 {
      assert |messages[0].content| <= LIMIT;
      assert Fits(messages[1..]) by {
        forall i | 0 <= i < |messages[1..]| - 1 ensures |messages[1..][i].content| <= LIMIT {
          assert messages[1..][i] == messages[i + 1];
        }
      }
      PouredFits(messages[1..], remaining - Take(messages[0], remaining));
    }
  }

  /** For messages within the limit: padding succeeds if and only if the target is within reach, and then
      hits it exactly. */
  lemma PaddingSucceedsIff(messages: seq<Message>, target: int)
    requires Fits(messages)
    ensures
      var remaining := target - Total(messages);
      (remaining >= 0 && Poured(messages, remaining).1 == 0)
        <==> Total(messages) <= target <= Total(messages) + Room(messages)
    ensures
      var remaining := target - Total(messages);
      remaining >= 0 && Poured(messages, remaining).1 == 0 ==> Total(Poured(messages, remaining).0) == target
  {
    var remaining := target - Total(messages);
    if remaining >= 0 {
      PouredFits(messages, remaining);
      PouredTotal(messages, remaining);
    }
  }

  /** The first `i` messages are within the limit and can take all that is asked for. */
  predicate Reaches(messages: seq<Message>, remaining: int, i: nat) {
    1 <= i < |messages| && Fits(messages[..i + 1]) && remaining <= Room(messages[..i + 1])
  }

  ghost predicate InReach(messages: seq<Message>, remaining: int) {
    exists i: nat :: Reaches(messages, remaining, i)
  }

  lemma ReachesNext(messages: seq<Message>, remaining: int, i: nat)
    requires 1 <= i < |messages| - 1 && |messages[0].content| <= LIMIT
    ensures Reaches(messages, remaining, i + 1) <==> Reaches(messages[1..], remaining - Capacity(messages[0]), i)
  {
    var front, back := messages[..i + 2], messages[1..][..i + 1];
    assert front[1..] == back && front[0] == messages[0];
    assert Fits(front) <==> Fits(back) by {
      assert forall k | 0 <= k < |back| - 1 :: back[k] == front[k + 1];
      assert forall k | 1 <= k < |front| - 1 :: front[k] == back[k - 1];
    }
  }

  lemma {:induction false} NoExcessIff(messages: seq<Message>, remaining: int)
    requires |messages| > 1 && remaining >= 0 && Poured(messages, remaining).1 == 0
    ensures Excess(messages, remaining) == 0 <==> InReach(messages, remaining)
    decreases |messages|
  {
    hide Filled;
    var m, rest := messages[0], messages[1..];
    if Capacity(m) < 0 {
      forall i: nat ensures !Reaches(messages, remaining, i) {
        assert 1 <= i < |messages| ==> messages[..i + 1][0] == m;
      }
    } else if remaining <= Capacity(m) {
      assert messages[..2] == [m, rest[0]] && Room([rest[0]]) == 0;
      assert [m, rest[0]][1..] == [rest[0]];
      assert Reaches(messages, remaining, 1);
    } else {
      var left := remaining - Capacity(m);
      NoExcessIff(rest, left);
      assert messages[..2][1..] == [rest[0]] && Room([rest[0]]) == 0;
      assert !Reaches(messages, remaining, 1);
      if i: nat :| Reaches(messages, remaining, i) {
        ReachesNext(messages, remaining, i - 1);
        assert Reaches(rest, left, i - 1);
      }
      if i: nat :| Reaches(rest, left, i) {
        ReachesNext(messages, remaining, i);
        assert Reaches(messages, remaining, i + 1);
      }
    }
  }

  /** For any messages at all: a padding that succeeds hits its target exactly if some first messages,
      none of them the last and all within the limit, can take all that is missing.  Otherwise the loop
      came to one that was too long, and the target is overshot. */
  lemma TargetHitIff(messages: seq<Message>, target: int)
    requires target >= Total(messages) && Poured(messages, target - Total(messages)).1 == 0
    ensures
      var total := Total(Poured(messages, target - Total(messages)).0);
      && (total == target <==> |messages| <= 1 || InReach(messages, target - Total(messages)))
      && total >= target
  {
    hide Total, InReach;
    PouredTotal(messages, target - Total(messages));
    if |messages| > 1 { NoExcessIff(messages, target - Total(messages)); }
  }
}
