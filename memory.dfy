/**
 * The agent's short-term memory: an ordered log of messages that keeps only
 * the most recent `maxMessages` entries, dropping from the oldest end.
 *
 * The capacity is an unconstrained integer, as in the original, and trimming
 * follows Python's `messages[-maxMessages:]` exactly, including the cases
 * where the capacity is zero (the whole list is kept) or negative (entries
 * are dropped from the front).
 */
module Memory {

  function Min(a: int, b: int): int { if a <= b then a else b }
  function Max(a: int, b: int): int { if a <= b then b else a }

  /** Python's `s[start:]` for any integer `start`, negative ones counting from the end. */
  function SliceFrom<T>(s: seq<T>, start: int): (r: seq<T>)
    ensures |r| <= |s|
    ensures 0 <= start <= |s| ==> r == s[start..]
    ensures start < 0 && -start <= |s| ==> r == s[|s| + start..]
    ensures start >= |s| ==> r == []
    ensures start < -|s| ==> r == s
  {
    if start >= 0 then s[Min(start, |s|)..] else s[Max(0, |s| + start)..]
  }

  /** The last `n` elements of `s` (all of `s` when it is shorter). */
  function Window<T>(s: seq<T>, n: nat): (r: seq<T>)
  {
    s[|s| - Min(|s|, n)..]
  }

  /** The message list after one `add(m)` to a memory holding `msgs` with capacity `cap`. */
  function Retained<T>(msgs: seq<T>, m: T, cap: int): seq<T>
  {
    var s := msgs + [m];
    if |s| > cap then SliceFrom(s, -cap) else s
  }

  /** The message list after adding every element of `ms`, in order, one `add` at a time. */
  function AddAll<T>(msgs: seq<T>, ms: seq<T>, cap: int): seq<T>
    decreases |ms|
  {
    if ms == [] then msgs
    else Retained(AddAll(msgs, ms[..|ms| - 1], cap), ms[|ms| - 1], cap)
  }

  /**
   * With a positive capacity, one `add` keeps exactly the last
   * `min(|msgs| + 1, cap)` elements of `msgs + [m]`: the bound holds, the new
   * message is last, and nothing is dropped while there was room.
   */
  lemma RetainedIsWindow<T>(msgs: seq<T>, m: T, cap: int)
    requires cap >= 1
    ensures Retained(msgs, m, cap) == Window(msgs + [m], cap)
    ensures |Retained(msgs, m, cap)| == Min(|msgs| + 1, cap) <= cap
    ensures Retained(msgs, m, cap)[|Retained(msgs, m, cap)| - 1] == m
    ensures |msgs| < cap ==> Retained(msgs, m, cap) == msgs + [m]
  {
  }

  /**
   * With a capacity of zero or less the bound does not hold: zero keeps the
   * whole list (`s[-0:]` is `s[0:]`), a negative capacity drops `-cap`
   * entries from the front.
   */
  lemma RetainedNonPositive<T>(msgs: seq<T>, m: T, cap: int)
    requires cap <= 0
    ensures cap == 0 ==> Retained(msgs, m, cap) == msgs + [m]
    ensures Retained(msgs, m, cap) == (msgs + [m])[Min(-cap, |msgs| + 1)..]
  {
  }

  lemma WindowOfWindow<T>(a: seq<T>, b: seq<T>, n: nat)
    ensures Window(Window(a, n) + b, n) == Window(a + b, n)
  {
    var w := Window(a, n);
    var k := |w + b| - Min(|w + b|, n);
    var k' := |a + b| - Min(|a + b|, n);
    assert (w + b)[k..] == (a + b)[k'..] by {
      assert |(w + b)[k..]| == |(a + b)[k'..]|;
      forall i | 0 <= i < |(w + b)[k..]|
        ensures (w + b)[k..][i] == (a + b)[k'..][i]
      {
        if k + i < |w| {
          assert (w + b)[k + i] == a[|a| - |w| + k + i];
        }
      }
    }
  }

  lemma RetainedOfWindow<T>(p: seq<T>, m: T, cap: int)
    requires cap >= 1
    ensures Retained(Window(p, cap), m, cap) == Window(p + [m], cap)
  {
    RetainedIsWindow(Window(p, cap), m, cap);
    WindowOfWindow(p, [m], cap);
  }

  /**
   * After any number of adds to a memory that respects a positive capacity,
   * the memory holds exactly the most recent `cap` messages of everything it
   * was given, in their original order.
   */
  lemma {:induction false} AddAllIsWindow<T>(msgs: seq<T>, ms: seq<T>, cap: int)
    requires cap >= 1 && |msgs| <= cap
    ensures AddAll(msgs, ms, cap) == Window(msgs + ms, cap)
    ensures |AddAll(msgs, ms, cap)| <= cap
    decreases |ms|
  {
    if ms == [] {
      assert msgs + ms == msgs;
    } else {
      var init, last := ms[..|ms| - 1], ms[|ms| - 1];
      AddAllIsWindow(msgs, init, cap);
      RetainedOfWindow(msgs + init, last, cap);
      assert msgs + init + [last] == msgs + ms;
    }
  }

  /** Adding nothing leaves the list as it is. */
  lemma AddAllNone<T>(msgs: seq<T>, cap: int)
    ensures AddAll(msgs, [], cap) == msgs
  {
  }

  /** Adding `ms` and then `m` is adding `ms + [m]`. */
  lemma AddAllSnoc<T>(msgs: seq<T>, ms: seq<T>, m: T, cap: int)
    ensures AddAll(msgs, ms + [m], cap) == Retained(AddAll(msgs, ms, cap), m, cap)
  {
    assert (ms + [m])[..|ms|] == ms;
  }

  /** Adding `a` and then `b` is adding `a + b`. */
  lemma {:induction false} AddAllAppend<T>(msgs: seq<T>, a: seq<T>, b: seq<T>, cap: int)
    ensures AddAll(AddAll(msgs, a, cap), b, cap) == AddAll(msgs, a + b, cap)
    decreases |b|
  {
    if b == [] {
      assert a + b == a;
    } else {
      var init, last := b[..|b| - 1], b[|b| - 1];
      AddAllAppend(msgs, a, init, cap);
      assert (a + b)[..|a + b| - 1] == a + init;
      assert (a + b)[|a + b| - 1] == last;
    }
  }

  /** A bounded, drop-oldest message log (memory.py, `ShortTermMemory`). */
  class ShortTermMemory<M> {
    const maxMessages: int
    var messages: seq<M>

    /** A new memory is empty and remembers its capacity. */
    constructor (maxMessages: int)
      ensures this.maxMessages == maxMessages
      ensures messages == []
    {
      this.maxMessages := maxMessages;
      messages := [];
    }

    /** Appends `m`, then trims to the last `maxMessages` entries if the list grew too long. */
    method Add(m: M)
      modifies this
      ensures messages == Retained(old(messages), m, maxMessages)
      ensures maxMessages >= 1 ==> |messages| <= maxMessages && messages[|messages| - 1] == m
      ensures |old(messages)| < maxMessages ==> messages == old(messages) + [m]
      ensures old(messages) == [] && maxMessages >= 1 ==> messages == [m]
    {
      messages := messages + [m];
      if |messages| > maxMessages {
        messages := SliceFrom(messages, -maxMessages);
      }
      if maxMessages >= 1 {
        RetainedIsWindow(old(messages), m, maxMessages);
      }
    }

    /** A copy of the retained messages; the memory is left as it was. */
    method Get() returns (r: seq<M>)
      ensures r == messages
    {
      r := messages;
    }
  }
}
