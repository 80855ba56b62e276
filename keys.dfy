/**
 * The input validator of game.c (getKeys): the player has to press the
 * channels of the current sequence, in order.
 *
 * The buttons are a finite stream of events. One event is one trip round
 * the outer loop: the levels of the four channels at the poll that picked
 * the candidate, and the level of the candidate channel when it is read
 * again after the debounce delay. An event whose poll saw no button stands
 * for a poll of the busy-wait loop that came back empty. A press survives
 * the debounce when its channel still reads low; the wait for release that
 * follows is folded into that event.
 */
module Keys {
  import opened Effects
  import opened Gpio

  datatype Press = Press(poll: Pins, recheck: Level)

  /** What getKeys reports: 1 (`Accepted`), 0 (`Rejected`), or, when the stream ends first, that it is still waiting. */
  datatype KeyResult = Accepted | Rejected | StillPolling

  /** The poll saw at least one button down. */
  predicate Seen(p: Press)
  {
    PressedMask(p.poll) != 0
  }

  /** The channel a poll picks: the lowest one that reads low. */
  function Candidate(p: Press): Channel
    requires Seen(p)
  {
    LowestSetBit(PressedMask(p.poll))
  }

  /** The candidate still reads low after the debounce delay. */
  predicate Confirms(p: Press)
  {
    Seen(p) && p.recheck == Reset
  }

  function Choice(p: Press): seq<Channel>
  {
    if Confirms(p) then [Candidate(p)] else []
  }

  /** The channels of the confirmed presses, in order. */
  function Confirmed(presses: seq<Press>): (c: seq<Channel>)
    ensures |c| <= |presses|
    decreases |presses|
  {
    if presses == [] then []
    else Confirmed(presses[..|presses| - 1]) + Choice(presses[|presses| - 1])
  }

  lemma {:induction false} ConfirmedAppend(a: seq<Press>, b: seq<Press>)
    ensures Confirmed(a + b) == Confirmed(a) + Confirmed(b)
    decreases |b|
  {
    if b == [] {
      assert a + b == a;
    } else {
      var b' := b[..|b| - 1];
      assert (a + b)[..|a + b| - 1] == a + b';
      assert (a + b)[|a + b| - 1] == b[|b| - 1];
      ConfirmedAppend(a, b');
    }
  }

  /** Every event yields a channel exactly when every event is a confirmed press. */
  lemma {:induction false} AllConfirmed(presses: seq<Press>)
    ensures |Confirmed(presses)| == |presses| <==> forall i :: 0 <= i < |presses| ==> Confirms(presses[i])
    decreases |presses|
  {
    if presses != [] {
      var init := presses[..|presses| - 1];
      AllConfirmed(init);
      assert forall i :: 0 <= i < |init| ==> init[i] == presses[i];
    }
  }

  /** One event yields its own choice. */
  lemma ConfirmedOne(p: Press)
    ensures Confirmed([p]) == Choice(p)
  {
    assert Confirmed([p]) == Confirmed([]) + Choice(p);
  }

  /** A press that fails the debounce re-read, or a poll that saw nothing, is as if it never happened. */
  lemma GlitchIgnored(a: seq<Press>, g: Press, b: seq<Press>)
    requires !Confirms(g)
    ensures Confirmed(a + [g] + b) == Confirmed(a + b)
  {
    ConfirmedOne(g);
    ConfirmedAppend(a, [g]);
    assert Confirmed(a + [g]) == Confirmed(a);
    ConfirmedAppend(a + [g], b);
    ConfirmedAppend(a, b);
  }

  /**
   * The verdict on a stream of confirmed channels when `expected` is the
   * sequence to repeat: the first channel that differs rejects, matching all
   * of `expected` accepts, and a stream that ends before either is pending.
   */
  function Verdict(expected: seq<int>, got: seq<int>): (v: KeyResult)
    ensures v == StillPolling ==> |got| < |expected|
    ensures v == Accepted ==> |expected| <= |got|
    decreases |expected|
  {
    if expected == [] then Accepted
    else if got == [] then StillPolling
    else if got[0] != expected[0] then Rejected
    else Verdict(expected[1..], got[1..])
  }

  /** Accepted exactly when the stream starts with the whole expected sequence. */
  lemma {:induction false} AcceptedIff(expected: seq<int>, got: seq<int>)
    ensures Verdict(expected, got) == Accepted <==> |expected| <= |got| && got[..|expected|] == expected
    decreases |expected|
  {
    if expected != [] && got != [] {
      AcceptedIff(expected[1..], got[1..]);
      if |expected| <= |got| {
        assert got[..|expected|] == [got[0]] + got[1..][..|expected| - 1];
        assert expected == [expected[0]] + expected[1..];
      }
    }
  }

  /** Still waiting exactly when the stream is a correct but incomplete answer. */
  lemma {:induction false} PendingIff(expected: seq<int>, got: seq<int>)
    ensures Verdict(expected, got) == StillPolling <==> |got| < |expected| && got == expected[..|got|]
    decreases |expected|
  {
    if expected != [] && got != [] {
      PendingIff(expected[1..], got[1..]);
      if |got| < |expected| {
        assert expected[..|got|] == [expected[0]] + expected[1..][..|got| - 1];
        assert got == [got[0]] + got[1..];
      }
    }
  }

  /** Position `k` is the first one where the stream differs from the expected sequence. */
  predicate MismatchAt(expected: seq<int>, got: seq<int>, k: int)
  {
    0 <= k < |expected| && k < |got| && got[..k] == expected[..k] && got[k] != expected[k]
  }

  /** Rejected exactly when there is a first mismatch within the expected sequence. */
  lemma {:induction false} RejectedIff(expected: seq<int>, got: seq<int>)
    ensures Verdict(expected, got) == Rejected <==> exists k :: MismatchAt(expected, got, k)
    decreases |expected|
  {
    if expected == [] || got == [] {
      assert forall k :: !MismatchAt(expected, got, k);
    } else if got[0] != expected[0] {
      assert MismatchAt(expected, got, 0);
    } else {
      var e, g := expected[1..], got[1..];
      RejectedIff(e, g);
      if exists k :: MismatchAt(e, g, k) {
        var k :| MismatchAt(e, g, k);
        assert got[..k + 1] == [got[0]] + g[..k];
        assert expected[..k + 1] == [expected[0]] + e[..k];
        assert MismatchAt(expected, got, k + 1);
      }
      if exists k :: MismatchAt(expected, got, k) {
        var k :| MismatchAt(expected, got, k);
        assert k != 0;
        assert g[..k - 1] == got[..k][1..] && e[..k - 1] == expected[..k][1..];
        assert MismatchAt(e, g, k - 1);
      }
    }
  }

  /** Once decided, the verdict does not depend on anything pressed later. */
  lemma {:induction false} VerdictSettles(expected: seq<int>, got: seq<int>, later: seq<int>)
    requires Verdict(expected, got) != StillPolling
    ensures Verdict(expected, got + later) == Verdict(expected, got)
    decreases |expected|
  {
    if expected != [] {
      assert (got + later)[0] == got[0] && (got + later)[1..] == got[1..] + later;
      if got[0] == expected[0] {
        VerdictSettles(expected[1..], got[1..], later);
      }
    }
  }

  /** A correct but unfinished stream is still pending. */
  lemma {:induction false} PrefixPending(expected: seq<int>, n: nat)
    requires n < |expected|
    ensures Verdict(expected, expected[..n]) == StillPolling
    decreases n
  {
    if n > 0 {
      assert expected[..n][1..] == expected[1..][..n - 1];
      PrefixPending(expected[1..], n - 1);
    }
  }

  /** Events after the deciding one do not change the verdict. */
  lemma Decided(expected: seq<int>, presses: seq<Press>, used: nat)
    requires used <= |presses| && Verdict(expected, Confirmed(presses[..used])) != StillPolling
    ensures Verdict(expected, Confirmed(presses)) == Verdict(expected, Confirmed(presses[..used]))
  {
    assert presses == presses[..used] + presses[used..];
    ConfirmedAppend(presses[..used], presses[used..]);
    VerdictSettles(expected, Confirmed(presses[..used]), Confirmed(presses[used..]));
  }

  /** A correct prefix followed by a wrong channel is rejected. */
  lemma {:induction false} WrongRejects(expected: seq<int>, n: nat, c: int)
    requires n < |expected| && c != expected[n]
    ensures Verdict(expected, expected[..n] + [c]) == Rejected
    decreases n
  {
    if n > 0 {
      assert (expected[..n] + [c])[1..] == expected[1..][..n - 1] + [c];
      WrongRejects(expected[1..], n - 1, c);
    }
  }

  /**
   * What getKeys reports after taking `used` events: the verdict on the
   * whole stream, already reached on the events taken. A decided verdict was
   * reached at the last event taken, which confirmed a press; a pending one
   * took the whole stream.
   */
  predicate Reports(expected: seq<int>, presses: seq<Press>, result: KeyResult, used: nat)
  {
    used <= |presses| &&
    result == Verdict(expected, Confirmed(presses)) &&
    result == Verdict(expected, Confirmed(presses[..used])) &&
    (result != StillPolling ==>
       0 < used && Confirms(presses[used - 1]) &&
       Verdict(expected, Confirmed(presses[..used - 1])) == StillPolling) &&
    (result == StillPolling ==> used == |presses|)
  }

  /** A stream that ran out on a correct prefix is still pending. */
  lemma OutOfPresses(expected: seq<int>, presses: seq<Press>, n: nat)
    requires n < |expected| && Confirmed(presses) == expected[..n]
    ensures Reports(expected, presses, StillPolling, |presses|)
  {
    assert presses[..|presses|] == presses;
    PrefixPending(expected, n);
  }

  /** The last event confirmed a wrong channel after a correct prefix: rejected, and not before. */
  lemma RejectedHere(expected: seq<int>, presses: seq<Press>, used: nat, n: nat, c: int)
    requires 0 < used <= |presses| && Confirms(presses[used - 1])
    requires n < |expected| && c != expected[n]
    requires Confirmed(presses[..used - 1]) == expected[..n]
    requires Confirmed(presses[..used]) == expected[..n] + [c]
    ensures Reports(expected, presses, Rejected, used)
  {
    WrongRejects(expected, n, c);
    PrefixPending(expected, n);
    Decided(expected, presses, used);
  }

  /** The last event confirmed the last expected channel: accepted, and not before. */
  lemma AcceptedHere(expected: seq<int>, presses: seq<Press>, used: nat)
    requires 0 < used <= |presses| && Confirms(presses[used - 1]) && 0 < |expected|
    requires Confirmed(presses[..used - 1]) == expected[..|expected| - 1]
    requires Confirmed(presses[..used]) == expected
    ensures Reports(expected, presses, Accepted, used)
  {
    AcceptedIff(expected, expected);
    PrefixPending(expected, |expected| - 1);
    Decided(expected, presses, used);
  }

  /** What one more event adds to the confirmed channels. */
  lemma NextPress(presses: seq<Press>, used: nat)
    requires used < |presses|
    ensures Confirmed(presses[..used + 1]) == Confirmed(presses[..used]) + Choice(presses[used])
    ensures presses[..used + 1][..used] == presses[..used]
  {
    assert presses[..used + 1] == presses[..used] + [presses[used]];
    ConfirmedAppend(presses[..used], [presses[used]]);
    ConfirmedOne(presses[used]);
  }

  /** The inner loop of getKeys: the lowest channel whose bit is set in a non-empty mask. */
  method FirstPressed(buttons: bv8) returns (c: Channel)
    requires buttons != 0 && buttons < 16
    ensures c == LowestSetBit(buttons)
  {
    var i := 0;
    while i < 4
      invariant 0 <= i <= 4
      invariant forall j :: 0 <= j < i ==> !Bit(buttons, j)
    {
      if Bit(buttons, i) {
        break;
      }
      i := i + 1;
    }
    assert i < 4 by {
      if i == 4 {
        MasksAgree(buttons, 0);
      }
    }
    c := i;
  }

  /** One trip round the polling loop: read the buttons and, if any is down, pick the lowest. */
  method Poll(p: Press) returns (seen: bool, c: Channel)
    ensures seen == Seen(p)
    ensures seen ==> c == Candidate(p)
  {
    var buttons := GetButtons(p.poll);
    seen := buttons != 0;
    c := 0;
    if seen {
      c := FirstPressed(buttons);
    }
  }

  /**
   * getKeys: for each event, read the buttons (a poll that sees nothing is
   * repeated), pick the lowest pressed channel, re-read it after the
   * debounce delay, and if it still reads low compare it with `keys[n]`.
   * The first wrong channel returns 0 (`Rejected`); `steps + 1` right ones
   * return 1 (`Accepted`). `used` is the number of events consumed: a
   * decided call stops at the event that decided it. `keys` is only read.
   */
  method GetKeys(keys: array<Byte>, steps: Byte, presses: seq<Press>) returns (result: KeyResult, used: nat)
    requires steps < keys.Length
    ensures Reports(keys[..steps + 1], presses, result, used)
  {
    ghost var expected: seq<int> := keys[..steps + 1];
    var n := 0;
    used := 0;
    while n <= steps
      invariant used <= |presses| && n <= steps + 1
      invariant Confirmed(presses[..used]) == expected[..n]
      invariant n == steps + 1 ==>
                  0 < used && Confirms(presses[used - 1]) && Confirmed(presses[..used - 1]) == expected[..steps]
      decreases |presses| - used, steps + 1 - n
    {
      if used == |presses| {
        assert presses[..used] == presses;
        OutOfPresses(expected, presses, n);
        return StillPolling, used;
      }
      var p := presses[used];
      NextPress(presses, used);
      used := used + 1;
      var seen, i := Poll(p);
      if !seen {
        continue;
      }
      if p.recheck == Reset {
        assert expected[n] == keys[n];
        if keys[n] != i {
          RejectedHere(expected, presses, used, n, i);
          return Rejected, used;
        }
        assert expected[..n + 1] == expected[..n] + [keys[n]];
        n := n + 1;
      }
    }
    assert expected[..n] == expected;
    AcceptedHere(expected, presses, used);
    result := Accepted;
  }
}
