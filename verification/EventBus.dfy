/**
 The event bus: a slice of bounded channels, appended to and shifted in place.

 `EventBus` is the code, one call at a time.  `EventBusProtocol` (its own file)
 interleaves calls under the reader/writer lock.
 */
module EventBus {

  const CAPACITY := 10

  class Channel {
    var queue: seq<string>

    constructor ()
      ensures queue == []
    {
      queue := [];
    }
  }

  ghost predicate Distinct<T>(s: seq<T>) {
    forall i, j :: 0 <= i < j < |s| ==> s[i] != s[j]
  }

  /** `s` with its first `x` taken out, everything else in order. */
  function Without<T(==)>(s: seq<T>, x: T): seq<T> {
    if s == [] then [] else if s[0] == x then s[1..] else [s[0]] + Without(s[1..], x)
  }

  lemma {:induction false} WithoutAt<T>(s: seq<T>, x: T, k: nat)
    requires k < |s| && s[k] == x && x !in s[..k]
    ensures Without(s, x) == s[..k] + s[k + 1..]
  {
    if k == 0 {
    } else {
      assert s[0] != x by { assert s[..k][0] == s[0]; }
      assert x !in s[1..][..k - 1] by { assert s[1..][..k - 1] == s[..k][1..]; }
      WithoutAt(s[1..], x, k - 1);
      assert [s[0]] + (s[1..][..k - 1] + s[1..][k..]) == s[..k] + s[k + 1..];
    }
  }

  lemma {:induction false} WithoutAbsent<T>(s: seq<T>, x: T)
    requires x !in s
    ensures Without(s, x) == s
  {
    if s != [] {
      WithoutAbsent(s[1..], x);
    }
  }

  /** Removal from distinct listeners takes out exactly `x` and keeps the others, distinct and in order. */
  lemma {:induction false} WithoutKeepsOrder<T>(s: seq<T>, x: T)
    requires Distinct(s)
    ensures Distinct(Without(s, x))
    ensures forall y :: y in Without(s, x) <==> y in s && y != x
    ensures if x in s then exists k ::
      0 <= k < |s| && s[k] == x && Without(s, x) == s[..k] + s[k + 1..] else Without(s, x) == s
  {
    if x in s {
      var k :| 0 <= k < |s| && s[k] == x;
      WithoutAt(s, x, k);
      forall y | y in s && y != x ensures y in Without(s, x) {
        var m :| 0 <= m < |s| && s[m] == y;
        assert Without(s, x)[if m < k then m else m - 1] == y;
      }
    } else {
      WithoutAbsent(s, x);
    }
  }

  class EventBus {
    /** The backing array of the slice, and its length; the rest of the array is spare capacity. */
    var backing: array<Channel?>
    var len: nat

    ghost predicate Valid()
      reads this, backing
    {
      && len <= backing.Length
      && (forall k :: 0 <= k < len ==> backing[k] != null)
      && Distinct(backing[..len])
    }

    ghost function Listeners(): seq<Channel?>
      reads this, backing
      requires len <= backing.Length
    {
      backing[..len]
    }

    constructor ()
      ensures Valid() && Listeners() == [] && fresh(backing)
    {
      backing := new Channel?[0];
      len := 0;
    }

    method Subscribe() returns (ch: Channel)
      requires Valid()
      modifies this, backing
      ensures Valid() && fresh(ch) && ch.queue == []
      ensures backing == old(backing) || fresh(backing)
      ensures Listeners() == old(Listeners()) + [ch]
    {
      ch := new Channel();
      if len == backing.Length {
        Grow();
      }
      backing[len] := ch;
      len := len + 1;
    }

    method Grow()
      requires Valid()
      modifies this
      ensures Valid() && fresh(backing) && len < backing.Length
      ensures Listeners() == old(Listeners())
    {
      var bigger := new Channel?[2 * len + 1];
      for i := 0 to len
        invariant backing == old(backing) && len == old(len)
        invariant bigger[..i] == backing[..i]
      {
        bigger[i] := backing[i];
      }
      backing := bigger;
    }

    /** The tail is shifted left over the removed slot, inside the same array. */
    method Unsubscribe(ch: Channel)
      requires Valid()
      modifies this, backing
      ensures Valid() && backing == old(backing)
      ensures Listeners() == Without(old(Listeners()), ch as Channel?)
    {
      ghost var before := Listeners();
      var i := 0;
      while i < len && backing[i] != ch
        invariant 0 <= i <= len && ch !in before[..i]
      {
        i := i + 1;
      }
      if i == len {
        assert before[..i] == before;
        WithoutAbsent<Channel?>(before, ch);
        return;
      }
      WithoutAt<Channel?>(before, ch, i);
      ShiftLeft(i);
      len := len - 1;
      assert backing[..len] == before[..i] + before[i + 1..];
      RemainderIsValid(before, ch, backing[..len]);
    }

    lemma RemainderIsValid(before: seq<Channel?>, ch: Channel, after: seq<Channel?>)
      requires Distinct(before) && null !in before && after == Without(before, ch as Channel?)
      ensures Distinct(after) && forall k :: 0 <= k < |after| ==> after[k] != null
    {
      WithoutKeepsOrder<Channel?>(before, ch);
      assert forall k :: 0 <= k < |after| ==> after[k] in after;
    }

    /** Copies every element behind slot `i` one place forward; the last slot keeps its old element. */
    method ShiftLeft(i: nat)
      requires i < len <= backing.Length
      modifies backing
      ensures backing[..i] == old(backing[..i])
      ensures backing[i..len - 1] == old(backing[i + 1..len])
    {
      ghost var before := backing[..len];
      var j := i;
      while j + 1 < len
        invariant i <= j < len
        invariant backing[..i] == before[..i]
        invariant forall k :: i <= k < j ==> backing[k] == before[k + 1]
        invariant forall k :: j < k < len ==> backing[k] == before[k]
      {
        backing[j] := backing[j + 1];
        j := j + 1;
      }
      assert before[i + 1..] == old(backing[i + 1..len]);
    }

    /** Every listener with room gets the event; a full one is skipped without blocking. */
    method Publish(data: string)
      requires Valid()
      modifies set k | 0 <= k < len :: backing[k]
      ensures Listeners() == old(Listeners())
      ensures forall k :: 0 <= k < len ==>
        backing[k].queue == old(backing[k].queue) + if |old(backing[k].queue)| < 10 then [data] else []
    {
      for i := 0 to len
        invariant forall k :: 0 <= k < len ==>
          backing[k].queue == old(backing[k].queue) + if k < i && |old(backing[k].queue)| < CAPACITY then [data] else []
      {
        assert forall k :: 0 <= k < len && k != i ==> backing[..len][k] != backing[..len][i];
        if |backing[i].queue| < CAPACITY {
          backing[i].queue := backing[i].queue + [data];
        }
      }
    }
  }
}
