/** The local port a workspace starts searching at, and the order it searches in. */
module Ports {
  import opened Wrappers

  // ---------- The hash ----------

  const TWO_32 := 0x1_0000_0000

  function Pow31(n: nat): nat {
    if n == 0 then 1 else 31 * Pow31(n - 1)
  }

  /** The base-31 polynomial whose leading coefficient is the first code unit. */
  function Polynomial(units: seq<nat>): nat {
    if units == [] then 0 else units[0] * Pow31(|units| - 1) + Polynomial(units[1..])
  }

  /** `x >>> 0`, for an integer a double represents exactly. */
  function ToUint32(x: nat): nat
    requires x < 9_007_199_254_740_992 // 2^53
  {
    x % TWO_32
  }

  /** `charCodeAt(0)` of one character: its first UTF-16 code unit. */
  function FirstUnit(c: char): (unit: nat)
    ensures unit < 0x1_0000
    ensures if c as int < 0x1_0000 then unit == c as int
            else 0x1_0000 + (unit - 0xD800) * 0x400 <= c as int < 0x1_0000 + (unit - 0xD800 + 1) * 0x400
  {
    var scalar := c as int;
    if scalar < 0x1_0000 then scalar else 0xD800 + (scalar - 0x1_0000) / 0x400
  }

  function Units(seed: string): (units: seq<nat>)
    ensures |units| == |seed|
    ensures forall k :: 0 <= k < |seed| ==> units[k] == FirstUnit(seed[k])
  {
    seq(|seed|, k requires 0 <= k < |seed| => FirstUnit(seed[k]))
  }

  function Seed(workspaceID: string, host: string): string {
    workspaceID + ":" + host
  }

  lemma {:induction false} Horner(units: seq<nat>, unit: nat)
    ensures Polynomial(units + [unit]) == Polynomial(units) * 31 + unit
  {
    var longer := units + [unit];
    if units == [] {
      assert longer[1..] == [];
    } else {
      assert longer[1..] == units[1..] + [unit];
      Horner(units[1..], unit);
      var p := Pow31(|units| - 1);
      calc {
        Polynomial(longer);
        units[0] * Pow31(|units|) + Polynomial(units[1..] + [unit]);
        units[0] * (31 * p) + (Polynomial(units[1..]) * 31 + unit);
        { assert units[0] * (31 * p) == (units[0] * p) * 31; }
        (units[0] * p + Polynomial(units[1..])) * 31 + unit;
        Polynomial(units) * 31 + unit;
      }
    }
  }

  lemma ModStep(a: nat, unit: nat)
    ensures ((a % TWO_32) * 31 + unit) % TWO_32 == (a * 31 + unit) % TWO_32
  {
    var q, r := a / TWO_32, a % TWO_32;
    assert a * 31 + unit == (r * 31 + unit) + (q * 31) * TWO_32;
    ModAdd(r * 31 + unit, q * 31);
  }

  lemma {:induction false} ModAdd(x: nat, k: nat)
    ensures (x + k * TWO_32) % TWO_32 == x % TWO_32
  {
    if k > 0 {
      ModAdd(x, k - 1);
      assert x + k * TWO_32 == (x + (k - 1) * TWO_32) + TWO_32;
    }
  }

  /** The wrapped loop computes the polynomial modulo 2^32, and every product it forms is exact in a double. */
  method Hash(seed: string) returns (hash: nat)
    ensures hash == Polynomial(Units(seed)) % 0x1_0000_0000
  {
    hash := 0;
    for i := 0 to |seed|
      invariant hash == Polynomial(Units(seed)[..i]) % TWO_32
    {
      var unit := FirstUnit(seed[i]);
      Horner(Units(seed)[..i], unit);
      ModStep(Polynomial(Units(seed)[..i]), unit);
      assert Units(seed)[..i + 1] == Units(seed)[..i] + [unit];
      hash := ToUint32(hash * 31 + unit);
    }
    assert Units(seed)[..|seed|] == Units(seed);
  }

  /** Where the search for a local port starts. */
  function InitialPort(start: int, end: int, workspaceID: string, host: string): int
    requires start <= end
  {
    start + Polynomial(Units(Seed(workspaceID, host))) % TWO_32 % (end - start + 1)
  }

  /** JavaScript's remainder of a non-negative number: not a number for 0, and the divisor's sign does not matter. */
  function Remainder(x: nat, divisor: int): (r: Option<nat>)
    ensures r.None? <==> divisor == 0
    ensures divisor > 0 ==> r == Some(x % divisor)
    ensures divisor < 0 ==> r == Some(x % -divisor)
  {
    if divisor == 0 then None else Some(x % (if divisor > 0 then divisor else -divisor))
  }

  /** None stands for NaN.  For an empty range the result is never used, since no attempt is made. */
  method AllocateInitialLocalPort(start: int, end: int, workspaceID: string, host: string) returns (port: Option<int>)
    ensures start <= end ==> port == Some(InitialPort(start, end, workspaceID, host)) && start <= port.value <= end
    ensures start <= end ==>
      port == Some(start + Polynomial(Units(workspaceID + ":" + host)) % 0x1_0000_0000 % (end - start + 1))
    ensures port.None? <==> end == start - 1
    ensures port.Some? ==> exists k ::
      port.value == start + k
        && Remainder(Polynomial(Units(Seed(workspaceID, host))) % TWO_32, end - start + 1) == Some(k)
  {
    var hash := Hash(Seed(workspaceID, host));
    var offset := Remainder(hash, end - start + 1);
    return if offset.Some? then Some(start + offset.value) else None;
  }

  // ---------- The cyclic order ----------

  function PortAt(start: int, end: int, initial: int, attempt: nat): int
    requires start <= initial <= end
  {
    start + (initial - start + attempt) % (end - start + 1)
  }

  /** The ports tried by attempts 0, 1, ..., one per port of the range. */
  function ProbeOrder(start: int, end: int, initial: int): seq<int>
    requires start <= initial <= end
  {
    ProbesFrom(start, end, initial, 0)
  }

  function ProbesFrom(start: int, end: int, initial: int, attempt: nat): seq<int>
    requires start <= initial <= end
    decreases end - start + 1 - attempt
  {
    if attempt > end - start then []
    else [PortAt(start, end, initial, attempt)] + ProbesFrom(start, end, initial, attempt + 1)
  }

  lemma {:induction false} ProbesFromAt(start: int, end: int, initial: int, attempt: nat)
    requires start <= initial <= end && attempt <= end - start + 1
    ensures |ProbesFrom(start, end, initial, attempt)| == end - start + 1 - attempt
    ensures forall k :: 0 <= k < end - start + 1 - attempt ==>
      ProbesFrom(start, end, initial, attempt)[k] == PortAt(start, end, initial, attempt + k)
    decreases end - start + 1 - attempt
  {
    if attempt <= end - start {
      ProbesFromAt(start, end, initial, attempt + 1);
      var whole, rest := ProbesFrom(start, end, initial, attempt), ProbesFrom(start, end, initial, attempt + 1);
      assert whole == [PortAt(start, end, initial, attempt)] + rest;
      forall k | 0 <= k < |whole| ensures whole[k] == PortAt(start, end, initial, attempt + k) {
        if k > 0 {
          assert whole[k] == rest[k - 1] && attempt + 1 + (k - 1) == attempt + k;
        }
      }
    }
  }

  lemma ModBelow(x: nat, span: nat)
    requires x < span
    ensures x % span == x
  {
  }

  lemma ModOnce(x: nat, span: nat)
    requires span <= x < span + span
    ensures x % span == x - span
  {
    assert x / span == 1;
  }

  /** The order starts at the hashed port, steps up by one, and wraps once from the end to the start. */
  lemma PortAtIsCyclic(start: int, end: int, initial: int, attempt: nat)
    requires start <= initial <= end && attempt <= end - start
    ensures PortAt(start, end, initial, attempt)
         == if initial + attempt <= end then initial + attempt else initial + attempt - (end - start + 1)
  {
    var span, x := end - start + 1, initial - start + attempt;
    if x < span {
      ModBelow(x, span);
    } else {
      ModOnce(x, span);
    }
  }

  /** The probe order is a permutation of the range: no port twice, none outside, none left out. */
  lemma ProbeOrderIsPermutation(start: int, end: int, initial: int)
    requires start <= initial <= end
    ensures |ProbeOrder(start, end, initial)| == end - start + 1
    ensures forall i, j ::
      0 <= i < j < end - start + 1 ==> ProbeOrder(start, end, initial)[i] != ProbeOrder(start, end, initial)[j]
    ensures forall port :: port in ProbeOrder(start, end, initial) <==> start <= port <= end
  {
    var order := ProbeOrder(start, end, initial);
    ProbesFromAt(start, end, initial, 0);
    forall i | 0 <= i < |order|
      ensures order[i] == if initial + i <= end then initial + i else initial + i - (end - start + 1)
    {
      PortAtIsCyclic(start, end, initial, i);
    }
    forall port | start <= port <= end ensures port in order {
      var i := if port >= initial then port - initial else port - initial + (end - start + 1);
      assert order[i] == port;
    }
  }
}
