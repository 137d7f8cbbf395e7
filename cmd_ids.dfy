/** The command-id counter (`getNextCmdId`): a Java `int` field starting at
    0 and pre-incremented, so it wraps to the most negative `int` after
    `MaxInt` calls. */
module CmdIds {
  import opened Types

  /** `++cmdId` on a Java `int`. */
  function NextId(x: Int32): Int32
  {
    if x as int == MaxInt then MinInt as Int32 else x + 1
  }

  /** The counter after `n` calls on a fresh client. */
  function CounterAfter(n: nat): Int32
  {
    if n == 0 then 0 else NextId(CounterAfter(n - 1))
  }

  /** Before the counter wraps, the id issued by the `n`-th call is `n`:
      the first id is 1 and each call's id is one more than the last. */
  lemma {:induction false} CounterAfterNoWrap(n: nat)
    requires n <= MaxInt
    ensures CounterAfter(n) as int == n
  {
    if n > 0 {
      CounterAfterNoWrap(n - 1);
    }
  }

  /** Ids are strictly increasing and positive for the first `MaxInt` calls:
      no two of them share an id. */
  lemma IdsStrictlyIncrease(i: nat, j: nat)
    requires 0 < i < j <= MaxInt
    ensures 0 < CounterAfter(i) < CounterAfter(j)
  {
    CounterAfterNoWrap(i);
    CounterAfterNoWrap(j);
  }

  /** The call after the `MaxInt`-th gets the most negative `int`: the
      counter wraps instead of growing. */
  lemma CounterWraps()
    ensures CounterAfter(MaxInt + 1) as int == MinInt
  {
    CounterAfterNoWrap(MaxInt);
  }
}
