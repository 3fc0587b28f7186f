/** The Simon sequence store: a fixed 1000-entry buffer of region numbers, the length last
    published into it, and the 8-bit "iteration length" that the playback and verification
    machines run up to. */
module SimonGlobals {
  import opened Integers

  const MaxFlashSequence: int := 1000

  /** What `globals_setSequenceIterationLength(n)` stores: `n - 1` truncated to eight bits.
      So the stored value is one less than the argument, and an argument of 0 stores 255. */
  function StoredIterationLength(n: UInt16): (level: UInt8)
    ensures 1 <= n <= 0x100 ==> level == n - 1
    ensures n == 0 ==> level == 0xFF
    ensures (level + 1) % 0x100 == n % 0x100
  {
    ToUInt8(n - 1)
  }

  class SequenceStore {
    const sequence: array<UInt8>
    var length: UInt16
    var level: UInt8

    ghost predicate Valid()
      reads this
    {
      sequence.Length == MaxFlashSequence && length <= MaxFlashSequence
    }

    /** The statically initialised store: all zeros, length 0, iteration length 1. */
    constructor ()
      ensures Valid() && fresh(sequence)
      ensures forall i :: 0 <= i < MaxFlashSequence ==> sequence[i] == 0
      ensures GetSequenceLength() == 0 && GetSequenceIterationLength() == 1
    {
      sequence := new UInt8[MaxFlashSequence](_ => 0);
      length := 0;
      level := 1;
    }

    /** Copies the first `n` entries of `s` into the store; there is no bounds check in the
        source, so `n` must fit the buffer and `s` must hold `n` entries. */
    method SetSequence(s: array<UInt8>, n: UInt16)
      requires Valid()
      requires n <= MaxFlashSequence && n <= s.Length
      modifies this`length, sequence
      ensures Valid()
      ensures forall i :: 0 <= i < n ==> GetSequenceValue(i) == old(s[i])
      ensures forall i :: n <= i < MaxFlashSequence ==> sequence[i] == old(sequence[i])
      ensures GetSequenceLength() == n
      ensures level == old(level)
    {
      var i := 0;
      while i < n
        invariant 0 <= i <= n
        invariant forall k :: 0 <= k < i ==> sequence[k] == old(s[k])
        invariant forall k :: i <= k < MaxFlashSequence ==> sequence[k] == old(sequence[k])
        invariant forall k :: i <= k < s.Length ==> s[k] == old(s[k])
      {
        sequence[i] := s[i];
        i := i + 1;
      }
      length := n;
    }

    /** The entry at `index`; reading past the buffer is undefined in the source. What
        `SetSequence` wrote reads back through it. */
    function GetSequenceValue(index: UInt16): (v: UInt8)
      reads this, sequence
      requires Valid() && index < MaxFlashSequence
      ensures v == sequence[..][index]
    {
      sequence[index]
    }

    /** The length last published, which never exceeds the buffer. */
    function GetSequenceLength(): (n: UInt16)
      reads this
      requires Valid()
      ensures n <= MaxFlashSequence
    {
      length
    }

    method SetSequenceIterationLength(n: UInt16)
      modifies this`level
      ensures GetSequenceIterationLength() == StoredIterationLength(n)
    {
      level := ToUInt8(n - 1);
    }

    /** The iteration length, returned as 16 bits but kept in 8, so it is always below 256. */
    function GetSequenceIterationLength(): (n: UInt16)
      reads this
      ensures n < 0x100
    {
      level
    }
  }
}
