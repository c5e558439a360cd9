/**
 * The 32-bit card status word (the R1 response), decoded into an error
 * flag, the READY_FOR_DATA and APP_CMD flags and the 4-bit CURRENT_STATE
 * field, following the card status layout of section 4.10.1 of the SD
 * Physical Layer Simplified Specification.
 */
module CardStatusWord {

  /** Bits of the status word that report an error. */
  const ErrorMask: bv32 := 0xfff9_8004

  /** The bit positions ErrorMask selects. */
  const ErrorBitPositions: set<nat> :=
    {2, 15, 16, 19, 20, 21, 22, 23, 24, 25, 26, 27, 28, 29, 30, 31}

  /** The card's position in the SD access state machine. */
  datatype CardState =
    | Idle
    | Ready
    | Ident
    | Standby
    | Transmit
    | Data
    | Receive
    | Program
    | Disabled
    | Reserved

  /** The numeric value of each state; Reserved follows Disabled and gets 9. */
  function Discriminant(s: CardState): (n: nat)
    ensures n < 10
  {
    match s
    case Idle => 0
    case Ready => 1
    case Ident => 2
    case Standby => 3
    case Transmit => 4
    case Data => 5
    case Receive => 6
    case Program => 7
    case Disabled => 8
    case Reserved => 9
  }

  /** Bit i of a word. */
  predicate Bit(raw: bv32, i: nat)
    requires i < 32
  {
    (raw >> i) & 1 == 1
  }

  /** The word with only bit i set. */
  function Single(i: nat): (m: bv32)
    requires i < 32
    ensures Bit(m, i)
  {
    (1 as bv32) << i
  }

  /** The 4-bit CURRENT_STATE field, bits 9 to 12. */
  function StateField(raw: bv32): (v: nat)
    ensures v < 16
  {
    ((raw >> 9) & 0xf) as nat
  }

  function AnyError(raw: bv32): bool
  {
    raw & ErrorMask != 0
  }

  function ReadyForData(raw: bv32): bool
  {
    (raw >> 8) & 1 != 0
  }

  function AppCmd(raw: bv32): bool
  {
    (raw >> 5) & 1 != 0
  }

  function State(raw: bv32): (s: CardState)
    ensures StateField(raw) <= 8 ==> Discriminant(s) == StateField(raw)
    ensures StateField(raw) >= 9 <==> s == Reserved
  {
    match StateField(raw)
    case 0 => Idle
    case 1 => Ready
    case 2 => Ident
    case 3 => Standby
    case 4 => Transmit
    case 5 => Data
    case 6 => Receive
    case 7 => Program
    case 8 => Disabled
    case _ => Reserved
  }

  /** Some bit of the word at an error position is set. */
  ghost predicate SomeErrorBit(raw: bv32)
  {
    exists i: nat :: i < 32 && i in ErrorBitPositions && Bit(raw, i)
  }

  /** The bits of ErrorMask are exactly ErrorBitPositions. */
  lemma ErrorMaskBits(i: nat)
    requires i < 32
    ensures Bit(ErrorMask, i) <==> i in ErrorBitPositions
  {
    // Splitting the bit index into bytes keeps each solver query small.
    if i < 8 {
    } else if i < 16 {
    } else if i < 24 {
    } else {
    }
  }

  /** A nonzero word whose bits below `from` are clear has a set bit at or above `from`. */
  lemma {:induction false} LowestSetBit(x: bv32, from: nat) returns (i: nat)
    requires from < 32
    requires x != 0
    requires x & (((1 as bv32) << from) - 1) == 0
    ensures from <= i < 32 && Bit(x, i)
    decreases 32 - from
  {
    if Bit(x, from) {
      i := from;
    } else if from == 31 {
      assert false;
    } else {
      i := LowestSetBit(x, from + 1);
    }
  }

  /** The error flag is raised exactly when one of the error bits is set. */
  lemma AnyErrorIffErrorBit(raw: bv32)
    ensures AnyError(raw) <==> SomeErrorBit(raw)
  {
    if AnyError(raw) {
      var i := LowestSetBit(raw & ErrorMask, 0);
      ErrorMaskBits(i);
      assert i in ErrorBitPositions && Bit(raw, i);
    } else {
      forall i: nat | i < 32 && i in ErrorBitPositions
        ensures !Bit(raw, i)
      {
        ErrorMaskBits(i);
      }
    }
  }

  /** Bits outside the error mask never change the error flag. */
  lemma AnyErrorOnlyMaskBits(raw: bv32, i: nat)
    requires i < 32 && i !in ErrorBitPositions
    ensures AnyError(raw ^ Single(i)) == AnyError(raw)
  {
    ErrorMaskBits(i);
  }

  /** READY_FOR_DATA is bit 8: flipping bit 8 flips it, flipping any other bit does not. */
  lemma ReadyForDataIsBit8(raw: bv32, i: nat)
    requires i < 32
    ensures ReadyForData(raw) <==> Bit(raw, 8)
    ensures ReadyForData(raw ^ Single(i)) == (ReadyForData(raw) != (i == 8))
  {
  }

  /** APP_CMD is bit 5: flipping bit 5 flips it, flipping any other bit does not. */
  lemma AppCmdIsBit5(raw: bv32, i: nat)
    requires i < 32
    ensures AppCmd(raw) <==> Bit(raw, 5)
    ensures AppCmd(raw ^ Single(i)) == (AppCmd(raw) != (i == 5))
  {
  }

  /** CURRENT_STATE depends on bits 9 to 12 only. */
  lemma StateOnlyBits9To12(raw: bv32, i: nat)
    requires i < 32 && !(9 <= i <= 12)
    ensures State(raw ^ Single(i)) == State(raw)
  {
    assert StateField(raw ^ Single(i)) == StateField(raw);
  }

  /** Placing a state's discriminant in bits 9 to 12 decodes back to that state. */
  lemma StateRoundTrip(s: CardState)
    ensures State((Discriminant(s) as bv32) << 9) == s
  {
  }
}
