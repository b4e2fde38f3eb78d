/** Gesture sequences (Gesture_Seq_t): the working sequence of a session and
    the enrolled key kept in flash, with the flash erase-and-program save. */
module Sequences {

  /** An unsigned 8-bit value (uint8_t). */
  newtype byte = x: int | 0 <= x < 256

  /** Capacity of a gesture sequence (SeqLength). */
  const SeqLength: nat := 64
  /** What an erased flash byte reads as. */
  const Erased: byte := 255
  /** The key written to flash when it holds none (Flash_Init). */
  const DefaultKey: seq<byte> := [12, 11, 10, 9]

  /** A length byte followed by a buffer of SeqLength symbols. Only the first
      `len` symbols mean anything. */
  class GestureSeq {
    var len: byte
    const symbols: array<byte>

    ghost predicate Valid()
      reads this
    {
      symbols.Length == SeqLength
    }

    /** The symbols the sequence holds, oldest first. */
    function Contents(): (s: seq<byte>)
      reads this, symbols
      requires len as int <= symbols.Length
      ensures |s| == len as int
    {
      symbols[..len]
    }

    constructor ()
      ensures Valid() && fresh(symbols) && len == 0
    {
      len := 0;
      symbols := new byte[SeqLength](_ => 0);
    }

    /** Gesture_Seq_Init: empties the sequence; the buffer is left as it is. */
    method Init()
      modifies this
      ensures len == 0 && Contents() == []
    {
      len := 0;
    }

    /** Flash_Save_Seq, with this object as the flash-resident key: the sector
        is erased, then the length byte and the `k.len` symbols of `k` are
        programmed one byte at a time. */
    method SaveSeq(k: GestureSeq)
      requires Valid() && k.Valid() && k != this && k.symbols != symbols
      requires k.len as int <= SeqLength
      modifies this, symbols
      ensures Valid() && len == k.len && Contents() == k.Contents()
      ensures forall j :: k.len as int <= j < SeqLength ==> symbols[j] == Erased
    {
      // Erase: every byte of the sector reads 0xFF afterwards.
      for i := 0 to SeqLength
        invariant forall j :: 0 <= j < i ==> symbols[j] == Erased
      {
        symbols[i] := Erased;
      }
      // Program len + 1 bytes: byte 0 is the length, byte i the symbol i - 1.
      for i := 0 to k.len as int + 1
        invariant i > 0 ==> len == k.len
        invariant forall j :: 0 <= j < i - 1 ==> symbols[j] == k.symbols[j]
        invariant forall j :: 0 <= j < SeqLength && i - 1 <= j ==> symbols[j] == Erased
      {
        if i == 0 {
          len := k.len;
        } else {
          symbols[i - 1] := k.symbols[i - 1];
        }
      }
    }

    /** Flash_Init: saves the default key {12, 11, 10, 9}. */
    method FlashInit()
      requires Valid()
      modifies this, symbols
      ensures Valid() && len == 4 && Contents() == DefaultKey
    {
      var k := new GestureSeq();
      k.len := 4;
      k.symbols[0] := 12;
      k.symbols[1] := 11;
      k.symbols[2] := 10;
      k.symbols[3] := 9;
      SaveSeq(k);
    }
  }
}
