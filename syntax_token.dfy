/** Tokens for the syntax-coloured debug displays (disassembly, memory and device views).
    Tokens that show live data carry a u8 frame age: 0 means "just changed" and
    TOKEN_MAX_AGE means "old news"; the views fade a value's colour by its age. */
module SyntaxTokens {
  import opened MachineInts

  /** The largest frame age; it is also the largest value of the u8 age fields. */
  const TOKEN_MAX_AGE: u8 := 255

  datatype SyntaxToken =
    | NullToken
      // Generic display token: text, a dirty flag marking new data, and a frame age.
    | StateString(text: string, dirty: bool, age: u8)
      // Memory viewer tokens.
    | ErrorString(s: string)
    | MemoryAddressSeg16(segment: u16, offset: u16, s: string)
    | MemoryAddressFlat(address: u32, s: string)
    | MemoryByteHexValue(address: u32, value: u8, s: string, cursor: bool, age: u8)
    | MemoryByteAsciiValue(address: u32, value: u8, s: string, age: u8)
      // Disassembly tokens.
    | ErrorText(s: string)
    | InstructionBytes(s: string)
    | Prefix(s: string)
    | Mnemonic(s: string)
    | Text(s: string)
    | Segment(s: string)
    | Colon
    | Comma
    | PlusSign
    | OpenBracket
    | CloseBracket
    | HexValue(s: string)
    | Register(s: string)
    | Displacement(s: string)

  /** The `Default` implementation. */
  function DefaultToken(): SyntaxToken {
    NullToken
  }

  /** The two memory viewer tokens whose age tracks a byte of memory. */
  predicate IsMemoryByte(t: SyntaxToken) {
    t.MemoryByteHexValue? || t.MemoryByteAsciiValue?
  }

  /** The token with its frame age replaced; a token without an age is returned as it is. */
  function WithAge(t: SyntaxToken, a: u8): (r: SyntaxToken)
    ensures r.StateString? == t.StateString? && r.MemoryByteHexValue? == t.MemoryByteHexValue?
    ensures r.MemoryByteAsciiValue? == t.MemoryByteAsciiValue?
    ensures t.StateString? || IsMemoryByte(t) ==> r.age == a
    ensures t.StateString? ==> r.text == t.text && r.dirty == t.dirty
    ensures IsMemoryByte(t) ==> r.address == t.address && r.value == t.value && r.s == t.s
    ensures t.MemoryByteHexValue? ==> r.cursor == t.cursor
    ensures !t.StateString? && !IsMemoryByte(t) ==> r == t
  {
    match t
    case StateString(text, dirty, _) => StateString(text, dirty, a)
    case MemoryByteHexValue(address, value, s, cursor, _) => MemoryByteHexValue(address, value, s, cursor, a)
    case MemoryByteAsciiValue(address, value, s, _) => MemoryByteAsciiValue(address, value, s, a)
    case _ => t
  }

  /** The age a value gets in a frame where it did not change: two more, saturating. */
  function NextAge(age: u8): u8 {
    SaturatingAddU8(age, 2)
  }

  /** The age reached from `age` after `frames` frames in which the value stayed the same. */
  function Faded(age: u8, frames: nat): u8 {
    if frames == 0 then age else NextAge(Faded(age, frames - 1))
  }

  /** An unchanged value ages by exactly two per frame until it saturates at TOKEN_MAX_AGE. */
  lemma {:induction false} FadedClosedForm(age: u8, frames: nat)
    ensures age + 2 * frames <= TOKEN_MAX_AGE ==> Faded(age, frames) == age + 2 * frames
    ensures age + 2 * frames > TOKEN_MAX_AGE ==> Faded(age, frames) == TOKEN_MAX_AGE
  {
    if frames > 0 {
      FadedClosedForm(age, frames - 1);
    }
  }

  /** Whatever its starting age, a value that stays the same for 128 frames is fully faded. */
  lemma FullyFadedAfter128Frames(age: u8, frames: nat)
    requires frames >= 128
    ensures Faded(age, frames) == TOKEN_MAX_AGE
  {
    FadedClosedForm(age, frames);
  }
}
