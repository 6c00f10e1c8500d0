/** Two places where the execute step computes an address with Rust's checked `+` where
    the rest of the step wraps. Each has the arithmetic as written, an input it fails on,
    and the wrapping arithmetic the model uses instead, with the agreement between the two
    wherever the checked sum exists. */
module ExecuteFindings {
  import opened MachineInts
  import opened Wrappers
  import opened CpuExecute

  /** Congruent values modulo 2^16 wrap to the same word. */
  lemma Wrap16Congruent(a: int, b: int)
    requires (a - b) % 0x1_0000 == 0
    ensures Wrap16(a) == Wrap16(b)
  {
    var ra, rb := Wrap16(a), Wrap16(b);
    assert (ra - rb) % 0x1_0000 == 0 by {
      assert ra - rb == (ra - a) + (a - b) + (b - rb);
    }
  }

  // ---------------------------------------------------------------------------------
  // The offset of the next instruction.

  /** `self.ip + (self.i.size as u16)` as written for the far call (0x9A) and the calls of
      the 0xFE and 0xFF groups: `as u16` keeps the low 16 bits of the size, and `+` on u16
      has no result (a debug build panics) once the sum passes 0xFFFF. */
  function NextIpChecked(ip: u16, size: u32): Option<u16> {
    var sum := ip + size % 0x1_0000;
    if sum <= 0xFFFF then Some(sum) else None
  }

  /** The checked sum fails exactly when the wrapping one wraps around below `ip`, and where
      it exists it is the wrapping one. */
  lemma NextIpCheckedAgrees(ip: u16, size: u32)
    ensures NextIpChecked(ip, size).None? <==> NextIp(ip, size) < ip
    ensures NextIpChecked(ip, size).Some? ==> NextIpChecked(ip, size).value == NextIp(ip, size)
  {
  }

  /** A five-byte far call at offset 0xFFFE: the checked sum has no result, while the
      wrapping sum gives the offset the 8088 pushes, 0x0003. */
  lemma NextIpCheckedFailsAtSegmentTop()
    ensures NextIpChecked(0xFFFE, 5).None?
    ensures NextIp(0xFFFE, 5) == 0x0003
  {
  }

  // ---------------------------------------------------------------------------------
  // The target of a near relative call or jump.

  /** `rel16 as i16 + self.i.size as i16` as written for CALL rel16 (0xE8) and JMP rel16
      (0xE9): both operands are read as signed words, and `+` on i16 has no result (a debug
      build panics) outside -0x8000..0x7FFF. */
  function RelativeDisplacementChecked(rel16: u16, size: u32): Option<i16> {
    var sum := AsI16(rel16) + AsI16(size % 0x1_0000);
    if -0x8000 <= sum <= 0x7FFF then Some(sum) else None
  }

  /** The target as written: the checked displacement added to IP with wrapping. */
  function RelativeTargetChecked(ip: u16, rel16: u16, size: u32): Option<u16> {
    match RelativeDisplacementChecked(rel16, size)
    case Some(d) => Some(Wrap16(ip + d))
    case None => None
  }

  /** Where the checked displacement exists, the target as written is the wrapping target
      the model uses. */
  lemma RelativeTargetCheckedAgrees(ip: u16, rel16: u16, size: u32)
    ensures RelativeTargetChecked(ip, rel16, size).Some? ==>
      RelativeTargetChecked(ip, rel16, size).value == RelativeTarget(ip, AsI16(rel16), size)
  {
    var w := size % 0x1_0000;
    if RelativeDisplacementChecked(rel16, size).Some? {
      assert (AsI16(w) - w) % 0x1_0000 == 0 by {
        assert Wrap16(AsI16(w)) == w;
      }
      Wrap16Congruent(ip + (AsI16(rel16) + AsI16(w)), ip + AsI16(rel16) + w);
    }
  }

  /** A three-byte `JMP rel16` with displacement 0x7FFE (+32766): the checked sum
      32766 + 3 has no i16 result, while the wrapping target is 32769 bytes on. */
  lemma RelativeTargetCheckedFailsOnLongJump()
    ensures RelativeTargetChecked(0x1000, 0x7FFE, 3).None?
    ensures RelativeTarget(0x1000, AsI16(0x7FFE), 3) == 0x9001
  {
  }
}
