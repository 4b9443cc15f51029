/**
  The media-platform ECE hextile driver: one engine, driven through its
  registers, and a character device whose ioctl encodes one rectangle at
  a time.  Each ioctl command is a method of its own; CLEAR_OFFSET is
  ClearRectOffset and an unknown command returns 0 and does nothing.

  Registers the driver writes whole are fields holding their 32-bit
  value.  The three registers it changes one bit at a time through
  update_bits are kept as that bit (a bool) plus, where the driver reads
  the others back, the remaining bits: DDA_CTRL as `engineOn` (ECEEN),
  DDA_STS as `dataReady` (CDREADY), HEX_CTRL as `encoderOff` (ENCDIS) and
  `hexCtrl` (its other bits).  EceHextile.MaskedUpdateSetsBit and
  EceHextile.MaskedUpdateClearsBit are the facts that make this split
  exact.  `writes` records every register write in order, so that the
  pulses of a reset and of the FIFO bypass are visible even where the
  final state hides them.
*/
module MediaEce {
  import opened KernelTypes
  import opened EceHextile

  class Ece {
    var engineOn: bool
    var dataReady: bool
    var encoderOff: bool
    var hexCtrl: bv32
    var fbrBa: bv32
    var edBa: bv32
    var rectXy: bv32
    var rectDimen: bv32
    var resol: bv32
    var hexRectOffset: bv32
    /** The ioremapped compressed-data region (comp_start, comp_len). */
    var edBuffer: array<byte>
    var compStart: bv32
    var linPitch: bv32
    var encGap: bv32
    ghost var writes: seq<RegWrite>

    /**
      The line pitch is either the zero left by probe (before the first
      open) or one the engine supports.
    */
    ghost predicate Valid()
      reads this
    {
      linPitch == 0 || AcceptedPitch(linPitch)
    }

    /** HEX_CTRL as the engine holds it. */
    function HexCtrlValue(): bv32
      reads this`hexCtrl, this`encoderOff
    {
      WithBit(hexCtrl, ENCDIS, encoderOff)
    }

    /**
      The state probe leaves: the device structure is zero-filled, so the
      line pitch and the encoder gap are 0 until the first open; the
      registers hold whatever the hardware holds.
    */
    constructor (buffer: array<byte>, start: bv32)
      ensures Valid()
      ensures edBuffer == buffer && compStart == start
      ensures linPitch == 0 && encGap == 0 && writes == []
    {
      edBuffer := buffer;
      compStart := start;
      linPitch := 0;
      encGap := 0;
      writes := [];
    }

    /**
      npcm750_ece_clear_drs: write CDREADY to DDA_STS, which acknowledges
      (clears) the "compressed data ready" status.
    */
    method ClearDrs()
      modifies this`dataReady, this`writes
      ensures !dataReady
      ensures writes == old(writes) + [StsWrite]
    {
      dataReady := false;
      writes := writes + [StsWrite];
    }

    method ClearRectOffset()
      modifies this`hexRectOffset, this`writes
      ensures hexRectOffset == 0
      ensures writes == old(writes) + [OffsetWrite]
    {
      hexRectOffset := 0;
      writes := writes + [OffsetWrite];
    }

    /**
      npcm750_ece_get_ed_size: once the engine reports a finished
      rectangle, the size is the little-endian u32 at `offset` in the
      compressed-data region; the status is then acknowledged.  The
      busy-wait for CDREADY is the precondition that it is set.
    */
    method GetEdSize(offset: bv32) returns (size: bv32)
      requires dataReady
      requires offset as int + 4 <= edBuffer.Length
      modifies this`dataReady, this`writes
      ensures size == DecodeLe32(edBuffer[offset..offset as int + 4])
      ensures !dataReady
      ensures writes == old(writes) + [StsWrite]
    {
      size := DecodeLe32(edBuffer[offset..offset as int + 4]);
      ClearDrs();
    }

    /** The FIFO reset bypass: ECEEN is cleared and then set again. */
    method FifoResetBypass()
      modifies this`engineOn, this`writes
      ensures engineOn
      ensures writes == old(writes) + [CtrlWrite(false), CtrlWrite(true)]
    {
      engineOn := false;
      writes := writes + [CtrlWrite(false)];
      engineOn := true;
      writes := writes + [CtrlWrite(true)];
    }

    /**
      npcm750_ece_enc_rect: pulse the FIFO, then program the rectangle's
      byte offset (RectXY with the current line pitch) and its tiling
      (RectDimen).
    */
    method EncRect(x: bv32, y: bv32, w: bv32, h: bv32)
      modifies this`engineOn, this`rectXy, this`rectDimen, this`writes
      ensures engineOn
      ensures rectXy == RectXY(x, y, old(linPitch))
      ensures rectDimen == RectDimen(w, h)
      ensures writes == old(writes) + [CtrlWrite(false), CtrlWrite(true), XyWrite, DimenWrite]
    {
      var xy, dimen := RectXY(x, y, linPitch), RectDimen(w, h);
      FifoResetBypass();
      rectXy := xy;
      rectDimen := dimen;
      writes := writes + [XyWrite, DimenWrite];
    }

    /**
      npcm750_ece_set_lp: a supported pitch is recorded and its code
      written to RESOL; any other value changes nothing.
    */
    method SetLp(pitch: bv32)
      requires Valid()
      modifies this`resol, this`linPitch, this`writes
      ensures Valid()
      ensures AcceptedPitch(pitch) ==>
                linPitch == pitch && resol == PitchCode(pitch).value
                && writes == old(writes) + [ResolWrite]
      ensures !AcceptedPitch(pitch) ==>
                linPitch == old(linPitch) && resol == old(resol) && writes == old(writes)
    {
      match PitchCode(pitch)
      case None =>
      case Some(code) =>
        linPitch := pitch;
        resol := code;
        writes := writes + [ResolWrite];
    }

    /**
      The SETLP command of npcm750_ece_ioctl: a failed copy_from_user
      returns -EFAULT; otherwise the filter on the signed lp (a multiple
      of 512, at most 4096) guards set_lp.  Every pitch set_lp supports
      passes the filter, so the outcome is set_lp's.
    */
    method IoctlSetLp(lp: bv32, copyInOk: bool) returns (err: int)
      requires Valid()
      modifies this`resol, this`linPitch, this`writes
      ensures Valid()
      ensures !copyInOk ==> err == -EFAULT && unchanged(this)
      ensures copyInOk && AcceptedPitch(lp) ==>
                err == 0 && linPitch == lp && resol == PitchCode(lp).value
                && writes == old(writes) + [ResolWrite]
      ensures copyInOk && !AcceptedPitch(lp) ==> err == 0 && unchanged(this)
    {
      if !copyInOk {
        return -EFAULT;
      }
      AcceptedPitchPassesFilter(lp);
      if LpFilter(lp) {
        SetLp(lp);
      }
      err := 0;
    }

    /**
      The SETFB command of npcm750_ece_ioctl: after the copy-in, a null
      frame-buffer address is refused with -EFAULT and any other is
      written to FBR_BA.
    */
    method IoctlSetFb(framebuf: bv32, copyInOk: bool) returns (err: int)
      modifies this`fbrBa, this`writes
      ensures !copyInOk ==> err == -EFAULT && unchanged(this)
      ensures copyInOk && framebuf == 0 ==> err == -EFAULT && unchanged(this)
      ensures copyInOk && framebuf != 0 ==>
                err == 0 && fbrBa == framebuf && writes == old(writes) + [FbWrite]
    {
      if !copyInOk || framebuf == 0 {
        return -EFAULT;
      }
      fbrBa := framebuf;
      writes := writes + [FbWrite];
      err := 0;
    }

    /**
      The GET_OFFSET command of npcm750_ece_ioctl: HEX_RECT_OFFSET copied
      out to user space, -EFAULT when copy_to_user fails.  Reading the
      register changes nothing.
    */
    method IoctlGetOffset(copyOutOk: bool) returns (err: int, reply: Reply)
      ensures copyOutOk ==> err == 0 && reply == OffsetReply(hexRectOffset)
      ensures !copyOutOk ==> err == -EFAULT && reply == NoReply
    {
      if copyOutOk {
        err, reply := 0, OffsetReply(hexRectOffset);
      } else {
        err, reply := -EFAULT, NoReply;
      }
    }

    /**
      npcm750_ece_reset: engine off, encoder disabled, engine on, encoder
      enabled, offset cleared.
    */
    method Reset()
      modifies this`engineOn, this`encoderOff, this`hexRectOffset, this`writes
      ensures engineOn && !encoderOff && hexRectOffset == 0
      ensures writes == old(writes) + [CtrlWrite(false), HexWrite(true), CtrlWrite(true), HexWrite(false),
                                       OffsetWrite]
    {
      engineOn := false;
      encoderOff := true;
      engineOn := true;
      encoderOff := false;
      writes := writes + [CtrlWrite(false), HexWrite(true), CtrlWrite(true), HexWrite(false)];
      ClearRectOffset();
    }

    /**
      npcm750_ece_initialise, run on every open: reset, acknowledge the
      status, point ED_BA at the compressed-data region and take the
      default pitch (RESOL itself is not written).
    */
    method Initialise()
      modifies this`engineOn, this`encoderOff, this`hexRectOffset, this`dataReady, this`edBa,
               this`linPitch, this`writes
      ensures Valid() && linPitch == DEFAULT_LP
      ensures engineOn && !encoderOff && hexRectOffset == 0 && !dataReady
      ensures edBa == compStart
      ensures writes == old(writes) + [CtrlWrite(false), HexWrite(true), CtrlWrite(true), HexWrite(false),
                                       OffsetWrite, StsWrite, EdBaWrite]
    {
      Reset();
      ClearDrs();
      edBa := compStart;
      writes := writes + [EdBaWrite];
      linPitch := DEFAULT_LP;
    }

    /**
      npcm750_ece_deinit, run on every release: engine off, encoder
      disabled, offset cleared, status acknowledged.
    */
    method Deinit()
      modifies this`engineOn, this`encoderOff, this`hexRectOffset, this`dataReady, this`writes
      ensures !engineOn && encoderOff && hexRectOffset == 0 && !dataReady
      ensures writes == old(writes) + [CtrlWrite(false), HexWrite(true), OffsetWrite, StsWrite]
    {
      engineOn := false;
      encoderOff := true;
      writes := writes + [CtrlWrite(false), HexWrite(true)];
      ClearRectOffset();
      ClearDrs();
    }

    /**
      The GETED command of npcm750_ece_ioctl: after the copy-in, encode
      the rectangle, read its size at the offset the engine reported
      before it, read the encoder gap, and copy the argument back with
      both filled in.  The engine must report the rectangle finished
      (CDREADY) and the size header must lie inside the region.
    */
    method IoctlGetEd(arg: IoctlArg, copyInOk: bool, copyOutOk: bool) returns (err: int, reply: Reply)
      requires copyInOk ==> dataReady && hexRectOffset as int + 4 <= edBuffer.Length
      modifies this`engineOn, this`dataReady, this`rectXy, this`rectDimen, this`encGap, this`writes
      ensures !copyInOk ==> err == -EFAULT && reply == NoReply && unchanged(this)
      ensures copyInOk ==> engineOn && !dataReady
      ensures copyInOk ==> rectXy == RectXY(arg.x, arg.y, old(linPitch))
      ensures copyInOk ==> rectDimen == RectDimen(arg.w, arg.h)
      ensures copyInOk ==> encGap == EncGap(old(HexCtrlValue()))
      ensures copyInOk ==>
                writes == old(writes) + [CtrlWrite(false), CtrlWrite(true), XyWrite, DimenWrite, StsWrite]
      ensures copyInOk && copyOutOk ==>
                err == 0
                && reply == ArgReply(arg.(gapLen := encGap,
                                          len := DecodeLe32(old(edBuffer[hexRectOffset..hexRectOffset as int + 4]))))
      ensures copyInOk && !copyOutOk ==> err == -EFAULT && reply == NoReply
    {
      if !copyInOk {
        return -EFAULT, NoReply;
      }
      err, reply := 0, NoReply;
      var offset := hexRectOffset;
      var gap := EncGap(HexCtrlValue());
      EncRect(arg.x, arg.y, arg.w, arg.h);
      var size := GetEdSize(offset);
      encGap := gap;
      if copyOutOk {
        reply := ArgReply(arg.(gapLen := encGap, len := size));
      } else {
        err := -EFAULT;
      }
    }
  }
}
