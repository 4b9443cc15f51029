/**
  The video-compression ECE hextile driver: the same engine as MediaEce,
  with a character device that is opened without touching the engine,
  whose ioctl copies its argument in before looking at the command, that
  polls the size header up to 30 times, clears the rectangle offset
  after every encode, and reprograms ED_BA only when the frame size
  changes.  Each ioctl command is a method of its own.

  The registers are kept as in MediaEce: DDA_CTRL as `engineOn` (ECEEN),
  DDA_STS as `dataReady` (CDREADY), HEX_CTRL as `encoderOff` (ENCDIS)
  and `hexCtrl` (its other bits), every other register as its 32-bit
  value, and `writes` as the order of the register writes.
*/
module VideoEce {
  import opened KernelTypes
  import opened EceHextile

  /** How many times ece_get_ed_size reads the size header at most. */
  const ED_SIZE_TRIES: nat := 30

  /** Every sample is a 4-byte read of the size header. */
  predicate HeaderReads(samples: seq<seq<byte>>)
  {
    forall i | 0 <= i < |samples| :: |samples[i]| == 4
  }

  /**
    The size ece_get_ed_size settles on when its successive reads of the
    header return `samples`, counting from read number `from` (0-based):
    the first non-zero value, or the one read last, at read 30.
  */
  function Polled(samples: seq<seq<byte>>, from: nat): bv32
    requires from < ED_SIZE_TRIES <= |samples| && HeaderReads(samples)
    decreases ED_SIZE_TRIES - from
  {
    var size := DecodeLe32(samples[from]);
    if size != 0 || from == ED_SIZE_TRIES - 1 then size else Polled(samples, from + 1)
  }

  /** The poll gives 0 exactly when every read it was allowed gave 0. */
  lemma {:induction false} PolledZero(samples: seq<seq<byte>>, from: nat)
    requires from < ED_SIZE_TRIES <= |samples| && HeaderReads(samples)
    ensures Polled(samples, from) == 0 <==>
              forall i | from <= i < ED_SIZE_TRIES :: DecodeLe32(samples[i]) == 0
    decreases ED_SIZE_TRIES - from
  {
    if DecodeLe32(samples[from]) != 0 || from == ED_SIZE_TRIES - 1 {
    } else {
      PolledZero(samples, from + 1);
    }
  }

  /** A read that is the first non-zero one is the value the poll settles on. */
  lemma {:induction false} PolledFirstNonZero(samples: seq<seq<byte>>, from: nat, k: nat)
    requires from <= k < ED_SIZE_TRIES <= |samples| && HeaderReads(samples)
    requires forall i | from <= i < k :: DecodeLe32(samples[i]) == 0
    requires DecodeLe32(samples[k]) != 0
    ensures Polled(samples, from) == DecodeLe32(samples[k])
    decreases ED_SIZE_TRIES - from
  {
    if from < k {
      PolledFirstNonZero(samples, from + 1, k);
    }
  }

  /**
    A header that does not change between reads: the poll returns its
    value whether or not it is zero.
  */
  lemma {:induction false} PolledSteadyHeader(samples: seq<seq<byte>>, from: nat, header: seq<byte>)
    requires from < ED_SIZE_TRIES <= |samples| && |header| == 4
    requires forall i | 0 <= i < |samples| :: samples[i] == header
    ensures HeaderReads(samples) && Polled(samples, from) == DecodeLe32(header)
    decreases ED_SIZE_TRIES - from
  {
    if DecodeLe32(samples[from]) != 0 || from == ED_SIZE_TRIES - 1 {
    } else {
      PolledSteadyHeader(samples, from + 1, header);
    }
  }

  /**
    The retry loop of ece_get_ed_size: read the little-endian header,
    again while it reads 0, at most 30 times.  `samples[i]` is what read
    number i finds, since the engine writes the region concurrently.
  */
  method PollEdSize(samples: seq<seq<byte>>) returns (size: bv32)
    requires ED_SIZE_TRIES <= |samples| && HeaderReads(samples)
    ensures size == Polled(samples, 0)
  {
    size := DecodeLe32(samples[0]);
    var count := 1;
    while size == 0 && count < ED_SIZE_TRIES
      invariant 1 <= count <= ED_SIZE_TRIES
      invariant size == DecodeLe32(samples[count - 1])
      invariant Polled(samples, 0) == Polled(samples, count - 1)
      decreases ED_SIZE_TRIES - count
    {
      size := DecodeLe32(samples[count]);
      count := count + 1;
    }
  }

  class Ece {
    var engineOn: bool
    var dataReady: bool
    var encoderOff: bool
    var hexCtrl: bv32
    var fbrBa: bv32
    var edBa: bv32
    var rectXy: bv32
    var rectDimen: bv32
    var resol: bv32
    var hexRectOffset: bv32
    /** Bus address of the compressed-data region (device-tree "mem-addr"). */
    var smemStart: bv32
    var width: bv32
    var height: bv32
    var linPitch: bv32
    var encGap: bv32
    var initialised: bool
    ghost var writes: seq<RegWrite>

    /** After probe the line pitch is always one the engine supports. */
    ghost predicate Valid()
      reads this
    {
      AcceptedPitch(linPitch)
    }

    /** HEX_CTRL as the engine holds it. */
    function HexCtrlValue(): bv32
      reads this`hexCtrl, this`encoderOff
    {
      WithBit(hexCtrl, ENCDIS, encoderOff)
    }

    /**
      A successful npcm750_ece_probe: the zero-filled device structure is
      initialised (engine reset, status acknowledged), takes the default
      frame size and pitch, and ED_BA is pointed at the region.  RESOL is
      not written.
    */
    constructor (start: bv32)
      ensures Valid() && initialised
      ensures width == DEFAULT_WIDTH && height == DEFAULT_HEIGHT && linPitch == DEFAULT_LP
      ensures smemStart == start && edBa == start
      ensures engineOn && !encoderOff && hexRectOffset == 0 && !dataReady
      ensures 1 <= encGap <= 31
      ensures writes == [CtrlWrite(false), CtrlWrite(true), HexWrite(true), HexWrite(false), OffsetWrite,
                         StsWrite, EdBaWrite]
    {
      smemStart := start;
      width, height, linPitch, encGap := 0, 0, 0, 0;
      initialised := false;
      writes := [];
      new;
      Initialise();
      width := DEFAULT_WIDTH;
      height := DEFAULT_HEIGHT;
      linPitch := DEFAULT_LP;
      SetEncDba();
    }

    /**
      ece_clear_drs: write CDREADY back to DDA_STS, which acknowledges
      (clears) the "compressed data ready" status.
    */
    method ClearDrs()
      modifies this`dataReady, this`writes
      ensures !dataReady
      ensures writes == old(writes) + [StsWrite]
    {
      dataReady := false;
      writes := writes + [StsWrite];
    }

    method ClearRectOffset()
      modifies this`hexRectOffset, this`writes
      ensures hexRectOffset == 0
      ensures writes == old(writes) + [OffsetWrite]
    {
      hexRectOffset := 0;
      writes := writes + [OffsetWrite];
    }

    /** ece_set_enc_dba: ED_BA := the region's bus address. */
    method SetEncDba()
      modifies this`edBa, this`writes
      ensures edBa == smemStart
      ensures writes == old(writes) + [EdBaWrite]
    {
      edBa := smemStart;
      writes := writes + [EdBaWrite];
    }

    /**
      ece_get_ed_size: once the engine reports a finished rectangle (the
      busy-wait is the precondition), poll the size header, then
      acknowledge the status.
    */
    method GetEdSize(samples: seq<seq<byte>>) returns (size: bv32)
      requires dataReady
      requires ED_SIZE_TRIES <= |samples| && HeaderReads(samples)
      modifies this`dataReady, this`writes
      ensures size == Polled(samples, 0)
      ensures !dataReady
      ensures writes == old(writes) + [StsWrite]
    {
      size := PollEdSize(samples);
      ClearDrs();
    }

    /** fifo_reset_bypass: ECEEN is cleared and then set again. */
    method FifoResetBypass()
      modifies this`engineOn, this`writes
      ensures engineOn
      ensures writes == old(writes) + [CtrlWrite(false), CtrlWrite(true)]
    {
      engineOn := false;
      writes := writes + [CtrlWrite(false)];
      engineOn := true;
      writes := writes + [CtrlWrite(true)];
    }

    /**
      ece_enc_rect: pulse the FIFO, then program the rectangle's byte
      offset (RectXY with the current line pitch) and its tiling
      (RectDimen).
    */
    method EncRect(x: bv32, y: bv32, w: bv32, h: bv32)
      modifies this`engineOn, this`rectXy, this`rectDimen, this`writes
      ensures engineOn
      ensures rectXy == RectXY(x, y, old(linPitch))
      ensures rectDimen == RectDimen(w, h)
      ensures writes == old(writes) + [CtrlWrite(false), CtrlWrite(true), XyWrite, DimenWrite]
    {
      var xy, dimen := RectXY(x, y, linPitch), RectDimen(w, h);
      FifoResetBypass();
      rectXy := xy;
      rectDimen := dimen;
      writes := writes + [XyWrite, DimenWrite];
    }

    /**
      ece_set_lp: a supported pitch is recorded and its code written to
      RESOL; any other value changes nothing.
    */
    method SetLp(pitch: bv32)
      modifies this`resol, this`linPitch, this`writes
      ensures AcceptedPitch(pitch) ==>
                linPitch == pitch && resol == PitchCode(pitch).value
                && writes == old(writes) + [ResolWrite]
      ensures !AcceptedPitch(pitch) ==>
                linPitch == old(linPitch) && resol == old(resol) && writes == old(writes)
    {
      match PitchCode(pitch)
      case None =>
      case Some(code) =>
        linPitch := pitch;
        resol := code;
        writes := writes + [ResolWrite];
    }

    /**
      ece_reset: engine off and on again, encoder disabled and re-enabled,
      offset cleared, and the encoder gap read back from HEX_CTRL.  The
      gap does not depend on ENCDIS, so it is the one HEX_CTRL held
      before the reset.
    */
    method Reset()
      modifies this`engineOn, this`encoderOff, this`hexRectOffset, this`encGap, this`writes
      ensures engineOn && !encoderOff && hexRectOffset == 0
      ensures encGap == EncGap(old(HexCtrlValue()))
      ensures writes == old(writes) + [CtrlWrite(false), CtrlWrite(true), HexWrite(true), HexWrite(false),
                                       OffsetWrite]
    {
      ghost var before := encoderOff;
      engineOn := false;
      engineOn := true;
      encoderOff := true;
      encoderOff := false;
      writes := writes + [CtrlWrite(false), CtrlWrite(true), HexWrite(true), HexWrite(false)];
      ClearRectOffset();
      encGap := EncGap(HexCtrlValue());
      EncGapIgnoresEncoderState(hexCtrl, before);
      EncGapIgnoresEncoderState(hexCtrl, false);
    }

    /**
      ece_initialise: reset the engine and acknowledge the status the
      first time only; afterwards it does nothing.
    */
    method Initialise()
      modifies this`engineOn, this`encoderOff, this`hexRectOffset, this`encGap, this`dataReady,
               this`initialised, this`writes
      ensures initialised
      ensures old(initialised) ==> unchanged(this)
      ensures !old(initialised) ==>
                engineOn && !encoderOff && hexRectOffset == 0 && !dataReady
                && encGap == EncGap(old(HexCtrlValue()))
                && writes == old(writes) + [CtrlWrite(false), CtrlWrite(true), HexWrite(true), HexWrite(false),
                                            OffsetWrite, StsWrite]
    {
      if !initialised {
        Reset();
        ClearDrs();
        initialised := true;
      }
    }

    /**
      The first half of SETLP: the filter on the signed lp (a multiple of
      512, at most 4096) guards ece_set_lp.  Every pitch ece_set_lp
      supports passes the filter, so the outcome is ece_set_lp's.
    */
    method FilteredSetLp(lp: bv32)
      requires Valid()
      modifies this`resol, this`linPitch, this`writes
      ensures Valid()
      ensures AcceptedPitch(lp) ==>
                linPitch == lp && resol == PitchCode(lp).value && writes == old(writes) + [ResolWrite]
      ensures !AcceptedPitch(lp) ==>
                linPitch == old(linPitch) && resol == old(resol) && writes == old(writes)
    {
      AcceptedPitchPassesFilter(lp);
      if LpFilter(lp) {
        SetLp(lp);
      }
    }

    /**
      The second half of SETLP: a frame size different from the stored
      one is recorded and ED_BA rewritten; the same size changes nothing.
    */
    method Resize(w: bv32, h: bv32)
      modifies this`width, this`height, this`edBa, this`writes
      ensures width == w && height == h
      ensures w != old(width) || h != old(height) ==>
                edBa == smemStart && writes == old(writes) + [EdBaWrite]
      ensures w == old(width) && h == old(height) ==> edBa == old(edBa) && writes == old(writes)
    {
      if w != width || h != height {
        width := w;
        height := h;
        SetEncDba();
      }
    }

    /** The SETLP command of drv_ioctl: after the copy-in, the pitch, then the frame size. */
    method IoctlSetLp(arg: IoctlArg, copyInOk: bool) returns (err: int)
      requires Valid()
      modifies this`resol, this`linPitch, this`width, this`height, this`edBa, this`writes
      ensures Valid()
      ensures !copyInOk ==> err == -EFAULT && unchanged(this)
      ensures copyInOk ==> err == 0 && width == arg.w && height == arg.h
      ensures copyInOk && AcceptedPitch(arg.lp) ==> linPitch == arg.lp && resol == PitchCode(arg.lp).value
      ensures copyInOk && !AcceptedPitch(arg.lp) ==> linPitch == old(linPitch) && resol == old(resol)
      ensures copyInOk && (arg.w != old(width) || arg.h != old(height)) ==> edBa == smemStart
      ensures copyInOk && arg.w == old(width) && arg.h == old(height) ==> edBa == old(edBa)
      ensures copyInOk ==>
                writes == old(writes) + (if AcceptedPitch(arg.lp) then [ResolWrite] else [])
                                      + (if arg.w != old(width) || arg.h != old(height) then [EdBaWrite] else [])
    {
      if !copyInOk {
        return -EFAULT;
      }
      FilteredSetLp(arg.lp);
      Resize(arg.w, arg.h);
      err := 0;
    }

    /**
      The SETFB command of drv_ioctl: after the copy-in, a null
      frame-buffer address is refused with -EFAULT and any other is
      written to FBR_BA.
    */
    method IoctlSetFb(framebuf: bv32, copyInOk: bool) returns (err: int)
      modifies this`fbrBa, this`writes
      ensures !copyInOk ==> err == -EFAULT && unchanged(this)
      ensures copyInOk && framebuf == 0 ==> err == -EFAULT && unchanged(this)
      ensures copyInOk && framebuf != 0 ==>
                err == 0 && fbrBa == framebuf && writes == old(writes) + [FbWrite]
    {
      if !copyInOk || framebuf == 0 {
        return -EFAULT;
      }
      fbrBa := framebuf;
      writes := writes + [FbWrite];
      err := 0;
    }

    /**
      The GETED command of drv_ioctl: after the copy-in, encode the
      rectangle, poll its size, clear the rectangle offset, read the
      encoder gap, and copy the argument back with both filled in.  The
      engine must report the rectangle finished (CDREADY); `samples` are
      the successive reads of the size header.
    */
    method IoctlGetEd(arg: IoctlArg, copyInOk: bool, copyOutOk: bool, samples: seq<seq<byte>>)
      returns (err: int, reply: Reply)
      requires copyInOk ==> dataReady && ED_SIZE_TRIES <= |samples| && HeaderReads(samples)
      modifies this`engineOn, this`dataReady, this`rectXy, this`rectDimen, this`hexRectOffset,
               this`encGap, this`writes
      ensures !copyInOk ==> err == -EFAULT && reply == NoReply && unchanged(this)
      ensures copyInOk ==> engineOn && !dataReady && hexRectOffset == 0
      ensures copyInOk ==> rectXy == RectXY(arg.x, arg.y, old(linPitch))
      ensures copyInOk ==> rectDimen == RectDimen(arg.w, arg.h)
      ensures copyInOk ==> encGap == EncGap(old(HexCtrlValue()))
      ensures copyInOk ==>
                writes == old(writes) + [CtrlWrite(false), CtrlWrite(true), XyWrite, DimenWrite, StsWrite,
                                         OffsetWrite]
      ensures copyInOk && copyOutOk ==>
                err == 0 && reply == ArgReply(arg.(gapLen := encGap, len := Polled(samples, 0)))
      ensures copyInOk && !copyOutOk ==> err == -EFAULT && reply == NoReply
    {
      if !copyInOk {
        return -EFAULT, NoReply;
      }
      err, reply := 0, NoReply;
      var gap := EncGap(HexCtrlValue());
      EncRect(arg.x, arg.y, arg.w, arg.h);
      var size := GetEdSize(samples);
      ClearRectOffset();
      encGap := gap;
      if copyOutOk {
        reply := ArgReply(arg.(gapLen := encGap, len := size));
      } else {
        err := -EFAULT;
      }
    }

    /**
      Any other command of drv_ioctl: the argument is still copied in
      first, so only a failed copy is an error.
    */
    method IoctlOther(copyInOk: bool) returns (err: int)
      ensures copyInOk <==> err == 0
      ensures !copyInOk ==> err == -EFAULT
    {
      err := if copyInOk then 0 else -EFAULT;
    }
  }
}
