/**
  The NPCM750 Encoding Compression Engine (ECE), as programmed by both of
  its hextile drivers: register map, bit fields, and the arithmetic the
  drivers perform before writing a register (read-modify-write masking,
  the RECT_XY byte offset, the 16x16 tile decomposition packed into
  RECT_DIMEN, the line-pitch code written to RESOL, the encoder gap read
  back from HEX_CTRL and the little-endian size header of an encoded
  rectangle).

  Register values are 32-bit words (bv32); C's u32 wrap-around is that of
  bv32.
*/
module EceHextile {
  import opened KernelTypes

  datatype Option<T> = None | Some(value: T)

  // ---------------------------------------------------------------------
  // Register map (byte offsets from the ECE base) and bit fields
  // ---------------------------------------------------------------------

  const DDA_CTRL: int := 0x0000
  const DDA_STS: int := 0x0004
  const FBR_BA: int := 0x0008
  const ED_BA: int := 0x000C
  const RECT_XY: int := 0x0010
  const RECT_DIMEN: int := 0x0014
  const RESOL: int := 0x001C
  const HEX_CTRL: int := 0x0040
  const HEX_RECT_OFFSET: int := 0x0048

  /** DDA_CTRL bit 0: engine enable. */
  const ECEEN: bv32 := 0x1
  /** DDA_STS bit 8: compressed data ready. */
  const CDREADY: bv32 := 0x100
  /** HEX_CTRL bit 0: encoder disable. */
  const ENCDIS: bv32 := 0x1
  /** HEX_CTRL bits 8..12: encoder gap. */
  const ENC_GAP: bv32 := 0x1f00
  const ENC_GAP_OFFSET: int := 8
  const ENC_MIN_GAP_SIZE: bv32 := 4

  const DEFAULT_WIDTH: bv32 := 640
  const DEFAULT_HEIGHT: bv32 := 640
  const DEFAULT_LP: bv32 := 2048

  const ECE_MAX_LP: int := 4096

  /**
    One register write, in the order the engine sees them: to DDA_CTRL,
    DDA_STS, FBR_BA, ED_BA, RECT_XY, RECT_DIMEN, RESOL, HEX_CTRL or
    HEX_RECT_OFFSET.  A write to a control register records the state it
    gives the one bit the drivers change there (ECEEN in DDA_CTRL, ENCDIS
    in HEX_CTRL).
  */
  datatype RegWrite =
    | CtrlWrite(eceen: bool)
    | StsWrite
    | FbWrite
    | EdBaWrite
    | XyWrite
    | DimenWrite
    | ResolWrite
    | HexWrite(encdis: bool)
    | OffsetWrite

  /**
    struct ece_ioctl_cmd as 32-bit words (the user-space pointer `buf` is
    not used by the drivers and left out).  `len`, `x`, `y`, `w`, `h` and
    `lp` are C ints, kept here as their bit patterns.
  */
  datatype IoctlArg = IoctlArg(framebuf: bv32, gapLen: bv32, len: bv32,
                               x: bv32, y: bv32, w: bv32, h: bv32, lp: bv32)

  /** What an ioctl hands back to user space. */
  datatype Reply = NoReply | OffsetReply(offset: bv32) | ArgReply(arg: IoctlArg)

  // ---------------------------------------------------------------------
  // Read-modify-write masking (update_bits)
  // ---------------------------------------------------------------------

  /**
    The value update_bits writes: inside `mask` the bits of `bits`,
    outside it the bits of the current value `cur`.
  */
  function MaskedUpdate(cur: bv32, mask: bv32, bits: bv32): (r: bv32)
    ensures r & mask == bits & mask
    ensures r & !mask == cur & !mask
  {
    (cur & !mask) | (bits & mask)
  }

  /** The two masked views determine the written value: no other value has them. */
  lemma MaskedUpdateUnique(cur: bv32, mask: bv32, bits: bv32, r: bv32)
    requires r & mask == bits & mask
    requires r & !mask == cur & !mask
    ensures r == MaskedUpdate(cur, mask, bits)
  {
    assert r == (r & mask) | (r & !mask);
  }

  /** Applying the same masked update twice is applying it once. */
  lemma MaskedUpdateIdempotent(cur: bv32, mask: bv32, bits: bv32)
    ensures MaskedUpdate(MaskedUpdate(cur, mask, bits), mask, bits) == MaskedUpdate(cur, mask, bits)
  {
  }

  /** Setting a bit that is clear. */
  lemma ClearThenSet(cur: bv32, bit: bv32)
    ensures MaskedUpdate(cur & !bit, bit, bit) == cur | bit
  {
  }

  /** Setting a bit that is already set. */
  lemma SetThenSet(cur: bv32, bit: bv32)
    ensures MaskedUpdate(cur | bit, bit, bit) == cur | bit
  {
  }

  /** Clearing a bit that is already clear. */
  lemma ClearThenClear(cur: bv32, bit: bv32)
    ensures MaskedUpdate(cur & !bit, bit, !bit) == cur & !bit
  {
  }

  /** Clearing a bit that is set. */
  lemma SetThenClear(cur: bv32, bit: bv32)
    ensures MaskedUpdate(cur | bit, bit, !bit) == cur & !bit
  {
  }

  /**
    A register seen as the one bit a driver changes plus all the other
    bits: `on` says whether `bit` is set, `rest` supplies the others.
  */
  function WithBit(rest: bv32, bit: bv32, on: bool): bv32
  {
    if on then rest | bit else rest & !bit
  }

  /**
    update_bits with a one-bit mask and that bit as value sets the bit and
    keeps the others: this is why a register can be modelled as the bit
    plus the untouched rest.
  */
  lemma MaskedUpdateSetsBit(rest: bv32, bit: bv32, was: bool)
    ensures MaskedUpdate(WithBit(rest, bit, was), bit, bit) == WithBit(rest, bit, true)
  {
    if was {
      SetThenSet(rest, bit);
    } else {
      ClearThenSet(rest, bit);
    }
  }

  /** update_bits with a one-bit mask and the complement as value clears the bit. */
  lemma MaskedUpdateClearsBit(rest: bv32, bit: bv32, was: bool)
    ensures MaskedUpdate(WithBit(rest, bit, was), bit, !bit) == WithBit(rest, bit, false)
  {
    if was {
      SetThenClear(rest, bit);
    } else {
      ClearThenClear(rest, bit);
    }
  }

  // ---------------------------------------------------------------------
  // Little-endian size header
  // ---------------------------------------------------------------------

  /**
    The u32 the drivers assemble from four buffer bytes,
    b[0] | b[1] << 8 | b[2] << 16 | b[3] << 24 (char is unsigned on the
    target, so no byte is sign-extended).
  */
  function DecodeLe32(b: seq<byte>): bv32
    requires |b| == 4
  {
    (b[0] as bv32) | ((b[1] as bv32) << 8) | ((b[2] as bv32) << 16) | ((b[3] as bv32) << 24)
  }

  /** Byte i of the decoded word is b[i]: the four bytes do not overlap. */
  lemma DecodeLe32Bytes(b: seq<byte>)
    requires |b| == 4
    ensures DecodeLe32(b) & 0xFF == b[0] as bv32
    ensures (DecodeLe32(b) >> 8) & 0xFF == b[1] as bv32
    ensures (DecodeLe32(b) >> 16) & 0xFF == b[2] as bv32
    ensures DecodeLe32(b) >> 24 == b[3] as bv32
  {
  }

  /** The four bytes of a u32, least significant first. */
  function EncodeLe32(v: bv32): (b: seq<byte>)
    ensures |b| == 4
  {
    [(v & 0xFF) as bv8, ((v >> 8) & 0xFF) as bv8, ((v >> 16) & 0xFF) as bv8, (v >> 24) as bv8]
  }

  lemma DecodeEncodeLe32(v: bv32)
    ensures DecodeLe32(EncodeLe32(v)) == v
  {
    var e := EncodeLe32(v);
    assert e[0] as bv32 == v & 0xFF;
    assert e[1] as bv32 == (v >> 8) & 0xFF;
    assert e[2] as bv32 == (v >> 16) & 0xFF;
    assert e[3] as bv32 == v >> 24;
    assert DecodeLe32(e) == (v & 0xFF) | (((v >> 8) & 0xFF) << 8) | (((v >> 16) & 0xFF) << 16) | ((v >> 24) << 24);
  }

  lemma EncodeDecodeLe32(b: seq<byte>)
    requires |b| == 4
    ensures EncodeLe32(DecodeLe32(b)) == b
  {
    DecodeLe32Bytes(b);
    var e := EncodeLe32(DecodeLe32(b));
    assert e[0] == b[0] && e[1] == b[1] && e[2] == b[2] && e[3] == b[3];
  }

  // ---------------------------------------------------------------------
  // Tile decomposition and RECT_DIMEN
  // ---------------------------------------------------------------------

  // enc_rect splits each side into 16-pixel tiles with u32 `/` and `%`.
  // The four functions below compute the same values with shifts and
  // masks (TilingIsDivision proves it), which the bit-vector solver
  // handles far better than division.

  /** Tiles across a width: one more than w / 16 when a partial tile is left. */
  function WidthTiles(w: bv32): bv32
  {
    if w & 15 != 0 then (w >> 4) + 1 else w >> 4
  }

  /** Pixels in the last tile across a width: w % 16, or a full 16. */
  function WidthLast(w: bv32): bv32
  {
    if w & 15 != 0 then w & 15 else 16
  }

  /** Tile rows of a height: as for the width, but never fewer than one. */
  function HeightTiles(h: bv32): bv32
  {
    if h & 15 != 0 || h >> 4 == 0 then (h >> 4) + 1 else h >> 4
  }

  /** Lines in the last tile row: h % 16 whenever a tile was added. */
  function HeightLast(h: bv32): bv32
  {
    if h & 15 != 0 || h >> 4 == 0 then h & 15 else 16
  }

  /** The tiling functions are enc_rect's u32 division and remainder by 16. */
  lemma TilingIsDivision(v: bv32)
    ensures WidthTiles(v) == if v % 16 != 0 then v / 16 + 1 else v / 16
    ensures WidthLast(v) == if v % 16 != 0 then v % 16 else 16
    ensures HeightTiles(v) == if v % 16 != 0 || v / 16 == 0 then v / 16 + 1 else v / 16
    ensures HeightLast(v) == if v % 16 != 0 || v / 16 == 0 then v % 16 else 16
  {
    assert v / 16 == v >> 4;
    assert v % 16 == v & 15;
  }

  /**
    A non-empty width is covered exactly: WidthTiles - 1 full tiles and a
    last tile of 1 to 16 pixels.
  */
  lemma WidthTilingCovers(w: bv32)
    requires w != 0
    ensures 1 <= WidthLast(w) <= 16
    ensures ((WidthTiles(w) - 1) << 4) + WidthLast(w) == w
  {
  }

  /** Height and width are split alike except for the empty side. */
  lemma HeightTilingAgrees(h: bv32)
    ensures h != 0 ==> HeightTiles(h) == WidthTiles(h) && HeightLast(h) == WidthLast(h)
    ensures HeightTiles(0) == 1 && HeightLast(0) == 0
    ensures WidthTiles(0) == 0 && WidthLast(0) == 16
  {
  }

  /** The same holds for a non-empty height. */
  lemma HeightTilingCovers(h: bv32)
    requires h != 0
    ensures 1 <= HeightLast(h) <= 16
    ensures ((HeightTiles(h) - 1) << 4) + HeightLast(h) == h
  {
  }

  /** Up to 32768 pixels a side, at most 2048 tiles are needed. */
  lemma WidthTilesBound(w: bv32)
    requires 1 <= w <= 32768
    ensures 1 <= WidthTiles(w) <= 2048
  {
    assert w >> 4 <= 2048;
  }

  lemma HeightTilesBound(h: bv32)
    requires 1 <= h <= 32768
    ensures 1 <= HeightTiles(h) <= 2048
  {
  }

  /**
    The RECT_DIMEN word: w_tile - 1 at bit 0 (WR), w_size - 1 at bit 11
    (WLTR), h_tile - 1 at bit 16 (HR) and h_size - 1 at bit 27 (HLTR),
    each subtraction in u32.
  */
  function PackDimen(wTile: bv32, wSize: bv32, hTile: bv32, hSize: bv32): bv32
  {
    ((wSize - 1) << 11)
    | ((hSize - 1) << 27)
    | ((wTile - 1) << 0)
    | ((hTile - 1) << 16)
  }

  /** The four fields of a RECT_DIMEN word: WR (11 bits), WLTR (5), HR (11), HLTR (5). */
  function DimenWr(d: bv32): bv32 { d & 0x7FF }
  function DimenWltr(d: bv32): bv32 { (d >> 11) & 0x1F }
  function DimenHr(d: bv32): bv32 { (d >> 16) & 0x7FF }
  function DimenHltr(d: bv32): bv32 { d >> 27 }

  /**
    The fields are disjoint: when each value fits its field (tile counts
    up to 2048, tile sizes up to 16) packing loses nothing, and the engine
    reads back the tile count and last-tile size of each side.  With
    WidthTilesBound and WidthTilingCovers (and their height versions) this
    says that every rectangle of 1 to 32768 pixels a side is described
    exactly by the RECT_DIMEN word enc_rect writes.
  */
  lemma UnpackPackDimenWidth(wTile: bv32, wSize: bv32, hTile: bv32, hSize: bv32)
    requires 1 <= wTile <= 2048 && 1 <= wSize <= 16
    ensures DimenWr(PackDimen(wTile, wSize, hTile, hSize)) == wTile - 1
    ensures DimenWltr(PackDimen(wTile, wSize, hTile, hSize)) == wSize - 1
  {
  }

  lemma UnpackPackDimenHeight(wTile: bv32, wSize: bv32, hTile: bv32, hSize: bv32)
    requires 1 <= wTile <= 2048 && 1 <= wSize <= 16
    requires 1 <= hTile <= 2048 && 1 <= hSize <= 16
    ensures DimenHr(PackDimen(wTile, wSize, hTile, hSize)) == hTile - 1
    ensures DimenHltr(PackDimen(wTile, wSize, hTile, hSize)) == hSize - 1
  {
  }

  /** RECT_DIMEN as enc_rect computes it for a w x h rectangle. */
  function RectDimen(w: bv32, h: bv32): bv32
  {
    PackDimen(WidthTiles(w), WidthLast(w), HeightTiles(h), HeightLast(h))
  }

  /** An empty width underflows w_tile - 1 and sets every bit of RECT_DIMEN. */
  lemma EmptyWidthDimen(h: bv32)
    ensures RectDimen(0, h) == 0xFFFF_FFFF
  {
  }

  /**
    An empty height underflows h_size - 1: HLTR reads 31 and HR 0, so the
    engine is told about one tile row of 32 lines.
  */
  lemma EmptyHeightDimen(w: bv32)
    requires 1 <= w <= 32768
    ensures DimenHr(RectDimen(w, 0)) == 0
    ensures DimenHltr(RectDimen(w, 0)) == 31
  {
    WidthTilesBound(w);
    WidthTilingCovers(w);
  }

  // ---------------------------------------------------------------------
  // RECT_XY
  // ---------------------------------------------------------------------

  /**
    The byte offset of pixel (x, y) in a frame of 16-bit pixels with the
    given line pitch, y * pitch + x * 2 in u32 arithmetic.
  */
  function RectXY(x: bv32, y: bv32, pitch: bv32): bv32
  {
    y * pitch + x * 2
  }

  /** The origin is at offset 0, the next pixel two bytes on. */
  lemma RectXYOriginAndPixel(x: bv32, y: bv32, pitch: bv32)
    ensures RectXY(0, 0, pitch) == 0
    ensures RectXY(x + 1, y, pitch) == RectXY(x, y, pitch) + 2
  {
  }

  /** With a supported pitch, the next line is one pitch further on. */
  lemma RectXYNextLine(x: bv32, y: bv32, pitch: bv32)
    requires AcceptedPitch(pitch)
    ensures RectXY(x, y + 1, pitch) == RectXY(x, y, pitch) + pitch
  {
    // One case per pitch turns the u32 multiplication into one by a constant.
    if pitch == 512 {
    } else if pitch == 1024 {
    } else if pitch == 2048 {
    } else if pitch == 2560 {
    } else {
    }
  }

  // ---------------------------------------------------------------------
  // Line pitch and the RESOL code
  // ---------------------------------------------------------------------

  /** The five line pitches (bytes) the engine supports. */
  predicate AcceptedPitch(p: bv32)
  {
    p == 512 || p == 1024 || p == 2048 || p == 2560 || p == 4096
  }

  /** The RESOL code for a pitch, or None for a pitch set_lp ignores. */
  function PitchCode(pitch: bv32): (c: Option<bv32>)
    ensures c.Some? <==> AcceptedPitch(pitch)
    ensures c.Some? ==> c.value <= 4
  {
    match pitch
    case 512 => Some(0)
    case 1024 => Some(1)
    case 2048 => Some(2)
    case 2560 => Some(3)
    case 4096 => Some(4)
    case _ => None
  }

  /** The pitch a RESOL code stands for. */
  function CodePitch(code: bv32): (p: bv32)
    requires code <= 4
    ensures AcceptedPitch(p)
  {
    if code == 0 then 512
    else if code == 1 then 1024
    else if code == 2 then 2048
    else if code == 3 then 2560
    else 4096
  }

  /** Code and pitch are inverse to each other, in both directions. */
  lemma PitchCodeRoundTrip(pitch: bv32, code: bv32)
    ensures AcceptedPitch(pitch) ==> CodePitch(PitchCode(pitch).value) == pitch
    ensures code <= 4 ==> PitchCode(CodePitch(code)) == Some(code)
  {
  }

  /** The signed reading of a 32-bit word (two's complement). */
  function Signed(v: bv32): (i: int)
    ensures -0x8000_0000 <= i < 0x8000_0000
  {
    var n := v as int;
    if n < 0x8000_0000 then n else n - 0x1_0000_0000
  }

  /**
    C's `a % 512` on a signed int, which truncates toward zero: the
    remainder takes the sign of `a`, and it is 0 exactly when 512
    divides `a`.
  */
  function CRem512(a: int): (r: int)
    ensures -512 < r < 512
    ensures a >= 0 ==> r >= 0
    ensures a < 0 ==> r <= 0
    ensures r == 0 <==> a % 512 == 0
  {
    if a >= 0 then a % 512 else -((-a) % 512)
  }

  /** The SETLP filter, `!(lp % 512) && lp <= 4096` on the signed lp. */
  predicate LpFilter(lp: bv32)
  {
    CRem512(Signed(lp)) == 0 && Signed(lp) <= ECE_MAX_LP
  }

  /** The filter never rejects a supported pitch. */
  lemma AcceptedPitchPassesFilter(lp: bv32)
    ensures AcceptedPitch(lp) ==> LpFilter(lp)
  {
  }

  /**
    The filter is weaker than set_lp's switch: it lets through 0, 1536,
    3072, 3584 and negative multiples of 512 such as -512, which set_lp
    then ignores.
  */
  lemma LpFilterLetsThrough()
    ensures LpFilter(0) && !AcceptedPitch(0)
    ensures LpFilter(1536) && !AcceptedPitch(1536)
    ensures LpFilter(3072) && !AcceptedPitch(3072)
    ensures LpFilter(3584) && !AcceptedPitch(3584)
    ensures LpFilter(0xFFFF_FE00) && !AcceptedPitch(0xFFFF_FE00)
  {
  }

  /** What the filter stops: a value above 4096, or not a multiple of 512. */
  lemma LpFilterRejects()
    ensures !LpFilter(4608) && !LpFilter(8192)
    ensures !LpFilter(513) && !LpFilter(0xFFFF_FFFF)
  {
  }

  // ---------------------------------------------------------------------
  // Encoder gap
  // ---------------------------------------------------------------------

  /**
    The encoder gap read back from HEX_CTRL: bits 8..12, or
    ENC_MIN_GAP_SIZE when that field is 0.  It is always in [1, 31].
  */
  function EncGap(hexCtrl: bv32): (g: bv32)
    ensures 1 <= g <= 31
    ensures (hexCtrl >> 8) & 0x1F != 0 ==> g == (hexCtrl >> 8) & 0x1F
    ensures (hexCtrl >> 8) & 0x1F == 0 ==> g == ENC_MIN_GAP_SIZE
  {
    var gap := (hexCtrl & ENC_GAP) >> ENC_GAP_OFFSET;
    if gap == 0 then ENC_MIN_GAP_SIZE else gap
  }

  /** Toggling ENCDIS (bit 0) does not change the encoder gap. */
  lemma EncGapIgnoresEncDis(hexCtrl: bv32)
    ensures EncGap(hexCtrl & !ENCDIS) == EncGap(hexCtrl)
    ensures EncGap(hexCtrl | ENCDIS) == EncGap(hexCtrl)
  {
  }

  /**
    The gap read back from HEX_CTRL is the same whatever state ENCDIS is
    in, so reading it after the encoder is re-enabled gives the value the
    register held before.
  */
  lemma EncGapIgnoresEncoderState(rest: bv32, on: bool)
    ensures EncGap(WithBit(rest, ENCDIS, on)) == EncGap(rest)
  {
    // The case split is the proof: with `on` fixed, WithBit unfolds to a
    // single bit operation, which EncGapIgnoresEncDis covers.  The same call
    // without the split runs out of resource.
    if on {
      EncGapIgnoresEncDis(rest);
    } else {
      EncGapIgnoresEncDis(rest);
    }
  }
}
