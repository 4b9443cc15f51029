# Nuvoton NPCM: Cerberus mailbox client and ECE hextile drivers

This project models three Linux drivers for the Nuvoton NPCM7xx BMC:

- **Cerberus mailbox client** (`cerberus.dfy`, module `NpcmCerberus`).
  - The host and the TIP co-processor share one memory region.
  - Probe splits the region into a write window and a read window. The read window must be exactly one 2048-byte message slot.
  - The co-processor's doorbell triggers the rx callback. The callback queues the whole read window as one slot in a 32-slot FIFO. When the FIFO is full it drops the oldest slot first.
  - `read` hands the oldest slot to user space.
  - `write` copies user bytes to the start of the write window and rings the doorbell.
  - The driver state is the class `Cerberus`.
  - The FIFO is specified by the pure functions `Enqueue` and `EnqueueAll`. The drop-oldest law is proved about them.
- **Encoding Compression Engine (ECE) hextile drivers**, in two variants:
  - the media-platform variant (`media_ece.dfy`, module `MediaEce`);
  - the video-compression variant (`video_ece.dfy`, module `VideoEce`).
  - Each variant is a class `Ece`. Its fields are the engine registers the driver uses and the driver's own state (line pitch, encoder gap, frame size).
  - A ghost log `writes` records every register write in order. This keeps visible the engine and encoder pulses of a reset and of the FIFO bypass, which the final register values hide.
  - Each ioctl command is a method of its own.
  - The register arithmetic both variants share is pure. It lives in `hextile.dfy` (module `EceHextile`):
    - read-modify-write masking;
    - the little-endian size header;
    - the 16x16 tiling packed into RECT_DIMEN;
    - the RECT_XY byte offset;
    - the RESOL pitch code;
    - the SETLP filter;
    - the encoder gap.

A register that the drivers change one bit at a time through `update_bits` is kept as two parts:
- that bit, as a `bool`;
- where the driver reads the register back, the remaining bits.

`MaskedUpdateSetsBit` and `MaskedUpdateClearsBit` prove that this split describes exactly what `update_bits` writes.

Conventions:
- Kernel error codes are negative ints: -EINVAL, -EAGAIN, -ENOMEM, -EFAULT.
- The results of kernel services are inputs to the methods:
  - resource lookup, io-remap, kfifo and channel allocation, misc registration;
  - kmalloc;
  - copy_to_user and copy_from_user.
- Every C `u32` is a `bv32`. C's unsigned wrap-around is therefore exact.
- C's truncating `%` on the signed `lp` is written out (`CRem512`).

Where the code and its description disagree, the model follows the code:
- After a successful Cerberus `read`, the file position is the number of bytes copied, not 0. The driver resets `*ppos` to 0 on entry, but `simple_read_from_buffer` then advances it.

## Model

Paths are relative to the repository root.

| member | source | states |
|---|---|---|
| NpcmCerberus.SplitRegion | drivers/soc/nuvoton/npcm-cerberus.c:215-219 | The write window starts at offset 0 and the read window right after it. Together they cover the region exactly. The read window is larger by at most one byte. |
| NpcmCerberus.GeometryAccepted | drivers/soc/nuvoton/npcm-cerberus.c:215-224 | The read-window check (size == MAX_MSG_SIZE) accepts exactly regions of 4095 or 4096 bytes (both directions). |
| NpcmCerberus.WriteWindowFitsStaging | drivers/soc/nuvoton/npcm-cerberus.c:141-149 | Once the geometry check has passed, the write window is 2047 or 2048 bytes. Every write admitted by the size check therefore fits the MAX_MSG_SIZE staging buffer. |
| NpcmCerberus.Enqueue | drivers/soc/nuvoton/npcm-cerberus.c:124-130 | One callback on a full queue skips the oldest slot, then appends. The queue stays within 32 slots, ends with the new slot, and equals the newest 32 of old queue plus the new slot. |
| NpcmCerberus.EnqueueAll | drivers/soc/nuvoton/npcm-cerberus.c:19-20 | Any sequence of callbacks keeps the queue within MSG_QUEUE_SIZE slots. |
| NpcmCerberus.DropOldest | drivers/soc/nuvoton/npcm-cerberus.c:124-130 | After slots `ss` arrive with no read in between, the queue is exactly the newest 32 slots of `q + ss`, in arrival order. |
| NpcmCerberus.DropOldestFromEmpty | drivers/soc/nuvoton/npcm-cerberus.c:124-130 | From an empty queue, k callbacks leave the last min(k, 32) slots, in order. |
| NpcmCerberus.Cerberus.constructor | drivers/soc/nuvoton/npcm-cerberus.c:193-197 | The zero-filled driver structure holds no queue, channel or device, and nothing is queued, released or sent. |
| NpcmCerberus.Cerberus.Probe | drivers/soc/nuvoton/npcm-cerberus.c:182-268 | Returns 0 exactly when every step succeeds and the read window is 2048 bytes; the probed driver is then Valid with an empty queue. Each failure returns its own code: a failed lookup or remap its error, a wrong geometry -EINVAL, a failed later step its error. Each failure holds nothing afterwards. Rollback releases the channel before the queue. |
| NpcmCerberus.Cerberus.OnMessage | drivers/soc/nuvoton/npcm-cerberus.c:119-131 | The new queue is `Enqueue(old queue, read window)`, whose content the queue lemmas describe. A slot is lost exactly when the queue was full. Valid is preserved. |
| NpcmCerberus.Cerberus.Read | drivers/soc/nuvoton/npcm-cerberus.c:73-108 | An empty queue gives -EAGAIN when non-blocking and 0 when blocking, with nothing changed. Otherwise a failed bounce allocation gives 0 with nothing changed. Otherwise the oldest slot is consumed and its first min(count, accessible, 2048) bytes are returned. A fault before any byte gives -EFAULT. |
| NpcmCerberus.Cerberus.Write | drivers/soc/nuvoton/npcm-cerberus.c:133-174 | A write larger than the write window gives -EINVAL with nothing changed. Otherwise the position becomes 0. A failed allocation gives 0 and a fault gives -EFAULT, both leaving memory and doorbell untouched. On success the region becomes `buf` followed by its old remainder, the window is sent once, and `|buf|` is returned. |
| NpcmCerberus.Cerberus.Remove | drivers/soc/nuvoton/npcm-cerberus.c:270-279 | Releases the channel, then the queue, then the device, and returns 0. |
| EceHextile.MaskedUpdate | drivers/media/platform/nuvoton/npcm750_ece.c:108-116 | The written value carries `bits` inside the mask and the current value outside it. |
| EceHextile.MaskedUpdateUnique | drivers/media/platform/nuvoton/npcm750_ece.c:108-116 | The value with those two masked views is unique. |
| EceHextile.MaskedUpdateIdempotent | drivers/media/platform/nuvoton/npcm750_ece.c:108-116 | Repeating an update_bits is the same as doing it once. |
| EceHextile.MaskedUpdateSetsBit | drivers/media/platform/nuvoton/npcm750_ece.c:179-183 | update_bits(bit, bit) sets that bit and keeps every other bit, whatever the bit was. |
| EceHextile.MaskedUpdateClearsBit | drivers/media/platform/nuvoton/npcm750_ece.c:179-183 | update_bits(bit, ~bit) clears that bit and keeps every other bit. |
| EceHextile.DecodeLe32 | drivers/media/platform/nuvoton/npcm750_ece.c:169-172 | The size the driver assembles from four unsigned buffer bytes, least significant first. DecodeLe32Bytes, DecodeEncodeLe32 and EncodeDecodeLe32 state what it means. |
| EceHextile.DecodeLe32Bytes | drivers/media/platform/nuvoton/npcm750_ece.c:169-172 | Byte i of the assembled size is buffer byte i; the four shifted bytes do not overlap. |
| EceHextile.DecodeEncodeLe32 | drivers/media/platform/nuvoton/npcm750_ece.c:169-172 | Decoding the little-endian bytes of a u32 gives it back. |
| EceHextile.EncodeDecodeLe32 | drivers/media/platform/nuvoton/npcm750_ece.c:169-172 | Encoding a decoded header gives the four bytes back, so the decode is a bijection. |
| EceHextile.WidthTiles | drivers/media/platform/nuvoton/npcm750_ece.c:201-207 | Tiles across a width: w / 16, plus one when a partial tile is left. TilingIsDivision ties it to the driver's u32 division. |
| EceHextile.WidthLast | drivers/media/platform/nuvoton/npcm750_ece.c:201-207 | Pixels in the last tile across: w % 16, or 16 when none is left over. |
| EceHextile.HeightTiles | drivers/media/platform/nuvoton/npcm750_ece.c:202-212 | Tile rows of a height, with the extra row when h / 16 is 0. |
| EceHextile.HeightLast | drivers/media/platform/nuvoton/npcm750_ece.c:202-212 | Lines in the last tile row: h % 16 whenever a row was added, else 16. |
| EceHextile.TilingIsDivision | drivers/media/platform/nuvoton/npcm750_ece.c:201-212 | The tile counts and last-tile sizes equal enc_rect's u32 `/ 16` and `% 16` computation, including the extra row for an empty height. |
| EceHextile.WidthTilingCovers | drivers/media/platform/nuvoton/npcm750_ece.c:201-207 | A non-empty width is (tiles - 1) full tiles plus a last tile of 1 to 16 pixels. |
| EceHextile.HeightTilingAgrees | drivers/media/platform/nuvoton/npcm750_ece.c:201-212 | Height and width tile alike except at 0: width 0 gives 0 tiles with size 16, and height 0 gives 1 tile row of size 0. |
| EceHextile.HeightTilingCovers | drivers/media/platform/nuvoton/npcm750_ece.c:209-212 | A non-empty height is (rows - 1) full rows plus a last row of 1 to 16 lines. |
| EceHextile.WidthTilesBound | drivers/media/platform/nuvoton/npcm750_ece.c:201-207 | 1 to 32768 pixels need 1 to 2048 tiles, which fit the 11-bit WR field. |
| EceHextile.HeightTilesBound | drivers/media/platform/nuvoton/npcm750_ece.c:209-212 | Likewise for HR. |
| EceHextile.PackDimen | drivers/media/platform/nuvoton/npcm750_ece.c:214-217 | The RECT_DIMEN word: tiles - 1 and size - 1 of each side at the WR, WLTR, HR and HLTR offsets, in u32. The two unpack lemmas state that the fields are disjoint. |
| EceHextile.UnpackPackDimenWidth | drivers/media/platform/nuvoton/npcm750_ece.c:214-217 | The WR and WLTR fields of the packed RECT_DIMEN read back tiles - 1 and size - 1 whenever they fit. |
| EceHextile.UnpackPackDimenHeight | drivers/media/platform/nuvoton/npcm750_ece.c:214-217 | The HR and HLTR fields read back likewise. |
| EceHextile.RectDimen | drivers/media/platform/nuvoton/npcm750_ece.c:201-219 | RECT_DIMEN for a w x h rectangle, the tiling packed. Its meaning comes from the tiling and unpack lemmas. |
| EceHextile.EmptyWidthDimen | drivers/media/platform/nuvoton/npcm750_ece.c:201-219 | A zero width underflows w_tile - 1, so RECT_DIMEN is all ones. |
| EceHextile.EmptyHeightDimen | drivers/media/platform/nuvoton/npcm750_ece.c:209-217 | A zero height underflows h_size - 1, so HR reads 0 and HLTR reads 31. |
| EceHextile.RectXY | drivers/media/platform/nuvoton/npcm750_ece.c:189-190 | The RECT_XY byte offset y * pitch + x * 2 in u32. The two RectXY lemmas state its layout. |
| EceHextile.RectXYOriginAndPixel | drivers/media/platform/nuvoton/npcm750_ece.c:189-190 | Pixel (0,0) is at offset 0, and the next pixel of a line is 2 bytes further. |
| EceHextile.RectXYNextLine | drivers/media/platform/nuvoton/npcm750_ece.c:189-190 | With a supported pitch, the next line is one pitch further. |
| EceHextile.PitchCode | drivers/media/platform/nuvoton/npcm750_ece.c:240-266 | set_lp has a RESOL code exactly for the five supported pitches, and each code is at most 4. |
| EceHextile.CodePitch | drivers/media/platform/nuvoton/npcm750_ece.c:47-52 | Every RESOL code 0..4 stands for a supported pitch. |
| EceHextile.PitchCodeRoundTrip | drivers/media/platform/nuvoton/npcm750_ece.c:240-266 | Pitch to code and code to pitch are inverse in both directions. |
| EceHextile.Signed | drivers/media/platform/nuvoton/npcm750_ece.c:79-89 | The signed reading of the ioctl's `int lp` lies in the 32-bit two's-complement range. |
| EceHextile.CRem512 | drivers/media/platform/nuvoton/npcm750_ece.c:378 | C's truncating `lp % 512`: the result has the sign of `lp`, is below 512 in magnitude, and is 0 exactly when 512 divides `lp`. |
| EceHextile.LpFilter | drivers/media/platform/nuvoton/npcm750_ece.c:378-379 | The SETLP filter on the signed lp: a multiple of 512 (truncating `%`) and at most 4096. Its relation to set_lp's pitches is stated by the three filter lemmas. |
| EceHextile.AcceptedPitchPassesFilter | drivers/media/platform/nuvoton/npcm750_ece.c:378-379 | The SETLP filter never blocks a pitch set_lp supports. |
| EceHextile.LpFilterLetsThrough | drivers/media/platform/nuvoton/npcm750_ece.c:378-379 | The filter admits 0, 1536, 3072, 3584 and -512, which set_lp then ignores. |
| EceHextile.LpFilterRejects | drivers/media/platform/nuvoton/npcm750_ece.c:378-379 | The filter stops values above 4096 and non-multiples of 512, including -1. |
| EceHextile.EncGap | drivers/media/platform/nuvoton/npcm750_ece.c:419-424 | The gap is HEX_CTRL bits 8..12, or 4 when they are 0; it is always in 1..31. |
| EceHextile.EncGapIgnoresEncDis | drivers/media/platform/nuvoton/npcm750_ece.c:54-58 | Setting or clearing ENCDIS leaves the gap field unchanged. |
| EceHextile.EncGapIgnoresEncoderState | drivers/video/compression/npcm750_ece.c:364-394 | The gap is the same whatever state ENCDIS is in. |
| MediaEce.Ece.constructor | drivers/media/platform/nuvoton/npcm750_ece.c:499-556 | Probe leaves line pitch and encoder gap 0 and the region recorded; no register is written. |
| MediaEce.Ece.ClearDrs | drivers/media/platform/nuvoton/npcm750_ece.c:131-135 | Acknowledges CDREADY with one DDA_STS write. |
| MediaEce.Ece.ClearRectOffset | drivers/media/platform/nuvoton/npcm750_ece.c:138-141 | HEX_RECT_OFFSET becomes 0 with one write. It is also the CLEAR_OFFSET command (354-358). |
| MediaEce.Ece.GetEdSize | drivers/media/platform/nuvoton/npcm750_ece.c:161-176 | Returns the little-endian u32 at `offset` in the region, then acknowledges the status. |
| MediaEce.Ece.FifoResetBypass | drivers/media/platform/nuvoton/npcm750_ece.c:179-183 | ECEEN is cleared then set (two writes), and the engine ends enabled. |
| MediaEce.Ece.EncRect | drivers/media/platform/nuvoton/npcm750_ece.c:186-220 | After the FIFO pulse, RECT_XY is RectXY with the current pitch and RECT_DIMEN is RectDimen, whose meaning the tiling lemmas give. |
| MediaEce.Ece.SetLp | drivers/media/platform/nuvoton/npcm750_ece.c:240-266 | A supported pitch is stored and its code written to RESOL; any other pitch changes nothing. Valid is preserved. |
| MediaEce.Ece.IoctlSetLp | drivers/media/platform/nuvoton/npcm750_ece.c:367-382 | A failed copy-in gives -EFAULT and changes nothing. Otherwise it returns 0 with set_lp's outcome, since the filter passes every supported pitch. |
| MediaEce.Ece.IoctlSetFb | drivers/media/platform/nuvoton/npcm750_ece.c:383-401 | A failed copy-in or a null address gives -EFAULT and changes nothing. Otherwise FBR_BA is written with the address. |
| MediaEce.Ece.IoctlGetOffset | drivers/media/platform/nuvoton/npcm750_ece.c:359-366 | Copies HEX_RECT_OFFSET out, or returns -EFAULT when copy_to_user fails. |
| MediaEce.Ece.Reset | drivers/media/platform/nuvoton/npcm750_ece.c:269-281 | Engine off, encoder disabled, engine on, encoder enabled (in that write order), then the offset cleared. |
| MediaEce.Ece.Initialise | drivers/media/platform/nuvoton/npcm750_ece.c:284-292 | Reset and acknowledge, then ED_BA points at the region and the pitch is the 2048 default. Every open does this (332). |
| MediaEce.Ece.Deinit | drivers/media/platform/nuvoton/npcm750_ece.c:295-305 | Engine off, encoder disabled, offset cleared, status acknowledged. |
| MediaEce.Ece.IoctlGetEd | drivers/media/platform/nuvoton/npcm750_ece.c:402-431 | A failed copy-in gives -EFAULT and changes nothing. Otherwise the rectangle is encoded (RECT_XY and RECT_DIMEN as above). The reply is the argument with `len` = the header at the offset read before encoding and `gap_len` = EncGap of HEX_CTRL. A failed copy-out gives -EFAULT. |
| VideoEce.Polled | drivers/video/compression/npcm750_ece.c:230-236 | The size the retry loop settles on for given successive header reads: the first non-zero read, or the 30th. PolledZero, PolledFirstNonZero and PolledSteadyHeader state it. |
| VideoEce.PolledZero | drivers/video/compression/npcm750_ece.c:230-236 | The poll returns 0 exactly when all 30 allowed reads were 0. |
| VideoEce.PolledFirstNonZero | drivers/video/compression/npcm750_ece.c:230-236 | The poll returns the first non-zero read among the 30. |
| VideoEce.PolledSteadyHeader | drivers/video/compression/npcm750_ece.c:230-236 | A header that does not change is returned as is, even when it is 0. |
| VideoEce.PollEdSize | drivers/video/compression/npcm750_ece.c:222-236 | The retry loop returns `Polled(samples, 0)`, whose meaning the three lemmas above give. |
| VideoEce.Ece.constructor | drivers/video/compression/npcm750_ece.c:459-524 | A successful probe: initialised, defaults 640x640 with pitch 2048, ED_BA = the region, gap in 1..31. The register writes are in the driver's order. |
| VideoEce.Ece.ClearDrs | drivers/video/compression/npcm750_ece.c:352-361 | Acknowledges CDREADY with one DDA_STS write. |
| VideoEce.Ece.ClearRectOffset | drivers/video/compression/npcm750_ece.c:242-247 | HEX_RECT_OFFSET becomes 0 with one write. |
| VideoEce.Ece.SetEncDba | drivers/video/compression/npcm750_ece.c:300-304 | ED_BA becomes the region's bus address with one write. |
| VideoEce.Ece.GetEdSize | drivers/video/compression/npcm750_ece.c:222-240 | Returns the polled header size, then acknowledges the status. |
| VideoEce.Ece.FifoResetBypass | drivers/video/compression/npcm750_ece.c:250-260 | ECEEN is cleared then set, and the engine ends enabled. |
| VideoEce.Ece.EncRect | drivers/video/compression/npcm750_ece.c:263-297 | As MediaEce.Ece.EncRect. |
| VideoEce.Ece.SetLp | drivers/video/compression/npcm750_ece.c:315-341 | A supported pitch is stored and its code written to RESOL; any other pitch changes nothing. |
| VideoEce.Ece.Reset | drivers/video/compression/npcm750_ece.c:364-394 | Engine off and on, encoder disabled and enabled, offset cleared. The gap is EncGap of HEX_CTRL as it was before the reset. |
| VideoEce.Ece.Initialise | drivers/video/compression/npcm750_ece.c:397-406 | The first call resets and acknowledges; any later call changes nothing. |
| VideoEce.Ece.FilteredSetLp | drivers/video/compression/npcm750_ece.c:164-165 | The filter-guarded set_lp has exactly set_lp's outcome, and Valid (a supported pitch) is kept. |
| VideoEce.Ece.Resize | drivers/video/compression/npcm750_ece.c:167-171 | Width and height are stored. ED_BA is rewritten exactly when the size changed. |
| VideoEce.Ece.IoctlSetLp | drivers/video/compression/npcm750_ece.c:155-172 | A failed copy-in gives -EFAULT and changes nothing. Otherwise the pitch is set as set_lp does and then the size as Resize does. The register writes are RESOL if the pitch is supported, then ED_BA if the size changed. |
| VideoEce.Ece.IoctlSetFb | drivers/video/compression/npcm750_ece.c:173-179 | A failed copy-in or a null address gives -EFAULT and changes nothing. Otherwise FBR_BA is written. |
| VideoEce.Ece.IoctlGetEd | drivers/video/compression/npcm750_ece.c:180-200 | A failed copy-in gives -EFAULT and changes nothing. Otherwise: encode, poll the size, clear the offset. The reply is the argument with `len` = the polled size and `gap_len` = EncGap of HEX_CTRL. A failed copy-out gives -EFAULT. |
| VideoEce.Ece.IoctlOther | drivers/video/compression/npcm750_ece.c:146-208 | An unknown command returns 0 exactly when the copy-in succeeds, and -EFAULT otherwise. |

## Left out

- Concurrency: the Cerberus spin-lock and the ECE mutexes. Each locked region is one method, and interleavings are not modelled.
- Cerberus misc-device registration, file-operation tables and the mbox client setup are left out.
  - The mailbox transport is a log `sent` of the write window at each doorbell.
  - The outcome of `mbox_send_message` is ignored, as in the driver.
- The outcomes of resource lookup, io-remap, kfifo_alloc, the channel request, misc_register, kmalloc, copy_from_user and copy_to_user are method inputs. Partial copies are modelled by an `accessible` byte count.
- The Cerberus kzalloc failure in probe (-ENOMEM) is not modelled. The constructor stands for the successful allocation.
- The user-space pointer `buf` of the ECE ioctl argument is not used by the drivers and is left out.
- ioctl command-number encoding and the switch itself are left out. Each command is its own method, and the media driver's unknown-command branch returns 0 and changes nothing.
- ECE platform-device plumbing is left out: clocks, resource mapping, the character device and class registration, mmap, and the probe failure paths.
  - The media open and release handlers call `Initialise` and `Deinit`, and nothing more reaches the engine.
  - The video open and release handlers do not touch the engine.
  - The -ENODEV of open before probe is left out.
- MediaEce.Ece.GetEdSize: the busy-wait on CDREADY is the precondition that CDREADY is set. The wait itself, and non-termination when the engine never finishes, are not modelled.
- VideoEce.Ece.GetEdSize: the same busy-wait precondition applies. The size header is read concurrently with the engine, so the successive reads are an input sequence `samples`.
- MediaEce.Ece.IoctlGetEd: requires the offset the engine reports to leave 4 bytes inside the compressed-data region. The driver reads there without a check.
- VideoEce.Ece.IoctlGetEd: requires CDREADY set, as for GetEdSize.
- DDA_CTRL and DDA_STS keep only the bit the drivers change (ECEEN, CDREADY). update_bits preserves their other bits, but the drivers never inspect them.
- Write-1-to-clear of CDREADY is modelled as the acknowledgement it performs (`dataReady := false`). A later hardware completion is the caller's `dataReady` precondition.
- `is_rect_compressed` (both variants) is only called by the CDREADY busy-wait. It is covered by that wait's precondition.
- The media `read_rect_offset` is folded into `IoctlGetOffset` and `IoctlGetEd` as a read of the `hexRectOffset` field.
- drivers/hwmon/pmbus/pm6764tr.c and arch/arm/mach-npcm/npcm7xx.c are not part of this model.
