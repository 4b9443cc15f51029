/**
  Mailbox client for the Cerberus root-of-trust firmware running on the
  NPCM TIP co-processor.

  The host and the co-processor share one memory region.  Probe splits it
  into a write window (first half) and a read window (the rest), which must
  be exactly one message slot long.  The co-processor's doorbell runs the rx
  callback, which copies the whole read window into a bounded FIFO of
  slots, dropping the oldest slot when the FIFO is full.  `read` hands one
  queued slot to user space; `write` copies user bytes into the write window
  and rings the co-processor's doorbell.

  Each spin-lock or mutex protected region of the driver is one method
  here; interleavings are not modelled.
*/
module NpcmCerberus {
  import opened KernelTypes

  /** A message slot: the full content of the read window. */
  type Slot = seq<byte>

  /** MSG_QUEUE_SIZE: capacity of the message queue, in slots. */
  const MSG_QUEUE_SIZE: nat := 32
  /** MAX_MSG_SIZE: size of one slot, which must equal the read window. */
  const MAX_MSG_SIZE: nat := 2048

  function Min(a: nat, b: nat): nat { if a <= b then a else b }

  // ---------------------------------------------------------------------
  // Shared-memory windows
  // ---------------------------------------------------------------------

  /** An mbx_shmem record: offset into the shared region and size. */
  datatype Window = Window(off: nat, size: nat)

  /**
    The split done by probe: the write window is the first
    `shmemSize >> 1` bytes and the read window is the remainder.  The two
    windows are adjacent, cover the region exactly, and the read window is
    the larger one by at most a byte.
  */
  function SplitRegion(shmemSize: nat): (w: (Window, Window))
    ensures w.0.off == 0 && w.1.off == w.0.off + w.0.size
    ensures w.0.size + w.1.size == shmemSize
    ensures w.0.size <= w.1.size <= w.0.size + 1
  {
    var wrSize := shmemSize / 2;
    (Window(0, wrSize), Window(wrSize, shmemSize - wrSize))
  }

  /** The geometry check of probe accepts exactly regions of 4095 or 4096 bytes. */
  lemma {:induction false} GeometryAccepted(shmemSize: nat)
    ensures SplitRegion(shmemSize).1.size == MAX_MSG_SIZE <==> shmemSize == 4095 || shmemSize == 4096
  {
    var w := SplitRegion(shmemSize);
    if w.1.size == MAX_MSG_SIZE {
      assert shmemSize == 2 * w.0.size || shmemSize == 2 * w.0.size + 1;
    }
  }

  /**
    Once the geometry check passed, every write that probe's size check
    admits fits in the MAX_MSG_SIZE staging buffer that `write` allocates.
  */
  lemma WriteWindowFitsStaging(shmemSize: nat)
    requires SplitRegion(shmemSize).1.size == MAX_MSG_SIZE
    ensures SplitRegion(shmemSize).0.size <= MAX_MSG_SIZE
    ensures SplitRegion(shmemSize).0.size >= MAX_MSG_SIZE - 1
  {
  }

  // ---------------------------------------------------------------------
  // The message queue (kfifo of MSG_QUEUE_SIZE slots, drop-oldest)
  // ---------------------------------------------------------------------

  /** The last `n` elements of `s`, or all of `s` when it is shorter. */
  function Last<T>(s: seq<T>, n: nat): (r: seq<T>)
    ensures |r| == Min(|s|, n)
  {
    if |s| <= n then s else s[|s| - n..]
  }

  /**
    One rx callback on the queue: when the queue is full the oldest slot
    is skipped, then the new slot is appended.  The result is the newest
    MSG_QUEUE_SIZE slots of the queue followed by the new one.
  */
  function Enqueue<T>(q: seq<T>, s: T): (r: seq<T>)
    requires |q| <= MSG_QUEUE_SIZE
    ensures |r| <= MSG_QUEUE_SIZE
    ensures r == Last(q + [s], MSG_QUEUE_SIZE)
    ensures r[|r| - 1] == s
  {
    if |q| == MSG_QUEUE_SIZE then q[1..] + [s] else q + [s]
  }

  /** The queue after the slots `ss` arrived in order, with no read in between. */
  function EnqueueAll<T>(q: seq<T>, ss: seq<T>): (r: seq<T>)
    requires |q| <= MSG_QUEUE_SIZE
    ensures |r| <= MSG_QUEUE_SIZE
  {
    if ss == [] then q else Enqueue(EnqueueAll(q, ss[..|ss| - 1]), ss[|ss| - 1])
  }

  /** The tail is the suffix of its length. */
  lemma LastIsSuffix<T>(s: seq<T>, n: nat)
    ensures Last(s, n) == s[|s| - Min(|s|, n)..]
  {
    if |s| <= n {
      assert s[0..] == s;
    }
  }

  /** Appending one element to a tail and taking the tail again is taking it once. */
  lemma LastOfLastPush<T>(a: seq<T>, x: T, n: nat)
    ensures Last(Last(a, n) + [x], n) == Last(a + [x], n)
  {
    if |a| > n && n > 0 {
      var a' := a[|a| - n..];
      assert Last(a' + [x], n) == (a' + [x])[1..];
      assert (a' + [x])[1..] == a[|a| - n + 1..] + [x];
      assert Last(a + [x], n) == a[|a| - n + 1..] + [x];
    }
  }

  /**
    The drop-oldest law: after the slots `ss` arrive at a queue `q`, with
    no read in between, the queue holds exactly the newest MSG_QUEUE_SIZE
    slots of `q + ss`, in arrival order.
  */
  lemma {:induction false} DropOldest<T>(q: seq<T>, ss: seq<T>)
    requires |q| <= MSG_QUEUE_SIZE
    ensures EnqueueAll(q, ss) == Last(q + ss, MSG_QUEUE_SIZE)
  {
    if ss == [] {
      assert q + ss == q;
    } else {
      var init, x := ss[..|ss| - 1], ss[|ss| - 1];
      DropOldest(q, init);
      LastOfLastPush(q + init, x, MSG_QUEUE_SIZE);
      assert q + init + [x] == q + ss;
    }
  }

  /**
    From an empty queue, k callbacks leave the last min(k, MSG_QUEUE_SIZE)
    slots, in arrival order.
  */
  lemma DropOldestFromEmpty<T>(ss: seq<T>)
    ensures EnqueueAll([], ss) == ss[|ss| - Min(|ss|, MSG_QUEUE_SIZE)..]
  {
    var empty: seq<T> := [];
    calc {
      EnqueueAll(empty, ss);
      == { DropOldest(empty, ss); }
      Last(empty + ss, MSG_QUEUE_SIZE);
      == { assert empty + ss == ss; }
      Last(ss, MSG_QUEUE_SIZE);
      == { LastIsSuffix(ss, MSG_QUEUE_SIZE); }
      ss[|ss| - Min(|ss|, MSG_QUEUE_SIZE)..];
    }
  }

  // ---------------------------------------------------------------------
  // The driver
  // ---------------------------------------------------------------------

  /** Resources probe acquires and that are released on rollback or removal. */
  datatype Resource = Fifo | Chan | Misc

  /** struct cerberus_drvinfo, with the kernel resources it holds. */
  class Cerberus {
    /** The ioremapped shared-memory region. */
    var shmem: array<byte>
    var wrWin: Window
    var rdWin: Window
    /** The kfifo of received slots, oldest first. */
    var mq: seq<Slot>
    var fifoHeld: bool
    var chanHeld: bool
    var miscHeld: bool
    /** Releases performed, in order. */
    var released: seq<Resource>
    /** The write window as handed to mbox_send_message at each doorbell. */
    var sent: seq<seq<byte>>

    /** The windows come from the split of the region and pass the geometry check. */
    ghost predicate Geometry()
      reads this
    {
      (wrWin, rdWin) == SplitRegion(shmem.Length) && rdWin.size == MAX_MSG_SIZE
    }

    ghost predicate QueueOk()
      reads this
    {
      |mq| <= MSG_QUEUE_SIZE && forall i :: 0 <= i < |mq| ==> |mq[i]| == MAX_MSG_SIZE
    }

    /** A successfully probed driver. */
    ghost predicate Valid()
      reads this
    {
      fifoHeld && chanHeld && miscHeld && Geometry() && QueueOk()
    }

    /** devm_kzalloc: a zeroed driver structure that holds nothing yet. */
    constructor ()
      ensures !fifoHeld && !chanHeld && !miscHeld
      ensures mq == [] && released == [] && sent == []
    {
      shmem := new byte[0];
      wrWin, rdWin := Window(0, 0), Window(0, 0);
      mq := [];
      fifoHeld, chanHeld, miscHeld := false, false, false;
      released, sent := [], [];
    }

    /**
      cerberus_probe.  `region` is the shared memory once mapped; the other
      inputs are the results (0 or a negative errno) of the resource lookup,
      the io-remap, kfifo_alloc, the mailbox channel request and
      misc_register.  A failure after kfifo_alloc frees the queue; a failure
      after the channel request also frees the channel, before the queue.
    */
    method Probe(region: array<byte>, resErr: int, remapErr: int, fifoErr: int, chanErr: int, miscErr: int)
      returns (ret: int)
      requires !fifoHeld && !chanHeld && !miscHeld
      requires resErr <= 0 && remapErr <= 0 && fifoErr <= 0 && chanErr <= 0 && miscErr <= 0
      modifies this
      ensures sent == old(sent)
      ensures ret == 0 <==>
        resErr == 0 && remapErr == 0 && SplitRegion(region.Length).1.size == MAX_MSG_SIZE &&
        fifoErr == 0 && chanErr == 0 && miscErr == 0
      ensures ret == 0 ==> Valid() && shmem == region && mq == [] && released == old(released)
      ensures ret != 0 ==> !fifoHeld && !chanHeld && !miscHeld
      ensures resErr != 0 ==>
        ret == resErr && shmem == old(shmem) && wrWin == old(wrWin) && rdWin == old(rdWin) && released == old(released)
      ensures resErr == 0 && remapErr != 0 ==>
        ret == remapErr && shmem == old(shmem) && wrWin == old(wrWin) && rdWin == old(rdWin) && released == old(released)
      ensures resErr == 0 && remapErr == 0 ==>
        shmem == region && (wrWin, rdWin) == SplitRegion(region.Length)
      ensures resErr == 0 && remapErr == 0 && rdWin.size != MAX_MSG_SIZE ==>
        ret == -EINVAL && released == old(released)
      ensures resErr == 0 && remapErr == 0 && rdWin.size == MAX_MSG_SIZE && fifoErr != 0 ==>
        ret == fifoErr && released == old(released)
      ensures resErr == 0 && remapErr == 0 && rdWin.size == MAX_MSG_SIZE && fifoErr == 0 && chanErr != 0 ==>
        ret == chanErr && released == old(released) + [Fifo]
      ensures resErr == 0 && remapErr == 0 && rdWin.size == MAX_MSG_SIZE && fifoErr == 0 && chanErr == 0 && miscErr != 0 ==>
        ret == miscErr && released == old(released) + [Chan, Fifo]
    {
      if resErr != 0 {
        return resErr;
      }
      if remapErr != 0 {
        return remapErr;
      }
      // the write window is the first half of the region, the read window the rest
      var wrSize := region.Length / 2;
      shmem := region;
      wrWin := Window(0, wrSize);
      rdWin := Window(wrWin.off + wrWin.size, region.Length - wrSize);
      if rdWin.size != MAX_MSG_SIZE {
        return -EINVAL;
      }
      if fifoErr != 0 {
        return fifoErr;
      }
      fifoHeld := true;
      mq := [];
      if chanErr != 0 {
        ret := chanErr;
        fifoHeld := false;
        released := released + [Fifo];
        return;
      }
      chanHeld := true;
      if miscErr != 0 {
        ret := miscErr;
        chanHeld := false;
        released := released + [Chan];
        fifoHeld := false;
        released := released + [Fifo];
        return;
      }
      miscHeld := true;
      ret := 0;
    }

    /**
      msg_from_cerberus, the rx callback: the whole read window is queued
      as one slot, and the oldest slot is dropped first when the queue is
      full.  `lost` reports the drop (the driver logs it).
    */
    method OnMessage() returns (lost: bool)
      requires Valid()
      modifies this`mq
      ensures Valid()
      ensures lost == (|old(mq)| == MSG_QUEUE_SIZE)
      ensures mq == Enqueue(old(mq), shmem[rdWin.off..rdWin.off + rdWin.size])
    {
      var slot := shmem[rdWin.off..rdWin.off + rdWin.size];
      lost := |mq| == MSG_QUEUE_SIZE;
      if lost {
        mq := mq[1..];
      }
      mq := mq + [slot];
    }

    /**
      cerberus_read.  `count` is the size of the user buffer, `nonblock`
      the O_NONBLOCK flag, `allocOk` whether the bounce buffer could be
      allocated and `accessible` how many bytes of the user buffer can be
      written before a fault.  Returns the result, the bytes delivered to
      the user and the final file position.
    */
    method Read(count: nat, nonblock: bool, allocOk: bool, accessible: nat)
      returns (ret: int, data: seq<byte>, ppos: int)
      requires Valid()
      modifies this`mq
      ensures Valid()
      // non-blocking read of an empty queue: -EAGAIN, nothing changes
      ensures nonblock && old(mq) == [] ==>
        ret == -EAGAIN && data == [] && ppos == 0 && mq == old(mq)
      // blocking read of an empty queue: 0 bytes at once, nothing changes
      ensures !nonblock && old(mq) == [] ==>
        ret == 0 && data == [] && ppos == 0 && mq == old(mq)
      // no bounce buffer (and not the -EAGAIN case above): 0 bytes, nothing changes
      ensures !allocOk && !(nonblock && old(mq) == []) ==>
        ret == 0 && data == [] && ppos == 0 && mq == old(mq)
      // otherwise exactly the oldest slot is consumed and up to `count` bytes of it returned
      ensures allocOk && old(mq) != [] ==>
        var n := Min(count, rdWin.size);
        var copied := Min(accessible, n);
        mq == old(mq)[1..] &&
        if n > 0 && copied == 0 then ret == -EFAULT && data == [] && ppos == 0
        else ret == copied && data == old(mq)[0][..copied] && ppos == copied
    {
      // the file position is reset on entry
      ppos := 0;
      data := [];
      if nonblock && |mq| == 0 {
        return -EAGAIN, data, ppos;
      }
      if !allocOk {
        return 0, data, ppos;
      }
      var rmsg: Slot := [];
      var len := |mq|;
      if len > 0 {
        rmsg := mq[0];
        mq := mq[1..];
      }
      if len <= 0 {
        return 0, data, ppos;
      }
      // simple_read_from_buffer from position 0 of a buffer of rd_win.size bytes
      var available := rdWin.size;
      if count == 0 {
        return 0, data, ppos;
      }
      var n := Min(count, available);
      var copied := Min(accessible, n);
      if copied == 0 {
        return -EFAULT, data, ppos;
      }
      data := rmsg[..copied];
      ppos := copied;
      ret := copied;
    }

    /**
      cerberus_write.  `buf` is the user data (its length is `count`),
      `allocOk` whether the staging buffer could be allocated and
      `accessible` how many bytes of `buf` can be read before a fault.
      Returns the result and the new file position.  The doorbell's own
      outcome does not affect the result.
    */
    method Write(buf: seq<byte>, ppos: int, allocOk: bool, accessible: nat)
      returns (ret: int, ppos': int)
      requires Valid()
      modifies this`sent, shmem
      ensures Valid()
      // too large for the window: -EINVAL, window and position untouched
      ensures |buf| > wrWin.size ==>
        ret == -EINVAL && ppos' == ppos && shmem[..] == old(shmem[..]) && sent == old(sent)
      ensures |buf| <= wrWin.size ==> ppos' == 0
      // no staging buffer, or a fault while copying from the user: window untouched
      ensures |buf| <= wrWin.size && !allocOk ==>
        ret == 0 && shmem[..] == old(shmem[..]) && sent == old(sent)
      ensures |buf| <= wrWin.size && allocOk && accessible < |buf| ==>
        ret == -EFAULT && shmem[..] == old(shmem[..]) && sent == old(sent)
      // success: the window prefix is replaced, the rest of the region kept, the doorbell rung
      ensures |buf| <= wrWin.size && allocOk && accessible >= |buf| ==>
        ret == |buf| &&
        shmem[..] == buf + old(shmem[|buf|..]) &&
        sent == old(sent) + [shmem[wrWin.off..wrWin.off + wrWin.size]]
    {
      var count := |buf|;
      // a write larger than the write window is refused
      if count > wrWin.size {
        return -EINVAL, ppos;
      }
      ppos' := 0;
      if !allocOk {
        return 0, ppos';
      }
      if accessible < count {
        return -EFAULT, ppos';
      }
      // memcpy_toio: the bytes go to the start of the write window
      var i := 0;
      while i < count
        invariant 0 <= i <= count && sent == old(sent)
        invariant forall k :: 0 <= k < i ==> shmem[wrWin.off + k] == buf[k]
        invariant forall k :: wrWin.off + i <= k < shmem.Length ==> shmem[k] == old(shmem[k])
      {
        shmem[wrWin.off + i] := buf[i];
        i := i + 1;
      }
      assert shmem[..] == buf + old(shmem[count..]);
      // ring the doorbell; its outcome is ignored
      sent := sent + [shmem[wrWin.off..wrWin.off + wrWin.size]];
      ret := count;
    }

    /** cerberus_remove: frees the channel, then the queue, then deregisters. */
    method Remove() returns (ret: int)
      requires Valid()
      modifies this`fifoHeld, this`chanHeld, this`miscHeld, this`mq, this`released
      ensures ret == 0
      ensures !fifoHeld && !chanHeld && !miscHeld && mq == []
      ensures released == old(released) + [Chan, Fifo, Misc]
    {
      chanHeld := false;
      fifoHeld := false;
      mq := [];
      miscHeld := false;
      released := released + [Chan, Fifo, Misc];
      ret := 0;
    }
  }
}
