/**
 * The batch exporter that replays a capture: the two global queues, the pool
 * callbacks the driver calls, and the two drain loops (plain flatten, and
 * calibrate + box filter). Each saveNpy call is recorded as an NpyFile entry in
 * an output log instead of being written to disk.
 */
module PcapConverter {
  import opened LidarTypes
  import opened SyncQueues
  import opened Calibration
  import opened NpyNames

  /** One saveNpy call: path, shape (rows, cols) and the float payload. */
  datatype NpyFile = NpyFile(path: string, rows: nat, cols: nat, data: seq<real>)

  /**
   * `msg->seq > num_frames` compares a uint32 with an int; the int is converted
   * to unsigned, i.e. taken modulo 2^32, before comparing.
   */
  predicate Exceeds(seqNo: uint32, numFrames: int) {
    seqNo > numFrames % 0x1_0000_0000
  }

  /** For a frame count representable as uint32 the comparison is the plain one. */
  lemma ExceedsInRange(seqNo: uint32, numFrames: int)
    requires 0 <= numFrames < 0x1_0000_0000
    ensures Exceeds(seqNo, numFrames) <==> seqNo > numFrames
  {
  }

  /** A negative frame count wraps around to a large bound. */
  lemma ExceedsNegative(seqNo: uint32, numFrames: int)
    requires -0x1_0000_0000 <= numFrames < 0
    ensures Exceeds(seqNo, numFrames) <==> seqNo > numFrames + 0x1_0000_0000
  {
  }

  /**
   * Of the negative bounds only -1 (0xFFFFFFFF once converted) is exceeded by no
   * sequence number; any other one is exceeded by sequence number 0xFFFFFFFF.
   */
  lemma NegativeBoundReach(numFrames: int)
    requires -0x1_0000_0000 <= numFrames < 0
    ensures numFrames == -1 ==> forall seqNo: uint32 :: !Exceeds(seqNo, numFrames)
    ensures numFrames != -1 ==> Exceeds(0xFFFF_FFFF, numFrames)
  {
  }

  /** Some queued frame ends the drain loop. */
  predicate ReachesBound(q: seq<PointCloudMsg>, numFrames: int) {
    exists i :: 0 <= i < |q| && Exceeds(q[i].seqNo, numFrames)
  }

  /**
   * How many frames a drain loop takes from q: up to and including the first
   * frame whose sequence number exceeds the bound, or all of q if none does.
   */
  function Consumed(q: seq<PointCloudMsg>, numFrames: int): (k: nat)
    ensures k <= |q|
  {
    if q == [] then 0
    else if Exceeds(q[0].seqNo, numFrames) then 1
    else 1 + Consumed(q[1..], numFrames)
  }

  /** Consumed stops right after the first frame past the bound, and only there. */
  lemma {:induction false} ConsumedSpec(q: seq<PointCloudMsg>, numFrames: int)
    ensures var k := Consumed(q, numFrames);
      && (forall i :: 0 <= i < k - 1 ==> !Exceeds(q[i].seqNo, numFrames))
      && (ReachesBound(q, numFrames) <==> (k > 0 && Exceeds(q[k - 1].seqNo, numFrames)))
      && (!ReachesBound(q, numFrames) ==> k == |q|)
  {
    if q != [] && !Exceeds(q[0].seqNo, numFrames) {
      ConsumedSpec(q[1..], numFrames);
      assert forall i :: 1 <= i < |q| ==> q[i] == q[1..][i - 1];
      if ReachesBound(q, numFrames) {
        var i :| 0 <= i < |q| && Exceeds(q[i].seqNo, numFrames);
        assert Exceeds(q[1..][i - 1].seqNo, numFrames);
      }
    }
  }

  /** The first frame past the bound is the last consumed one. */
  lemma {:induction false} ConsumedIsFirst(q: seq<PointCloudMsg>, numFrames: int, k: nat)
    requires 0 < k <= |q| && Exceeds(q[k - 1].seqNo, numFrames)
    requires forall i :: 0 <= i < k - 1 ==> !Exceeds(q[i].seqNo, numFrames)
    ensures Consumed(q, numFrames) == k
  {
    ConsumedSpec(q, numFrames);
    assert ReachesBound(q, numFrames);
  }

  /**
   * The timestamp that names a frame's file: that of its first point. Both
   * exporters only name files of frames with a point, so the value for an
   * empty frame is never used.
   */
  function FirstStamp(m: PointCloudMsg): real {
    if |m.points| > 0 then m.points[0].timestamp else 0.0
  }

  /** The file processCloud writes for one frame: the N×3 positions. */
  function PlainFile(outputDir: string, m: PointCloudMsg, stampText: real -> string): NpyFile {
    NpyFile(CloudFileName(outputDir, m.seqNo, stampText(FirstStamp(m))),
            |m.points|, 3, Flatten(Positions(m.points)))
  }

  /** f applied to each element of xs, built by appending in order (a push_back loop). */
  function MapSeq<A, B>(f: A -> B, xs: seq<A>): (ys: seq<B>)
    ensures |ys| == |xs|
  {
    if xs == [] then [] else MapSeq(f, xs[..|xs| - 1]) + [f(xs[|xs| - 1])]
  }

  /** Element i of the mapped sequence is f of element i. */
  lemma {:induction false} MapSeqAt<A, B>(f: A -> B, xs: seq<A>)
    ensures forall i :: 0 <= i < |xs| ==> MapSeq(f, xs)[i] == f(xs[i])
  {
    if xs != [] {
      var init := xs[..|xs| - 1];
      MapSeqAt(f, init);
      assert forall i :: 0 <= i < |init| ==> MapSeq(f, xs)[i] == MapSeq(f, init)[i];
      assert forall i :: 0 <= i < |init| ==> init[i] == xs[i];
    }
  }

  /** Mapping one more element of xs appends its image. */
  lemma MapSeqStep<A, B>(f: A -> B, xs: seq<A>, n: nat)
    requires n < |xs|
    ensures MapSeq(f, xs[..n + 1]) == MapSeq(f, xs[..n]) + [f(xs[n])]
  {
    assert xs[..n + 1][..n] == xs[..n];
  }

  /** The per-frame export of processCloud. */
  function PlainExport(outputDir: string, stampText: real -> string): PointCloudMsg -> NpyFile {
    m => PlainFile(outputDir, m, stampText)
  }

  /** The files processCloud writes for the frames fs, in order. */
  function PlainLog(outputDir: string, fs: seq<PointCloudMsg>, stampText: real -> string): seq<NpyFile> {
    MapSeq(PlainExport(outputDir, stampText), fs)
  }

  /** The file for a frame of N points has shape (N, 3) and holds its positions row by row. */
  lemma PlainFileShape(outputDir: string, m: PointCloudMsg, stampText: real -> string)
    ensures var f := PlainFile(outputDir, m, stampText);
      && f.rows == |m.points| && f.cols == 3
      && |f.data| == 3 * f.rows
      && Unflatten(f.data) == Positions(m.points)
  {
    UnflattenFlatten(Positions(m.points));
  }

  /** processCloud writes exactly one file per frame, in queue order. */
  lemma PlainLogAt(outputDir: string, fs: seq<PointCloudMsg>, stampText: real -> string)
    ensures var log := PlainLog(outputDir, fs, stampText);
      && |log| == |fs|
      && forall i :: 0 <= i < |fs| ==> log[i] == PlainFile(outputDir, fs[i], stampText)
  {
    MapSeqAt(PlainExport(outputDir, stampText), fs);
  }

  /** The files processCloudWithCalib writes for one frame: none if every point is rejected. */
  function CalibFiles(outputDir: string, r: seq<real>, t: seq<real>, ranges: seq<real>,
                      m: PointCloudMsg, stampText: real -> string): seq<NpyFile>
    requires WellFormed(r, t, ranges)
  {
    var buf := Flatten(Kept(r, t, ranges, m.points));
    if |buf| > 0 then
      [NpyFile(CloudFileName(outputDir, m.seqNo, stampText(FirstStamp(m))), |buf| / 3, 3, buf)]
    else []
  }

  /**
   * A frame yields a file iff some point's image is in the box; the file holds
   * the survivors flattened, with shape (len/3, 3), at most 3N values.
   */
  lemma CalibFilesWrittenIff(outputDir: string, r: seq<real>, t: seq<real>, ranges: seq<real>,
                             m: PointCloudMsg, stampText: real -> string)
    requires WellFormed(r, t, ranges)
    ensures var files := CalibFiles(outputDir, r, t, ranges, m, stampText);
      && (files != [] <==> exists i :: 0 <= i < |m.points| && InBox(Apply(r, t, m.points[i]), ranges))
      && |files| <= 1
      && (files != [] ==>
            var kept := Kept(r, t, ranges, m.points);
            && files[0].data == Flatten(kept)
            && files[0].rows == |kept| > 0 && files[0].cols == 3
            && |files[0].data| == 3 * files[0].rows <= 3 * |m.points|
            && Unflatten(files[0].data) == kept)
  {
    KeptEmptyIff(r, t, ranges, m.points);
    UnflattenFlatten(Kept(r, t, ranges, m.points));
  }

  /** The files processCloudWithCalib writes for the frames fs, in order. */
  function CalibLog(outputDir: string, r: seq<real>, t: seq<real>, ranges: seq<real>,
                    fs: seq<PointCloudMsg>, stampText: real -> string): seq<NpyFile>
    requires WellFormed(r, t, ranges)
  {
    if fs == [] then []
    else CalibLog(outputDir, r, t, ranges, fs[..|fs| - 1], stampText)
         + CalibFiles(outputDir, r, t, ranges, fs[|fs| - 1], stampText)
  }

  /** Exporting a concatenation exports each part in turn (FIFO, no coalescing). */
  lemma {:induction false} CalibLogAppend(outputDir: string, r: seq<real>, t: seq<real>, ranges: seq<real>,
                                          a: seq<PointCloudMsg>, b: seq<PointCloudMsg>, stampText: real -> string)
    requires WellFormed(r, t, ranges)
    ensures CalibLog(outputDir, r, t, ranges, a + b, stampText)
         == CalibLog(outputDir, r, t, ranges, a, stampText) + CalibLog(outputDir, r, t, ranges, b, stampText)
  {
    if b == [] {
      assert a + b == a;
    } else {
      var init := b[..|b| - 1];
      assert (a + b)[..|a + b| - 1] == a + init;
      assert (a + b)[|a + b| - 1] == b[|b| - 1];
      CalibLogAppend(outputDir, r, t, ranges, a, init, stampText);
    }
  }

  /** The transform-and-filter loop of processCloudWithCalib: push_back of each surviving image. */
  method CalibrateFrame(ps: seq<Point>, r: seq<real>, t: seq<real>, ranges: seq<real>) returns (buf: seq<real>)
    requires WellFormed(r, t, ranges)
    ensures buf == Flatten(Kept(r, t, ranges, ps))
  {
    var xMin, xMax, yMin, yMax, zMin, zMax := ranges[0], ranges[1], ranges[2], ranges[3], ranges[4], ranges[5];
    buf := [];
    var i := 0;
    while i < |ps|
      invariant 0 <= i <= |ps|
      invariant buf == Flatten(Kept(r, t, ranges, ps[..i]))
    {
      var p := ps[i];
      var xNew := r[0] * p.x + r[1] * p.y + r[2] * p.z + t[0];
      var yNew := r[3] * p.x + r[4] * p.y + r[5] * p.z + t[1];
      var zNew := r[6] * p.x + r[7] * p.y + r[8] * p.z + t[2];
      assert ps[..i + 1][..i] == ps[..i];
      assert ps[..i + 1][i] == p;
      assert Apply(r, t, p) == Vec3(xNew, yNew, zNew);
      if xNew >= xMin && xNew <= xMax && yNew >= yMin && yNew <= yMax && zNew >= zMin && zNew <= zMax {
        ghost var kept := Kept(r, t, ranges, ps[..i]);
        assert Kept(r, t, ranges, ps[..i + 1]) == kept + [Vec3(xNew, yNew, zNew)];
        assert (kept + [Vec3(xNew, yNew, zNew)])[..|kept|] == kept;
        buf := buf + [xNew, yNew, zNew];
      } else {
        assert Kept(r, t, ranges, ps[..i + 1]) == Kept(r, t, ranges, ps[..i]);
      }
      i := i + 1;
    }
    assert ps[..|ps|] == ps;
  }

  /** The flattening loop of processCloud into a buffer of N*3 floats. */
  method FlattenPoints(ps: seq<Point>) returns (buf: array<real>)
    ensures fresh(buf)
    ensures buf[..] == Flatten(Positions(ps))
  {
    buf := new real[|ps| * 3];
    var i := 0;
    while i < |ps|
      invariant 0 <= i <= |ps|
      invariant buf[..3 * i] == Flatten(Positions(ps[..i]))
    {
      assert Positions(ps)[..i] == Positions(ps[..i]);
      assert Positions(ps)[..i + 1] == Positions(ps[..i + 1]);
      FlattenPrefix(Positions(ps), i);
      StoreRow(buf, i, Position(ps[i]));
      i := i + 1;
    }
    assert ps[..|ps|] == ps;
    assert buf[..] == buf[..3 * |ps|];
  }

  lemma PlainLogStep(outputDir: string, q: seq<PointCloudMsg>, done: nat, stampText: real -> string)
    requires done < |q|
    ensures PlainLog(outputDir, q[..done + 1], stampText)
         == PlainLog(outputDir, q[..done], stampText) + [PlainFile(outputDir, q[done], stampText)]
  {
    MapSeqStep(PlainExport(outputDir, stampText), q, done);
  }

  lemma CalibLogStep(outputDir: string, r: seq<real>, t: seq<real>, ranges: seq<real>,
                     q: seq<PointCloudMsg>, done: nat, stampText: real -> string)
    requires WellFormed(r, t, ranges) && done < |q|
    ensures CalibLog(outputDir, r, t, ranges, q[..done + 1], stampText)
         == CalibLog(outputDir, r, t, ranges, q[..done], stampText) + CalibFiles(outputDir, r, t, ranges, q[done], stampText)
  {
    assert q[..done + 1][..done] == q[..done];
  }

  /** The output log of processCloud after one more frame: earlier files, then this frame's. */
  lemma PlainSavedStep(saved0: seq<NpyFile>, outputDir: string, q: seq<PointCloudMsg>, done: nat,
                       stampText: real -> string)
    requires done < |q|
    ensures (saved0 + PlainLog(outputDir, q[..done], stampText)) + [PlainFile(outputDir, q[done], stampText)]
         == saved0 + PlainLog(outputDir, q[..done + 1], stampText)
  {
    PlainLogStep(outputDir, q, done, stampText);
  }

  /** The output log of processCloudWithCalib after one more frame. */
  lemma CalibSavedStep(saved0: seq<NpyFile>, outputDir: string, r: seq<real>, t: seq<real>, ranges: seq<real>,
                       q: seq<PointCloudMsg>, done: nat, stampText: real -> string)
    requires WellFormed(r, t, ranges) && done < |q|
    ensures (saved0 + CalibLog(outputDir, r, t, ranges, q[..done], stampText)) + CalibFiles(outputDir, r, t, ranges, q[done], stampText)
         == saved0 + CalibLog(outputDir, r, t, ranges, q[..done + 1], stampText)
  {
    CalibLogStep(outputDir, r, t, ranges, q, done, stampText);
  }

  /** While no frame so far passed the bound, the next frame is still within Consumed. */
  lemma ConsumedCovers(q: seq<PointCloudMsg>, numFrames: int, done: nat)
    requires done < |q|
    requires forall i :: 0 <= i < done ==> !Exceeds(q[i].seqNo, numFrames)
    ensures done < Consumed(q, numFrames)
  {
    ConsumedSpec(q, numFrames);
  }

  /** Where a drain loop stops: after Consumed frames, finished iff the bound was reached. */
  lemma DrainEnd(q: seq<PointCloudMsg>, numFrames: int, done: nat, finished: bool)
    requires done <= |q|
    requires forall i :: 0 <= i < done - 1 ==> !Exceeds(q[i].seqNo, numFrames)
    requires finished ==> done > 0 && Exceeds(q[done - 1].seqNo, numFrames)
    requires !finished ==> done == |q| && forall i :: 0 <= i < done ==> !Exceeds(q[i].seqNo, numFrames)
    ensures Consumed(q, numFrames) == done && finished == ReachesBound(q, numFrames)
  {
    ConsumedSpec(q, numFrames);
    if finished {
      ConsumedIsFirst(q, numFrames, done);
    }
  }

  /** The two global queues and the exporter's output log. */
  class Converter {
    /** free_cloud_queue: the reusable-buffer pool. */
    const freeCloudQueue: SyncQueue<PointCloudMsg>
    /** stuffed_cloud_queue: frames the driver has filled, in production order. */
    const stuffedCloudQueue: SyncQueue<PointCloudMsg>
    /** Every saveNpy call so far. */
    var saved: seq<NpyFile>

    ghost predicate Valid()
      reads this
    {
      freeCloudQueue != stuffedCloudQueue
    }

    constructor ()
      ensures Valid() && fresh(freeCloudQueue) && fresh(stuffedCloudQueue)
      ensures freeCloudQueue.items == [] && stuffedCloudQueue.items == [] && saved == []
    {
      freeCloudQueue := new SyncQueue();
      stuffedCloudQueue := new SyncQueue();
      saved := [];
    }

    /** driverGetPointCloudFromCallerCallback: reuse a pooled buffer, else a fresh empty one. */
    method DriverGetPointCloudFromCallerCallback() returns (msg: PointCloudMsg)
      requires Valid()
      modifies freeCloudQueue
      ensures old(freeCloudQueue.items) != [] ==>
                msg == old(freeCloudQueue.items)[0] && freeCloudQueue.items == old(freeCloudQueue.items)[1..]
      ensures old(freeCloudQueue.items) == [] ==> msg == EmptyMsg && freeCloudQueue.items == []
    {
      var m := freeCloudQueue.Pop();
      if m.Some? {
        return m.value;
      }
      return EmptyMsg;
    }

    /** driverReturnPointCloudToCallerCallback: hand a filled frame to the consumer. */
    method DriverReturnPointCloudToCallerCallback(msg: PointCloudMsg)
      requires Valid()
      modifies stuffedCloudQueue
      ensures stuffedCloudQueue.items == old(stuffedCloudQueue.items) + [msg]
    {
      stuffedCloudQueue.Push(msg);
    }

    /** saveNpy: recorded, not written. */
    method SaveNpy(path: string, data: seq<real>, rows: nat, cols: nat)
      modifies this`saved
      ensures saved == old(saved) + [NpyFile(path, rows, cols, data)]
    {
      saved := saved + [NpyFile(path, rows, cols, data)];
    }

    /** One frame of processCloud: flatten, name, save. */
    method ExportPlainFrame(outputDir: string, msg: PointCloudMsg, stampText: real -> string)
      requires |msg.points| > 0
      modifies this`saved
      ensures saved == old(saved) + [PlainFile(outputDir, msg, stampText)]
    {
      var n := |msg.points|;
      var buf := FlattenPoints(msg.points);
      var name := CloudFileName(outputDir, msg.seqNo, stampText(msg.points[0].timestamp));
      SaveNpy(name, buf[..], n, 3);
    }

    /** One frame of processCloudWithCalib: transform, filter, save only if non-empty. */
    method ExportCalibFrame(outputDir: string, r: seq<real>, t: seq<real>, ranges: seq<real>,
                            msg: PointCloudMsg, stampText: real -> string)
      requires WellFormed(r, t, ranges)
      modifies this`saved
      ensures saved == old(saved) + CalibFiles(outputDir, r, t, ranges, msg, stampText)
    {
      var buf := CalibrateFrame(msg.points, r, t, ranges);
      if |buf| > 0 {
        var name := CloudFileName(outputDir, msg.seqNo, stampText(msg.points[0].timestamp));
        SaveNpy(name, buf, |buf| / 3, 3);
      }
    }

    /** popWait when a frame is queued: the drain loop's done-th frame of q leaves the delivery queue. */
    method TakeFrame(ghost q: seq<PointCloudMsg>, ghost done: nat) returns (msg: PointCloudMsg)
      requires Valid() && done < |q| && stuffedCloudQueue.items == q[done..]
      modifies stuffedCloudQueue
      ensures msg == q[done] && stuffedCloudQueue.items == q[done + 1..]
    {
      var m := stuffedCloudQueue.Pop();
      msg := m.value;
      assert q[done..][1..] == q[done + 1..];
    }

    /** free_cloud_queue.push(msg) for the done-th frame of q: the pool holds every frame taken so far. */
    method RecycleFrame(msg: PointCloudMsg, ghost q: seq<PointCloudMsg>, ghost done: nat, ghost free0: seq<PointCloudMsg>)
      requires Valid() && done < |q| && msg == q[done] && freeCloudQueue.items == free0 + q[..done]
      modifies freeCloudQueue
      ensures freeCloudQueue.items == free0 + q[..done + 1]
    {
      freeCloudQueue.Push(msg);
      assert q[..done + 1] == q[..done] + [msg];
      assert (free0 + q[..done]) + [msg] == free0 + (q[..done] + [msg]);
    }

    /**
     * One iteration of processCloud: pop the head frame (the done-th of the
     * original queue q), export it, recycle it to the pool.
     */
    method PlainStep(outputDir: string, stampText: real -> string,
                     ghost q: seq<PointCloudMsg>, ghost done: nat, ghost free0: seq<PointCloudMsg>)
      returns (msg: PointCloudMsg)
      requires Valid() && done < |q| && |q[done].points| > 0
      requires stuffedCloudQueue.items == q[done..] && freeCloudQueue.items == free0 + q[..done]
      modifies this`saved, freeCloudQueue, stuffedCloudQueue
      ensures msg == q[done]
      ensures stuffedCloudQueue.items == q[done + 1..] && freeCloudQueue.items == free0 + q[..done + 1]
      ensures saved == old(saved) + [PlainFile(outputDir, msg, stampText)]
    {
      msg := TakeFrame(q, done);
      ExportPlainFrame(outputDir, msg, stampText);
      RecycleFrame(msg, q, done, free0);
    }

    /**
     * One iteration of processCloudWithCalib: pop the head frame (the done-th of
     * the original queue q), export it if anything survives, recycle it to the pool.
     */
    method CalibStep(outputDir: string, r: seq<real>, t: seq<real>, ranges: seq<real>, stampText: real -> string,
                     ghost q: seq<PointCloudMsg>, ghost done: nat, ghost free0: seq<PointCloudMsg>)
      returns (msg: PointCloudMsg)
      requires Valid() && WellFormed(r, t, ranges) && done < |q|
      requires stuffedCloudQueue.items == q[done..] && freeCloudQueue.items == free0 + q[..done]
      modifies this`saved, freeCloudQueue, stuffedCloudQueue
      ensures msg == q[done]
      ensures stuffedCloudQueue.items == q[done + 1..] && freeCloudQueue.items == free0 + q[..done + 1]
      ensures saved == old(saved) + CalibFiles(outputDir, r, t, ranges, msg, stampText)
    {
      msg := TakeFrame(q, done);
      ExportCalibFrame(outputDir, r, t, ranges, msg, stampText);
      RecycleFrame(msg, q, done, free0);
    }

    /**
     * processCloud over the frames queued so far. Returns true when it stopped at
     * a frame past the bound; false when the queue ran dry first, where the
     * source's popWait would wait for further frames.
     */
    method ProcessCloud(outputDir: string, numFrames: int, stampText: real -> string) returns (finished: bool)
      requires Valid()
      requires forall i :: 0 <= i < Consumed(stuffedCloudQueue.items, numFrames) ==>
                 |stuffedCloudQueue.items[i].points| > 0
      modifies this`saved, freeCloudQueue, stuffedCloudQueue
      ensures var q := old(stuffedCloudQueue.items);
        var k := Consumed(q, numFrames);
        && finished == ReachesBound(q, numFrames)
        && stuffedCloudQueue.items == q[k..]
        && freeCloudQueue.items == old(freeCloudQueue.items) + q[..k]
        && saved == old(saved) + PlainLog(outputDir, q[..k], stampText)
    {
      ghost var q := stuffedCloudQueue.items;
      ghost var free0 := freeCloudQueue.items;
      ghost var saved0 := saved;
      ghost var k := Consumed(q, numFrames);
      ghost var done := 0;
      finished := false;
      while true
        invariant 0 <= done <= k <= |q|
        invariant forall i :: 0 <= i < k ==> |q[i].points| > 0
        invariant stuffedCloudQueue.items == q[done..]
        invariant freeCloudQueue.items == free0 + q[..done]
        invariant forall i :: 0 <= i < done ==> !Exceeds(q[i].seqNo, numFrames)
        invariant saved == saved0 + PlainLog(outputDir, q[..done], stampText)
        decreases |stuffedCloudQueue.items|
      {
        if stuffedCloudQueue.items == [] {
          break;
        }
        ConsumedCovers(q, numFrames, done);
        PlainSavedStep(saved0, outputDir, q, done, stampText);
        var msg := PlainStep(outputDir, stampText, q, done, free0);
        done := done + 1;
        if Exceeds(msg.seqNo, numFrames) {
          finished := true;
          break;
        }
      }
      DrainEnd(q, numFrames, done, finished);
    }

    /**
     * processCloudWithCalib over the frames queued so far: transform, filter,
     * write a file only when something survives, recycle every frame.
     */
    method ProcessCloudWithCalib(outputDir: string, r: seq<real>, t: seq<real>, ranges: seq<real>,
                                 numFrames: int, stampText: real -> string) returns (finished: bool)
      requires Valid() && WellFormed(r, t, ranges)
      modifies this`saved, freeCloudQueue, stuffedCloudQueue
      ensures var q := old(stuffedCloudQueue.items);
        var k := Consumed(q, numFrames);
        && finished == ReachesBound(q, numFrames)
        && stuffedCloudQueue.items == q[k..]
        && freeCloudQueue.items == old(freeCloudQueue.items) + q[..k]
        && saved == old(saved) + CalibLog(outputDir, r, t, ranges, q[..k], stampText)
    {
      ghost var q := stuffedCloudQueue.items;
      ghost var free0 := freeCloudQueue.items;
      ghost var saved0 := saved;
      ghost var done := 0;
      finished := false;
      while true
        invariant 0 <= done <= |q|
        invariant stuffedCloudQueue.items == q[done..]
        invariant freeCloudQueue.items == free0 + q[..done]
        invariant forall i :: 0 <= i < done ==> !Exceeds(q[i].seqNo, numFrames)
        invariant saved == saved0 + CalibLog(outputDir, r, t, ranges, q[..done], stampText)
        decreases |stuffedCloudQueue.items|
      {
        if stuffedCloudQueue.items == [] {
          break;
        }
        CalibSavedStep(saved0, outputDir, r, t, ranges, q, done, stampText);
        var msg := CalibStep(outputDir, r, t, ranges, stampText, q, done, free0);
        done := done + 1;
        if Exceeds(msg.seqNo, numFrames) {
          finished := true;
          break;
        }
      }
      DrainEnd(q, numFrames, done, finished);
    }
  }
}
