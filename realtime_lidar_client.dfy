/**
 * RealtimeLidarClient: the flags of the client's lifecycle, the latest-frame
 * cell filled by the processing thread, the last-error register and the two
 * queues shared with the driver callbacks. Each operation is one atomic step;
 * threads, locks and condition variables are not modelled.
 */
module RealtimeLidar {
  import opened LidarTypes
  import opened SyncQueues
  import opened CloudData

  /** Severity of a driver fault (ErrCodeType); only INFO_CODE keeps the connection. */
  datatype ErrCodeType = InfoCode | WarningCode | ErrorCode

  /** A driver fault: its printable text (Error::toString()) and its severity. */
  datatype LidarError = LidarError(text: string, codeType: ErrCodeType)

  /**
   * What a call to get does: delivers a frame (returns true), returns false, or
   * waits on the condition variable because there is neither fresh data nor a
   * stop request (it has not returned yet; nothing has changed).
   */
  datatype FetchStatus = Fetched | Failed | WouldBlock

  /**
   * The columns convertPointCloudMsg builds for points ps by push_back:
   * x' = -y, y' = x, z' = z, intensity and timestamp copied, input order kept.
   */
  function RemapColumns(ps: seq<Point>): (c: CloudValue)
    ensures |c.x| == |c.y| == |c.z| == |c.intensity| == |c.timestamp| == |ps|
    ensures c.frameId == 0 && c.pointCount == 0
  {
    if ps == [] then Cleared
    else PushRemapped(RemapColumns(ps[..|ps| - 1]), ps[|ps| - 1])
  }

  /** Column entry i of the remapped record comes from point i. */
  lemma {:induction false} RemapColumnsSpec(ps: seq<Point>)
    ensures var c := RemapColumns(ps);
      forall i :: 0 <= i < |ps| ==>
        && c.x[i] == -ps[i].y && c.y[i] == ps[i].x && c.z[i] == ps[i].z
        && c.intensity[i] == ps[i].intensity && c.timestamp[i] == ps[i].timestamp
  {
    if ps != [] {
      var init := ps[..|ps| - 1];
      RemapColumnsSpec(init);
      assert forall i :: 0 <= i < |init| ==> init[i] == ps[i];
    }
  }

  /** One push_back of each column for point p, remapped. */
  function PushRemapped(c: CloudValue, p: Point): CloudValue {
    c.(x := c.x + [-p.y], y := c.y + [p.x], z := c.z + [p.z],
       intensity := c.intensity + [p.intensity], timestamp := c.timestamp + [p.timestamp])
  }

  /** Remapping one more point of ps pushes that point onto the columns built so far. */
  lemma RemapColumnsPrefix(ps: seq<Point>, i: nat)
    requires i < |ps|
    ensures RemapColumns(ps[..i + 1]) == PushRemapped(RemapColumns(ps[..i]), ps[i])
  {
    assert ps[..i + 1][..i] == ps[..i];
  }

  /** The record convertPointCloudMsg leaves behind for msg. */
  function Converted(msg: PointCloudMsg): CloudValue {
    if |msg.points| == 0 then Cleared
    else RemapColumns(msg.points).(frameId := msg.seqNo, pointCount := |msg.points|)
  }

  /**
   * A non-empty message gives N remapped rows with frame id = seq and count N;
   * an empty one gives the cleared record (frame id 0, not seq). Either way the
   * record is consistent.
   */
  lemma ConvertedSpec(msg: PointCloudMsg)
    ensures var c, ps := Converted(msg), msg.points;
      && Consistent(c)
      && (|ps| == 0 ==> c == Cleared)
      && (|ps| > 0 ==> c.frameId == msg.seqNo && c.pointCount == |ps|)
      && forall i :: 0 <= i < |ps| ==>
           && c.x[i] == -ps[i].y && c.y[i] == ps[i].x && c.z[i] == ps[i].z
           && c.intensity[i] == ps[i].intensity && c.timestamp[i] == ps[i].timestamp
  {
    RemapColumnsSpec(msg.points);
  }

  /** The N×3 array get_numpy builds from a converted message: rows (-y, x, z). */
  lemma {:induction false} NumpyRowsOfConverted(msg: PointCloudMsg)
    ensures var c := Converted(msg);
      Consistent(c) && XYZRows(c) == seq(|msg.points|, i requires 0 <= i < |msg.points| =>
        Vec3(-msg.points[i].y, msg.points[i].x, msg.points[i].z))
  {
    ConvertedSpec(msg);
  }

  /** The lifecycle flags initialized_, running_, connected_ and should_stop_processing_. */
  datatype Flags = Flags(initialized: bool, running: bool, connected: bool, shouldStop: bool)

  /** The flags after start(). */
  function Started(f: Flags): Flags {
    if !f.initialized || f.running then f else f.(shouldStop := false, running := true)
  }

  /** The flags after stop(). */
  function Stopped(f: Flags): Flags {
    if !f.running then f else f.(shouldStop := true, running := false, connected := false)
  }

  /** The flags after cleanup(). */
  function CleanedUp(f: Flags): Flags {
    f.(initialized := false, connected := false)
  }

  /** The flags after force_stop(). */
  function ForceStopped(f: Flags): Flags {
    CleanedUp(f.(running := false, connected := false, initialized := false))
  }

  /** The flags after initialize(), given whether driver_->init succeeded. */
  function Initialized(f: Flags, driverInitOk: bool): Flags {
    if !driverInitOk then f else Started(f.(initialized := true, connected := true))
  }

  /** start fails and changes nothing when not initialized; a running client is left as it is. */
  lemma StartOutcome(f: Flags)
    ensures Started(f).running <==> f.initialized || f.running
    ensures !f.initialized || f.running ==> Started(f) == f
    ensures f.initialized && !f.running ==> !Started(f).shouldStop
    ensures Started(f).initialized == f.initialized && Started(f).connected == f.connected
  {
  }

  /** Two starts are one start. */
  lemma StartIdempotent(f: Flags)
    ensures Started(Started(f)) == Started(f)
  {
  }

  /** Two stops are one stop; stop leaves the client not running and keeps initialized. */
  lemma StopIdempotent(f: Flags)
    ensures Stopped(Stopped(f)) == Stopped(f)
    ensures !Stopped(f).running && Stopped(f).initialized == f.initialized
    ensures f.running ==> Stopped(f).shouldStop && !Stopped(f).connected
  {
  }

  /** After stop an initialized client can be started again, with the stop flag lowered. */
  lemma StopThenStart(f: Flags)
    requires f.initialized
    ensures Started(Stopped(f)).running && !Started(Stopped(f)).shouldStop
  {
  }

  /** After force_stop every flag but the stop flag is down, and start fails and changes nothing. */
  lemma ForceStopThenStart(f: Flags)
    ensures var g := ForceStopped(f);
      && !g.initialized && !g.running && !g.connected && g.shouldStop == f.shouldStop
      && Started(g) == g && !Started(g).running
  {
  }

  /** A successful initialize leaves the client initialized, connected and running. */
  lemma InitializedOutcome(f: Flags, driverInitOk: bool)
    ensures var g := Initialized(f, driverInitOk);
      && (!driverInitOk ==> g == f)
      && (driverInitOk ==> g.initialized && g.connected && g.running
                           && g.shouldStop == (f.running && f.shouldStop))
  {
  }

  /** is_connected over a flags snapshot: connected_ && running_. */
  predicate Connected(f: Flags) {
    f.connected && f.running
  }

  /**
   * is_connected holds right after a successful initialize, is unchanged by a
   * failed one, is false after stop, cleanup and force_stop, and start only
   * raises it for an initialized client that was already connected.
   */
  lemma ConnectedOutcome(f: Flags)
    ensures Connected(Initialized(f, true))
    ensures Connected(Initialized(f, false)) == Connected(f)
    ensures !Connected(Stopped(f)) && !Connected(CleanedUp(f)) && !Connected(ForceStopped(f))
    ensures Connected(Started(f)) <==> f.connected && (f.initialized || f.running)
  {
  }

  class RealtimeLidarClient {
    var initialized: bool
    var running: bool
    var connected: bool
    var shouldStopProcessing: bool
    var hasNewData: bool
    var lastError: string
    /** latest_cloud_data_: the single-slot, overwritten-on-arrival cell. */
    const latestCloudData: PointCloudData
    /** free_cloud_queue_: reusable buffers. */
    const freeCloudQueue: SyncQueue<PointCloudMsg>
    /** stuffed_cloud_queue_: frames the driver filled, awaiting the processing thread. */
    const stuffedCloudQueue: SyncQueue<PointCloudMsg>

    /**
     * The two queues are distinct, the cell is a consistent record, and a cell
     * without fresh data is cleared.
     */
    ghost predicate Valid()
      reads this, latestCloudData
    {
      && freeCloudQueue != stuffedCloudQueue
      && Consistent(latestCloudData.Value())
      && (!hasNewData ==> latestCloudData.Value() == Cleared)
    }

    /** The client's lifecycle flags. */
    function FlagState(): Flags
      reads this
    {
      Flags(initialized, running, connected, shouldStopProcessing)
    }

    /** is_connected: the flags model's Connected of the current flags. */
    function IsConnected(): (b: bool)
      reads this
      ensures b == Connected(FlagState())
    {
      connected && running
    }

    /** get_last_error: the message recorded by the last SetError. */
    function GetLastError(): (e: string)
      reads this
      ensures e == lastError
    {
      lastError
    }

    constructor ()
      ensures Valid()
      ensures !initialized && !running && !connected && !shouldStopProcessing && !hasNewData
      ensures lastError == "" && latestCloudData.Value() == Cleared
      ensures freeCloudQueue.items == [] && stuffedCloudQueue.items == []
      ensures fresh(latestCloudData) && fresh(freeCloudQueue) && fresh(stuffedCloudQueue)
    {
      initialized, running, connected := false, false, false;
      shouldStopProcessing, hasNewData := false, false;
      lastError := "";
      latestCloudData := new PointCloudData();
      freeCloudQueue := new SyncQueue();
      stuffedCloudQueue := new SyncQueue();
    }

    method SetError(error: string)
      modifies this`lastError
      ensures lastError == error && GetLastError() == error
    {
      lastError := error;
    }

    /**
     * initialize, with the outcome of driver_->init as the input driverInitOk.
     * On success the client is initialized and connected and start() is called.
     */
    method Initialize(driverInitOk: bool) returns (ok: bool)
      requires Valid()
      modifies this`lastError, this`initialized, this`connected, this`running, this`shouldStopProcessing
      ensures Valid() && ok == driverInitOk
      ensures FlagState() == Initialized(old(FlagState()), driverInitOk)
      ensures lastError == if driverInitOk then old(lastError) else "Driver initialization failed"
    {
      if !driverInitOk {
        SetError("Driver initialization failed");
        return false;
      }
      initialized := true;
      connected := true;
      var _ := Start();
      return true;
    }

    /** start: fails when not initialized, is a no-op success when running. */
    method Start() returns (ok: bool)
      requires Valid()
      modifies this`running, this`shouldStopProcessing
      ensures Valid() && ok == old(initialized)
      ensures FlagState() == Started(old(FlagState()))
    {
      if !initialized {
        return false;
      }
      if running {
        return true;
      }
      shouldStopProcessing := false;
      running := true;
      return true;
    }

    /** stop: a no-op when not running; otherwise raise the stop flag and clear running and connected. */
    method Stop()
      requires Valid()
      modifies this`shouldStopProcessing, this`running, this`connected
      ensures Valid() && !IsConnected()
      ensures FlagState() == Stopped(old(FlagState()))
    {
      if !running {
        return;
      }
      shouldStopProcessing := true;
      running := false;
      connected := false;
    }

    /** cleanup: pop both queues until empty, then clear initialized and connected. */
    method Cleanup()
      requires Valid()
      modifies this`initialized, this`connected, freeCloudQueue, stuffedCloudQueue
      ensures Valid() && FlagState() == CleanedUp(old(FlagState()))
      ensures freeCloudQueue.items == [] && stuffedCloudQueue.items == []
    {
      while true
        decreases |freeCloudQueue.items|
      {
        var msg := freeCloudQueue.Pop();
        if msg.None? {
          break;
        }
      }
      while true
        invariant freeCloudQueue.items == []
        decreases |stuffedCloudQueue.items|
      {
        var msg := stuffedCloudQueue.Pop();
        if msg.None? {
          break;
        }
      }
      initialized := false;
      connected := false;
    }

    /** force_stop: clears the flags, empties both queues, never fails. */
    method ForceStop()
      requires Valid()
      modifies this`running, this`connected, this`initialized, freeCloudQueue, stuffedCloudQueue
      ensures Valid() && FlagState() == ForceStopped(old(FlagState()))
      ensures freeCloudQueue.items == [] && stuffedCloudQueue.items == []
    {
      running := false;
      connected := false;
      initialized := false;
      Cleanup();
    }

    /** getPointCloudCallback: reuse a pooled buffer, else a fresh empty one. */
    method GetPointCloudCallback() returns (msg: PointCloudMsg)
      requires Valid()
      modifies freeCloudQueue
      ensures old(freeCloudQueue.items) != [] ==>
                msg == old(freeCloudQueue.items)[0] && freeCloudQueue.items == old(freeCloudQueue.items)[1..]
      ensures old(freeCloudQueue.items) == [] ==> msg == EmptyMsg && freeCloudQueue.items == []
    {
      var m := freeCloudQueue.Pop();
      if m.Some? {
        return m.value;
      }
      return EmptyMsg;
    }

    /** returnPointCloudCallback: queue a filled frame for the processing thread. */
    method ReturnPointCloudCallback(msg: PointCloudMsg)
      requires Valid()
      modifies stuffedCloudQueue
      ensures stuffedCloudQueue.items == old(stuffedCloudQueue.items) + [msg]
    {
      stuffedCloudQueue.Push(msg);
    }

    /** exceptionCallback: record the fault; anything but INFO_CODE drops the connection. */
    method ExceptionCallback(code: LidarError)
      modifies this`lastError, this`connected
      ensures lastError == "LiDAR Exception: " + code.text
      ensures connected == (old(connected) && code.codeType == InfoCode)
      ensures code.codeType != InfoCode ==> !IsConnected()
    {
      SetError("LiDAR Exception: " + code.text);
      if code.codeType == InfoCode {
      } else {
        connected := false;
      }
    }

    /** convertPointCloudMsg: build the remapped record of msg into pc. */
    method ConvertPointCloudMsg(msg: PointCloudMsg, pc: PointCloudData)
      modifies pc
      ensures pc.Value() == Converted(msg)
    {
      pc.Clear();
      var n := |msg.points|;
      if n == 0 {
        return;
      }
      var i := 0;
      while i < n
        invariant 0 <= i <= n
        invariant pc.Value() == RemapColumns(msg.points[..i])
      {
        var point := msg.points[i];
        RemapColumnsPrefix(msg.points, i);
        pc.x, pc.y, pc.z := pc.x + [-point.y], pc.y + [point.x], pc.z + [point.z];
        pc.intensity, pc.timestamp := pc.intensity + [point.intensity], pc.timestamp + [point.timestamp];
        i := i + 1;
      }
      assert msg.points[..n] == msg.points;
      pc.frameId := msg.seqNo;
      pc.pointCount := n;
    }

    /**
     * One iteration of processCloudThread: unless the stop flag is up or the
     * delivery queue is empty (where popWait would wait), take the head frame,
     * overwrite the cell with its conversion, mark it fresh, recycle the buffer.
     */
    method Publish() returns (published: bool)
      requires Valid()
      modifies this`hasNewData, latestCloudData, freeCloudQueue, stuffedCloudQueue
      ensures Valid()
      ensures published == (!shouldStopProcessing && old(stuffedCloudQueue.items) != [])
      ensures published ==>
        var msg := old(stuffedCloudQueue.items)[0];
        && latestCloudData.Value() == Converted(msg) && hasNewData
        && stuffedCloudQueue.items == old(stuffedCloudQueue.items)[1..]
        && freeCloudQueue.items == old(freeCloudQueue.items) + [msg]
      ensures !published ==>
        && hasNewData == old(hasNewData) && latestCloudData.Value() == old(latestCloudData.Value())
        && stuffedCloudQueue.items == old(stuffedCloudQueue.items)
        && freeCloudQueue.items == old(freeCloudQueue.items)
    {
      if shouldStopProcessing || stuffedCloudQueue.items == [] {
        return false;
      }
      var m := stuffedCloudQueue.Pop();
      var msg := m.value;
      var cloudData := new PointCloudData();
      ConvertPointCloudMsg(msg, cloudData);
      ConvertedSpec(msg);
      latestCloudData.MoveFrom(cloudData);
      hasNewData := true;
      freeCloudQueue.Push(msg);
      return true;
    }

    /**
     * get: fails with "Client is not running" when not running; otherwise waits
     * for fresh data or the stop flag. The stop flag wins over fresh data. On
     * success the caller's record receives the cell and the cell is cleared, so a
     * published frame is delivered at most once.
     */
    method Get(pc: PointCloudData) returns (status: FetchStatus)
      requires Valid() && pc != latestCloudData
      modifies this`lastError, this`hasNewData, latestCloudData, pc
      ensures Valid()
      ensures !old(running) ==>
        && status == Failed && lastError == "Client is not running"
        && hasNewData == old(hasNewData)
        && latestCloudData.Value() == old(latestCloudData.Value()) && pc.Value() == old(pc.Value())
      ensures old(running) ==> lastError == old(lastError)
      ensures old(running) && shouldStopProcessing ==>
        && status == Failed && hasNewData == old(hasNewData)
        && latestCloudData.Value() == old(latestCloudData.Value()) && pc.Value() == old(pc.Value())
      ensures old(running) && !shouldStopProcessing && old(hasNewData) ==>
        && status == Fetched && pc.Value() == old(latestCloudData.Value())
        && latestCloudData.Value() == Cleared && !hasNewData
      ensures old(running) && !shouldStopProcessing && !old(hasNewData) ==>
        && status == WouldBlock && !hasNewData
        && latestCloudData.Value() == old(latestCloudData.Value()) && pc.Value() == old(pc.Value())
    {
      if !running {
        SetError("Client is not running");
        return Failed;
      }
      if !hasNewData && !shouldStopProcessing {
        return WouldBlock;
      }
      if shouldStopProcessing {
        return Failed;
      }
      if hasNewData {
        pc.MoveFrom(latestCloudData);
        latestCloudData.Clear();
        hasNewData := false;
        return Fetched;
      }
      return Failed;
    }

    /** The loop of get_numpy: ptr[3i+k] from the x, y, z columns of a consistent record. */
    static method FlattenColumns(c: CloudValue) returns (arr: array<real>)
      requires Consistent(c)
      ensures fresh(arr)
      ensures arr[..] == Flatten(XYZRows(c))
    {
      arr := new real[c.pointCount * 3];
      ghost var rows := XYZRows(c);
      var i := 0;
      while i < c.pointCount
        invariant 0 <= i <= c.pointCount
        invariant arr[..3 * i] == Flatten(rows[..i])
      {
        FlattenPrefix(rows, i);
        StoreRow(arr, i, Vec3(c.x[i], c.y[i], c.z[i]));
        i := i + 1;
      }
      assert rows[..c.pointCount] == rows;
      assert arr[..] == arr[..3 * c.pointCount];
    }

    /**
     * get_numpy: get a frame; no array (None) unless a frame with at least one
     * point was fetched; otherwise the N×3 row-major array of its x, y, z.
     */
    method GetNumpy() returns (status: FetchStatus, arr: array?<real>)
      requires Valid()
      modifies this`lastError, this`hasNewData, latestCloudData
      ensures Valid()
      ensures status == (if !old(running) || shouldStopProcessing then Failed
                         else if old(hasNewData) then Fetched else WouldBlock)
      ensures status == Fetched ==> latestCloudData.Value() == Cleared && !hasNewData
      ensures status != Fetched ==>
        hasNewData == old(hasNewData) && latestCloudData.Value() == old(latestCloudData.Value())
      ensures lastError == if old(running) then old(lastError) else "Client is not running"
      ensures status == Fetched && old(latestCloudData.Value()).pointCount > 0 ==>
        arr != null && fresh(arr) && arr[..] == Flatten(XYZRows(old(latestCloudData.Value())))
      ensures !(status == Fetched && old(latestCloudData.Value()).pointCount > 0) ==> arr == null
    {
      var cloudData := new PointCloudData();
      status := Get(cloudData);
      if status != Fetched {
        return status, null;
      }
      var c := cloudData.Value();
      if c.pointCount == 0 {
        return status, null;
      }
      arr := FlattenColumns(c);
    }

    /**
     * Two frames published before one get: the cell coalesces them, so the get
     * delivers only the newer one, a second get finds nothing fresh, and both
     * buffers are back in the pool.
     */
    method LatestFrameWins(pc: PointCloudData) returns (first: FetchStatus, second: FetchStatus)
      requires Valid() && running && !shouldStopProcessing && pc != latestCloudData
      requires |stuffedCloudQueue.items| == 2
      modifies this`lastError, this`hasNewData, latestCloudData, freeCloudQueue, stuffedCloudQueue, pc
      ensures first == Fetched && pc.Value() == Converted(old(stuffedCloudQueue.items)[1])
      ensures second == WouldBlock && !hasNewData && latestCloudData.Value() == Cleared
      ensures stuffedCloudQueue.items == [] && freeCloudQueue.items == old(freeCloudQueue.items) + old(stuffedCloudQueue.items)
    {
      ghost var q := stuffedCloudQueue.items;
      ghost var free0 := freeCloudQueue.items;
      var published := Publish();
      published := Publish();
      assert free0 + [q[0]] + [q[1]] == free0 + q;
      first := Get(pc);
      var again := new PointCloudData();
      second := Get(again);
    }
  }
}
