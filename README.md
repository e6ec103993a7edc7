# rs_xue lidar frame engine — a Dafny model

This project models the sequential core of the rs_xue point-cloud bridge. It has three parts.

- **The real-time client** (`RealtimeLidarClient`) holds:
  - the lifecycle flags `initialized_`, `running_`, `connected_` and `should_stop_processing_`;
  - the single-slot latest-frame cell `latest_cloud_data_` with its `has_new_data_` flag;
  - the last-error string;
  - the two buffer queues shared with the driver callbacks: `free_cloud_queue_` (the pool) and `stuffed_cloud_queue_` (delivery).

  Each operation is modelled as one atomic step on a Dafny `class`:
  - `initialize`, `start`, `stop`, `force_stop` and `cleanup`;
  - `get` and `get_numpy`;
  - the pool callbacks and `exceptionCallback`;
  - one iteration of `processCloudThread` ("publish");
  - `convertPointCloudMsg`.

  The cell coalesces frames: a publish overwrites it, and a successful `get` moves it out and clears it. The stop flag takes precedence over fresh data.
- **The per-frame transforms** are:
  - the real-time axis remap (x' = -y, y' = x, z' = z; intensity and timestamp copied);
  - the batch affine calibration p' = R·p + t (R row-major), followed by a closed axis-aligned box filter;
  - the row-major N×3 flattening used by `processCloud` and `get_numpy`;
  - the output file name `output_dir + "/cloud_" + seq zero-padded to 6 digits + "_" + timestamp + ".npy"`.
- **The batch drain loops** `processCloud` and `processCloudWithCalib` run over a finite delivery queue. Each does the following:
  - it pops frames in FIFO order;
  - it exports each frame; the calibrated variant writes only when some point survives;
  - it returns every frame to the pool;
  - it stops right after the first frame with `seq > num_frames`.

  Each `saveNpy` call is recorded as an `NpyFile(path, rows, cols, data)` entry in an output log.

Modelling choices:
- Coordinates are exact `real`s.
- The sequence number is a `uint32`. The comparison `msg->seq > num_frames` converts the `int` bound to unsigned, and the model does this explicitly: `PcapConverter.Exceeds` takes the bound modulo 2^32. A negative bound is compared as bound + 2^32. Only -1 becomes 0xFFFFFFFF, which no sequence number exceeds, so only then does the loop never stop by sequence number. Any other negative bound is still exceeded, for example -2 becomes 4294967294 and sequence number 4294967295 stops the loop (`PcapConverter.NegativeBoundReach`).
- A message buffer (`shared_ptr<PointCloudMsg>`) is a `PointCloudMsg` value.
- A `SyncQueue` is a class whose `items` sequence is its contents. `pop` returns `None` for the null pointer on an empty queue.
- The blocking `popWait` and the condition-variable wait in `get` are represented by the state in which they would block:
  - a drain loop returns `finished == false` when the queue runs dry before the bound is reached;
  - `Get` returns `WouldBlock`, and changes nothing, when there is neither fresh data nor a stop request;
  - `Publish` does nothing when the stop flag is up or the delivery queue is empty.
- Each lifecycle method is tied to a pure transition on a `Flags` snapshot (`Started`, `Stopped`, `CleanedUp`, `ForceStopped`, `Initialized`). The lemmas about those functions state idempotence and the stop/start and force-stop/start interactions. `is_connected` is `connected_ && running_` (`Connected`, `IsConnected`), and `ConnectedOutcome` states how each transition moves it.
- The timestamp text in file names (`std::fixed << std::setprecision(6)`) is an opaque parameter `stampText: real -> string`.
- The outcome of `driver_->init` is an input to `Initialize`.

The real-time client applies only the axis remap (rs_xue/realtime_lidar_client.cpp:282-290) and holds no calibration state, so the model has none.

Files:
- `wrappers.dfy`: an Option type.
- `lidar_types.dfy`: points, messages, and the row-major N×3 layout.
- `point_cloud_data.dfy`: `PointCloudData`.
- `sync_queue.dfy`: the FIFO queue.
- `calibration.dfy`: the affine transform and the box filter.
- `npy_names.dfy`: zero-padded decimal names.
- `pcap_converter.dfy`: the batch exporter.
- `realtime_lidar_client.dfy`: the client.

## Model

| member | source | states |
|---|---|---|
| LidarTypes.Flatten | rs_xue/pcap_converter.cpp:51-56 | a row-major buffer of N rows has exactly 3N values |
| LidarTypes.FlattenAt | rs_xue/pcap_converter.cpp:52-56 | row i's x, y and z sit at indices 3i, 3i+1 and 3i+2 |
| LidarTypes.FlattenPrefix | rs_xue/pcap_converter.cpp:52-56 | one more iteration of the flattening loop appends that row's three coordinates, so the loop fills the buffer in order |
| LidarTypes.FlattenAppend | rs_xue/pcap_converter.cpp:105-107 | flattening a concatenation concatenates the flattenings; rows keep their order |
| LidarTypes.Unflatten | rs_xue/pcap_converter.cpp:118 | reading a buffer of 3k values with shape (k, 3) gives exactly k rows |
| LidarTypes.UnflattenFlatten | rs_xue/pcap_converter.cpp:62 | a saved buffer read back with shape (N, 3) gives the rows that were written |
| LidarTypes.FlattenUnflatten | rs_xue/pcap_converter.cpp:118 | every buffer whose length is a multiple of 3 is the flattening of its (len/3, 3) rows |
| LidarTypes.StoreRow | rs_xue/pcap_converter.cpp:53-55 | the three indexed stores extend the filled prefix by exactly the row's x, y, z and leave every later element unchanged |
| CloudData.ClearedIsConsistent | rs_xue/realtime_lidar_client.h:43-53 | the cleared/default value satisfies the count invariant and has no rows |
| CloudData.PointCloudData.constructor | rs_xue/realtime_lidar_client.h:43 | default construction: all five arrays empty, frame_id = point_count = 0 |
| CloudData.PointCloudData.Clear | rs_xue/realtime_lidar_client.h:45-53 | clear leaves exactly the default-constructed value, so clearing twice equals clearing once |
| CloudData.PointCloudData.MoveFrom | rs_xue/realtime_lidar_client.cpp:44 | move assignment: the target takes the source's whole value |
| SyncQueues.SyncQueue.Push | rs_xue/pcap_converter.cpp:25 | push appends at the tail, nothing else changes |
| SyncQueues.SyncQueue.Pop | rs_xue/realtime_lidar_client.cpp:306-313 | pop removes and returns the head, or returns null and changes nothing on an empty queue |
| Calibration.Kept | rs_xue/pcap_converter.cpp:91-109 | the filter never yields more points than the frame has |
| Calibration.KeptAtIndices | rs_xue/pcap_converter.cpp:97-108 | survivor j is exactly R·p + t of the input point at the j-th kept index |
| Calibration.KeptIndicesExact | rs_xue/pcap_converter.cpp:101-108 | kept indices ascend, and index i is kept iff every coordinate of point i's image lies in its closed interval of [xmin,xmax,ymin,ymax,zmin,zmax] |
| Calibration.KeptSelection | rs_xue/pcap_converter.cpp:97-108 | the filtered frame is the ordered selection of transformed points whose image is in the box, in both directions |
| Calibration.KeptEmptyIff | rs_xue/pcap_converter.cpp:101-111 | the frame is entirely rejected iff no point's image lies in the box |
| Calibration.KeptAppend | rs_xue/pcap_converter.cpp:91-109 | filtering a concatenation filters each part in turn (order preserved, no coalescing) |
| Calibration.KeptIdentity | rs_xue/pcap_converter.cpp:97-99 | with identity R and zero t the output is the input positions restricted to the box |
| Calibration.KeptIdentityAllInside | rs_xue/pcap_converter.cpp:97-108 | identity R, zero t and a box containing every point: the output equals the input positions |
| Calibration.BoxFilterAllInside | rs_xue/pcap_converter.cpp:101-108 | a box containing every point drops nothing |
| Calibration.ExampleFrame | rs_xue/pcap_converter.cpp:97-108 | the frame [(1,2,3), (-10,-10,-10)] with identity calibration and box [0,5]^3 flattens to [1,2,3] |
| NpyNames.Decimal | rs_xue/pcap_converter.cpp:59 | the printed sequence number is a non-empty string of decimal digits |
| NpyNames.DecimalRoundTrip | rs_xue/pcap_converter.cpp:59 | the printed digits denote the number |
| NpyNames.DecimalNoLeadingZero | rs_xue/pcap_converter.cpp:59 | the printed number starts with '0' iff it is 0 |
| NpyNames.DecimalLength | rs_xue/pcap_converter.cpp:59 | a number below 10^k prints in at most k digits |
| NpyNames.ZeroPad | rs_xue/pcap_converter.cpp:59 | setw/setfill('0'): the result has length max(len, width), ends with the text and is '0' before it, so it never truncates |
| NpyNames.LeadingZerosValue | rs_xue/pcap_converter.cpp:59 | leading zeros do not change the number a digit string denotes |
| NpyNames.SeqFieldShape | rs_xue/pcap_converter.cpp:59 | the sequence field has at least 6 digits, exactly 6 below 10^6, and denotes seq |
| NpyNames.CloudFileNameInjective | rs_xue/pcap_converter.cpp:57-61 | for one directory and timestamp text, distinct sequence numbers give distinct file names |
| PcapConverter.ExceedsInRange | rs_xue/pcap_converter.cpp:64 | for a bound representable as uint32 the stop test is the plain seq > num_frames |
| PcapConverter.ExceedsNegative | rs_xue/pcap_converter.cpp:64 | a negative bound is compared as bound + 2^32 |
| PcapConverter.NegativeBoundReach | rs_xue/pcap_converter.cpp:64 | the bound -1 is exceeded by no sequence number; every other negative bound is exceeded by sequence number 0xFFFFFFFF |
| PcapConverter.Consumed | rs_xue/pcap_converter.cpp:46-65 | a drain takes at most the frames that are queued |
| PcapConverter.ConsumedSpec | rs_xue/pcap_converter.cpp:63-64 | the drain takes frames up to and including the first one past the bound, none of the earlier ones is past it, and it takes the whole queue iff none is |
| PcapConverter.ConsumedIsFirst | rs_xue/pcap_converter.cpp:64 | a frame past the bound preceded only by frames within it is where the drain stops |
| PcapConverter.DrainEnd | rs_xue/pcap_converter.cpp:46-65 | a loop that stopped at a frame past the bound, or ran dry without one, has consumed exactly Consumed frames |
| PcapConverter.PlainFileShape | rs_xue/pcap_converter.cpp:57-62 | processCloud's file for N points has shape (N, 3), 3N values, and reads back as the point positions |
| PcapConverter.PlainLogAt | rs_xue/pcap_converter.cpp:44-65 | processCloud writes exactly one file per consumed frame, file i for frame i |
| PcapConverter.CalibFilesWrittenIff | rs_xue/pcap_converter.cpp:111-121 | a frame yields a file iff some point's image is in the box; the file holds the survivors flattened, shape (len/3, 3), at most 3N values, and reads back as the survivors |
| PcapConverter.CalibLogAppend | rs_xue/pcap_converter.cpp:81-126 | exporting a concatenation of frame sequences exports each part in turn |
| PcapConverter.CalibrateFrame | rs_xue/pcap_converter.cpp:88-109 | the transform-and-filter push_back loop builds exactly the flattening of the kept, transformed points |
| PcapConverter.FlattenPoints | rs_xue/pcap_converter.cpp:51-56 | the flattening loop yields a fresh buffer equal to the row-major flattening of the positions |
| PcapConverter.Converter.DriverGetPointCloudFromCallerCallback | rs_xue/pcap_converter.cpp:7-18 | pool acquire: the head of the free queue if any, else a fresh empty message |
| PcapConverter.Converter.DriverReturnPointCloudToCallerCallback | rs_xue/pcap_converter.cpp:20-26 | the filled frame is appended to the delivery queue |
| PcapConverter.Converter.SaveNpy | rs_xue/pcap_converter.cpp:37-42 | one write is recorded with its path, shape and data |
| PcapConverter.Converter.ExportPlainFrame | rs_xue/pcap_converter.cpp:49-62 | one frame of processCloud writes exactly its PlainFile |
| PcapConverter.Converter.ExportCalibFrame | rs_xue/pcap_converter.cpp:85-121 | one frame of processCloudWithCalib writes its file iff something survives, and nothing otherwise |
| PcapConverter.Converter.TakeFrame | rs_xue/pcap_converter.cpp:47 | the next frame of the queue is removed from the head |
| PcapConverter.Converter.RecycleFrame | rs_xue/pcap_converter.cpp:63 | the processed frame goes back to the tail of the pool |
| PcapConverter.Converter.PlainStep | rs_xue/pcap_converter.cpp:47-63 | one iteration of processCloud: pop the head, export it, return it to the pool |
| PcapConverter.Converter.CalibStep | rs_xue/pcap_converter.cpp:83-123 | one iteration of processCloudWithCalib: pop the head, export it if non-empty after filtering, return it to the pool |
| PcapConverter.Converter.ProcessCloud | rs_xue/pcap_converter.cpp:44-66 | the loop consumes exactly the frames up to the first past the bound (FIFO), reports whether that frame was reached, puts every consumed frame back in the pool in order and writes one file per consumed frame |
| PcapConverter.Converter.ProcessCloudWithCalib | rs_xue/pcap_converter.cpp:68-127 | as ProcessCloud, but each consumed frame is calibrated, filtered and written only when something survives |
| RealtimeLidar.RemapColumns | rs_xue/realtime_lidar_client.cpp:282-290 | the remap loop pushes one entry per point into each of the five columns |
| RealtimeLidar.RemapColumnsSpec | rs_xue/realtime_lidar_client.cpp:282-290 | entry i of the columns is (-y, x, z, intensity, timestamp) of point i, order preserved |
| RealtimeLidar.RemapColumnsPrefix | rs_xue/realtime_lidar_client.cpp:283-289 | one loop iteration pushes exactly the next point's remapped values |
| RealtimeLidar.ConvertedSpec | rs_xue/realtime_lidar_client.cpp:266-295 | a non-empty message gives N remapped rows, point_count = N and frame_id = seq; an empty one gives the cleared record (frame_id 0, not seq); the record is always consistent |
| RealtimeLidar.NumpyRowsOfConverted | rs_xue/realtime_lidar_client.cpp:341-345 | the N×3 array of a converted frame has rows (-y, x, z) of the input points |
| RealtimeLidar.StartOutcome | rs_xue/realtime_lidar_client.cpp:171-189 | start fails and changes nothing when not initialized, changes nothing when running, and otherwise runs with the stop flag cleared |
| RealtimeLidar.StartIdempotent | rs_xue/realtime_lidar_client.cpp:175-177 | two starts equal one |
| RealtimeLidar.StopIdempotent | rs_xue/realtime_lidar_client.cpp:79-101 | two stops equal one; stop leaves the client not running, keeps initialized, and when running raises the stop flag and drops connected |
| RealtimeLidar.StopThenStart | rs_xue/realtime_lidar_client.cpp:79-101 | after stop an initialized client starts again with the stop flag lowered |
| RealtimeLidar.ForceStopThenStart | rs_xue/realtime_lidar_client.cpp:195-219 | after force_stop the client is not initialized, running or connected, and start fails without change |
| RealtimeLidar.InitializedOutcome | rs_xue/realtime_lidar_client.cpp:152-163 | a failed driver init changes no flag; a successful one leaves the client initialized, connected and running |
| RealtimeLidar.RealtimeLidarClient.constructor | rs_xue/realtime_lidar_client.cpp:17-24 | every flag false, empty error, cleared cell, empty queues |
| RealtimeLidar.ConnectedOutcome | rs_xue/realtime_lidar_client.cpp:191-193 | is_connected holds after a successful initialize, is unchanged by a failed one, is false after stop, cleanup and force_stop, and start raises it only for an initialized, already connected client |
| RealtimeLidar.RealtimeLidarClient.IsConnected | rs_xue/realtime_lidar_client.cpp:191-193 | is_connected is the flags model's Connected (connected_ and running_) of the current flags, so ConnectedOutcome applies to it |
| RealtimeLidar.RealtimeLidarClient.GetLastError | rs_xue/realtime_lidar_client.cpp:221-224 | get_last_error returns the recorded last error, which SetError's contract uses to state that the given text is read back |
| RealtimeLidar.RealtimeLidarClient.SetError | rs_xue/realtime_lidar_client.cpp:298-302 | the last error becomes the given text, and get_last_error then returns it |
| RealtimeLidar.RealtimeLidarClient.Initialize | rs_xue/realtime_lidar_client.cpp:115-169 | the flags follow Initialized; "Driver initialization failed" is recorded exactly when driver init fails |
| RealtimeLidar.RealtimeLidarClient.Start | rs_xue/realtime_lidar_client.cpp:171-189 | returns whether the client was initialized; the flags follow Started |
| RealtimeLidar.RealtimeLidarClient.Stop | rs_xue/realtime_lidar_client.cpp:79-101 | the flags follow Stopped; afterwards the client is not connected |
| RealtimeLidar.RealtimeLidarClient.Cleanup | rs_xue/realtime_lidar_client.cpp:304-317 | both queues end empty and initialized and connected are cleared |
| RealtimeLidar.RealtimeLidarClient.ForceStop | rs_xue/realtime_lidar_client.cpp:195-219 | never fails; the flags follow ForceStopped and both queues end empty |
| RealtimeLidar.RealtimeLidarClient.GetPointCloudCallback | rs_xue/realtime_lidar_client.cpp:228-237 | pool acquire: the head of the free queue if any, else a fresh empty message |
| RealtimeLidar.RealtimeLidarClient.ReturnPointCloudCallback | rs_xue/realtime_lidar_client.cpp:239-252 | the filled frame is appended to the delivery queue |
| RealtimeLidar.RealtimeLidarClient.ExceptionCallback | rs_xue/realtime_lidar_client.cpp:254-264 | the last error becomes "LiDAR Exception: " + code text; connected survives only an INFO_CODE |
| RealtimeLidar.RealtimeLidarClient.ConvertPointCloudMsg | rs_xue/realtime_lidar_client.cpp:266-295 | the target record ends equal to Converted(msg) |
| RealtimeLidar.RealtimeLidarClient.Publish | rs_xue/realtime_lidar_client.cpp:26-52 | unless stopped or starved, the head frame is taken, its conversion overwrites the cell, has_new_data is set and the buffer returns to the pool; otherwise nothing changes |
| RealtimeLidar.RealtimeLidarClient.Get | rs_xue/realtime_lidar_client.cpp:54-77 | not running: false, "Client is not running", cell untouched; stop flag: false even with fresh data; fresh data: the caller gets the cell, which is then cleared with has_new_data; otherwise it would wait |
| RealtimeLidar.RealtimeLidarClient.FlattenColumns | rs_xue/realtime_lidar_client.cpp:341-345 | the get_numpy loop fills a fresh array with the row-major flattening of (x[i], y[i], z[i]) |
| RealtimeLidar.RealtimeLidarClient.GetNumpy | rs_xue/realtime_lidar_client.cpp:320-348 | no array unless a frame with points was fetched; then the N×3 array of its x, y, z |
| RealtimeLidar.RealtimeLidarClient.LatestFrameWins | rs_xue/realtime_lidar_client.cpp:42-46 | two publishes then a get deliver only the second frame, a second get finds nothing fresh, and both buffers are back in the pool |

## Left out

- Threads, locks, condition variables and atomics are not modelled. This covers:
  - `processing_thread_`, spawned in `start` and joined in `stop`;
  - `cloud_data_mutex_`, `error_mutex_`, `notify_one` and `notify_all`.

  Each operation is one sequential step, and interleavings are not explored.
- The blocking waits are not modelled as waits. `popWait` and `cloud_data_cv_.wait` are represented by the state in which they would block (`WouldBlock`, or a drain returning `finished == false`). There is also no model of a stop arriving while `get` is already blocked.
- The unjoined processing thread after `force_stop` is not modelled. A later `start` returns early, because `initialized_` is false (rs_xue/realtime_lidar_client.cpp:172-174). The hazard is reached only through a later successful `initialize`, which calls `start` and assigns a new `std::thread` over the joinable one (rs_xue/realtime_lidar_client.cpp:162 and 185), or through the destructor's `force_stop` (rs_xue/realtime_lidar_client.cpp:104-107). This is a concurrency and lifetime hazard outside the model.
- The driver (`LidarDriver`, `RSDriverParam`, `Error`) is left out. This covers:
  - parameter setup and callback registration in `initialize`;
  - `driver_->start()` and `driver_->stop()`;
  - `getDriverVersion`.

  Driver init success is a boolean input to `Initialize`.
- Initialize: the `catch` branch that records "Initialization exception: …" is not modelled, because the model's driver calls cannot throw.
- The internals of `SyncQueue` are not part of this model; it is an abstract FIFO.
- `saveNpy` / `cnpy::npy_save` would write the NumPy container to disk. The model records each call as an `NpyFile` entry in a log instead.
- IEEE float behaviour is not modelled: coordinates are exact reals, so float rounding in R·p + t and the float storage of the x, y, z and intensity columns are left out. Timestamps are `double` in `PointCloudData` (rs_xue/realtime_lidar_client.h:39) and are copied unchanged, so nothing is lost there.
- The `std::fixed << std::setprecision(6)` timestamp text is an opaque function parameter.
- The batch `exceptionCallback` calls `exit(1)`. This is process termination and is not modelled.
- `convert_pcap` and `convert_pcap_with_calib` (driver configuration, thread spawn and join) are not modelled. Neither are the pybind11 bindings, the NumPy marshalling or the Python packaging.
- `RS_MSG`, `RS_WARNING` and `RS_ERROR` logging, including the "msg: empty buffer" message, is left out.
- Buffer identity is not modelled: a pooled buffer is a value, so sharing and aliasing of `shared_ptr` buffers between the queues is outside the model.
- `set_calib` (bound in rs_xue/binding.cc) and `get_numpy_data` (declared in rs_xue/realtime_lidar_client.h) have no definition anywhere under rs_xue/ and are not modelled.
- PcapConverter.Converter.ProcessCloud requires every frame it consumes to be non-empty. The source reads `points.front()` of an empty frame, which is undefined behaviour.
- PcapConverter.Converter.ProcessCloudWithCalib takes frames as values, so it does not model the missing null check after `popWait`. It requires R, t and ranges to hold at least 9, 3 and 6 values, because the source reads that many.
- PcapConverter.Converter.ProcessCloud skips null messages (`if (!msg) continue;`); the model's queue holds no null entries.
- RealtimeLidar.RealtimeLidarClient.Publish models a single iteration of `processCloudThread`; the enclosing `while (!should_stop_processing_)` loop is the caller's repetition of it.
