/**
 * The driver's point and point-cloud message (PointXYZIT, PointCloudT) and the
 * row-major N×3 layout that both the batch exporter and the NumPy accessor use.
 * Coordinates are exact reals: IEEE rounding is not modelled.
 */
module LidarTypes {

  /** Width of the driver's sequence number (uint32_t). */
  type uint32 = x: int | 0 <= x < 0x1_0000_0000

  /** One driver point: position, intensity and a per-point timestamp. */
  datatype Point = Point(x: real, y: real, z: real, intensity: real, timestamp: real)

  /** A point-cloud message as the driver fills it. */
  datatype PointCloudMsg = PointCloudMsg(seqNo: uint32, points: seq<Point>)

  /** A default-constructed message (what make_shared<PointCloudMsg>() yields). */
  const EmptyMsg: PointCloudMsg := PointCloudMsg(0, [])

  /** A row of the N×3 output: x, y, z. */
  datatype Vec3 = Vec3(x: real, y: real, z: real)

  function Position(p: Point): Vec3 {
    Vec3(p.x, p.y, p.z)
  }

  function Positions(ps: seq<Point>): seq<Vec3> {
    seq(|ps|, i requires 0 <= i < |ps| => Position(ps[i]))
  }

  /** Row-major flattening: row i occupies indices 3i, 3i+1, 3i+2. */
  function Flatten(rows: seq<Vec3>): (buf: seq<real>)
    ensures |buf| == 3 * |rows|
  {
    if rows == [] then []
    else
      var last := rows[|rows| - 1];
      Flatten(rows[..|rows| - 1]) + [last.x, last.y, last.z]
  }

  /** Flattening one more row appends its three coordinates. */
  lemma FlattenPrefix(rows: seq<Vec3>, i: nat)
    requires i < |rows|
    ensures Flatten(rows[..i + 1]) == Flatten(rows[..i]) + [rows[i].x, rows[i].y, rows[i].z]
  {
    assert rows[..i + 1][..i] == rows[..i];
  }

  /** Stores row v at indices 3i, 3i+1, 3i+2 of buf, extending the filled prefix by one row. */
  method StoreRow(buf: array<real>, i: nat, v: Vec3)
    requires 3 * i + 3 <= buf.Length
    modifies buf
    ensures buf[..3 * i + 3] == old(buf[..3 * i]) + [v.x, v.y, v.z]
    ensures buf[3 * i + 3..] == old(buf[3 * i + 3..])
  {
    buf[3 * i] := v.x;
    buf[3 * i + 1] := v.y;
    buf[3 * i + 2] := v.z;
  }

  /** Reads a buffer of length 3N back as its N rows (the saved shape (N, 3)). */
  function Unflatten(buf: seq<real>): (rows: seq<Vec3>)
    requires |buf| % 3 == 0
    ensures 3 * |rows| == |buf|
  {
    if buf == [] then []
    else
      var n := |buf|;
      Unflatten(buf[..n - 3]) + [Vec3(buf[n - 3], buf[n - 2], buf[n - 1])]
  }

  /** Where each coordinate lands in the flattened buffer. */
  lemma {:induction false} FlattenAt(rows: seq<Vec3>, i: nat)
    requires i < |rows|
    ensures Flatten(rows)[3 * i] == rows[i].x
    ensures Flatten(rows)[3 * i + 1] == rows[i].y
    ensures Flatten(rows)[3 * i + 2] == rows[i].z
  {
    var init := rows[..|rows| - 1];
    if i < |rows| - 1 {
      FlattenAt(init, i);
      assert init[i] == rows[i];
    }
  }

  /** Flattening distributes over concatenation: rows keep their order. */
  lemma {:induction false} FlattenAppend(a: seq<Vec3>, b: seq<Vec3>)
    ensures Flatten(a + b) == Flatten(a) + Flatten(b)
  {
    if b != [] {
      var init := b[..|b| - 1];
      assert (a + b)[..|a + b| - 1] == a + init;
      FlattenAppend(a, init);
    } else {
      assert a + b == a;
    }
  }

  /** Reading the saved (N, 3) buffer back gives the rows that were flattened. */
  lemma {:induction false} UnflattenFlatten(rows: seq<Vec3>)
    ensures Unflatten(Flatten(rows)) == rows
  {
    if rows != [] {
      var init := rows[..|rows| - 1];
      var buf := Flatten(rows);
      assert buf[..|buf| - 3] == Flatten(init);
      UnflattenFlatten(init);
    }
  }

  /** Every buffer whose length is a multiple of 3 is the flattening of its rows. */
  lemma {:induction false} FlattenUnflatten(buf: seq<real>)
    requires |buf| % 3 == 0
    ensures Flatten(Unflatten(buf)) == buf
  {
    if buf != [] {
      var n := |buf|;
      var rows := Unflatten(buf);
      assert rows[..|rows| - 1] == Unflatten(buf[..n - 3]);
      FlattenUnflatten(buf[..n - 3]);
      assert buf == buf[..n - 3] + [buf[n - 3], buf[n - 2], buf[n - 1]];
    }
  }
}
