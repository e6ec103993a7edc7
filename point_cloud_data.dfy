/**
 * PointCloudData, the per-frame record handed to the Python side: five parallel
 * columns, the frame id and the point count.
 */
module CloudData {
  import opened LidarTypes

  /** The value a PointCloudData object holds. */
  datatype CloudValue = CloudValue(
    x: seq<real>, y: seq<real>, z: seq<real>,
    intensity: seq<real>, timestamp: seq<real>,
    frameId: uint32, pointCount: nat)

  /** The default-constructed (and the cleared) value. */
  const Cleared: CloudValue := CloudValue([], [], [], [], [], 0, 0)

  /** The record's invariant: point_count is the common length of the five columns. */
  predicate Consistent(c: CloudValue) {
    && |c.x| == c.pointCount
    && |c.y| == c.pointCount
    && |c.z| == c.pointCount
    && |c.intensity| == c.pointCount
    && |c.timestamp| == c.pointCount
  }

  /** The rows (x[i], y[i], z[i]) of a consistent record, in column order. */
  function XYZRows(c: CloudValue): seq<Vec3>
    requires Consistent(c)
  {
    seq(c.pointCount, i requires 0 <= i < c.pointCount => Vec3(c.x[i], c.y[i], c.z[i]))
  }

  lemma ClearedIsConsistent()
    ensures Consistent(Cleared) && XYZRows(Cleared) == []
  {
  }

  class PointCloudData {
    var x: seq<real>
    var y: seq<real>
    var z: seq<real>
    var intensity: seq<real>
    var timestamp: seq<real>
    var frameId: uint32
    var pointCount: nat

    function Value(): CloudValue
      reads this
    {
      CloudValue(x, y, z, intensity, timestamp, frameId, pointCount)
    }

    /** Default construction: all columns empty, frame id and count zero. */
    constructor ()
      ensures Value() == Cleared
    {
      x, y, z, intensity, timestamp := [], [], [], [], [];
      frameId, pointCount := 0, 0;
    }

    /** Empties the columns and zeroes the scalars; the result is the default value. */
    method Clear()
      modifies this
      ensures Value() == Cleared
    {
      x := [];
      y := [];
      z := [];
      intensity := [];
      timestamp := [];
      frameId := 0;
      pointCount := 0;
    }

    /** Move assignment `*this = std::move(other)`: this takes other's value. */
    method MoveFrom(other: PointCloudData)
      requires other != this
      modifies this
      ensures Value() == old(other.Value())
    {
      x, y, z := other.x, other.y, other.z;
      intensity, timestamp := other.intensity, other.timestamp;
      frameId, pointCount := other.frameId, other.pointCount;
    }
  }
}
