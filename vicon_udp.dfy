/** The per-object record of the Vicon UDP client (src/vicon/udp.cc):
    `ObjectData`, which keeps the latest name, frame number, pose and
    receipt time of one tracked object, and `ObjectDataVelocity`, which also
    keeps smoothed linear and angular velocities.

    The receipt timer is modelled by an abstract monotonic clock: every
    operation that starts or reads the timer takes the current clock reading
    `now` as a parameter. The floating-point smoothing is a function-valued
    parameter (see `VelocityFilter`). */
module ViconUdp {
  import opened IntTypes
  import opened Pose

  /** The 24-byte, NUL-terminated name field of a Vicon record. */
  type Name = s: seq<u8> | |s| == 24 witness seq(24, i => 0)

  /** Nominal time between two Vicon frames, in milliseconds. */
  const FramePeriodMs: nat := 10
  /** Time constant of the exponential velocity smoothing, in milliseconds. */
  const SmoothingMs: nat := 30

  /** One call of `calculateVelocities`, taking (new sample, old sample,
      previous smoothed velocity, elapsed time in ms, smoothing time constant
      in ms) to the new smoothed velocity. Its floating-point arithmetic
      (`exp`, the blend and, for angles, `circularDistance`) is not modelled:
      the model only fixes which values it is given. */
  type VelocityFilter = (Vector3, Vector3, Vector3, nat, nat) -> Vector3

  /** `frameNumber - getFrameNumber()` on `uint32_t`: the number of frames
      from `previous` forward to `frameNumber`, counted modulo 2^32. */
  function DeltaFrames(frameNumber: u32, previous: u32): (d: u32)
    ensures (previous + d) % TwoTo32 == frameNumber
  {
    (frameNumber - previous) % TwoTo32
  }

  /** A frame number that is k frames later than `previous`, even when the
      counter wrapped past 2^32 on the way, gives the delta k. */
  lemma DeltaFramesOfLater(previous: u32, k: u32)
    ensures DeltaFrames((previous + k) % TwoTo32, previous) == k
  {
    var later := (previous + k) % TwoTo32;
    if previous + k < TwoTo32 {
      assert later == previous + k;
    } else {
      assert later == previous + k - TwoTo32;
      assert later - previous == k - TwoTo32;
    }
  }

  /** The delta is unique: it is the only count of frames in [0, 2^32)
      that leads from `previous` to `frameNumber`. */
  lemma DeltaFramesUnique(frameNumber: u32, previous: u32, k: u32)
    requires (previous + k) % TwoTo32 == frameNumber
    ensures DeltaFrames(frameNumber, previous) == k
  {
    DeltaFramesOfLater(previous, k);
  }

  /** `frameS * deltaFrames`: the elapsed time is inferred from the frame
      count, a whole number of 10 ms frame periods, not from the wall clock. */
  function ElapsedMs(deltaFrames: u32): (ms: nat)
    ensures ms % FramePeriodMs == 0 && ms / FramePeriodMs == deltaFrames
  {
    FramePeriodMs * deltaFrames
  }

  /** `ObjectData`: the latest state received for one tracked object. */
  class ObjectData {
    var name: Name
    var frameNumber: u32
    var pose: Pose3
    /** Clock reading at which `m_ReceivedTimer` was last started. */
    var receivedAt: int

    /** vicon/udp.h is not part of this model; a fresh record is taken to
        start zeroed, with its timer started at `now`. */
    constructor (now: int)
      ensures name == seq(24, i => 0) && frameNumber == 0 && receivedAt == now
      ensures pose == Pose3(MakePosition3(0.0, 0.0, 0.0), [0.0, 0.0, 0.0])
    {
      name := seq(24, i => 0);
      frameNumber := 0;
      pose := Pose3(MakePosition3(0.0, 0.0, 0.0), [0.0, 0.0, 0.0]);
      receivedAt := now;
    }

    /** `ObjectData::update`: copy the name, restart the receipt timer,
        store the frame number and the pose. */
    method Update(newName: Name, newFrameNumber: u32, newPose: Pose3, now: int)
      modifies this
      ensures name == newName && frameNumber == newFrameNumber && pose == newPose
      ensures receivedAt == now
      ensures GetName() == newName && GetFrameNumber() == newFrameNumber
      ensures TimeSinceReceived(now) == 0
    {
      name := newName;
      receivedAt := now;
      frameNumber := newFrameNumber;
      pose := newPose;
    }

    function GetFrameNumber(): (n: u32)
      reads this
      ensures n == frameNumber
    {
      frameNumber
    }

    function GetName(): (n: Name)
      reads this
      ensures n == name
    {
      name
    }

    function GetPosition(): (p: Vector3)
      reads this
      ensures p == pose.position.elems && |p| == 3
      ensures p[0] == pose.X() && p[1] == pose.Y() && p[2] == pose.Z()
    {
      pose.position.elems
    }

    function GetAttitude(): (a: Vector3)
      reads this
      ensures a == pose.attitude && |a| == 3
      ensures a[0] == pose.Yaw() && a[1] == pose.Pitch() && a[2] == pose.Roll()
    {
      pose.attitude
    }

    /** `timeSinceReceived`: time on the clock since the last update. */
    function TimeSinceReceived(now: int): (elapsed: int)
      reads this
      ensures receivedAt + elapsed == now
      ensures receivedAt <= now ==> elapsed >= 0
    {
      now - receivedAt
    }
  }

  /** `ObjectDataVelocity`: an `ObjectData` that also keeps smoothed
      velocities. The C++ subclass is modelled by composition: `base` is the
      `ObjectData` part of the object. */
  class ObjectDataVelocity {
    const base: ObjectData
    var velocity: Vector3
    var angularVelocity: Vector3

    constructor (now: int)
      ensures fresh(base) && base.name == seq(24, i => 0)
      ensures base.frameNumber == 0 && base.receivedAt == now
      ensures base.pose == Pose3(MakePosition3(0.0, 0.0, 0.0), [0.0, 0.0, 0.0])
      ensures velocity == [0.0, 0.0, 0.0] && angularVelocity == [0.0, 0.0, 0.0]
    {
      base := new ObjectData(now);
      velocity := [0.0, 0.0, 0.0];
      angularVelocity := [0.0, 0.0, 0.0];
    }

    /** `ObjectDataVelocity::update`: feed the old and the new pose, the
        previous velocities and the frame-count elapsed time to the smoothing
        filter, and only then overwrite the record with the new packet.
        There is no special case for a delta of zero frames. */
    method Update(newName: Name, newFrameNumber: u32, newPose: Pose3, now: int,
                  linear: VelocityFilter, angular: VelocityFilter)
      modifies this, base
      ensures base.name == newName && base.frameNumber == newFrameNumber
      ensures base.pose == newPose && base.receivedAt == now
      ensures velocity == linear(newPose.position.elems, old(base.pose.position.elems), old(velocity),
                                 ElapsedMs(DeltaFrames(newFrameNumber, old(base.frameNumber))), SmoothingMs)
      ensures angularVelocity == angular(newPose.attitude, old(base.pose.attitude), old(angularVelocity),
                                         ElapsedMs(DeltaFrames(newFrameNumber, old(base.frameNumber))), SmoothingMs)
    {
      // Frames since the previous packet, with unsigned wrap-around
      var deltaFrames := DeltaFrames(newFrameNumber, base.GetFrameNumber());
      var deltaMs := FramePeriodMs * deltaFrames;

      // The OLD pose must be read before the base update overwrites it
      var oldPosition := base.GetPosition();
      velocity := linear(newPose.position.elems, oldPosition, velocity, deltaMs, SmoothingMs);

      var oldAttitude := base.GetAttitude();
      angularVelocity := angular(newPose.attitude, oldAttitude, angularVelocity, deltaMs, SmoothingMs);

      base.Update(newName, newFrameNumber, newPose, now);
    }

    function GetVelocity(): (v: Vector3)
      reads this
      ensures v == velocity
    {
      velocity
    }

    function GetAngularVelocity(): (v: Vector3)
      reads this
      ensures v == angularVelocity
    {
      angularVelocity
    }
  }
}
