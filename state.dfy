/** The driver's in-memory state (include/andi.h): a board with two LM629
    channels, each pointing at a current and a pending filter and
    trajectory record. The records are objects, so two pointers may share
    one. */
module Device {
  import opened Encoding

  /** struct LM629_Filter */
  class Filter {
    var dterm: int
    var kp: int
    var ki: int
    var kd: int
    var il: int

    constructor (p: FilterParams)
      ensures Value() == p
    {
      dterm, kp, ki, kd, il := p.dterm, p.kp, p.ki, p.kd, p.il;
    }

    /** The record's current contents. */
    function Value(): FilterParams
      reads this
    {
      FilterParams(dterm, kp, ki, kd, il)
    }
  }

  /** struct LM629_Trajectory; a BOOLEAN field holds true when non-zero. */
  class Trajectory {
    var forwardDir: bool
    var velocityMode: bool
    var stopSmooth: bool
    var stopAbrupt: bool
    var motorOff: bool
    var loadAcc: bool
    var loadVel: bool
    var loadPos: bool
    var accRelative: bool
    var velRelative: bool
    var posRelative: bool
    var acc: int
    var velocity: int
    var position: int

    constructor (p: TrajectoryParams)
      ensures Value() == p
    {
      forwardDir, velocityMode, stopSmooth, stopAbrupt, motorOff := p.forwardDir, p.velocityMode, p.stopSmooth, p.stopAbrupt, p.motorOff;
      loadAcc, loadVel, loadPos := p.loadAcc, p.loadVel, p.loadPos;
      accRelative, velRelative, posRelative := p.accRelative, p.velRelative, p.posRelative;
      acc, velocity, position := p.acc, p.velocity, p.position;
    }

    /** The record's current contents. */
    function Value(): TrajectoryParams
      reads this
    {
      TrajectoryParams(forwardDir, velocityMode, stopSmooth, stopAbrupt, motorOff,
                       loadAcc, loadVel, loadPos, accRelative, velRelative, posRelative,
                       acc, velocity, position)
    }
  }

  /** struct LM629: one motion-control channel. */
  class Channel {
    var filter: Filter
    var newFilter: Filter
    var trajectory: Trajectory
    var newTrajectory: Trajectory
    var filterUpdated: bool
    var trajectoryStarted: bool
    var trajectoryComplete: bool
    var pwmBrake: bool
    var positionError: int

    /** A channel whose current and pending records are separate objects,
        with every flag clear. */
    constructor (f: FilterParams, t: TrajectoryParams)
      ensures filter.Value() == f && newFilter.Value() == f && filter != newFilter
      ensures trajectory.Value() == t && newTrajectory.Value() == t && trajectory != newTrajectory
      ensures fresh(filter) && fresh(newFilter) && fresh(trajectory) && fresh(newTrajectory)
      ensures !filterUpdated && !trajectoryStarted && !trajectoryComplete && !pwmBrake
      ensures positionError == 0
    {
      filter := new Filter(f);
      newFilter := new Filter(f);
      trajectory := new Trajectory(t);
      newTrajectory := new Trajectory(t);
      filterUpdated, trajectoryStarted, trajectoryComplete, pwmBrake := false, false, false, false;
      positionError := 0;
    }
  }

  /** struct andi_servo */
  class Board {
    var channel0: Channel
    var channel1: Channel
    var faultLed: bool
    var baseAddress: int

    constructor (base: int, c0: Channel, c1: Channel)
      ensures channel0 == c0 && channel1 == c1 && baseAddress == base && !faultLed
    {
      channel0, channel1, baseAddress, faultLed := c0, c1, base, false;
    }

    /** `if (channel) board->Channel1 else board->Channel0` */
    function ChannelAt(channel: int): Channel
      reads this
    {
      if channel != 0 then channel1 else channel0
    }
  }
}
