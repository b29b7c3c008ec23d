/** An optional per-object tolerance and angle mode, shared by pointer. */
module MathSetting {
  import opened Optional

  /**
   * The value a MathSetting holds: an equality tolerance and an angle mode
   * (true for degrees). The process-wide statics have the same shape.
   */
  datatype Setting = Setting(epsilon: real, isDegrees: bool)

  class MathSetting {
    var epsilon: real
    var isDegrees: bool

    /** The default constructor initialises neither field: both are unspecified until set. */
    constructor Unset()
    {
    }

    constructor (epsilon: real, isDegrees: bool)
      ensures Value() == Setting(epsilon, isDegrees)
    {
      this.epsilon := epsilon;
      this.isDegrees := isDegrees;
    }

    function Value(): Setting
      reads this
    {
      Setting(epsilon, isDegrees)
    }

    function GetEpsilon(): real
      reads this
    {
      epsilon
    }

    function GetAngleMode(): bool
      reads this
    {
      isDegrees
    }

    method SetEpsilon(epsilon: real)
      modifies this
      ensures GetEpsilon() == epsilon
      ensures GetAngleMode() == old(GetAngleMode())
    {
      this.epsilon := epsilon;
    }

    method SetAngleMode(isDegrees: bool)
      modifies this
      ensures GetAngleMode() == isDegrees
      ensures GetEpsilon() == old(GetEpsilon())
    {
      this.isDegrees := isDegrees;
    }
  }

  /** The current value behind a possibly-null setting pointer. */
  function Snapshot(s: MathSetting?): Option<Setting>
    reads s
  {
    if s == null then None else Some(s.Value())
  }
}
