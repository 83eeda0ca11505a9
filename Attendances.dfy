/**
 * Daily attendance records (app/Models/Attendance.php): the worked hours derived
 * from the clock-in and clock-out instants, and the late and overtime flags.
 */
module Attendances {
  import opened Results
  import opened Calendar

  /** Working hours start at 08:00:00. */
  const WorkStartHour: nat := 8
  /** A day of more than eight worked hours is overtime. */
  const RegularHours: real := 8.0

  /** Whole minutes between two instants, regardless of their order (Carbon 2's `diffInMinutes`). */
  function ElapsedMinutes(from: Timestamp, to: Timestamp): (m: nat)
    ensures 60 * m <= to - from < 60 * m + 60 || 60 * m <= from - to < 60 * m + 60
  {
    (if to >= from then to - from else from - to) / 60
  }

  /**
   * `round($minutes / 60, 2)` counted in hundredths of an hour: the hundredth
   * nearest to the exact number of hours (a tie cannot occur).
   */
  function WorkHundredths(minutes: nat): (h: nat)
    ensures 60 * h - 30 < 100 * minutes < 60 * h + 30
  {
    var h := (10 * minutes + 3) / 6;
    var r := (10 * minutes + 3) % 6;
    assert 10 * minutes + 3 == 6 * h + r && 0 <= r < 6;
    assert r != 0 by {
      assert 2 * (5 * minutes - 3 * h) + 3 == r;
    }
    h
  }

  /** The rounded hours as stored in the two-decimal `work_hours` column. */
  function WorkHours(minutes: nat): real {
    WorkHundredths(minutes) as real / 100.0
  }

  /** Rounding keeps the comparison with eight hours exact: 480 minutes is not overtime, 481 is. */
  lemma OvertimeIffOverEightHours(minutes: nat)
    ensures WorkHours(minutes) > RegularHours <==> minutes > 480
  {
    var h := WorkHundredths(minutes);
    assert WorkHours(minutes) > RegularHours <==> h > 800;
  }

  class Attendance {
    var clockIn: Option<Timestamp>
    var clockOut: Option<Timestamp>
    var workHours: real

    constructor (clockIn: Option<Timestamp>, clockOut: Option<Timestamp>, workHours: real)
      ensures this.clockIn == clockIn && this.clockOut == clockOut && this.workHours == workHours
    {
      this.clockIn := clockIn;
      this.clockOut := clockOut;
      this.workHours := workHours;
    }

    /** `calculateWorkHours`: only a record with both instants gets its hours (re)computed. */
    method CalculateWorkHours()
      modifies this`workHours
      ensures clockIn.Some? && clockOut.Some? ==>
        workHours == WorkHours(ElapsedMinutes(clockIn.value, clockOut.value))
      ensures clockIn.Some? && clockOut.Some? ==>
        (IsOvertime() <==> ElapsedMinutes(clockIn.value, clockOut.value) > 480)
      ensures clockIn.None? || clockOut.None? ==> workHours == old(workHours)
    {
      if clockIn.Some? && clockOut.Some? {
        var diff := ElapsedMinutes(clockIn.value, clockOut.value);
        workHours := WorkHours(diff);
        OvertimeIffOverEightHours(diff);
      }
    }

    /** `is_late`: clocked in strictly after 08:00:00 of the same day; no clock-in is never late. */
    predicate IsLate()
      reads this
      ensures IsLate() <==> clockIn.Some? && clockIn.value % SecondsPerDay > WorkStartHour * 3600
    {
      clockIn.Some? && clockIn.value > AtTime(clockIn.value, WorkStartHour, 0, 0)
    }

    /**
     * `is_overtime`: more than eight recorded hours. Hours that `calculateWorkHours`
     * derived from the two instants make this exactly more than 480 minutes worked.
     */
    predicate IsOvertime()
      reads this
      ensures clockIn.Some? && clockOut.Some? && workHours == WorkHours(ElapsedMinutes(clockIn.value, clockOut.value)) ==>
        (IsOvertime() <==> ElapsedMinutes(clockIn.value, clockOut.value) > 480)
    {
      if clockIn.Some? && clockOut.Some? then
        OvertimeIffOverEightHours(ElapsedMinutes(clockIn.value, clockOut.value));
        workHours > RegularHours
      else
        workHours > RegularHours
    }
  }
}
