/** State targets, indicator readings and the daily observations that recognition emits. */
module States {
  import opened Common

  /** One `(state_code, parameter_key)` pair, numbered in its lexicographic order. */
  type Target = nat

  datatype Status = Active | Inactive | Unknown

  /** A value of an indicator result: one moving average by period, or a named value. */
  datatype Field = MaOf(period: int) | Named(name: string)

  type Values = map<Field, real>

  /** One indicator variant as the state engine reads it. */
  datatype Reading = Reading(values: Values, previousValues: Option<Values>)

  datatype Reason =
    | CalendarUnavailable
    | MissingPreviousDay
    | MissingCurrentIndicator
    | Refused(code: string)

  /** The metadata of an observation that is not fixed by its target. */
  datatype Detail =
    | Evaluated(current: Reading, previous: Reading, price: Option<real>, previousPrice: Option<real>)
    | Unproven(reason: Reason, reading: Option<Reading>, expectedPrevious: Option<Date>)

  datatype Observation = Observation(
    day: Date, target: Target, status: Status, transition: bool, detail: Detail)
}
