/** The consultant record both simulation drafts share: a busy flag and the call and
    break counters, together with the roster lookup a department performs before
    serving a client. Service and break durations are given, never drawn. */
module Consultants {
  import opened Common

  datatype Consultant = Consultant(
    id: nat,                 // the n of "Consultant n"
    department: string,
    busy: bool,
    handledCalls: nat,
    breakDuration: real,
    timeOnBreaks: real,
    timeOnCalls: real,
    timeOnPreviousCall: real)

  /** An idle consultant with every counter at zero. */
  predicate Fresh(c: Consultant)
  {
    && !c.busy && c.handledCalls == 0
    && c.breakDuration == 0.0 && c.timeOnBreaks == 0.0
    && c.timeOnCalls == 0.0 && c.timeOnPreviousCall == 0.0
  }

  /** `_create_consultants(n)`: consultants numbered 1..n, all idle, owned by `department`. */
  function CreateConsultants(department: string, n: nat): (roster: seq<Consultant>)
    ensures |roster| == n
    ensures forall i :: 0 <= i < n ==>
      roster[i].id == i + 1 && roster[i].department == department && Fresh(roster[i])
  {
    if n == 0 then []
    else CreateConsultants(department, n - 1) + [Consultant(n, department, false, 0, 0.0, 0.0, 0.0, 0.0)]
  }

  /** One scan of `_get_available_consultant`: the index of the first consultant in roster
      order that is not busy, or None when all are busy (the source then sleeps and scans
      again). */
  function FirstAvailable(roster: seq<Consultant>): (r: Option<nat>)
    ensures r.Some? ==> r.value < |roster| && !roster[r.value].busy
    ensures r.Some? ==> forall j :: 0 <= j < r.value ==> roster[j].busy
    ensures r.None? <==> forall j :: 0 <= j < |roster| ==> roster[j].busy
  {
    if |roster| == 0 then None
    else if !roster[0].busy then Some(0)
    else match FirstAvailable(roster[1..])
      case None => None
      case Some(k) => Some(k + 1)
  }

  /** `max(time_on_previous_call / 3, 1)`. */
  function BreakLength(previousCall: real): (d: real)
    ensures d >= 1.0 && d >= previousCall / 3.0
    ensures d == 1.0 || d == previousCall / 3.0
  {
    MaxReal(previousCall / 3.0, 1.0)
  }

  /** Start of `_take_break`: the break length is fixed from the previous call. */
  function StartBreak(c: Consultant): (c': Consultant)
    ensures c'.breakDuration == BreakLength(c.timeOnPreviousCall)
    ensures c' == c.(breakDuration := c'.breakDuration)
  {
    c.(breakDuration := BreakLength(c.timeOnPreviousCall))
  }

  /** End of `_take_break`: the current break length is added to the break total. */
  function EndBreak(c: Consultant): (c': Consultant)
    ensures c'.timeOnBreaks == c.timeOnBreaks + c.breakDuration
    ensures c' == c.(timeOnBreaks := c'.timeOnBreaks)
  {
    c.(timeOnBreaks := c.timeOnBreaks + c.breakDuration)
  }

  /** A break taken without another one starting in between adds at least one time unit,
      and exactly max(previous / 3, 1), to the break total. */
  lemma WholeBreak(c: Consultant)
    ensures EndBreak(StartBreak(c)).timeOnBreaks == c.timeOnBreaks + MaxReal(c.timeOnPreviousCall / 3.0, 1.0)
    ensures EndBreak(StartBreak(c)).timeOnBreaks >= c.timeOnBreaks + 1.0
    ensures EndBreak(StartBreak(c)).busy == c.busy && EndBreak(StartBreak(c)).handledCalls == c.handledCalls
  {
  }
}
