/** The judge consumer's decisions on the step machine: a task leaves the system only if its report was accepted. */
module MqDecisions {
  import opened MqConsumer
  import opened MqProtocol
  import opened MqRetries
  import MqGuarantees
  import Policy = RetryPolicy

  /** What was reported about a delivery: the decision, the count it was received with and the delay asked for. */
  datatype Report = Report(decision: Policy.ReportDecision, received: nat, delayMs: nat)

  /** The command a report is answered with. */
  predicate Answers(rule: Rule, report: Report, command: Command) {
    match rule
    case ByTable =>
      (match Policy.ResolveDeliveryAction(report.decision, report.received)
       case Ack => command.AckCommand?
       case Retry => command.ForwardCommand? && command.kind == ToRetry && command.count == Policy.NextCount(report.received)
       case DeadLetter => command.ForwardCommand? && command.kind == ToDeadLetter && command.count == report.received)
    case ByConsumer =>
      (match Policy.FinishDelivery(report.decision, report.received, report.delayMs)
       case CallAck => command.AckCommand?
       case CallRetry(delay, count) =>
         command.ForwardCommand? && command.kind == ToRetry && command.count == count && command.retryAfterMs == delay
       case CallDeadLetter(count) => command.ForwardCommand? && command.kind == ToDeadLetter && command.count == count)
  }

  /** A run in which each delivery is settled as its report says; reports[i] belongs to steps[i]. */
  ghost predicate DecidedRun(rule: Rule, s: System, steps: seq<Step>, reports: seq<Report>)
    decreases |steps|
  {
    |reports| == |steps| &&
    (steps == [] ||
     (&& Enabled(s, steps[0])
      && (steps[0].Resolve? ==> Answers(rule, reports[0], steps[0].command))
      && DecidedRun(rule, Apply(s, steps[0]), steps[1..], reports[1..])))
  }

  /** The messages of which a report was accepted. */
  ghost function Accepted(s: System, steps: seq<Step>, reports: seq<Report>): set<nat>
    requires |reports| == |steps| && IsRun(s, steps)
    decreases |steps|
  {
    if steps == [] then {}
    else
      (if steps[0].Resolve? && reports[0].decision == Policy.ReportAck then {OriginOf(s, steps[0].command.delivery)} else {}) +
      Accepted(Apply(s, steps[0]), steps[1..], reports[1..])
  }

  lemma {:induction false} DecidedIsRun(rule: Rule, s: System, steps: seq<Step>, reports: seq<Report>)
    requires DecidedRun(rule, s, steps, reports)
    ensures IsRun(s, steps)
    decreases |steps|
  {
    if steps != [] {
      DecidedIsRun(rule, Apply(s, steps[0]), steps[1..], reports[1..]);
    }
  }

  lemma AckIsAcceptance(rule: Rule, report: Report, command: Command)
    requires Answers(rule, report, command)
    ensures command.AckCommand? <==> report.decision == Policy.ReportAck
  {
    Policy.TableAnswers(report.decision, report.received);
    Policy.ConsumerAnswers(report.decision, report.received, report.delayMs);
  }

  lemma AckedIn(s: System, step: Step)
    requires Enabled(s, step)
    ensures Apply(s, step).acked ==
            if step.Resolve? && step.command.AckCommand? then s.acked + {OriginOf(s, step.command.delivery)} else s.acked
  {
  }

  lemma {:induction false} AckedFrom(rule: Rule, s: System, steps: seq<Step>, reports: seq<Report>)
    requires DecidedRun(rule, s, steps, reports) && IsRun(s, steps)
    ensures After(s, steps).acked == s.acked + Accepted(s, steps, reports)
    decreases |steps|
  {
    if steps != [] {
      AckedFrom(rule, Apply(s, steps[0]), steps[1..], reports[1..]);
      AckedIn(s, steps[0]);
      if steps[0].Resolve? {
        AckIsAcceptance(rule, reports[0], steps[0].command);
      }
    }
  }

  /** In every run, by the table or as the judge consumer has it, the messages acknowledged are exactly those of which a
      report was accepted. So a message without one, however often its reports failed or were rejected, still has a
      confirmed copy with its body in one of the queues or unacknowledged on an open channel. */
  lemma UnreportedIsKept(rule: Rule, steps: seq<Step>, reports: seq<Report>, origin: nat)
    requires DecidedRun(rule, START, steps, reports)
    ensures IsRun(START, steps) && After(START, steps).acked == Accepted(START, steps, reports)
    ensures var s := After(START, steps);
            origin < |s.copies| && s.copies[origin].origin == origin && origin !in Accepted(START, steps, reports) ==>
              exists c :: 0 <= c < |s.copies| && s.copies[c].origin == origin && s.copies[c].confirmed &&
                          s.copies[c].body == s.copies[origin].body && MqGuarantees.Held(s.copies[c].place)
  {
    DecidedIsRun(rule, START, steps, reports);
    AckedFrom(rule, START, steps, reports);
    var s := After(START, steps);
    if origin < |s.copies| && s.copies[origin].origin == origin && origin !in Accepted(START, steps, reports) {
      MqGuarantees.NoMessageIsLost(steps, origin);
    }
  }
}
