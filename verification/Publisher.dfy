/** The producer's routing verdict: a publication confirmed by the broker is reported as routed unless its
    message id is in the set of ids the broker has handed back. */
module Publisher {
  import opened Basics
  import Decimal

  const UINT64: nat := 0x1_0000_0000_0000_0000

  /** Confirmed: the broker acknowledged and the callback was told ok. Refused: nacked, or failed with the
      channel. */
  datatype Phase = Outstanding | Confirmed(ok: bool) | Refused

  /** returned says whether the broker handed this publication back as unroutable. */
  datatype Publication = Publication(id: string, phase: Phase, returned: bool)

  datatype Producer = Producer(connected: bool, returned: set<string>, log: seq<Publication>)

  /** Return and Confirm are the arrivals at the client; on a channel the broker sends the return of a message
      before its confirm. */
  datatype Step =
    | Publish(id: string)
    | Return(p: nat)
    | Confirm(p: nat)
    | Nack(p: nat)
    | ChannelError
    | Ready

  const START := Producer(false, {}, [])

  predicate Waiting(s: Producer, p: nat) { p < |s.log| && s.log[p].phase.Outstanding? }

  predicate Enabled(s: Producer, step: Step) {
    match step
    case Publish(id) => id != "" && s.connected
    case Return(p) => Waiting(s, p) && !s.log[p].returned
    case Confirm(p) => Waiting(s, p)
    case Nack(p) => Waiting(s, p)
    case ChannelError => true
    case Ready => true
  }

  function Failed(log: seq<Publication>): seq<Publication> {
    seq(|log|, i requires 0 <= i < |log| => if log[i].phase.Outstanding? then log[i].(phase := Refused) else log[i])
  }

  function Apply(s: Producer, step: Step): Producer {
    match step
    case Publish(id) => s.(log := s.log + [Publication(id, Outstanding, false)])
    case Return(p) =>
      if p >= |s.log| then s
      else s.(returned := s.returned + {s.log[p].id}, log := s.log[p := s.log[p].(returned := true)])
    case Confirm(p) =>
      if p >= |s.log| then s
      else
        var id := s.log[p].id;
        s.(returned := s.returned - {id}, log := s.log[p := s.log[p].(phase := Confirmed(id !in s.returned))])
    case Nack(p) => if p >= |s.log| then s else s.(log := s.log[p := s.log[p].(phase := Refused)])
    case ChannelError => s.(connected := false, log := Failed(s.log))
    case Ready => s.(connected := true)
  }

  predicate IsRun(s: Producer, steps: seq<Step>)
    decreases |steps|
  {
    steps == [] || (Enabled(s, steps[0]) && IsRun(Apply(s, steps[0]), steps[1..]))
  }

  function After(s: Producer, steps: seq<Step>): Producer
    decreases |steps|
  {
    if steps == [] then s else After(Apply(s, steps[0]), steps[1..])
  }

  /** The producer's fields and what its event thread does to them. The log records the publications. */
  class Client {
    var connected: bool
    var returned: set<string>
    ghost var log: seq<Publication>

    ghost function View(): Producer
      reads this
    {
      Producer(connected, returned, log)
    }

    constructor ()
      ensures View() == START
    {
      connected, returned, log := false, {}, [];
    }

    /** What a caller is told at once: an empty id or a lost connection refuses the publication. */
    method Accepts(id: string) returns (accepted: bool)
      ensures accepted <==> Enabled(View(), Publish(id))
    {
      accepted := id != "" && connected;
    }

    /** The posted command, by which time the connection may be lost. */
    method Send(id: string) returns (told: Option<(bool, string)>)
      requires id != ""
      modifies this
      ensures connected == old(connected)
      ensures told == if connected then None else Some((false, "NOT_CONNECTED"))
      ensures View() == if connected then Apply(old(View()), Publish(id)) else old(View())
    {
      if !connected {
        return Some((false, "NOT_CONNECTED"));
      }
      log := log + [Publication(id, Outstanding, false)];
      return None;
    }

    method OnReturned(ghost p: nat, id: string)
      requires Enabled(View(), Return(p)) && log[p].id == id
      modifies this
      ensures View() == Apply(old(View()), Return(p))
    {
      returned := returned + {id};
      log := log[p := log[p].(returned := true)];
    }

    /** The verdict told to the caller is the one the step machine records. */
    method OnAck(ghost p: nat, id: string) returns (ok: bool, reason: string)
      requires Enabled(View(), Confirm(p)) && log[p].id == id
      modifies this
      ensures View() == Apply(old(View()), Confirm(p)) && log[p].phase == Confirmed(ok)
      ensures reason == if ok then "" else "UNROUTABLE"
    {
      var erased := id in returned;
      returned := returned - {id};
      ok, reason := !erased, if erased then "UNROUTABLE" else "";
      log := log[p := log[p].(phase := Confirmed(!erased))];
    }

    method OnNack(ghost p: nat) returns (ok: bool, reason: string)
      requires Enabled(View(), Nack(p))
      modifies this
      ensures View() == Apply(old(View()), Nack(p)) && !ok && reason == "NACK"
    {
      log := log[p := log[p].(phase := Refused)];
      ok, reason := false, "NACK";
    }

    method OnChannelError()
      modifies this
      ensures View() == Apply(old(View()), ChannelError)
    {
      connected := false;
      log := Failed(log);
    }

    method OnReady()
      modifies this
      ensures View() == Apply(old(View()), Ready)
    {
      connected := true;
    }
  }

  // ----- when the verdict is right -----

  /** A confirmed publication was reported as routed exactly when the broker did not hand it back. */
  predicate JudgedRight(s: Producer, p: nat) {
    p < |s.log| && (s.log[p].phase.Confirmed? ==> s.log[p].phase.ok == !s.log[p].returned)
  }

  /** The id neither belongs to a publication still waiting nor was left behind by an earlier one. */
  predicate Fresh(s: Producer, id: string) {
    id !in s.returned && forall q :: 0 <= q < |s.log| && s.log[q].id == id ==> !s.log[q].phase.Outstanding?
  }

  predicate NeverPublishes(steps: seq<Step>, id: string) {
    forall i :: 0 <= i < |steps| ==> steps[i] != Publish(id)
  }

  /** Publication p is the only one waiting under its id, and the set knows what became of it. */
  predicate Tracked(s: Producer, p: nat) {
    && JudgedRight(s, p)
    && (forall q :: 0 <= q < |s.log| && q != p && s.log[q].id == s.log[p].id ==> !s.log[q].phase.Outstanding?)
    && (s.log[p].phase.Outstanding? ==> (s.log[p].id in s.returned <==> s.log[p].returned))
  }

  lemma TrackedStep(s: Producer, step: Step, p: nat)
    requires Tracked(s, p) && Enabled(s, step) && step != Publish(s.log[p].id)
    ensures Tracked(Apply(s, step), p) && Apply(s, step).log[p].id == s.log[p].id
  {
  }

  lemma {:induction false} TrackedRun(s: Producer, steps: seq<Step>, p: nat)
    requires Tracked(s, p) && IsRun(s, steps) && NeverPublishes(steps, s.log[p].id)
    ensures Tracked(After(s, steps), p)
    decreases |steps|
  {
    if steps != [] {
      assert steps[0] != Publish(s.log[p].id);
      TrackedStep(s, steps[0], p);
      assert forall i :: 0 <= i < |steps[1..]| ==> steps[1..][i] == steps[i + 1];
      TrackedRun(Apply(s, steps[0]), steps[1..], p);
    }
  }

  /** What can go wrong with an id that is not fresh: a leftover condemns a routed publication, and an
      earlier publication under the same id takes away the mark of a returned one. */
  lemma StaleIdIsMisjudged(s: Producer, id: string) returns (steps: seq<Step>)
    requires Enabled(s, Publish(id)) && !Fresh(s, id)
    ensures IsRun(Apply(s, Publish(id)), steps) && NeverPublishes(steps, id)
    ensures !JudgedRight(After(Apply(s, Publish(id)), steps), |s.log|)
  {
    var n, t := |s.log|, Apply(s, Publish(id));
    if id in s.returned {
      steps := [Confirm(n)];
      assert IsRun(Apply(t, steps[0]), steps[1..]);
      assert After(t, steps) == Apply(t, Confirm(n));
    } else {
      var q :| 0 <= q < |s.log| && s.log[q].id == id && s.log[q].phase.Outstanding?;
      steps := [Return(n), Confirm(q), Confirm(n)];
      var t1 := Apply(t, Return(n));
      var t2 := Apply(t1, Confirm(q));
      var t3 := Apply(t2, Confirm(n));
      assert steps[1..] == [Confirm(q), Confirm(n)] && steps[1..][1..] == [Confirm(n)] && steps[1..][1..][1..] == [];
      assert IsRun(t3, []) && IsRun(t2, [Confirm(n)]) && IsRun(t1, [Confirm(q), Confirm(n)]);
      assert After(t1, [Confirm(q), Confirm(n)]) == After(t2, [Confirm(n)]) == After(t3, []);
    }
  }

  /** An id does get stale: its publication was handed back and then failed with the channel. */
  lemma StaleIdIsReachable(id: string)
    requires id != ""
    ensures var steps := [Ready, Publish(id), Return(0), ChannelError, Ready];
            IsRun(START, steps) && Enabled(After(START, steps), Publish(id)) && !Fresh(After(START, steps), id)
  {
    var s1 := Apply(START, Ready);
    var s2 := Apply(s1, Publish(id));
    var s3 := Apply(s2, Return(0));
    var s4 := Apply(s3, ChannelError);
    var s5 := Apply(s4, Ready);
    assert s5.returned == {id} && s5.connected;
    var t4, t3, t2, t1 := [Ready], [ChannelError, Ready], [Return(0), ChannelError, Ready],
                          [Publish(id), Return(0), ChannelError, Ready];
    assert t4[1..] == [] && t3[1..] == t4 && t2[1..] == t3 && t1[1..] == t2 && ([Ready] + t1)[1..] == t1;
    assert IsRun(s4, t4) && After(s4, t4) == s5;
    assert IsRun(s3, t3) && After(s3, t3) == s5;
    assert IsRun(s2, t2) && After(s2, t2) == s5;
    assert IsRun(s1, t1) && After(s1, t1) == s5;
    assert [Ready] + t1 == [Ready, Publish(id), Return(0), ChannelError, Ready];
  }

  lemma FreshIsTracked(s: Producer, id: string)
    requires Fresh(s, id)
    ensures Tracked(Apply(s, Publish(id)), |s.log|)
  {
  }

  /** A publication is judged rightly whatever happens next, as long as its id is not used again, exactly
      when the id is fresh at the call. */
  lemma VerdictIsRightIff(s: Producer, id: string)
    requires Enabled(s, Publish(id))
    ensures Fresh(s, id) <==>
            forall steps :: IsRun(Apply(s, Publish(id)), steps) && NeverPublishes(steps, id) ==>
              JudgedRight(After(Apply(s, Publish(id)), steps), |s.log|)
  {
    var t := Apply(s, Publish(id));
    if Fresh(s, id) {
      FreshIsTracked(s, id);
      forall steps | IsRun(t, steps) && NeverPublishes(steps, id)
        ensures JudgedRight(After(t, steps), |s.log|)
      {
        TrackedRun(t, steps, |s.log|);
      }
    } else {
      var steps := StaleIdIsMisjudged(s, id);
    }
  }

  // ----- distinct ids suffice -----

  predicate Unused(s: Producer, id: string) { forall q :: 0 <= q < |s.log| ==> s.log[q].id != id }

  predicate Clean(s: Producer) {
    && (forall p, q :: 0 <= p < q < |s.log| ==> s.log[p].id != s.log[q].id)
    && (forall id <- s.returned :: !Unused(s, id))
    && (forall p :: 0 <= p < |s.log| ==> Tracked(s, p))
  }

  /** Every publication of the run uses an id that no earlier one used. */
  predicate DistinctIds(s: Producer, steps: seq<Step>)
    decreases |steps|
  {
    steps == [] ||
    ((steps[0].Publish? ==> Unused(s, steps[0].id)) && DistinctIds(Apply(s, steps[0]), steps[1..]))
  }

  lemma SameIds(s: Producer, step: Step)
    requires Enabled(s, step) && !step.Publish?
    ensures |Apply(s, step).log| == |s.log|
    ensures forall q :: 0 <= q < |s.log| ==> Apply(s, step).log[q].id == s.log[q].id
  {
  }

  lemma LeftoversHaveOwners(s: Producer, step: Step)
    requires Clean(s) && Enabled(s, step)
    ensures forall id <- Apply(s, step).returned :: !Unused(Apply(s, step), id)
  {
    var t := Apply(s, step);
    forall id | id in t.returned
      ensures !Unused(t, id)
    {
      if id in s.returned {
        var q :| 0 <= q < |s.log| && s.log[q].id == id;
        assert t.log[q].id == id;
      } else {
        assert t.log[step.p].id == id;
      }
    }
  }

  lemma CleanStep(s: Producer, step: Step)
    requires Clean(s) && Enabled(s, step) && (step.Publish? ==> Unused(s, step.id))
    ensures Clean(Apply(s, step))
  {
    var t := Apply(s, step);
    LeftoversHaveOwners(s, step);
    if !step.Publish? {
      SameIds(s, step);
    }
    forall p | 0 <= p < |t.log|
      ensures Tracked(t, p)
    {
      if p < |s.log| {
        TrackedStep(s, step, p);
      } else {
        FreshIsTracked(s, step.id);
      }
    }
  }

  lemma {:induction false} CleanRun(s: Producer, steps: seq<Step>)
    requires Clean(s) && IsRun(s, steps) && DistinctIds(s, steps)
    ensures Clean(After(s, steps))
    decreases |steps|
  {
    if steps != [] {
      CleanStep(s, steps[0]);
      CleanRun(Apply(s, steps[0]), steps[1..]);
    }
  }

  /** In a run that never uses an id twice every verdict is right, over any number of returns, nacks, channel
      errors and reconnects, although the set of returned ids is never cleared. */
  lemma DistinctIdsAreJudgedRight(steps: seq<Step>, p: nat)
    requires IsRun(START, steps) && DistinctIds(START, steps) && p < |After(START, steps).log|
    ensures JudgedRight(After(START, steps), p)
  {
    CleanRun(START, steps);
    assert Tracked(After(START, steps), p);
  }

  /** The ids of a run's publications, in order. */
  function PublishedIds(steps: seq<Step>): seq<string> {
    if steps == [] then []
    else (if steps[0].Publish? then [steps[0].id] else []) + PublishedIds(steps[1..])
  }

  ghost predicate NoRepeats(ids: seq<string>) {
    forall i, j :: 0 <= i < j < |ids| ==> ids[i] != ids[j]
  }

  lemma {:induction false} NoRepeatsAreDistinct(s: Producer, steps: seq<Step>)
    requires IsRun(s, steps) && NoRepeats(PublishedIds(steps)) && forall id <- PublishedIds(steps) :: Unused(s, id)
    ensures DistinctIds(s, steps)
    decreases |steps|
  {
    if steps != [] {
      var next, rest := Apply(s, steps[0]), PublishedIds(steps[1..]);
      var k := if steps[0].Publish? then 1 else 0;
      assert rest == PublishedIds(steps)[k..];
      if steps[0].Publish? {
        assert PublishedIds(steps)[0] == steps[0].id;
      } else {
        SameIds(s, steps[0]);
      }
      forall id | id in rest
        ensures Unused(next, id)
      {
        var i :| 0 <= i < |rest| && rest[i] == id;
        assert PublishedIds(steps)[i + k] == id;
        assert Unused(s, id);
      }
      NoRepeatsAreDistinct(next, steps[1..]);
    }
  }

  /** The id Publish makes on a call, from a 64-bit sequence number that starts at 1. */
  function LegacyId(call: nat): string { "legacy-" + Decimal.Print((call + 1) % UINT64) }

  /** Two calls get the same id exactly when they are a multiple of 2^64 calls apart. */
  lemma LegacyIdsCollideIff(m: nat, n: nat)
    ensures LegacyId(m) == LegacyId(n) <==> m % UINT64 == n % UINT64
  {
    SuccessorModulo(m);
    SuccessorModulo(n);
    if LegacyId(m) == LegacyId(n) {
      assert LegacyId(m)[7..] == Decimal.Print((m + 1) % UINT64);
      assert LegacyId(n)[7..] == Decimal.Print((n + 1) % UINT64);
      Decimal.PrintInjective((m + 1) % UINT64, (n + 1) % UINT64);
    }
  }

  lemma SuccessorModulo(m: nat)
    ensures (m + 1) % UINT64 == if m % UINT64 == UINT64 - 1 then 0 else m % UINT64 + 1
  {
    var q, r := m / UINT64, m % UINT64;
    assert m == UINT64 * q + r;
    if r == UINT64 - 1 {
      assert m + 1 == UINT64 * (q + 1);
    } else {
      assert m + 1 == UINT64 * q + (r + 1);
    }
  }

  /** Every run that publishes only under these ids, in whatever order the calls reach the event thread and of
      no two calls 2^64 apart, is judged right. */
  lemma LegacyRunsAreJudgedRight(steps: seq<Step>, calls: seq<nat>, p: nat)
    requires IsRun(START, steps) && p < |After(START, steps).log|
    requires |calls| == |PublishedIds(steps)|
    requires forall i :: 0 <= i < |calls| ==> PublishedIds(steps)[i] == LegacyId(calls[i])
    requires forall i, j :: 0 <= i < j < |calls| ==> calls[i] % UINT64 != calls[j] % UINT64
    ensures JudgedRight(After(START, steps), p)
  {
    forall i, j | 0 <= i < j < |calls|
      ensures PublishedIds(steps)[i] != PublishedIds(steps)[j]
    {
      LegacyIdsCollideIff(calls[i], calls[j]);
    }
    NoRepeatsAreDistinct(START, steps);
    DistinctIdsAreJudgedRight(steps, p);
  }

  // ----- every answer has its cause -----

  /** The phase of publication p comes from earlier, or from a step of the run that says so. */
  ghost predicate Caused(s: Producer, steps: seq<Step>, t: Producer, p: nat) {
    p < |t.log| ==>
      && (t.log[p].phase.Confirmed? ==> (p < |s.log| && s.log[p].phase.Confirmed?) || Confirm(p) in steps)
      && (t.log[p].phase.Refused? ==> (p < |s.log| && s.log[p].phase.Refused?) || Nack(p) in steps || ChannelError in steps)
      && (t.log[p].returned <==> (p < |s.log| && s.log[p].returned) || Return(p) in steps)
  }

  lemma {:induction false} AnswersFrom(s: Producer, steps: seq<Step>, p: nat)
    requires IsRun(s, steps)
    ensures Caused(s, steps, After(s, steps), p) && |s.log| <= |After(s, steps).log|
    decreases |steps|
  {
    if steps != [] {
      AnswersFrom(Apply(s, steps[0]), steps[1..], p);
    }
  }

  /** In every run a publication is told a verdict only after a confirm of itself, told of a failure only after a
      nack of itself or a channel error, and counted as handed back
      exactly if it was. */
  lemma AnswersHaveCauses(steps: seq<Step>, p: nat)
    requires IsRun(START, steps) && p < |After(START, steps).log|
    ensures var q := After(START, steps).log[p];
            && (q.phase.Confirmed? ==> Confirm(p) in steps)
            && (q.phase.Refused? ==> Nack(p) in steps || ChannelError in steps)
            && (q.returned <==> Return(p) in steps)
  {
    AnswersFrom(START, steps, p);
  }

  /** Every answer is given: none that arrived leaves its publication waiting, and a channel error leaves none. */
  lemma AnswersArrive(s: Producer, p: nat)
    ensures Waiting(s, p) ==> !Waiting(Apply(s, Confirm(p)), p) && !Waiting(Apply(s, Nack(p)), p)
    ensures !Waiting(Apply(s, ChannelError), p)
    ensures Waiting(s, p) ==> Apply(s, Nack(p)).log[p].phase == Refused && Apply(s, Confirm(p)).log[p].phase.Confirmed?
  {
  }

  function IdsOf(log: seq<Publication>): seq<string> {
    if log == [] then [] else IdsOf(log[..|log| - 1]) + [log[|log| - 1].id]
  }

  lemma {:induction false} IdsAre(log: seq<Publication>)
    ensures |IdsOf(log)| == |log| && forall i :: 0 <= i < |log| ==> IdsOf(log)[i] == log[i].id
  {
    if log != [] {
      IdsAre(log[..|log| - 1]);
    }
  }

  lemma SameIdList(a: seq<Publication>, b: seq<Publication>)
    requires |a| == |b| && forall i :: 0 <= i < |a| ==> a[i].id == b[i].id
    ensures IdsOf(a) == IdsOf(b)
  {
    IdsAre(a);
    IdsAre(b);
  }

  /** The publications of a run are those asked for while connected, in order and under their ids. */
  lemma {:induction false} PublishedInOrder(s: Producer, steps: seq<Step>)
    requires IsRun(s, steps)
    ensures IdsOf(After(s, steps).log) == IdsOf(s.log) + PublishedIds(steps)
    decreases |steps|
  {
    if steps == [] {
      assert IdsOf(s.log) + [] == IdsOf(s.log);
    } else {
      var next := Apply(s, steps[0]);
      PublishedInOrder(next, steps[1..]);
      if steps[0].Publish? {
        assert next.log[..|next.log| - 1] == s.log;
        assert IdsOf(s.log) + [steps[0].id] + PublishedIds(steps[1..]) == IdsOf(s.log) + ([steps[0].id] + PublishedIds(steps[1..]));
      } else {
        SameIds(s, steps[0]);
        SameIdList(s.log, next.log);
        assert [] + PublishedIds(steps[1..]) == PublishedIds(steps[1..]);
      }
    }
  }
}
