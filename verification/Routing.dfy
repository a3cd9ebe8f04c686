/** Delivery from the ingestion peer: bounded retries with exponential backoff, and the audit trail they leave. */
module Routing {
  import opened Base

  /** What can become of one HTTP attempt. `ResponseLost` was processed, though the sender sees a failure. */
  datatype Attempt = RequestLost | ResponseLost | Acknowledged

  /** A peer that discovery returned, the URL it is reached at, what the network will do to the attempts made on it,
      counted from 1, and the text of the exception when one fails. */
  datatype Target = Target(peer: string, url: string, net: nat -> Attempt, error: nat -> string)

  /** What a failure record adds: where the request went, as what it was meant, how often it was tried, what failed. */
  datatype Failure = Failure(url: string, intended: string, attempts: nat, error: string)

  /** A ledger record; `target` is empty when no peer is concerned. */
  datatype Record = Record(eventType: string, eventId: string, target: string, failure: Option<Failure> := None)

  const FAILED := "routing_failed"
  const TO_ANOMALY := "event_routed_to_anomaly"
  const TO_RISK := "event_routed_to_risk"
  const TO_COMPUTE := "event_routed_to_compute"
  const RETRIES: nat := 3
  const BACKOFF := 0.25

  function Pow2(n: nat): real
  {
    if n == 0 then 1.0 else 2.0 * Pow2(n - 1)
  }

  // ---------------------------------------------------------------- one request

  /** The number of attempts made: up to the first acknowledged one, or all of them. */
  function Made(net: nat -> Attempt, retries: nat): (m: nat)
    ensures m <= retries
    ensures forall k :: 1 <= k < m ==> !net(k).Acknowledged?
    ensures m < retries ==> m > 0 && net(m).Acknowledged?
    ensures retries > 0 ==> m > 0
  {
    if retries == 0 then 0
    else
      var m := Made(net, retries - 1);
      if m > 0 && net(m).Acknowledged? then m else retries
  }

  predicate Acked(net: nat -> Attempt, retries: nat)
  {
    Made(net, retries) > 0 && net(Made(net, retries)).Acknowledged?
  }

  /** How often the peer processes the request within its first `n` attempts. */
  function Processed(net: nat -> Attempt, n: nat): (c: nat)
    ensures c <= n
  {
    if n == 0 then 0 else Processed(net, n - 1) + if net(n).RequestLost? then 0 else 1
  }

  lemma {:induction false} ProcessedAtLeast(net: nat -> Attempt, k: nat, n: nat)
    requires 1 <= k <= n && !net(k).RequestLost?
    ensures Processed(net, n) >= 1
  {
    if k < n { ProcessedAtLeast(net, k, n - 1); }
  }

  /** A request is acknowledged exactly when one of the allowed attempts would be. */
  lemma AckedIffSomeAttempt(net: nat -> Attempt, retries: nat)
    ensures Acked(net, retries) <==> exists k: nat :: 1 <= k <= retries && net(k).Acknowledged?
  {
    if k: nat :| 1 <= k <= retries && net(k).Acknowledged? {
      assert k <= Made(net, retries) ==> k == Made(net, retries) || !net(k).Acknowledged?;
    }
  }

  /** At least once on success, never more than `retries` times. */
  lemma AtLeastOnce(net: nat -> Attempt, retries: nat)
    ensures Processed(net, Made(net, retries)) <= retries
    ensures Acked(net, retries) ==> Processed(net, Made(net, retries)) >= 1
  {
    if Acked(net, retries) {
      ProcessedAtLeast(net, Made(net, retries), Made(net, retries));
    }
  }

  function Copies<T>(x: T, n: nat): (s: seq<T>)
    ensures |s| == n && forall i :: 0 <= i < n ==> s[i] == x
  {
    if n == 0 then [] else Copies(x, n - 1) + [x]
  }

  /** The total wait before attempt k + 1: the sum of the first k backoffs. */
  function WaitBefore(backoff: real, k: nat): real
  {
    backoff * (Pow2(k) - 1.0)
  }

  function Waits(backoff: real, made: nat): (ws: seq<real>)
    ensures |ws| == made && forall k :: 0 <= k < made ==> ws[k] == WaitBefore(backoff, k)
  {
    seq(made, k requires 0 <= k => WaitBefore(backoff, k))
  }

  /** A target's share of the processing log: once for each of its first `n` attempts that reached it. */
  function LoggedBy(t: Target, eventId: string, n: nat): seq<(string, string)>
  {
    Copies((t.peer, eventId), Processed(t.net, n))
  }

  lemma LogStep(t: Target, eventId: string, n: nat)
    ensures LoggedBy(t, eventId, 0) == []
    ensures LoggedBy(t, eventId, n + 1) ==
            LoggedBy(t, eventId, n) + if t.net(n + 1).RequestLost? then [] else [(t.peer, eventId)]
  {
  }

  function ProcessedBy(t: Target, eventId: string, retries: nat): seq<(string, string)>
  {
    LoggedBy(t, eventId, Made(t.net, retries))
  }

  function ProcessedByAll(targets: seq<Target>, eventId: string): seq<(string, string)>
  {
    if targets == [] then []
    else ProcessedByAll(targets[..|targets| - 1], eventId) + ProcessedBy(targets[|targets| - 1], eventId, RETRIES)
  }

  /** The record of a delivery given up: it names the last exception, or none if nothing was tried. */
  function FailureRecord(t: Target, eventId: string, intended: string, retries: nat): Record
  {
    var error := if retries == 0 then "unknown" else t.error(retries);
    Record(FAILED, eventId, t.peer, Some(Failure(t.url, intended, retries, error)))
  }

  /** The record of a delivery that was either acknowledged or given up. */
  function Outcome(t: Target, eventId: string, routedType: string): Record
  {
    if Acked(t.net, RETRIES) then Record(routedType, eventId, t.peer)
    else FailureRecord(t, eventId, routedType, RETRIES)
  }

  // ---------------------------------------------------------------- the trail of one event

  /** The records of a capability's fan-out: one for each peer, whatever its outcome. */
  function FanOut(targets: seq<Target>, routedType: string, eventId: string): (rs: seq<Record>)
  {
    if targets == [] then []
    else
      var n := |targets| - 1;
      FanOut(targets[..n], routedType, eventId) + [Outcome(targets[n], eventId, routedType)]
  }

  /** Triggering a computation leaves a record only when it fails. */
  function ComputeTrail(targets: seq<Target>, eventId: string): seq<Record>
  {
    if targets == [] then []
    else
      var n := |targets| - 1;
      ComputeTrail(targets[..n], eventId) +
      if Acked(targets[n].net, RETRIES) then [] else [Outcome(targets[n], eventId, TO_COMPUTE)]
  }

  function Failures(targets: seq<Target>): nat
  {
    if targets == [] then 0
    else Failures(targets[..|targets| - 1]) + if Acked(targets[|targets| - 1].net, RETRIES) then 0 else 1
  }

  /** One event and the peers discovery named for each capability. */
  datatype Plan = Plan(eventId: string, detect: seq<Target>, store: seq<Target>, compute: seq<Target>)

  function PlanTrail(p: Plan): seq<Record>
  {
    FanOut(p.detect, TO_ANOMALY, p.eventId) + FanOut(p.store, TO_RISK, p.eventId) + ComputeTrail(p.compute, p.eventId)
  }

  function PlanProcessed(p: Plan): seq<(string, string)>
  {
    ProcessedByAll(p.detect, p.eventId) + ProcessedByAll(p.store, p.eventId) + ProcessedByAll(p.compute, p.eventId)
  }

  function PlanFailures(p: Plan): nat
  {
    Failures(p.detect) + Failures(p.store) + Failures(p.compute)
  }

  /** Record by record: one for each peer, in order, of the routed type if some attempt was acknowledged, and otherwise
      with all that is known of the failure. */
  lemma {:induction false} FanOutEach(targets: seq<Target>, routedType: string, eventId: string)
    ensures |FanOut(targets, routedType, eventId)| == |targets|
    ensures forall i :: 0 <= i < |targets| ==>
      Settles(FanOut(targets, routedType, eventId)[i], targets[i], routedType, eventId)
  {
    hide Settles, Outcome;
    if targets != [] {
      var n := |targets| - 1;
      FanOutEach(targets[..n], routedType, eventId);
      OutcomeSettles(targets[n], eventId, routedType);
    }
  }

  /** Those records of a fan-out that tell of a failure. */
  function OnlyFailures(rs: seq<Record>): seq<Record>
  {
    if rs == [] then []
    else OnlyFailures(rs[..|rs| - 1]) + if rs[|rs| - 1].failure.Some? then [rs[|rs| - 1]] else []
  }

  /** Computations leave the records of a fan-out, but only the failures. */
  lemma {:induction false} ComputeTrailIsFailures(targets: seq<Target>, eventId: string)
    ensures ComputeTrail(targets, eventId) == OnlyFailures(FanOut(targets, "event_routed_to_compute", eventId))
  {
    if targets != [] {
      hide Acked;
      var n := |targets| - 1;
      ComputeTrailIsFailures(targets[..n], eventId);
      var rs := FanOut(targets[..n], TO_COMPUTE, eventId);
      assert (rs + [Outcome(targets[n], eventId, TO_COMPUTE)])[..|rs|] == rs;
    }
  }

  ghost predicate Reachable(t: Target, attempts: nat)
  {
    exists k: nat :: 1 <= k <= attempts && t.net(k).Acknowledged?
  }

  /** A record of a delivery to one peer. */
  ghost predicate Settles(r: Record, t: Target, routedType: string, eventId: string)
  {
    && r.eventId == eventId && r.target == t.peer
    && (Reachable(t, 3) ==> r.eventType == routedType && r.failure == None)
    && (!Reachable(t, 3) ==>
          r.eventType == "routing_failed" && r.failure == Some(Failure(t.url, routedType, 3, t.error(3))))
  }

  lemma OutcomeSettles(t: Target, eventId: string, routedType: string)
    ensures Settles(Outcome(t, eventId, routedType), t, routedType, eventId)
  {
    hide Acked;
    AckedIffSomeAttempt(t.net, RETRIES);
  }

  /** Routing an event fails exactly when some peer is out of reach for all three attempts. */
  lemma NoFailureIff(p: Plan)
    ensures var all := p.detect + p.store + p.compute;
      PlanFailures(p) == 0 <==> forall i :: 0 <= i < |all| ==> Reachable(all[i], 3)
  {
    hide Failures, Reachable;
    var all := p.detect + p.store + p.compute;
    NoFailures(p.detect);
    NoFailures(p.store);
    NoFailures(p.compute);
    assert forall i :: 0 <= i < |p.detect| ==> all[i] == p.detect[i];
    assert forall i :: 0 <= i < |p.store| ==> all[|p.detect| + i] == p.store[i];
    assert forall i :: 0 <= i < |p.compute| ==> all[|p.detect| + |p.store| + i] == p.compute[i];
  }

  lemma {:induction false} NoFailures(targets: seq<Target>)
    ensures Failures(targets) == 0 <==> forall i :: 0 <= i < |targets| ==> Reachable(targets[i], 3)
  {
    if targets != [] {
      hide Acked, Reachable;
      var n := |targets| - 1;
      NoFailures(targets[..n]);
      ReachableMeans(targets[n]);
    }
  }

  lemma ReachableMeans(t: Target)
    ensures Acked(t.net, RETRIES) <==> Reachable(t, 3)
  {
    hide Acked;
    AckedIffSomeAttempt(t.net, RETRIES);
  }

  // ---------------------------------------------------------------- the ledger, which may be out of reach

  /** Those of the records sent that the ledger took. */
  function Taken(accepts: nat -> bool, sent: seq<Record>): seq<Record>
  {
    if sent == [] then []
    else Taken(accepts, sent[..|sent| - 1]) + if accepts(|sent|) then [sent[|sent| - 1]] else []
  }

  lemma TakenPush(accepts: nat -> bool, sent: seq<Record>, r: Record)
    ensures Taken(accepts, sent + [r]) == Taken(accepts, sent) + if accepts(|sent| + 1) then [r] else []
  {
    assert (sent + [r])[..|sent|] == sent;
  }

  /** A ledger that is always in reach holds the whole trail, and one that missed a record never does. */
  lemma {:induction false} TrailIsWhole(accepts: nat -> bool, sent: seq<Record>)
    ensures |Taken(accepts, sent)| <= |sent|
    ensures Taken(accepts, sent) == sent <==> forall n: nat :: 1 <= n <= |sent| ==> accepts(n)
  {
    if sent != [] {
      var init := sent[..|sent| - 1];
      TrailIsWhole(accepts, init);
      assert sent == init + [sent[|sent| - 1]];
    }
  }

  // ---------------------------------------------------------------- the runtime

  class ServiceRuntime {
    /** Whether the ledger takes the n-th record it is sent. */
    const accepts: nat -> bool
    /** Records sent to the ledger, and those it took. */
    var sent: seq<Record>
    var ledger: seq<Record>
    /** Requests as peers processed them: (peer, event). */
    var processed: seq<(string, string)>
    /** Seconds spent waiting so far, and how long each attempt of the latest request had waited before it. */
    var slept: real
    var waits: seq<real>

    /** The ledger holds exactly the records it took, in order. */
    ghost predicate Valid()
      reads this`sent, this`ledger
    {
      ledger == Taken(accepts, sent)
    }

    constructor (accepts: nat -> bool)
      ensures Valid() && this.accepts == accepts && sent == ledger == [] && processed == [] && slept == 0.0
    {
      this.accepts, sent, ledger, processed, slept, waits := accepts, [], [], [], 0.0, [];
    }

    /** A lost append is swallowed: the caller never learns of it. */
    method AppendLedger(r: Record)
      requires Valid()
      modifies this`sent, this`ledger
      ensures Valid() && sent == old(sent) + [r]
    {
      TakenPush(accepts, sent, r);
      sent := sent + [r];
      if accepts(|sent|) {
        ledger := ledger + [r];
      }
    }

    /** Stops at the first acknowledgement; attempt k has waited backoff * (2^(k-1) - 1) in all. An error comes
        back exactly when attempts were made and none was acknowledged; exactly one failure record is sent when
        none was acknowledged. With no attempts allowed that record is sent, yet no error comes back. */
    method RouteWithRetries(t: Target, eventId: string, intended: string, retries: nat, backoff: real)
      returns (error: bool)
      requires Valid()
      modifies this
      ensures Valid()
      ensures error <==> retries > 0 && !Acked(t.net, retries)
      ensures sent == old(sent) +
        if Acked(t.net, retries) then [] else [FailureRecord(t, eventId, intended, retries)]
      ensures waits == Waits(backoff, Made(t.net, retries))
      ensures slept == old(slept) + if waits == [] then 0.0 else waits[|waits| - 1]
      ensures processed == old(processed) + ProcessedBy(t, eventId, retries)
    {
      hide NoneAcked, WaitBefore, Made, Acked, Waits, Pow2;
      hide LoggedBy, ProcessedBy, FailureRecord, Valid, Taken;
      LogStep(t, eventId, 0);
      error := false;
      waits := [];
      var start := slept;
      var lastError := "unknown";
      var attempt := 0;
      NoWait(backoff);
      NoneAckedStep(t.net, 0);
      while attempt < retries
        invariant attempt <= retries && Valid() && sent == old(sent)
        invariant NoneAcked(t.net, attempt)
        invariant waits == Waits(backoff, attempt) && (error <==> attempt > 0)
        invariant lastError == if attempt == 0 then "unknown" else t.error(attempt)
        invariant slept == start + if attempt == 0 || attempt < retries then WaitBefore(backoff, attempt)
                                   else waits[attempt - 1]
        invariant processed == old(processed) + LoggedBy(t, eventId, attempt)
      {
        LogStep(t, eventId, attempt);
        NoneAckedStep(t.net, attempt);
        attempt := attempt + 1;
        waits := waits + [slept - start];
        var outcome := t.net(attempt);
        if !outcome.RequestLost? {
          processed := processed + [(t.peer, eventId)];
        }
        if outcome.Acknowledged? {
          MadeIs(t.net, retries, attempt);
          ProcessedByMade(t, eventId, retries);
          error := false;
          return;
        }
        error := true;
        lastError := t.error(attempt);
        if attempt < retries {
          BackoffStep(backoff, attempt);
          slept := slept + backoff * Pow2(attempt - 1);
        }
      }
      NeverAcked(t.net, retries);
      ProcessedByMade(t, eventId, retries);
      FailureRecordIs(t, eventId, intended, retries);
      AppendLedger(Record(FAILED, eventId, t.peer, Some(Failure(t.url, intended, retries, lastError))));
    }

    /** Fans one event out to every peer of a capability. */
    method RouteToCapability(targets: seq<Target>, routedType: string, eventId: string) returns (failures: nat)
      requires Valid()
      modifies this
      ensures Valid() && sent == old(sent) + FanOut(targets, routedType, eventId)
      ensures failures == Failures(targets)
      ensures processed == old(processed) + ProcessedByAll(targets, eventId)
    {
      hide Acked, ProcessedBy, Valid, FanOut, Failures, ProcessedByAll;
      failures := 0;
      NoTargets(targets[..0], routedType, eventId);
      for i := 0 to |targets|
        invariant Valid() && sent == old(sent) + FanOut(targets[..i], routedType, eventId)
        invariant failures == Failures(targets[..i])
        invariant processed == old(processed) + ProcessedByAll(targets[..i], eventId)
      {
        OneMoreTarget(targets, i, routedType, eventId);
        var error := RouteWithRetries(targets[i], eventId, routedType, RETRIES, BACKOFF);
        if error {
          failures := failures + 1;
        } else {
          AppendLedger(Record(routedType, eventId, targets[i].peer));
        }
      }
      assert targets[..|targets|] == targets;
    }

    /** The computation requests: only failures are recorded. */
    method TriggerCompute(targets: seq<Target>, eventId: string) returns (failures: nat)
      requires Valid()
      modifies this
      ensures Valid() && sent == old(sent) + ComputeTrail(targets, eventId)
      ensures failures == Failures(targets)
      ensures processed == old(processed) + ProcessedByAll(targets, eventId)
    {
      hide Acked, ProcessedBy, Valid, ComputeTrail, Failures, ProcessedByAll;
      failures := 0;
      NoTargets(targets[..0], TO_COMPUTE, eventId);
      for i := 0 to |targets|
        invariant Valid() && sent == old(sent) + ComputeTrail(targets[..i], eventId)
        invariant failures == Failures(targets[..i])
        invariant processed == old(processed) + ProcessedByAll(targets[..i], eventId)
      {
        OneMoreTarget(targets, i, TO_COMPUTE, eventId);
        var error := RouteWithRetries(targets[i], eventId, TO_COMPUTE, RETRIES, BACKOFF);
        if error {
          failures := failures + 1;
        }
      }
      assert targets[..|targets|] == targets;
    }

    /** Routes one event; `failed` is the exception the caller sees. */
    method RouteEvent(p: Plan) returns (failed: bool)
      requires Valid()
      modifies this
      ensures Valid() && sent == old(sent) + PlanTrail(p)
      ensures processed == old(processed) + PlanProcessed(p)
      ensures failed <==> PlanFailures(p) > 0
    {
      hide FanOut, ComputeTrail, Failures, ProcessedByAll, Valid;
      var a := RouteToCapability(p.detect, TO_ANOMALY, p.eventId);
      var b := RouteToCapability(p.store, TO_RISK, p.eventId);
      var c := TriggerCompute(p.compute, p.eventId);
      failed := a + b + c > 0;
    }
  }

  lemma ProcessedByMade(t: Target, eventId: string, retries: nat)
    ensures ProcessedBy(t, eventId, retries) == LoggedBy(t, eventId, Made(t.net, retries))
  {
  }

  lemma FailureRecordIs(t: Target, eventId: string, intended: string, retries: nat)
    ensures FailureRecord(t, eventId, intended, retries) == Record("routing_failed", eventId, t.peer,
      Some(Failure(t.url, intended, retries, if retries == 0 then "unknown" else t.error(retries))))
  {
  }

  lemma NoTargets(targets: seq<Target>, routedType: string, eventId: string)
    requires targets == []
    ensures FanOut(targets, routedType, eventId) == ComputeTrail(targets, eventId) == []
    ensures Failures(targets) == 0 && ProcessedByAll(targets, eventId) == []
  {
  }

  lemma OneMoreTarget(targets: seq<Target>, i: nat, routedType: string, eventId: string)
    requires i < |targets|
    ensures FanOut(targets[..i + 1], routedType, eventId) == FanOut(targets[..i], routedType, eventId) +
            [Outcome(targets[i], eventId, routedType)]
    ensures ComputeTrail(targets[..i + 1], eventId) == ComputeTrail(targets[..i], eventId) +
            if Acked(targets[i].net, RETRIES) then [] else [Outcome(targets[i], eventId, TO_COMPUTE)]
    ensures Failures(targets[..i + 1]) == Failures(targets[..i]) + if Acked(targets[i].net, RETRIES) then 0 else 1
    ensures ProcessedByAll(targets[..i + 1], eventId) ==
            ProcessedByAll(targets[..i], eventId) + ProcessedBy(targets[i], eventId, RETRIES)
  {
    hide Acked, ProcessedBy;
    assert targets[..i + 1][..i] == targets[..i];
  }

  /** None of the first `n` attempts was acknowledged. */
  predicate NoneAcked(net: nat -> Attempt, n: nat)
  {
    forall k: nat :: 1 <= k <= n ==> !net(k).Acknowledged?
  }

  lemma NoneAckedStep(net: nat -> Attempt, n: nat)
    ensures NoneAcked(net, 0)
    ensures NoneAcked(net, n) && !net(n + 1).Acknowledged? ==> NoneAcked(net, n + 1)
  {
  }

  lemma MadeIs(net: nat -> Attempt, retries: nat, k: nat)
    requires 1 <= k <= retries && net(k).Acknowledged? && NoneAcked(net, k - 1)
    ensures Made(net, retries) == k && Acked(net, retries)
  {
    assert Made(net, retries) < k ==> net(Made(net, retries)).Acknowledged?;
  }

  lemma NeverAcked(net: nat -> Attempt, retries: nat)
    requires NoneAcked(net, retries)
    ensures Made(net, retries) == retries && !Acked(net, retries)
  {
  }

  lemma BackoffStep(backoff: real, k: nat)
    requires k > 0
    ensures WaitBefore(backoff, k) == WaitBefore(backoff, k - 1) + backoff * Pow2(k - 1)
  {
  }

  lemma NoWait(backoff: real)
    ensures WaitBefore(backoff, 0) == 0.0
  {
  }
}
