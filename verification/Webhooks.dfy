/**
 Webhook fan-out and retry (internal/service/webhook.go) with the delivery record it keeps
 (internal/repository/webhook_delivery_repo.go).  Whether a database write is stored is the
 environment's choice; the service ignores the error of a refused status update.
 */
module Webhooks {
  import opened Wrappers

  const MAX_ATTEMPTS: nat := 5

  datatype Status = Pending | Retrying | Delivered | Failed

  datatype Config = Config(events: seq<string>, isActive: bool)

  /** The answer to one send, and how long it took. */
  datatype Outcome = Outcome(ok: bool, code: int, body: string, error: string, took: nat)

  datatype Delivery = Delivery(
    webhook: nat, eventType: string, payload: string, status: Status, attempts: nat, maxAttempts: nat,
    responseCode: int, responseBody: string, lastError: string, completedAt: Option<int>)

  function NewDelivery(webhook: nat, eventType: string, payload: string): Delivery {
    Delivery(webhook, eventType, payload, Pending, 0, MAX_ATTEMPTS, 0, "", "", None)
  }

  function StatusAfter(i: nat, ok: bool): Status {
    if ok then Delivered else if i == MAX_ATTEMPTS - 1 then Failed else Retrying
  }

  /** The `UPDATE` of `UpdateStatus`. */
  function Updated(row: Delivery, status: Status, code: int, body: string, error: string, now: int): Delivery {
    row.(
      status := status, responseCode := code, responseBody := body, lastError := error,
      attempts := row.attempts + 1,
      completedAt := if status in {Delivered, Failed} then Some(now) else row.completedAt)
  }

  /** The record after attempt i came out as given. */
  function Attempted(row: Delivery, i: nat, o: Outcome, stored: bool, now: int): Delivery {
    if stored then Updated(row, StatusAfter(i, o.ok), o.code, o.body, if o.ok then "" else o.error, now) else row
  }

  function Pow2(n: nat): nat {
    if n == 0 then 1 else 2 * Pow2(n - 1)
  }

  /** What one retry loop meets: the answer to each send, and whether each status update is stored. */
  datatype Script = Script(outcomes: seq<Outcome>, stored: seq<bool>, start: int)

  predicate Complete(script: Script) {
    |script.outcomes| == |script.stored| == 5
  }

  /** When the answer to send i arrives: every send and every pause before it has passed. */
  function AnsweredAt(script: Script, i: nat): int
    requires Complete(script) && i < MAX_ATTEMPTS
  {
    if i == 0 then script.start + script.outcomes[0].took
    else AnsweredAt(script, i - 1) + Pow2(i - 1) + script.outcomes[i].took
  }

  /** The record after the first n attempts. */
  function RowAfter(row: Delivery, script: Script, n: nat): Delivery
    requires Complete(script) && n <= MAX_ATTEMPTS
  {
    if n == 0 then row
    else Attempted(RowAfter(row, script, n - 1), n - 1, script.outcomes[n - 1], script.stored[n - 1], AnsweredAt(script, n - 1))
  }

  /** How many sends the loop makes: up to the first success, and five without one. */
  function Sends(script: Script, from: nat := 0): (n: nat)
    requires Complete(script) && from <= MAX_ATTEMPTS
    ensures from <= n <= 5
    ensures forall i :: from <= i < n - 1 ==> !script.outcomes[i].ok
    ensures n < 5 ==> from < n && script.outcomes[n - 1].ok
    decreases MAX_ATTEMPTS - from
  {
    if from == MAX_ATTEMPTS then from
    else if script.outcomes[from].ok then from + 1
    else Sends(script, from + 1)
  }

  // ------------------------------------------------------------ the record

  function StoredAmong(stored: seq<bool>, n: nat): nat
    requires n <= |stored|
  {
    if n == 0 then 0 else StoredAmong(stored, n - 1) + (if stored[n - 1] then 1 else 0)
  }

  /** A record counts the stored updates, and is complete exactly in the two final states. */
  lemma {:induction false} RecordCountsUpdates(row: Delivery, script: Script, n: nat)
    requires Complete(script) && n <= Sends(script) && row.status == Pending && row.completedAt == None
    ensures var r := RowAfter(row, script, n);
            && r.attempts == row.attempts + StoredAmong(script.stored, n) && r.maxAttempts == row.maxAttempts
            && (r.completedAt.Some? <==> r.status in {Delivered, Failed})
            && r.webhook == row.webhook && r.eventType == row.eventType && r.payload == row.payload
            && (n > 0 && script.stored[n - 1] ==>
                  var o := script.outcomes[n - 1];
                  && r.status == (if o.ok then Delivered else if n == 5 then Failed else Retrying)
                  && r.responseCode == o.code && r.responseBody == o.body
                  && r.lastError == (if o.ok then "" else o.error))
            && (n < Sends(script) || (n > 0 && !script.stored[n - 1]) ==> r.status in {Pending, Retrying})
            && (forall i :: 0 <= i < n ==> !script.stored[i]) == (r.status == Pending)
  {
    if n > 0 {
      RecordCountsUpdates(row, script, n - 1);
    }
  }

  lemma {:induction false} AllStored(stored: seq<bool>, n: nat)
    requires n <= |stored|
    ensures StoredAmong(stored, n) <= n
    ensures StoredAmong(stored, n) == n <==> forall i :: 0 <= i < n ==> stored[i]
  {
    if n > 0 {
      AllStored(stored, n - 1);
    }
  }

  /** The time until answer i: the sends up to it, and pauses of 1, 2, 4 and 8 seconds between them. */
  lemma AnswerTimes(script: Script)
    requires Complete(script)
    ensures var o := script.outcomes;
            && AnsweredAt(script, 0) == script.start + o[0].took
            && AnsweredAt(script, 1) == AnsweredAt(script, 0) + 1 + o[1].took
            && AnsweredAt(script, 2) == AnsweredAt(script, 1) + 2 + o[2].took
            && AnsweredAt(script, 3) == AnsweredAt(script, 2) + 4 + o[3].took
            && AnsweredAt(script, 4) == AnsweredAt(script, 3) + 8 + o[4].took
  {
    assert Pow2(2) == 2 * Pow2(1) && Pow2(3) == 2 * Pow2(2);
  }

  /**
   The persisted record against the loop, which sends until the first success and at most
   five times: the record counts every send exactly when every update was stored; it is
   final, with the time of the last answer, exactly when the last update was stored, and
   then says `delivered` exactly when one of the five sends would succeed.  Five failures
   are recorded 15 seconds after the time the sends themselves took.
   */
  lemma RecordAgreesWithLoop(script: Script, webhook: nat, eventType: string, payload: string)
    requires Complete(script)
    ensures var n := Sends(script);
            var r := RowAfter(NewDelivery(webhook, eventType, payload), script, n);
            && 1 <= n <= 5 && (n == 5 || script.outcomes[n - 1].ok)
            && (forall i :: 0 <= i < n - 1 ==> !script.outcomes[i].ok)
            && r.maxAttempts == 5 && r.webhook == webhook && r.eventType == eventType && r.payload == payload
            && r.attempts <= n && (r.attempts == n <==> forall i :: 0 <= i < n ==> script.stored[i])
            && (script.stored[n - 1] <==> r.status in {Delivered, Failed})
            && (script.stored[n - 1] ==> r.completedAt == Some(AnsweredAt(script, n - 1))
                                         && r.responseCode == script.outcomes[n - 1].code)
            && (!script.stored[n - 1] ==> r.completedAt == None)
            && (r.status == Delivered <==>
                  script.stored[n - 1] && exists i :: 0 <= i < 5 && script.outcomes[i].ok)
            && (r.status == Failed ==>
                  var o := script.outcomes;
                  r.completedAt == Some(script.start + o[0].took + o[1].took + o[2].took + o[3].took + o[4].took + 15))
  {
    var n := Sends(script);
    RecordCountsUpdates(NewDelivery(webhook, eventType, payload), script, n);
    AllStored(script.stored, n);
    AnswerTimes(script);
  }

  lemma {:induction false} SleepsAddUp(n: nat)
    requires n >= 1
    ensures SumOfPauses(n - 1) == Pow2(n - 1) - 1
  {
    if n > 1 {
      SleepsAddUp(n - 1);
    }
  }

  /** The pauses after the first n failures: 1, 2, 4, ... seconds. */
  function SumOfPauses(n: nat): nat {
    if n == 0 then 0 else SumOfPauses(n - 1) + Pow2(n - 1)
  }

  /** What one to five sends sleep in all. */
  lemma SleepsInSeconds(sends: nat)
    requires 1 <= sends <= 5
    ensures SumOfPauses(sends - 1) == match sends case 1 => 0 case 2 => 1 case 3 => 3 case 4 => 7 case _ => 15
  {
    SleepsAddUp(sends);
    assert Pow2(2) == 2 * Pow2(1) && Pow2(3) == 2 * Pow2(2) && Pow2(4) == 2 * Pow2(3);
  }

  /** The record a whole loop leaves: what its last update says if that was stored. */
  lemma LoopRecord(row: Delivery, script: Script)
    requires Complete(script)
    ensures var n := Sends(script); var r, o := RowAfter(row, script, n), script.outcomes[n - 1];
            && n >= 1 && (forall i :: 0 <= i < n - 1 ==> !script.outcomes[i].ok)
            && SumOfPauses(n - 1) == (match n case 1 => 0 case 2 => 1 case 3 => 3 case 4 => 7 case _ => 15)
            && (script.stored[n - 1] ==>
                  && r.status == (if o.ok then Delivered else Failed)
                  && r.responseCode == o.code && r.responseBody == o.body && r.lastError == (if o.ok then "" else o.error)
                  && r.completedAt == Some(AnsweredAt(script, n - 1)))
            && (row.status == Pending && row.completedAt == None ==>
                  && (r.status == Delivered <==> script.stored[n - 1] && exists i :: 0 <= i < 5 && script.outcomes[i].ok)
                  && r.attempts == row.attempts + StoredAmong(script.stored, n))
  {
    SleepsInSeconds(Sends(script));
    if row.status == Pending && row.completedAt == None {
      RecordCountsUpdates(row, script, Sends(script));
    }
  }

  // ---------------------------------------------------- concurrent deliveries

  /** Retry loops run side by side; `done` says how many attempts each has made. */
  datatype Pool = Pool(rows: seq<Delivery>, done: seq<nat>)

  ghost predicate Scripted(pool: Pool, scripts: seq<Script>) {
    && |pool.rows| == |pool.done| == |scripts|
    && (forall d :: 0 <= d < |scripts| ==> Complete(scripts[d]) && pool.done[d] <= Sends(scripts[d]))
  }

  /** One attempt of delivery d, if its loop has not ended. */
  function StepOne(pool: Pool, scripts: seq<Script>, d: nat): Pool
    requires d < |pool.rows| == |pool.done| == |scripts| && Complete(scripts[d]) && pool.done[d] <= Sends(scripts[d])
  {
    var i, script := pool.done[d], scripts[d];
    if i == Sends(script) then pool
    else Pool(
      pool.rows[d := Attempted(pool.rows[d], i, script.outcomes[i], script.stored[i], AnsweredAt(script, i))],
      pool.done[d := i + 1])
  }

  function RunSchedule(pool: Pool, scripts: seq<Script>, schedule: seq<nat>): (r: Pool)
    requires Scripted(pool, scripts) && forall k :: 0 <= k < |schedule| ==> schedule[k] < |scripts|
    ensures Scripted(r, scripts)
    decreases |schedule|
  {
    if schedule == [] then pool
    else RunSchedule(StepOne(pool, scripts, schedule[0]), scripts, schedule[1..])
  }

  function Turns(schedule: seq<nat>, d: nat): nat {
    if schedule == [] then 0 else (if schedule[0] == d then 1 else 0) + Turns(schedule[1..], d)
  }

  /** However the loops interleave, each record is what its own loop alone would have written. */
  lemma {:induction false} RecordsAreIndependent(pool: Pool, scripts: seq<Script>, schedule: seq<nat>, d: nat, first: Delivery)
    requires Scripted(pool, scripts) && forall k :: 0 <= k < |schedule| ==> schedule[k] < |scripts|
    requires d < |scripts| && pool.rows[d] == RowAfter(first, scripts[d], pool.done[d])
    ensures var r, n := RunSchedule(pool, scripts, schedule), pool.done[d] + Turns(schedule, d);
            && r.done[d] == (if n <= Sends(scripts[d]) then n else Sends(scripts[d]))
            && r.rows[d] == RowAfter(first, scripts[d], r.done[d])
    decreases |schedule|
  {
    if schedule != [] {
      RecordsAreIndependent(StepOne(pool, scripts, schedule[0]), scripts, schedule[1..], d, first);
    }
  }

  // --------------------------------------------------------------- fan-out

  predicate Subscribed(config: Config, eventType: string) {
    config.isActive && ("*" in config.events || eventType in config.events)
  }

  /** The configs whose retry loop `Deliver` starts, in order. */
  function Started(configs: seq<Config>, eventType: string, created: seq<bool>): seq<nat>
    requires |configs| <= |created|
  {
    if configs == [] then []
    else
      var k := |configs| - 1;
      Started(configs[..k], eventType, created)
        + (if Subscribed(configs[k], eventType) && created[k] then [k] else [])
  }

  /** A loop is started once for each active matching config whose record was created, and for no other. */
  lemma {:induction false} StartedExactly(configs: seq<Config>, eventType: string, created: seq<bool>)
    requires |configs| <= |created|
    ensures var started := Started(configs, eventType, created);
            && (forall k: nat :: k in started <==> k < |configs| && Subscribed(configs[k], eventType) && created[k])
            && (forall a, b :: 0 <= a < b < |started| ==> started[a] < started[b])
  {
    if configs != [] {
      var k := |configs| - 1;
      StartedExactly(configs[..k], eventType, created);
      var before := Started(configs[..k], eventType, created);
      forall a | 0 <= a < |before| ensures before[a] < k {
        assert before[a] in before;
      }
      assert forall j: nat :: j in Started(configs, eventType, created) <==>
        j in before || (j == k && Subscribed(configs[k], eventType) && created[k]);
    }
  }

  class WebhookService {
    var deliveries: seq<Delivery>

    constructor ()
      ensures deliveries == []
    {
      deliveries := [];
    }

    method EventMatches(events: seq<string>, eventType: string) returns (found: bool)
      ensures found <==> "*" in events || eventType in events
    {
      for i := 0 to |events|
        invariant "*" !in events[..i] && eventType !in events[..i]
      {
        if events[i] == "*" || events[i] == eventType {
          return true;
        }
      }
      return false;
    }

    /** `Deliver`: the positions in `started` and the new rows correspond one to one. */
    method Deliver(configs: seq<Config>, eventType: string, payload: string, created: seq<bool>)
      returns (started: seq<nat>)
      requires |created| == |configs|
      modifies this
      ensures started == Started(configs, eventType, created)
      ensures |deliveries| == |old(deliveries)| + |started| && old(deliveries) <= deliveries
      ensures forall j :: 0 <= j < |started| ==>
                var row := deliveries[|old(deliveries)| + j];
                && row.webhook == started[j] && row.eventType == eventType && row.payload == payload
                && row.status == Pending && row.attempts == 0 && row.maxAttempts == 5 && row.completedAt == None
      ensures forall k: nat :: k in started <==>
                k < |configs| && configs[k].isActive && created[k]
                && ("*" in configs[k].events || eventType in configs[k].events)
      ensures forall a, b :: 0 <= a < b < |started| ==> started[a] < started[b]
    {
      started := [];
      for k := 0 to |configs|
        invariant started == Started(configs[..k], eventType, created)
        invariant |deliveries| == |old(deliveries)| + |started| && old(deliveries) <= deliveries
        invariant forall j :: 0 <= j < |started| ==>
                    deliveries[|old(deliveries)| + j] == NewDelivery(started[j], eventType, payload)
      {
        assert configs[..k + 1][..k] == configs[..k];
        var matches := EventMatches(configs[k].events, eventType);
        if configs[k].isActive && matches {
          if created[k] {
            deliveries := deliveries + [NewDelivery(k, eventType, payload)];
            started := started + [k];
          }
        }
      }
      assert configs[..|configs|] == configs;
      StartedExactly(configs, eventType, created);
    }

    method UpdateStatus(id: nat, status: Status, code: int, body: string, error: string, now: int, stored: bool)
      requires id < |deliveries|
      modifies this
      ensures deliveries == if stored then old(deliveries)[id := Updated(old(deliveries[id]), status, code, body, error, now)]
                            else old(deliveries)
      ensures stored ==>
                var was, row := old(deliveries)[id], deliveries[id];
                && row.status == status && row.responseCode == code && row.responseBody == body
                && row.lastError == error && row.attempts == was.attempts + 1
                && row.completedAt == (if status == Delivered || status == Failed then Some(now) else was.completedAt)
                && row.webhook == was.webhook && row.eventType == was.eventType && row.payload == was.payload
    {
      if stored {
        var row := deliveries[id];
        if status == Delivered || status == Failed {
          row := row.(completedAt := Some(now));
        }
        deliveries := deliveries[id := row.(
          status := status, responseCode := code, responseBody := body, lastError := error, attempts := row.attempts + 1)];
      }
    }

    /** What the loop writes when the answer to send i is known. */
    method RecordAttempt(id: nat, i: nat, o: Outcome, stored: bool, now: int)
      requires id < |deliveries|
      modifies this
      ensures deliveries == old(deliveries)[id := Attempted(old(deliveries[id]), i, o, stored, now)]
      ensures stored ==>
                && deliveries[id].status == (if o.ok then Delivered else if i == 4 then Failed else Retrying)
                && deliveries[id].lastError == (if o.ok then "" else o.error)
    {
      if o.ok {
        UpdateStatus(id, Delivered, o.code, o.body, "", now, stored);
        return;
      }
      var status := Retrying;
      if i == MAX_ATTEMPTS - 1 {
        status := Failed;
      }
      UpdateStatus(id, status, o.code, o.body, o.error, now, stored);
    }

    /** The retry loop of one delivery, run to its end. */
    method SendWithRetry(id: nat, script: Script) returns (sends: nat, slept: nat)
      requires id < |deliveries| && Complete(script)
      modifies this
      ensures 1 <= sends <= 5 && (sends == 5 || script.outcomes[sends - 1].ok)
      ensures forall i :: 0 <= i < sends - 1 ==> !script.outcomes[i].ok
      ensures slept == match sends case 1 => 0 case 2 => 1 case 3 => 3 case 4 => 7 case _ => 15
      ensures |deliveries| == |old(deliveries)| && deliveries == old(deliveries)[id := deliveries[id]]
      ensures var row, o := deliveries[id], script.outcomes[sends - 1];
              script.stored[sends - 1] ==>
                && row.status == (if o.ok then Delivered else Failed)
                && row.responseCode == o.code && row.responseBody == o.body
                && row.lastError == (if o.ok then "" else o.error)
                && row.completedAt == Some(AnsweredAt(script, sends - 1))
      ensures old(deliveries)[id].status == Pending && old(deliveries)[id].completedAt == None ==>
                && (deliveries[id].status == Delivered <==>
                      script.stored[sends - 1] && exists i :: 0 <= i < 5 && script.outcomes[i].ok)
                && deliveries[id].attempts == old(deliveries)[id].attempts + StoredAmong(script.stored, sends)
      ensures sends == Sends(script) && deliveries[id] == RowAfter(old(deliveries)[id], script, sends)
    {
      sends, slept := RetryLoop(id, script);
      LoopRecord(old(deliveries)[id], script);
    }

    method RetryLoop(id: nat, script: Script) returns (sends: nat, slept: nat)
      requires id < |deliveries| && Complete(script)
      modifies this
      ensures sends == Sends(script) && 1 <= sends
      ensures slept == SumOfPauses(sends - 1)
      ensures deliveries == old(deliveries)[id := RowAfter(old(deliveries[id]), script, sends)]
    {
      ghost var first := deliveries[id];
      sends, slept := 0, 0;
      var now := script.start;
      for i := 0 to MAX_ATTEMPTS
        invariant sends == i && Sends(script, i) == Sends(script)
        invariant slept == SumOfPauses(if i < MAX_ATTEMPTS then i else MAX_ATTEMPTS - 1)
        invariant i < MAX_ATTEMPTS ==> now + script.outcomes[i].took == AnsweredAt(script, i)
        invariant |deliveries| == |old(deliveries)| && deliveries == old(deliveries)[id := deliveries[id]]
        invariant deliveries[id] == RowAfter(first, script, i)
      {
        var o := script.outcomes[i];
        now := now + o.took;
        sends := sends + 1;
        RecordAttempt(id, i, o, script.stored[i], now);
        assert deliveries[id] == RowAfter(first, script, i + 1);
        if o.ok {
          return;
        }
        if i < MAX_ATTEMPTS - 1 {
          var delay := Pow2(i);
          now := now + delay;
          slept := slept + delay;
        }
      }
    }
  }
}
