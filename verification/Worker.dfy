/** What one worker goroutine does with one message, and how long a retry waits. */
module Workers {
  import opened Arithmetic
  import opened Messages
  import opened MultiLevelQueues
  import opened QueueManagers
  import opened WorkerProtocol

  // ---------- backoff ----------

  datatype Backoff =
    | Exponential(initial: int, max: int, factor: real, maxRetries: int)
    | Fixed(interval: int, maxRetries: int)

  /** The initial delay multiplied by the factor once for every retry after the first. */
  function Grown(initial: real, factor: real, n: int): real
    decreases n
  {
    if n <= 1 then initial else Grown(initial, factor, n - 1) * factor
  }

  /** Conversion of a float to an integer duration drops the fraction. */
  function Truncate(x: real): int {
    if x >= 0.0 then x.Floor else -((-x).Floor)
  }

  function Capped(x: real, cap: int): int {
    if x > cap as real then cap else Truncate(x)
  }

  /** The delay before retry number n, counting from 1. */
  function Delay(b: Backoff, n: int): int {
    match b
    case Fixed(interval, _) => interval
    case Exponential(initial, max, factor, _) =>
      if n <= 0 then initial else Capped(Grown(initial as real, factor, n), max)
  }

  method NextBackoff(b: Backoff, retryCount: int) returns (r: int)
    ensures r == Delay(b, retryCount)
  {
    match b
    case Fixed(interval, _) =>
      r := interval;
    case Exponential(initial, max, factor, _) =>
      if retryCount <= 0 {
        return initial;
      }
      var backoff := initial as real;
      var i := 1;
      while i < retryCount
        invariant 1 <= i <= retryCount
        invariant backoff == Grown(initial as real, factor, i)
      {
        backoff := backoff * factor;
        i := i + 1;
      }
      r := Capped(backoff, max);
  }

  lemma {:induction false} GrownIsPower(initial: real, factor: real, n: nat)
    requires n >= 1
    ensures Grown(initial, factor, n) == initial * Power(factor, n - 1)
  {
    if n > 1 {
      GrownIsPower(initial, factor, n - 1);
      Associative(initial, Power(factor, n - 2), factor);
    }
  }

  /** The delay of retry n is initial * factor^(n-1) without its fraction, cut off at the maximum; a fixed one
      is the same for every retry. */
  lemma DelayIsPower(b: Backoff, n: int)
    ensures b.Fixed? ==> Delay(b, n) == b.interval
    ensures b.Exponential? && n <= 1 && b.initial <= b.max ==> Delay(b, n) == b.initial
    ensures b.Exponential? && n <= 0 ==> Delay(b, n) == b.initial
    ensures b.Exponential? && n >= 1 ==>
              var exact := b.initial as real * Power(b.factor, n - 1);
              if exact > b.max as real then Delay(b, n) == b.max
              else if exact >= 0.0 then Delay(b, n) as real <= exact < Delay(b, n) as real + 1.0
              else Delay(b, n) as real - 1.0 < exact <= Delay(b, n) as real
  {
    if b.Exponential? && n >= 1 {
      GrownIsPower(b.initial as real, b.factor, n);
      hide Grown, Power;
    }
  }

  lemma Associative(x: real, y: real, z: real)
    ensures x * y * z == x * (y * z)
  {
  }

  lemma MulMono(x: real, a: real, b: real)
    requires x >= 0.0 && a <= b
    ensures x * a <= x * b
  {
  }

  lemma {:induction false} GrownStep(initial: real, factor: real, n: nat)
    requires factor >= 1.0 && initial >= 0.0 && n >= 1
    ensures 0.0 <= Grown(initial, factor, n) <= Grown(initial, factor, n + 1)
  {
    if n > 1 {
      GrownStep(initial, factor, n - 1);
    }
    MulMono(Grown(initial, factor, n), 1.0, factor);
  }

  lemma {:induction false} GrownGrows(initial: real, factor: real, m: nat, n: nat)
    requires factor >= 1.0 && initial >= 0.0 && 1 <= m <= n
    ensures 0.0 <= Grown(initial, factor, m) <= Grown(initial, factor, n)
  {
    hide Grown;
    if m < n {
      GrownGrows(initial, factor, m, n - 1);
      GrownStep(initial, factor, n - 1);
    } else {
      GrownStep(initial, factor, n);
    }
  }

  /** Exponential delays of actual retries (numbered from 1) never shrink and never exceed the
      maximum.  The delay "before retry 0" does not obey the maximum unless the initial one does. */
  lemma BackoffIsMonotoneAndCapped(b: Backoff, m: int, n: int)
    requires b.Exponential? && b.factor >= 1.0 && b.initial >= 0 && 1 <= m <= n
    ensures Delay(b, m) <= Delay(b, n) <= b.max
    ensures Delay(b, 0) <= b.max <==> b.initial <= b.max
  {
    hide Grown, Truncate;
    var x, y := Grown(b.initial as real, b.factor, m), Grown(b.initial as real, b.factor, n);
    GrownGrows(b.initial as real, b.factor, m, n);
    CapMono(x, y, b.max);
  }

  lemma CapMono(x: real, y: real, cap: int)
    requires 0.0 <= x <= y
    ensures Capped(x, cap) <= Capped(y, cap) <= cap
  {
  }

  // ---------- handling one message ----------

  class Worker {
    const queueName: string
    const backoff: Backoff
    const manager: QueueManager
    var processedCount: int
    var successCount: int
    var failureCount: int
    var totalProcessTime: int
    var lastProcessTime: int

    constructor (queueName: string, backoff: Backoff, manager: QueueManager)
      ensures this.queueName == queueName && this.backoff == backoff && this.manager == manager
      ensures MetricsOk()
    {
      this.queueName, this.backoff, this.manager := queueName, backoff, manager;
      processedCount, successCount, failureCount, totalProcessTime, lastProcessTime := 0, 0, 0, 0, 0;
    }

    ghost predicate MetricsOk()
      reads this
    {
      processedCount == successCount + failureCount
    }

    method UpdateMetrics(failed: bool, processingTime: int)
      requires MetricsOk()
      modifies this
      ensures MetricsOk() && processedCount == old(processedCount) + 1
      ensures failureCount == old(failureCount) + (if failed then 1 else 0)
      ensures totalProcessTime == old(totalProcessTime) + processingTime && lastProcessTime == processingTime
    {
      processedCount := processedCount + 1;
      totalProcessTime := totalProcessTime + processingTime;
      lastProcessTime := processingTime;
      if failed {
        failureCount := failureCount + 1;
      } else {
        successCount := successCount + 1;
      }
    }

    /** Retry while retries are left, otherwise give up.  When the queue exists this is exactly
        AfterFailure; when it has been deleted the message is lost either way. */
    method HandleFailure(message: Message, now: int)
      requires manager.Valid()
      modifies manager.queues, manager.queues.own, message
      ensures manager.Valid() && fresh(manager.queues.own - old(manager.queues.own))
      ensures var v, d := old(manager.queues.view), old(message.Data());
              if queueName in v then
                var (fate, level, d') := AfterFailure(v[queueName], message, d, manager.rules, backoff.maxRetries, now);
                manager.queues.view == v[queueName := level] && message.Data() == d'
              else
                && manager.queues.view == v
                && message.Data() == if d.retryCount < backoff.maxRetries then d.(retryCount := d.retryCount + 1) else d
      ensures old(message.retryCount) < backoff.maxRetries ==>
                message.scheduledAt == now + Delay(backoff, old(message.retryCount) + 1)
    {
      hide PushOne, RulePriority, MultiLevelQueue.Valid;
      if message.retryCount < backoff.maxRetries {
        message.retryCount := message.retryCount + 1;
        var wait := NextBackoff(backoff, message.retryCount);
        message.scheduledAt := now + wait;
        var _ := manager.PushMessage(queueName, message, now);
      } else {
        manager.FailMessage(queueName);
      }
    }

    method HandleSuccess(message: Message)
      requires manager.Valid()
      modifies manager.queues
      ensures manager.Valid() && manager.queues.own == old(manager.queues.own)
      ensures manager.queues.view == CompleteLevel(old(manager.queues.view), queueName)
    {
      manager.CompleteMessage(queueName);
    }

    /** processMessage, with the outcome and duration of the processing function as inputs. */
    method ProcessMessage(message: Message, failed: bool, processingTime: int, now: int)
      requires manager.Valid() && MetricsOk()
      modifies this, manager.queues, manager.queues.own, message
      ensures manager.Valid() && MetricsOk() && processedCount == old(processedCount) + 1
      ensures failureCount == old(failureCount) + (if failed then 1 else 0)
      ensures queueName in old(manager.queues.view) ==>
                var v, d := old(manager.queues.view), old(message.Data());
                var (fate, level, d') := AfterFailure(v[queueName], message, d, manager.rules, backoff.maxRetries, now);
                && manager.queues.view == v[queueName := if failed then level else CompleteOne(v[queueName])]
                && message.Data() == if failed then d' else d
      ensures queueName !in old(manager.queues.view) ==>
                var d := old(message.Data());
                && manager.queues.view == old(manager.queues.view)
                && message.Data() == if failed && d.retryCount < backoff.maxRetries
                                     then d.(retryCount := d.retryCount + 1) else d
    {
      UpdateMetrics(failed, processingTime);
      if failed {
        HandleFailure(message, now);
      } else {
        HandleSuccess(message);
      }
    }
  }
}
