/**
 * The resolver (backend/lambdas/resolveGuess/index.ts): handles one task
 * from the delay queue. It looks for a recorded price, different from the
 * start price, at least a minute after the guess; failing that it asks for
 * the current price and, while the price has not moved and retries remain,
 * requeues the task. Otherwise it scores the guess and marks it resolved.
 */
module ResolveGuessHandler {
  import opened Wrappers
  import opened Domain
  import opened Table
  import Db
  import InstrumentPrice
  import Queue

  const MaxRetries := 6
  const RetryDelaySeconds := 10
  const MinTimeElapsedMs := 60000
  /** Deliveries of one message before the queue moves it to the dead-letter queue. */
  const MaxReceiveCount := 3

  /** The task's retry count; absent on the first delivery. */
  function RetriesSoFar(task: Task): int {
    task.retryCount.GetOr(0)
  }

  /** `if (endPrice)`: a lookup result counts only when it is present and non-zero. */
  predicate Usable(lookup: Option<int>) {
    lookup.Some? && lookup.value != 0
  }

  /** A guess is correct when the price moved the way it predicted. */
  function IsCorrect(startPrice: int, endPrice: int, direction: Direction): (c: bool)
    ensures endPrice == startPrice ==> !c
    ensures c ==> (endPrice > startPrice <==> direction == Up)
  {
    if endPrice > startPrice then direction == Up
    else if endPrice < startPrice then direction == Down
    else false
  }

  /** When the price moved, exactly one of the two directions wins. */
  lemma MovedPriceHasOneWinner(startPrice: int, endPrice: int)
    requires endPrice != startPrice
    ensures IsCorrect(startPrice, endPrice, Up) != IsCorrect(startPrice, endPrice, Down)
  {
  }

  function ScoreChange(correct: bool): (d: int)
    ensures d == 1 || d == -1
    ensures d > 0 <==> correct
  {
    if correct then 1 else -1
  }

  /** What one delivery decides: requeue with the next retry count, or settle. */
  datatype Verdict =
    | Requeue(nextRetry: int)
    | Settle(endPrice: int, correct: bool, scoreChange: int)

  function SettleAt(startPrice: int, endPrice: int, direction: Direction): (v: Verdict)
    ensures v.Settle? && v.endPrice == endPrice
    ensures v.correct == IsCorrect(startPrice, endPrice, direction)
    ensures v.scoreChange == ScoreChange(v.correct)
  {
    var correct := IsCorrect(startPrice, endPrice, direction);
    Settle(endPrice, correct, ScoreChange(correct))
  }

  /**
   * The decision of one delivery, given the ledger lookup and the current
   * price (consulted only when the lookup is not usable).
   */
  function Decide(startPrice: int, direction: Direction, lookup: Option<int>, current: int, retryCount: int): (v: Verdict)
    ensures v.Requeue? <==> !Usable(lookup) && current == startPrice && retryCount < MaxRetries
    ensures v.Requeue? ==> v.nextRetry == retryCount + 1
    ensures v.Settle? && Usable(lookup) ==> v.endPrice == lookup.value
    ensures v.Settle? && !Usable(lookup) ==> v.endPrice == current
    ensures v.Settle? ==> v.correct == IsCorrect(startPrice, v.endPrice, direction) && v.scoreChange == ScoreChange(v.correct)
  {
    if Usable(lookup) then SettleAt(startPrice, lookup.value, direction)
    else if current == startPrice && retryCount < MaxRetries then Requeue(retryCount + 1)
    else SettleAt(startPrice, current, direction)
  }

  /** The requeued task: the same guess with the retry count advanced; the instrument is not carried. */
  function RetryTask(task: Task): (next: Task)
    ensures next.userId == task.userId && next.guessId == task.guessId
    ensures next.direction == task.direction && next.startPrice == task.startPrice && next.startTime == task.startTime
    ensures next.instrument.None? && next.retryCount == Some(RetriesSoFar(task) + 1)
  {
    Task(task.userId, task.guessId, None, task.direction, task.startPrice, task.startTime, Some(RetriesSoFar(task) + 1))
  }

  /** What the market shows at one delivery: the ledger lookup and the current price. */
  datatype Sighting = Sighting(lookup: Option<int>, current: int)

  /**
   * The verdicts of successive deliveries of one guess, one per sighting,
   * up to and including the one that settles it.
   */
  function Deliveries(startPrice: int, direction: Direction, retryCount: int, market: seq<Sighting>): (vs: seq<Verdict>)
    ensures |vs| <= |market|
    ensures forall i :: 0 <= i < |vs| - 1 ==> vs[i].Requeue?
    decreases |market|
  {
    if market == [] then []
    else
      var v := Decide(startPrice, direction, market[0].lookup, market[0].current, retryCount);
      if v.Requeue? then [v] + Deliveries(startPrice, direction, v.nextRetry, market[1..])
      else [v]
  }

  /**
   * A guess is requeued at most MaxRetries - retryCount times: given enough
   * deliveries, the last verdict settles it.
   */
  lemma {:induction false} RetriesBounded(startPrice: int, direction: Direction, retryCount: int, market: seq<Sighting>)
    requires 0 <= retryCount <= MaxRetries
    ensures |Deliveries(startPrice, direction, retryCount, market)| <= MaxRetries - retryCount + 1
    ensures |market| >= MaxRetries - retryCount + 1 ==>
      var vs := Deliveries(startPrice, direction, retryCount, market);
      |vs| >= 1 && vs[|vs| - 1].Settle?
    decreases MaxRetries - retryCount
  {
    if market != [] {
      var v := Decide(startPrice, direction, market[0].lookup, market[0].current, retryCount);
      if v.Requeue? {
        RetriesBounded(startPrice, direction, retryCount + 1, market[1..]);
      }
    }
  }

  /** True when a sighting shows the start price and no usable recorded price. */
  predicate Flat(startPrice: int, s: Sighting) {
    !Usable(s.lookup) && s.current == startPrice
  }

  /**
   * A market that never moves: the guess is requeued exactly
   * MaxRetries - retryCount times and then settled as incorrect, losing a point.
   */
  lemma {:induction false} FlatMarketLoses(startPrice: int, direction: Direction, retryCount: int, market: seq<Sighting>)
    requires 0 <= retryCount <= MaxRetries
    requires |market| >= MaxRetries - retryCount + 1
    requires forall i :: 0 <= i < |market| ==> Flat(startPrice, market[i])
    ensures var vs := Deliveries(startPrice, direction, retryCount, market);
      |vs| == MaxRetries - retryCount + 1 && vs[|vs| - 1] == Settle(startPrice, false, -1)
    decreases MaxRetries - retryCount
  {
    assert Flat(startPrice, market[0]);
    if retryCount < MaxRetries {
      assert forall i :: 0 <= i < |market[1..]| ==> Flat(startPrice, market[1..][i]) by {
        forall i | 0 <= i < |market[1..]| ensures Flat(startPrice, market[1..][i]) {
          assert market[1..][i] == market[i + 1];
        }
      }
      FlatMarketLoses(startPrice, direction, retryCount + 1, market[1..]);
    }
  }

  /** The ledger lookup the resolver makes for a task. */
  function Lookup(t: Table, task: Task, env: Env): (r: Option<int>)
    ensures r.Some? ==> r.value != task.startPrice
    ensures var next := InstrumentPrice.GetPriceAfter(t, Instrument, task.startTime + MinTimeElapsedMs, env);
      r == if next.Some? && next.value != task.startPrice then next else None
  {
    InstrumentPrice.DifferentPriceInspectsOldestOnly(t, Instrument, task.startTime + MinTimeElapsedMs, task.startPrice, env);
    InstrumentPrice.FindDifferentPriceAfter(t, Instrument, task.startTime + MinTimeElapsedMs, task.startPrice, env)
  }

  /** A price the lookup finds was recorded more than a minute after the guess. */
  lemma LookupFoundAfterAMinute(t: Table, task: Task, env: Env)
    requires Lookup(t, task, env).Some?
    ensures exists ts :: ts in PricePartition(t, Instrument) && ts > task.startTime + MinTimeElapsedMs
                      && PricePartition(t, Instrument)[ts].price == Lookup(t, task, env).value
  {
    var bound := task.startTime + MinTimeElapsedMs;
    var later := After(PricePartition(t, Instrument), bound);
    var ts := Earliest(later);
    assert ts in PricePartition(t, Instrument) && ts > bound;
  }

  /**
   * The price stage of one delivery, given the ledger lookup and the
   * answer of the current-price request: the verdict, or the error of that
   * request when it was needed and failed.
   */
  function StageVerdict(task: Task, lookup: Option<int>, current: Result<int, Error>): (r: Result<Verdict, Error>)
    ensures r.Err? <==> !Usable(lookup) && current.Err?
    ensures r.Err? ==> r.error == current.error
    ensures r.Ok? && Usable(lookup) ==> r.value == SettleAt(task.startPrice, lookup.value, task.direction)
    ensures r.Ok? && r.value.Requeue? ==> r.value.nextRetry == RetriesSoFar(task) + 1 <= MaxRetries
  {
    if Usable(lookup) then Ok(SettleAt(task.startPrice, lookup.value, task.direction))
    else
      match current
      case Err(e) => Err(e)
      case Ok(price) => Ok(Decide(task.startPrice, task.direction, lookup, price, RetriesSoFar(task)))
  }

  /** The price stage against the table: only an upstream failure can fail it. */
  function PriceStage(t: Table, task: Task, env: Env): (r: Result<Verdict, Error>)
    ensures r.Err? ==> !Usable(Lookup(t, task, env)) && r.error == Failed(PriceFetchCall)
  {
    StageVerdict(task, Lookup(t, task, env), InstrumentPrice.CurrentPrice(t, Instrument, env))
  }

  /** The table after the price stage: a current-price request may have stored a fetch. */
  function AfterPriceStage(t: Table, task: Task, env: Env): Table {
    if Usable(Lookup(t, task, env)) then t else InstrumentPrice.AfterCurrentPrice(t, Instrument, env)
  }

  /** The price stage touches only the price ledger. */
  lemma PriceStageKeepsGuesses(t: Table, task: Task, env: Env, userId: string)
    ensures GuessPartition(AfterPriceStage(t, task, env), userId) == GuessPartition(t, userId)
  {
    if !Usable(Lookup(t, task, env)) {
      InstrumentPrice.CurrentPriceKeepsGuesses(t, Instrument, env, userId);
    }
  }

  /** The result of a delivery that did not fail. */
  datatype Resolution =
    | Requeued(task: Task)
    | Resolved(endPrice: int, correct: bool, scoreChange: int)

  /** The price stage as the handler runs it: the ledger lookup, then the current price if needed. */
  method RunPriceStage(store: Store, task: Task, env: Env) returns (stage: Result<Verdict, Error>)
    modifies store
    ensures stage == PriceStage(old(store.items), task, env)
    ensures store.items == AfterPriceStage(old(store.items), task, env)
  {
    ghost var t0 := store.items;
    ghost var current0 := InstrumentPrice.CurrentPrice(t0, Instrument, env);
    var lookup := Lookup(store.items, task, env);
    if Usable(lookup) {
      return Ok(SettleAt(task.startPrice, lookup.value, task.direction));
    }
    var current := InstrumentPrice.GetCurrentInstrumentPrice(store, Instrument, env);
    assert current == current0;
    if current.Err? {
      return Err(current.error);
    }
    stage := Ok(Decide(task.startPrice, task.direction, lookup, current.value, RetriesSoFar(task)));
  }

  /** The settling writes: the score first, then the guess. */
  method RunSettlement(store: Store, task: Task, v: Verdict, env: Env) returns (r: Result<Resolution, Error>)
    requires v.Settle?
    modifies store
    ensures var scored := Db.AddScore(old(store.items), task.userId, v.scoreChange, env.nowMs);
      && (UpdateScoreCall in env.failing || scored.None? ==> r == Err(Failed(UpdateScoreCall)) && store.items == old(store.items))
      && (UpdateScoreCall !in env.failing && scored.Some? && ResolveGuessCall in env.failing ==>
            r == Err(Failed(ResolveGuessCall)) && store.items == scored.value)
      && (UpdateScoreCall !in env.failing && scored.Some? && ResolveGuessCall !in env.failing ==>
            r == Ok(Resolved(v.endPrice, v.correct, v.scoreChange))
            && store.items == Db.MarkResolved(scored.value, task.userId, task.startTime, v.endPrice, v.correct, v.scoreChange, env.nowMs))
  {
    var scored := Db.UpdateUserScore(store, task.userId, v.scoreChange, env);
    if scored.Fail? {
      return Err(scored.error);
    }
    var resolved := Db.ResolveGuess(store, task.userId, task.startTime, v.endPrice, v.correct, v.scoreChange, env);
    if resolved.Fail? {
      return Err(resolved.error);
    }
    r := Ok(Resolved(v.endPrice, v.correct, v.scoreChange));
  }

  /**
   * The handler. The score is updated before the guess is marked resolved;
   * any failure is rethrown, so the delivery fails and is retried by the queue.
   */
  method Handle(store: Store, outbox: Queue.Outbox, task: Task, env: Env) returns (r: Result<Resolution, Error>)
    modifies store, outbox
    ensures var stage := PriceStage(old(store.items), task, env);
      var t1 := AfterPriceStage(old(store.items), task, env);
      && (stage.Err? ==> r == Err(stage.error) && store.items == t1 && outbox.sent == old(outbox.sent))
      && (stage.Ok? && stage.value.Requeue? ==>
            store.items == t1
            && (QueueSendCall in env.failing ==> r == Err(Failed(QueueSendCall)) && outbox.sent == old(outbox.sent))
            && (QueueSendCall !in env.failing ==>
                  r == Ok(Requeued(RetryTask(task)))
                  && outbox.sent == old(outbox.sent) + [Queue.Message(RetryTask(task), RetryDelaySeconds)]))
    ensures var stage := PriceStage(old(store.items), task, env);
      var t1 := AfterPriceStage(old(store.items), task, env);
      stage.Ok? && stage.value.Settle? ==>
        var v := stage.value;
        var scored := Db.AddScore(t1, task.userId, v.scoreChange, env.nowMs);
        && outbox.sent == old(outbox.sent)
        && (UpdateScoreCall in env.failing || scored.None? ==> r == Err(Failed(UpdateScoreCall)) && store.items == t1)
        && (UpdateScoreCall !in env.failing && scored.Some? && ResolveGuessCall in env.failing ==>
              r == Err(Failed(ResolveGuessCall)) && store.items == scored.value)
        && (UpdateScoreCall !in env.failing && scored.Some? && ResolveGuessCall !in env.failing ==>
              r == Ok(Resolved(v.endPrice, v.correct, v.scoreChange))
              && store.items == Db.MarkResolved(scored.value, task.userId, task.startTime, v.endPrice, v.correct, v.scoreChange, env.nowMs))
  {
    var stage := RunPriceStage(store, task, env);
    if stage.Err? {
      return Err(stage.error);
    }
    if stage.value.Requeue? {
      var retry := RetryTask(task);
      var sent := outbox.Send(retry, RetryDelaySeconds, env);
      if sent.Fail? {
        return Err(sent.error);
      }
      return Ok(Requeued(retry));
    }
    r := RunSettlement(store, task, stage.value, env);
  }

  /**
   * Settling the user's active guess (its task names the newest guess)
   * leaves the user free to guess again, and their score moves by exactly
   * the score change.
   */
  lemma SettlementClearsActiveGuess(t: Table, task: Task, v: Verdict, nowMs: int)
    requires v.Settle?
    requires GuessPartition(t, task.userId).Keys != {} && Latest(GuessPartition(t, task.userId)) == task.startTime
    requires Db.AddScore(t, task.userId, v.scoreChange, nowMs).Some?
    ensures var scored := Db.AddScore(t, task.userId, v.scoreChange, nowMs).value;
      var t' := Db.MarkResolved(scored, task.userId, task.startTime, v.endPrice, v.correct, v.scoreChange, nowMs);
      && Db.GetActiveGuess(t', task.userId).None?
      && Db.GetUser(t', task.userId).Some?
      && Db.GetUser(t', task.userId).value.score == Db.GetUser(t, task.userId).value.score + v.scoreChange
  {
    var scored := Db.AddScore(t, task.userId, v.scoreChange, nowMs).value;
    assert GuessPartition(scored, task.userId) == GuessPartition(t, task.userId);
    Db.ResolvedGuessIsNotActive(scored, task.userId, v.endPrice, v.correct, v.scoreChange, nowMs);
    var t' := Db.MarkResolved(scored, task.userId, task.startTime, v.endPrice, v.correct, v.scoreChange, nowMs);
    assert t'[ProfileKey(task.userId)] == scored[ProfileKey(task.userId)];
  }

  /** The arguments after the user id in the handler's resolution call, as written. */
  function AsWrittenArgs(v: Verdict): seq<Db.JsValue>
    requires v.Settle?
  {
    [Db.Num(v.endPrice), Db.Bool(v.correct), Db.Num(v.scoreChange)]
  }

  /** The arguments the store layer's signature asks for. */
  function IntendedArgs(task: Task, v: Verdict): seq<Db.JsValue>
    requires v.Settle?
  {
    [Db.Num(task.startTime), Db.Num(v.endPrice), Db.Bool(v.correct), Db.Num(v.scoreChange)]
  }

  /**
   * As written, every argument lands one parameter early: the end price
   * becomes the start time, the outcome the end price, the score change
   * the outcome, and the score change is left undefined. The write is
   * rejected whatever the table holds.
   */
  lemma AsWrittenCallIsRejected(t: Table, task: Task, v: Verdict, nowMs: int)
    requires v.Settle?
    ensures var args := AsWrittenArgs(v);
      && Db.Bind(args, 0) == Db.Num(v.endPrice) && Db.Bind(args, 1) == Db.Bool(v.correct)
      && Db.Bind(args, 2) == Db.Num(v.scoreChange) && Db.Bind(args, 3) == Db.Undefined
    ensures Db.ResolveCall(t, task.userId, AsWrittenArgs(v), nowMs) == Db.Rejected
  {
  }

  /** With the start time in place the call performs the resolution write of the settling step. */
  lemma IntendedCallResolves(t: Table, task: Task, v: Verdict, nowMs: int)
    requires v.Settle?
    ensures Db.ResolveCall(t, task.userId, IntendedArgs(task, v), nowMs)
         == Db.Written(Db.MarkResolved(t, task.userId, task.startTime, v.endPrice, v.correct, v.scoreChange, nowMs))
  {
  }

  /**
   * One settling delivery with the resolution call as written: the score
   * write applies, then the resolution write is rejected and the error is
   * rethrown. Returns the result and the table afterwards.
   */
  function AsWrittenSettlement(t: Table, task: Task, v: Verdict, env: Env): (r: (Result<Resolution, Error>, Table))
    requires v.Settle?
    ensures var scored := Db.AddScore(t, task.userId, v.scoreChange, env.nowMs);
      && (UpdateScoreCall in env.failing || scored.None? ==> r == (Err(Failed(UpdateScoreCall)), t))
      && (UpdateScoreCall !in env.failing && scored.Some? ==> r == (Err(Failed(ResolveGuessCall)), scored.value))
  {
    var scored := Db.AddScore(t, task.userId, v.scoreChange, env.nowMs);
    if UpdateScoreCall in env.failing || scored.None? then (Err(Failed(UpdateScoreCall)), t)
    else
      var s := scored.value;
      var resolved := Resolved(v.endPrice, v.correct, v.scoreChange);
      match Db.ResolveCall(s, task.userId, AsWrittenArgs(v), env.nowMs)
      case Written(t') => (Ok(resolved), t')
      case _ => (Err(Failed(ResolveGuessCall)), s)
  }

  /** The table after `n` deliveries of the same task, each settling with `v`, with the call as written. */
  function AsWrittenRedeliveries(t: Table, task: Task, v: Verdict, env: Env, n: nat): Table
    requires v.Settle?
  {
    if n == 0 then t else AsWrittenRedeliveries(AsWrittenSettlement(t, task, v, env).1, task, v, env, n - 1)
  }

  /**
   * Since the delivery fails, the queue hands the task out again, and each
   * delivery moves the score once more while the guess stays pending.
   */
  lemma {:induction false} AsWrittenRedeliveryRepeatsScore(t: Table, task: Task, v: Verdict, env: Env, n: nat)
    requires v.Settle? && UpdateScoreCall !in env.failing
    requires Db.AddScore(t, task.userId, v.scoreChange, env.nowMs).Some?
    ensures var t' := AsWrittenRedeliveries(t, task, v, env, n);
      && Db.GetUser(t', task.userId).Some?
      && Db.GetUser(t', task.userId).value.score == Db.GetUser(t, task.userId).value.score + n * v.scoreChange
      && GuessPartition(t', task.userId) == GuessPartition(t, task.userId)
    decreases n
  {
    if n > 0 {
      AsWrittenDeliveryStep(t, task, v, env);
      var scored := AsWrittenSettlement(t, task, v, env).1;
      AsWrittenRedeliveryRepeatsScore(scored, task, v, env, n - 1);
    }
  }

  /** One failed delivery: the score moves once, the guesses stay, and the score can move again. */
  lemma AsWrittenDeliveryStep(t: Table, task: Task, v: Verdict, env: Env)
    requires v.Settle? && UpdateScoreCall !in env.failing
    requires Db.AddScore(t, task.userId, v.scoreChange, env.nowMs).Some?
    ensures var scored := AsWrittenSettlement(t, task, v, env).1;
      && Db.GetUser(scored, task.userId).Some?
      && Db.GetUser(scored, task.userId).value.score == Db.GetUser(t, task.userId).value.score + v.scoreChange
      && GuessPartition(scored, task.userId) == GuessPartition(t, task.userId)
      && Db.AddScore(scored, task.userId, v.scoreChange, env.nowMs).Some?
  {
    var scored := Db.AddScore(t, task.userId, v.scoreChange, env.nowMs).value;
    assert GuessPartition(scored, task.userId).Keys == GuessPartition(t, task.userId).Keys;
    assert scored[ProfileKey(task.userId)].profile.score.Some?;
  }
}
