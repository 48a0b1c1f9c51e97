/**
 * Placing a guess (backend/lambdas/createGuess/index.ts): checks the caller,
 * the direction, the profile and that no guess is pending; records the start
 * price; stores the guess; and queues its resolution a minute later.
 */
module CreateGuessHandler {
  import opened Wrappers
  import opened Domain
  import opened Table
  import Db
  import InstrumentPrice
  import Queue

  /** Delay, in seconds, before the resolution task is delivered. */
  const GuessDelaySeconds := 60

  /** The `direction` argument: only "up" and "down" are accepted. */
  function ParseDirection(arg: Option<string>): (d: Option<Direction>)
    ensures d == Some(Up) <==> arg == Some("up")
    ensures d == Some(Down) <==> arg == Some("down")
  {
    if arg == Some("up") then Some(Up)
    else if arg == Some("down") then Some(Down)
    else None
  }

  /**
   * The checks before any write, in the order the handler makes them; on
   * success, the caller and the direction.
   */
  function Admission(t: Table, sub: Option<string>, arg: Option<string>, env: Env): (r: Result<(string, Direction), Error>)
    ensures CallerId(sub).None? ==> r == Err(Unauthorized)
    ensures CallerId(sub).Some? && ParseDirection(arg).None? ==> r == Err(InvalidDirection)
    ensures r.Ok? <==>
      && CallerId(sub).Some? && ParseDirection(arg).Some?
      && GetUserCall !in env.failing && Db.GetUser(t, sub.value).Some?
      && GetActiveGuessCall !in env.failing && Db.GetActiveGuess(t, sub.value).None?
    ensures r.Ok? ==> r.value == (sub.value, ParseDirection(arg).value)
    ensures r == Err(Failed(GetUserCall)) <==>
      CallerId(sub).Some? && ParseDirection(arg).Some? && GetUserCall in env.failing
    ensures r == Err(ProfileNotFound) <==>
      && CallerId(sub).Some? && ParseDirection(arg).Some?
      && GetUserCall !in env.failing && Db.GetUser(t, sub.value).None?
    ensures r == Err(Failed(GetActiveGuessCall)) <==>
      && CallerId(sub).Some? && ParseDirection(arg).Some?
      && GetUserCall !in env.failing && Db.GetUser(t, sub.value).Some?
      && GetActiveGuessCall in env.failing
    ensures r == Err(ActiveGuessExists) <==>
      && CallerId(sub).Some? && ParseDirection(arg).Some?
      && GetUserCall !in env.failing && Db.GetUser(t, sub.value).Some?
      && GetActiveGuessCall !in env.failing && Db.GetActiveGuess(t, sub.value).Some?
  {
    match CallerId(sub)
    case None => Err(Unauthorized)
    case Some(userId) =>
      match ParseDirection(arg)
      case None => Err(InvalidDirection)
      case Some(direction) =>
        if GetUserCall in env.failing then Err(Failed(GetUserCall))
        else if Db.GetUser(t, userId).None? then Err(ProfileNotFound)
        else if GetActiveGuessCall in env.failing then Err(Failed(GetActiveGuessCall))
        else if Db.GetActiveGuess(t, userId).Some? then Err(ActiveGuessExists)
        else Ok((userId, direction))
  }

  /** A known caller with no pending guess passes every check when the reads succeed. */
  lemma AdmittedWhenFree(t: Table, sub: Option<string>, arg: Option<string>, env: Env)
    requires CallerId(sub).Some? && ParseDirection(arg).Some?
    requires GetUserCall !in env.failing && GetActiveGuessCall !in env.failing
    requires Db.GetUser(t, sub.value).Some? && Db.GetActiveGuess(t, sub.value).None?
    ensures Admission(t, sub, arg, env) == Ok((sub.value, ParseDirection(arg).value))
  {
  }

  /** A known caller with a pending guess is refused when the reads succeed. */
  lemma BlockedWhilePending(t: Table, sub: Option<string>, arg: Option<string>, env: Env)
    requires CallerId(sub).Some? && ParseDirection(arg).Some?
    requires GetUserCall !in env.failing && GetActiveGuessCall !in env.failing
    requires Db.GetUser(t, sub.value).Some? && Db.GetActiveGuess(t, sub.value).Some?
    ensures Admission(t, sub, arg, env) == Err(ActiveGuessExists)
  {
  }

  /** The new guess: unresolved, priced and stamped at placement. */
  function NewGuess(guessId: string, userId: string, direction: Direction, price: int, nowMs: int): (g: Guess)
    ensures g.guessId == guessId && g.userId == userId && g.instrument == Instrument && g.direction == direction
    ensures g.startPrice == price && g.startTime == nowMs
    ensures !g.resolved && g.endPrice.None? && g.correct.None? && g.scoreChange.None? && g.resolvedAt.None?
  {
    Guess(guessId, userId, Instrument, direction, price, nowMs, false, None, None, None, None)
  }

  /** The first resolution task of a guess: its identity, prediction and start, with no retry count. */
  function InitialTask(g: Guess): (task: Task)
    ensures task.userId == g.userId && task.guessId == g.guessId && task.instrument == Some(g.instrument)
    ensures task.direction == g.direction && task.startPrice == g.startPrice && task.startTime == g.startTime
    ensures task.retryCount.None?
  {
    Task(g.userId, g.guessId, Some(g.instrument), g.direction, g.startPrice, g.startTime, None)
  }

  /** The task's user and start time are the key the guess is stored under. */
  lemma TaskAddressesGuess(t: Table, g: Guess)
    ensures var task := InitialTask(g);
      Db.PutGuess(t, g.userId, g)[GuessKey(task.userId, task.startTime)] == GuessItem(g)
  {
  }

  /**
   * The handler. `guessId` is the fresh identifier the handler draws. The
   * guess is stored before its task is queued, so a failed send leaves a
   * stored guess with no task.
   */
  method Handle(store: Store, outbox: Queue.Outbox, sub: Option<string>, arg: Option<string>, guessId: string, env: Env)
    returns (r: Result<Guess, Error>)
    modifies store, outbox
    ensures var adm := Admission(old(store.items), sub, arg, env);
      adm.Err? ==> r == Err(adm.error) && store.items == old(store.items) && outbox.sent == old(outbox.sent)
    ensures var adm := Admission(old(store.items), sub, arg, env);
      var price := InstrumentPrice.CurrentPrice(old(store.items), Instrument, env);
      var t1 := InstrumentPrice.AfterCurrentPrice(old(store.items), Instrument, env);
      adm.Ok? && price.Err? ==> r == Err(price.error) && store.items == t1 && outbox.sent == old(outbox.sent)
    ensures var adm := Admission(old(store.items), sub, arg, env);
      var price := InstrumentPrice.CurrentPrice(old(store.items), Instrument, env);
      var t1 := InstrumentPrice.AfterCurrentPrice(old(store.items), Instrument, env);
      adm.Ok? && price.Ok? ==>
        var g := NewGuess(guessId, adm.value.0, adm.value.1, price.value, env.nowMs);
        && (PutGuessCall in env.failing ==>
              r == Err(Failed(PutGuessCall)) && store.items == t1 && outbox.sent == old(outbox.sent))
        && (PutGuessCall !in env.failing && QueueSendCall in env.failing ==>
              r == Err(Failed(QueueSendCall)) && store.items == Db.PutGuess(t1, g.userId, g) && outbox.sent == old(outbox.sent))
        && (PutGuessCall !in env.failing && QueueSendCall !in env.failing ==>
              r == Ok(g) && store.items == Db.PutGuess(t1, g.userId, g)
              && outbox.sent == old(outbox.sent) + [Queue.Message(InitialTask(g), GuessDelaySeconds)])
  {
    var adm := Admission(store.items, sub, arg, env);
    if adm.Err? {
      return Err(adm.error);
    }
    var (userId, direction) := adm.value;
    var price := InstrumentPrice.GetCurrentInstrumentPrice(store, Instrument, env);
    if price.Err? {
      return Err(price.error);
    }
    var guess := NewGuess(guessId, userId, direction, price.value, env.nowMs);
    var stored := Db.CreateGuess(store, userId, guess, env);
    if stored.Fail? {
      return Err(stored.error);
    }
    var sent := outbox.Send(InitialTask(guess), GuessDelaySeconds, env);
    if sent.Fail? {
      return Err(sent.error);
    }
    r := Ok(guess);
  }

  /** Price requests never touch a user's guesses. */
  lemma PriceRequestKeepsGuesses(t: Table, userId: string, env: Env)
    ensures GuessPartition(InstrumentPrice.AfterCurrentPrice(t, Instrument, env), userId) == GuessPartition(t, userId)
    ensures Db.GetUser(InstrumentPrice.AfterCurrentPrice(t, Instrument, env), userId) == Db.GetUser(t, userId)
  {
    InstrumentPrice.CurrentPriceKeepsGuesses(t, Instrument, env, userId);
    var t1 := InstrumentPrice.AfterCurrentPrice(t, Instrument, env);
    assert ProfileKey(userId) in t1 <==> ProfileKey(userId) in t;
    assert ProfileKey(userId) in t ==> t1[ProfileKey(userId)] == t[ProfileKey(userId)];
  }

  /**
   * One pending guess per user: once a guess has been placed (newer than the
   * user's earlier guesses), the next placement by the same user is refused
   * with ActiveGuessExists until it is resolved.
   */
  lemma PlacedGuessBlocksNext(t: Table, sub: Option<string>, arg: Option<string>, guessId: string, env: Env,
                              arg2: Option<string>, later: Env)
    requires Admission(t, sub, arg, env).Ok?
    requires InstrumentPrice.CurrentPrice(t, Instrument, env).Ok?
    requires forall ts :: ts in GuessPartition(t, sub.value) ==> ts < env.nowMs
    requires ParseDirection(arg2).Some?
    requires GetUserCall !in later.failing && GetActiveGuessCall !in later.failing
    ensures var adm := Admission(t, sub, arg, env).value;
      var t1 := InstrumentPrice.AfterCurrentPrice(t, Instrument, env);
      var g := NewGuess(guessId, adm.0, adm.1, InstrumentPrice.CurrentPrice(t, Instrument, env).value, env.nowMs);
      Admission(Db.PutGuess(t1, adm.0, g), sub, arg2, later) == Err(ActiveGuessExists)
  {
    var adm := Admission(t, sub, arg, env).value;
    var t1 := InstrumentPrice.AfterCurrentPrice(t, Instrument, env);
    var g := NewGuess(guessId, adm.0, adm.1, InstrumentPrice.CurrentPrice(t, Instrument, env).value, env.nowMs);
    PriceRequestKeepsGuesses(t, adm.0, env);
    Db.PlacedGuessIsActive(t1, adm.0, g);
    Db.PutGuessKeepsUser(t1, adm.0, g);
    BlockedWhilePending(Db.PutGuess(t1, adm.0, g), sub, arg2, later);
  }
}
