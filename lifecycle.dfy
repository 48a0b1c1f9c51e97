/**
 * The guess lifecycle across the placement and resolution handlers: the
 * task queued at placement addresses the stored guess, and settling it
 * frees the user to place the next guess.
 */
module Lifecycle {
  import opened Wrappers
  import opened Domain
  import opened Table
  import Db
  import InstrumentPrice
  import CreateGuessHandler
  import ResolveGuessHandler

  /**
   * Place a guess, run the resolver's price stage and settling writes on
   * its task, and the same caller is admitted again.
   */
  lemma PlaceSettlePlaceAgain(t: Table, sub: Option<string>, arg: Option<string>, guessId: string, env: Env,
                              v: ResolveGuessHandler.Verdict, env2: Env, arg3: Option<string>, env3: Env)
    requires CreateGuessHandler.Admission(t, sub, arg, env).Ok?
    requires InstrumentPrice.CurrentPrice(t, Instrument, env).Ok?
    requires forall ts :: ts in GuessPartition(t, sub.value) ==> ts < env.nowMs
    requires v.Settle?
    requires CreateGuessHandler.ParseDirection(arg3).Some?
    requires GetUserCall !in env3.failing && GetActiveGuessCall !in env3.failing
    requires var adm := CreateGuessHandler.Admission(t, sub, arg, env).value;
      var g := CreateGuessHandler.NewGuess(guessId, adm.0, adm.1, InstrumentPrice.CurrentPrice(t, Instrument, env).value, env.nowMs);
      var t2 := Db.PutGuess(InstrumentPrice.AfterCurrentPrice(t, Instrument, env), adm.0, g);
      var task := CreateGuessHandler.InitialTask(g);
      var t3 := ResolveGuessHandler.AfterPriceStage(t2, task, env2);
      Db.AddScore(t3, task.userId, v.scoreChange, env2.nowMs).Some?
    ensures var adm := CreateGuessHandler.Admission(t, sub, arg, env).value;
      var g := CreateGuessHandler.NewGuess(guessId, adm.0, adm.1, InstrumentPrice.CurrentPrice(t, Instrument, env).value, env.nowMs);
      var t2 := Db.PutGuess(InstrumentPrice.AfterCurrentPrice(t, Instrument, env), adm.0, g);
      var task := CreateGuessHandler.InitialTask(g);
      var t3 := ResolveGuessHandler.AfterPriceStage(t2, task, env2);
      var scored := Db.AddScore(t3, task.userId, v.scoreChange, env2.nowMs).value;
      var t4 := Db.MarkResolved(scored, task.userId, task.startTime, v.endPrice, v.correct, v.scoreChange, env2.nowMs);
      CreateGuessHandler.Admission(t4, sub, arg3, env3) == Ok((adm.0, CreateGuessHandler.ParseDirection(arg3).value))
  {
    var adm := CreateGuessHandler.Admission(t, sub, arg, env).value;
    var g := CreateGuessHandler.NewGuess(guessId, adm.0, adm.1, InstrumentPrice.CurrentPrice(t, Instrument, env).value, env.nowMs);
    var t2 := Db.PutGuess(InstrumentPrice.AfterCurrentPrice(t, Instrument, env), adm.0, g);
    PlacedGuessIsNewest(t, adm.0, g, env);
    SettledUserIsAdmitted(t2, CreateGuessHandler.InitialTask(g), v, env2, sub, arg3, env3);
  }

  /** After placement the new guess is the user's newest. */
  lemma PlacedGuessIsNewest(t: Table, userId: string, g: Guess, env: Env)
    requires g.userId == userId
    requires forall ts :: ts in GuessPartition(t, userId) ==> ts < g.startTime
    ensures var t2 := Db.PutGuess(InstrumentPrice.AfterCurrentPrice(t, Instrument, env), userId, g);
      GuessPartition(t2, userId).Keys != {} && Latest(GuessPartition(t2, userId)) == g.startTime
  {
    var t1 := InstrumentPrice.AfterCurrentPrice(t, Instrument, env);
    CreateGuessHandler.PriceRequestKeepsGuesses(t, userId, env);
    Db.PutGuessPartition(t1, userId, g);
    assert g.startTime in GuessPartition(Db.PutGuess(t1, userId, g), userId);
  }

  /**
   * Settling the task of the user's newest guess, after the resolver's
   * price stage, lets the caller pass every placement check.
   */
  lemma SettledUserIsAdmitted(t2: Table, task: Task, v: ResolveGuessHandler.Verdict, env2: Env,
                              sub: Option<string>, arg3: Option<string>, env3: Env)
    requires CallerId(sub) == Some(task.userId)
    requires GuessPartition(t2, task.userId).Keys != {} && Latest(GuessPartition(t2, task.userId)) == task.startTime
    requires v.Settle?
    requires Db.AddScore(ResolveGuessHandler.AfterPriceStage(t2, task, env2), task.userId, v.scoreChange, env2.nowMs).Some?
    requires CreateGuessHandler.ParseDirection(arg3).Some?
    requires GetUserCall !in env3.failing && GetActiveGuessCall !in env3.failing
    ensures var t3 := ResolveGuessHandler.AfterPriceStage(t2, task, env2);
      var scored := Db.AddScore(t3, task.userId, v.scoreChange, env2.nowMs).value;
      var t4 := Db.MarkResolved(scored, task.userId, task.startTime, v.endPrice, v.correct, v.scoreChange, env2.nowMs);
      CreateGuessHandler.Admission(t4, sub, arg3, env3) == Ok((task.userId, CreateGuessHandler.ParseDirection(arg3).value))
  {
    var t3 := ResolveGuessHandler.AfterPriceStage(t2, task, env2);
    ResolveGuessHandler.PriceStageKeepsGuesses(t2, task, env2, task.userId);
    ResolveGuessHandler.SettlementClearsActiveGuess(t3, task, v, env2.nowMs);
    var scored := Db.AddScore(t3, task.userId, v.scoreChange, env2.nowMs).value;
    var t4 := Db.MarkResolved(scored, task.userId, task.startTime, v.endPrice, v.correct, v.scoreChange, env2.nowMs);
    CreateGuessHandler.AdmittedWhenFree(t4, sub, arg3, env3);
  }

  /**
   * With the resolution call as written, every delivery the queue makes
   * before giving up on the task moves the score and fails: the guess is
   * still pending afterwards, so its owner is refused a new one.
   */
  lemma AsWrittenGuessBlocksOwner(t: Table, task: Task, v: ResolveGuessHandler.Verdict, env: Env,
                                  sub: Option<string>, arg: Option<string>, env3: Env)
    requires CallerId(sub) == Some(task.userId)
    requires v.Settle? && UpdateScoreCall !in env.failing
    requires Db.AddScore(t, task.userId, v.scoreChange, env.nowMs).Some?
    requires Db.GetActiveGuess(t, task.userId).Some?
    requires CreateGuessHandler.ParseDirection(arg).Some?
    requires GetUserCall !in env3.failing && GetActiveGuessCall !in env3.failing
    ensures var t' := ResolveGuessHandler.AsWrittenRedeliveries(t, task, v, env, ResolveGuessHandler.MaxReceiveCount);
      && Db.GetUser(t', task.userId).Some?
      && Db.GetUser(t', task.userId).value.score
         == Db.GetUser(t, task.userId).value.score + ResolveGuessHandler.MaxReceiveCount * v.scoreChange
      && Db.GetActiveGuess(t', task.userId) == Db.GetActiveGuess(t, task.userId)
      && CreateGuessHandler.Admission(t', sub, arg, env3) == Err(ActiveGuessExists)
  {
    var t' := ResolveGuessHandler.AsWrittenRedeliveries(t, task, v, env, ResolveGuessHandler.MaxReceiveCount);
    ResolveGuessHandler.AsWrittenRedeliveryRepeatsScore(t, task, v, env, ResolveGuessHandler.MaxReceiveCount);
    CreateGuessHandler.BlockedWhilePending(t', sub, arg, env3);
  }
}
