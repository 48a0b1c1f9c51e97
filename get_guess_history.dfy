/**
 * The history query (backend/lambdas/getGuessHistory/index.ts): the
 * caller's resolved guesses, newest first.
 */
module GetGuessHistoryHandler {
  import opened Wrappers
  import opened Domain
  import opened Table
  import Db

  const DefaultLimit := 10

  /** `limit || 10`: a missing or zero limit becomes the default; any other value is passed on. */
  function EffectiveLimit(limit: Option<int>): (n: int)
    ensures limit.None? || limit.value == 0 ==> n == DefaultLimit
    ensures limit.Some? && limit.value != 0 ==> n == limit.value
    ensures n != 0
  {
    if limit.None? || limit.value == 0 then DefaultLimit else limit.value
  }

  function Handle(t: Table, sub: Option<string>, limit: Option<int>, env: Env): (r: Result<seq<Guess>, Error>)
    ensures CallerId(sub).None? ==> r == Err(Unauthorized)
    ensures CallerId(sub).Some? ==>
      (r.Err? <==> HistoryQueryCall in env.failing || EffectiveLimit(limit) < 1)
    ensures CallerId(sub).Some? && r.Err? ==> r.error == Failed(HistoryQueryCall)
    ensures CallerId(sub).Some? && HistoryQueryCall !in env.failing ==>
      r == Db.GetGuessHistory(t, sub.value, EffectiveLimit(limit))
    ensures r.Ok? ==> |r.value| <= EffectiveLimit(limit)
    ensures r.Ok? ==> forall i :: 0 <= i < |r.value| ==> r.value[i].resolved
  {
    match CallerId(sub)
    case None => Err(Unauthorized)
    case Some(userId) =>
      if HistoryQueryCall in env.failing then Err(Failed(HistoryQueryCall))
      else Db.GetGuessHistory(t, userId, EffectiveLimit(limit))
  }

  /** With limit 1 and a pending guess the history is empty, however many resolved guesses exist. */
  lemma PendingGuessTakesASlot(t: Table, sub: Option<string>, env: Env)
    requires CallerId(sub).Some? && HistoryQueryCall !in env.failing
    requires Db.GetActiveGuess(t, sub.value).Some?
    ensures Handle(t, sub, Some(1), env) == Ok([])
  {
    assert EffectiveLimit(Some(1)) == 1;
    Db.PendingGuessFillsSingleSlot(t, sub.value);
  }
}
