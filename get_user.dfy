/**
 * The profile query (backend/lambdas/getUser/index.ts): the caller's
 * profile together with their pending guess, or nothing for an unknown user.
 */
module GetUserHandler {
  import opened Wrappers
  import opened Domain
  import opened Table
  import Db

  /** The profile fields and the pending guess, if any. */
  datatype UserResponse = UserResponse(user: User, activeGuess: Option<Guess>)

  function Handle(t: Table, sub: Option<string>, env: Env): (r: Result<Option<UserResponse>, Error>)
    ensures CallerId(sub).None? ==> r == Err(Unauthorized)
    ensures r == Err(Failed(GetUserCall)) <==> CallerId(sub).Some? && GetUserCall in env.failing
    ensures r == Err(Failed(GetActiveGuessCall)) <==>
      && CallerId(sub).Some? && GetUserCall !in env.failing && Db.GetUser(t, sub.value).Some?
      && GetActiveGuessCall in env.failing
    ensures r.Err? ==> r.error in {Unauthorized, Failed(GetUserCall), Failed(GetActiveGuessCall)}
    ensures r == Ok(None) <==> CallerId(sub).Some? && GetUserCall !in env.failing && Db.GetUser(t, sub.value).None?
    ensures r.Ok? && r.value.Some? ==>
      && CallerId(sub).Some? && Db.GetUser(t, sub.value).Some?
      && r.value.value.user == Db.GetUser(t, sub.value).value
      && r.value.value.user.userId == sub.value
      && r.value.value.activeGuess == Db.GetActiveGuess(t, sub.value)
    ensures r.Ok? && r.value.Some? && r.value.value.activeGuess.Some? ==>
      var g := r.value.value.activeGuess.value;
      !g.resolved && g in GuessPartition(t, sub.value).Values
  {
    match CallerId(sub)
    case None => Err(Unauthorized)
    case Some(userId) =>
      if GetUserCall in env.failing then Err(Failed(GetUserCall))
      else
        match Db.GetUser(t, userId)
        case None => Ok(None)
        case Some(user) =>
          if GetActiveGuessCall in env.failing then Err(Failed(GetActiveGuessCall))
          else
            var active := Db.GetActiveGuess(t, userId);
            assert active.Some? ==> active.value == GuessPartition(t, userId)[Latest(GuessPartition(t, userId))];
            Ok(Some(UserResponse(user, active)))
  }

  /** A freshly placed guess (newer than the user's others) is what the profile query reports. */
  lemma ReportsPlacedGuess(t: Table, sub: Option<string>, g: Guess, env: Env)
    requires CallerId(sub).Some? && Db.GetUser(t, sub.value).Some?
    requires GetUserCall !in env.failing && GetActiveGuessCall !in env.failing
    requires !g.resolved
    requires forall ts :: ts in GuessPartition(t, sub.value) ==> ts < g.startTime
    ensures Handle(Db.PutGuess(t, sub.value, g), sub, env).Ok?
    ensures Handle(Db.PutGuess(t, sub.value, g), sub, env).value.Some?
    ensures Handle(Db.PutGuess(t, sub.value, g), sub, env).value.value.activeGuess == Some(g)
  {
    Db.PlacedGuessIsActive(t, sub.value, g);
    assert Db.PutGuess(t, sub.value, g)[ProfileKey(sub.value)] == t[ProfileKey(sub.value)];
  }
}
