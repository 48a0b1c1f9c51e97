/**
 * The store layer (backend/lambdas/shared/db.ts): user profiles and guesses
 * in the shared table. Reads are functions of the table; writes are methods
 * on the `Store` whose new contents are given by a function of the old ones.
 *
 * Profile items live under (USER#<userId>, PROFILE); guesses under
 * (USER#<userId>, GUESS#<startTime>). No write is conditional.
 */
module Db {
  import opened Wrappers
  import opened Domain
  import opened Table

  /** getUser: the profile item, if any; a missing score reads as 0. */
  function GetUser(t: Table, userId: string): (r: Option<User>)
    ensures r.None? <==> ProfileKey(userId) !in t || !t[ProfileKey(userId)].ProfileItem?
    ensures r.Some? ==>
      var p := t[ProfileKey(userId)].profile;
      && r.value.userId == userId
      && r.value.email == p.email
      && r.value.score == (if p.score.Some? then p.score.value else 0)
      && r.value.createdAt == p.createdAt
      && r.value.updatedAt == p.updatedAt
  {
    if ProfileKey(userId) in t && t[ProfileKey(userId)].ProfileItem? then
      var p := t[ProfileKey(userId)].profile;
      Some(User(userId, p.email, p.score.GetOr(0), p.createdAt, p.updatedAt))
    else None
  }

  /** The profile createUser writes: score 0, both timestamps the same second. */
  function NewProfile(email: string, nowMs: int): (p: Profile)
    ensures p.score == Some(0) && p.createdAt == p.updatedAt == Seconds(nowMs)
  {
    Profile(email, Some(0), Seconds(nowMs), Seconds(nowMs))
  }

  /** The table after createUser's Put (which replaces any existing profile). */
  function PutProfile(t: Table, userId: string, email: string, nowMs: int): Table {
    t[ProfileKey(userId) := ProfileItem(NewProfile(email, nowMs))]
  }

  method CreateUser(store: Store, userId: string, email: string, env: Env) returns (r: Result<User, Error>)
    modifies store
    ensures PutUserCall in env.failing ==> r == Err(Failed(PutUserCall)) && store.items == old(store.items)
    ensures PutUserCall !in env.failing ==>
      && r == Ok(User(userId, email, 0, Seconds(env.nowMs), Seconds(env.nowMs)))
      && store.items == PutProfile(old(store.items), userId, email, env.nowMs)
  {
    if PutUserCall in env.failing {
      return Err(Failed(PutUserCall));
    }
    var now := Seconds(env.nowMs);
    store.items := store.items[ProfileKey(userId) := ProfileItem(Profile(email, Some(0), now, now))];
    r := Ok(User(userId, email, 0, now, now));
  }

  /** Reading a profile back after createUser yields the user createUser returned. */
  lemma CreatedUserReadsBack(t: Table, userId: string, email: string, nowMs: int)
    ensures GetUser(PutProfile(t, userId, email, nowMs), userId)
         == Some(User(userId, email, 0, Seconds(nowMs), Seconds(nowMs)))
  {
  }

  /**
   * getActiveGuess: a Query on the user's guesses, newest first, Limit 1,
   * filtered on `resolved = false`. Only the newest guess is ever inspected.
   */
  function GetActiveGuess(t: Table, userId: string): (r: Option<Guess>)
    ensures var part := GuessPartition(t, userId);
      r.Some? <==> part.Keys != {} && !part[Latest(part)].resolved
    ensures var part := GuessPartition(t, userId);
      r.Some? ==> part.Keys != {} && r.value == part[Latest(part)]
  {
    var part := GuessPartition(t, userId);
    var keys := QueryKeys(part, false, 1, (g: Guess) => !g.resolved);
    SingleItemQuery(part, false, (g: Guess) => !g.resolved);
    if keys == [] then None else Some(part[keys[0]])
  }

  /** The table after createGuess's Put under GUESS#<startTime>. */
  function PutGuess(t: Table, userId: string, guess: Guess): Table {
    t[GuessKey(userId, guess.startTime) := GuessItem(guess)]
  }

  method CreateGuess(store: Store, userId: string, guess: Guess, env: Env) returns (r: Outcome<Error>)
    modifies store
    ensures PutGuessCall in env.failing ==> r == Fail(Failed(PutGuessCall)) && store.items == old(store.items)
    ensures PutGuessCall !in env.failing ==> r == Pass && store.items == PutGuess(old(store.items), userId, guess)
  {
    if PutGuessCall in env.failing {
      return Fail(Failed(PutGuessCall));
    }
    store.items := store.items[GuessKey(userId, guess.startTime) := GuessItem(guess)];
    r := Pass;
  }

  /** A Put on a guess key changes that user's partition at that key only. */
  lemma PutGuessPartition(t: Table, userId: string, guess: Guess)
    ensures GuessPartition(PutGuess(t, userId, guess), userId) == GuessPartition(t, userId)[guess.startTime := guess]
  {
    var a := GuessPartition(PutGuess(t, userId, guess), userId);
    var b := GuessPartition(t, userId)[guess.startTime := guess];
    assert a.Keys == b.Keys by {
      forall ts ensures ts in a <==> ts in b {
        assert GuessKey(userId, ts) == GuessKey(userId, guess.startTime) <==> ts == guess.startTime;
      }
    }

  }

  /** Storing a guess leaves the user's profile as it was. */
  lemma PutGuessKeepsUser(t: Table, userId: string, guess: Guess)
    ensures GetUser(PutGuess(t, userId, guess), userId) == GetUser(t, userId)
  {
    assert ProfileKey(userId) != GuessKey(userId, guess.startTime);
  }

  /** Two guesses with the same start time share a key: the second replaces the first. */
  lemma SameStartTimeCollides(t: Table, userId: string, first: Guess, second: Guess)
    requires first.startTime == second.startTime
    ensures PutGuess(PutGuess(t, userId, first), userId, second) == PutGuess(t, userId, second)
    ensures GuessPartition(PutGuess(PutGuess(t, userId, first), userId, second), userId)[second.startTime] == second
  {
    PutGuessPartition(PutGuess(t, userId, first), userId, second);
  }

  /** A newly placed unresolved guess that is newer than all others is the active guess. */
  lemma PlacedGuessIsActive(t: Table, userId: string, guess: Guess)
    requires !guess.resolved
    requires forall ts :: ts in GuessPartition(t, userId) ==> ts < guess.startTime
    ensures GetActiveGuess(PutGuess(t, userId, guess), userId) == Some(guess)
  {
    PutGuessPartition(t, userId, guess);
    var part := GuessPartition(PutGuess(t, userId, guess), userId);
    assert Latest(part) == guess.startTime;
  }

  /**
   * updateUserScore: `SET score = score + :change, updatedAt = :now`. The
   * update fails when the profile or its score attribute is missing.
   */
  function AddScore(t: Table, userId: string, delta: int, nowMs: int): (r: Option<Table>)
    ensures r.None? <==> GetUser(t, userId).None? || t[ProfileKey(userId)].profile.score.None?
    ensures r.Some? ==>
      var before := GetUser(t, userId).value;
      GetUser(r.value, userId) == Some(before.(score := before.score + delta, updatedAt := Seconds(nowMs)))
    ensures r.Some? ==> r.value.Keys == t.Keys && forall k :: k in t && k != ProfileKey(userId) ==> r.value[k] == t[k]
  {
    if ProfileKey(userId) in t && t[ProfileKey(userId)].ProfileItem? && t[ProfileKey(userId)].profile.score.Some? then
      var p := t[ProfileKey(userId)].profile;
      Some(t[ProfileKey(userId) := ProfileItem(p.(score := Some(p.score.value + delta), updatedAt := Seconds(nowMs)))])
    else None
  }

  method UpdateUserScore(store: Store, userId: string, delta: int, env: Env) returns (r: Outcome<Error>)
    modifies store
    ensures var next := AddScore(old(store.items), userId, delta, env.nowMs);
      if UpdateScoreCall in env.failing || next.None? then
        r == Fail(Failed(UpdateScoreCall)) && store.items == old(store.items)
      else
        r == Pass && store.items == next.value
  {
    var next := AddScore(store.items, userId, delta, env.nowMs);
    if UpdateScoreCall in env.failing || next.None? {
      return Fail(Failed(UpdateScoreCall));
    }
    var p := store.items[ProfileKey(userId)].profile;
    store.items := store.items[ProfileKey(userId) := ProfileItem(p.(score := Some(p.score.value + delta), updatedAt := Seconds(env.nowMs)))];
    r := Pass;
  }

  /** Two score updates add up: the store does not make a repeated update a no-op. */
  lemma ScoreUpdatesAccumulate(t: Table, userId: string, delta: int, nowMs: int)
    requires AddScore(t, userId, delta, nowMs).Some?
    ensures AddScore(AddScore(t, userId, delta, nowMs).value, userId, delta, nowMs).Some?
    ensures GetUser(AddScore(AddScore(t, userId, delta, nowMs).value, userId, delta, nowMs).value, userId).value.score
         == GetUser(t, userId).value.score + 2 * delta
  {
  }

  /**
   * resolveGuess: sets the five resolution attributes of the guess under
   * GUESS#<startTime> together, whatever its current state.
   */
  function MarkResolved(t: Table, userId: string, startTime: int, endPrice: int, correct: bool, scoreChange: int, nowMs: int): (r: Table)
    ensures r.Keys == t.Keys
    ensures forall k :: k in t && k != GuessKey(userId, startTime) ==> r[k] == t[k]
    ensures GuessKey(userId, startTime) in t && t[GuessKey(userId, startTime)].GuessItem? ==>
      var g := t[GuessKey(userId, startTime)].guess;
      r[GuessKey(userId, startTime)] == GuessItem(g.(resolved := true, endPrice := Some(endPrice), correct := Some(correct),
                                                     scoreChange := Some(scoreChange), resolvedAt := Some(Seconds(nowMs))))
    ensures !(GuessKey(userId, startTime) in t && t[GuessKey(userId, startTime)].GuessItem?) ==> r == t
  {
    var k := GuessKey(userId, startTime);
    if k in t && t[k].GuessItem? then
      t[k := GuessItem(t[k].guess.(resolved := true, endPrice := Some(endPrice), correct := Some(correct),
                                   scoreChange := Some(scoreChange), resolvedAt := Some(Seconds(nowMs))))]
    else t
  }

  method ResolveGuess(store: Store, userId: string, startTime: int, endPrice: int, correct: bool, scoreChange: int, env: Env)
    returns (r: Outcome<Error>)
    modifies store
    ensures ResolveGuessCall in env.failing ==> r == Fail(Failed(ResolveGuessCall)) && store.items == old(store.items)
    ensures ResolveGuessCall !in env.failing ==>
      r == Pass && store.items == MarkResolved(old(store.items), userId, startTime, endPrice, correct, scoreChange, env.nowMs)
  {
    if ResolveGuessCall in env.failing {
      return Fail(Failed(ResolveGuessCall));
    }
    var k := GuessKey(userId, startTime);
    if k in store.items && store.items[k].GuessItem? {
      var g := store.items[k].guess;
      store.items := store.items[k := GuessItem(g.(resolved := true, endPrice := Some(endPrice), correct := Some(correct),
                                                  scoreChange := Some(scoreChange), resolvedAt := Some(Seconds(env.nowMs))))];
    }
    r := Pass;
  }

  /** An argument as JavaScript hands it over: a number, a boolean, or `undefined` for a missing one. */
  datatype JsValue = Num(n: int) | Bool(b: bool) | Undefined

  /** Positional binding: parameter `i` takes argument `i`, or `undefined` past the end of the list. */
  function Bind(args: seq<JsValue>, i: nat): JsValue {
    if i < |args| then args[i] else Undefined
  }

  /** What the resolve write does with the values it was given. */
  datatype WriteOutcome =
    | Rejected          // an expression value is undefined: nothing is written
    | Written(t: Table) // the update applied
    | IllTyped          // defined values of other types than the guess record declares

  /**
   * resolveGuess called with `args` after the user id, bound in order to
   * (guessStartTime, endPrice, correct, scoreChange). The document client is
   * built without `removeUndefinedValues`, so an undefined expression value
   * fails the request before any item is touched.
   */
  function ResolveCall(t: Table, userId: string, args: seq<JsValue>, nowMs: int): (r: WriteOutcome)
    ensures r.Rejected? <==> |args| < 4 || Undefined in args[..4]
    ensures r.Written? <==> |args| >= 4 && args[0].Num? && args[1].Num? && args[2].Bool? && args[3].Num?
    ensures r.Written? ==> r.t == MarkResolved(t, userId, args[0].n, args[1].n, args[2].b, args[3].n, nowMs)
  {
    var p := [Bind(args, 0), Bind(args, 1), Bind(args, 2), Bind(args, 3)];
    if Undefined in p then Rejected
    else if p[0].Num? && p[1].Num? && p[2].Bool? && p[3].Num? then
      Written(MarkResolved(t, userId, p[0].n, p[1].n, p[2].b, p[3].n, nowMs))
    else IllTyped
  }

  /** Resolution changes the user's partition at the resolved start time only, and keeps its keys. */
  lemma MarkResolvedPartition(t: Table, userId: string, startTime: int, endPrice: int, correct: bool, scoreChange: int, nowMs: int)
    ensures var part' := GuessPartition(MarkResolved(t, userId, startTime, endPrice, correct, scoreChange, nowMs), userId);
      && part'.Keys == GuessPartition(t, userId).Keys
      && (forall ts :: ts in part' && ts != startTime ==> part'[ts] == GuessPartition(t, userId)[ts])
      && (startTime in part' ==> part'[startTime].resolved)
  {
    var part := GuessPartition(t, userId);
    var part' := GuessPartition(MarkResolved(t, userId, startTime, endPrice, correct, scoreChange, nowMs), userId);
    assert forall ts :: ts in part' <==> ts in part;
  }

  /** Resolving the newest guess leaves the user with no active guess. */
  lemma ResolvedGuessIsNotActive(t: Table, userId: string, endPrice: int, correct: bool, scoreChange: int, nowMs: int)
    requires GuessPartition(t, userId).Keys != {}
    ensures var ts := Latest(GuessPartition(t, userId));
      GetActiveGuess(MarkResolved(t, userId, ts, endPrice, correct, scoreChange, nowMs), userId).None?
  {
    var part := GuessPartition(t, userId);
    var ts := Latest(part);
    MarkResolvedPartition(t, userId, ts, endPrice, correct, scoreChange, nowMs);
    var part' := GuessPartition(MarkResolved(t, userId, ts, endPrice, correct, scoreChange, nowMs), userId);
    assert Latest(part') == ts;
  }

  /** Every guess in a partition is stored under the key of its own start time. */
  ghost predicate KeyedByStartTime(part: map<int, Guess>) {
    forall ts :: ts in part ==> part[ts].startTime == ts
  }

  /** Storing a guess keeps every guess of the user under its own start time. */
  lemma PutGuessKeepsKeyedByStartTime(t: Table, userId: string, g: Guess)
    requires KeyedByStartTime(GuessPartition(t, userId))
    ensures KeyedByStartTime(GuessPartition(PutGuess(t, userId, g), userId))
  {
    PutGuessPartition(t, userId, g);
  }

  /** Resolution keeps every guess of the user under its own start time. */
  lemma MarkResolvedKeepsKeyedByStartTime(t: Table, userId: string, startTime: int, endPrice: int, correct: bool, scoreChange: int, nowMs: int)
    requires KeyedByStartTime(GuessPartition(t, userId))
    ensures KeyedByStartTime(GuessPartition(MarkResolved(t, userId, startTime, endPrice, correct, scoreChange, nowMs), userId))
  {
    MarkResolvedPartition(t, userId, startTime, endPrice, correct, scoreChange, nowMs);
  }

  /**
   * getGuessHistory: a Query on the user's guesses, newest first, with
   * `Limit: limit`, filtered on `resolved = true`. The filter applies to the
   * `limit` newest guesses only. DynamoDB rejects a Limit below 1.
   */
  function GetGuessHistory(t: Table, userId: string, limit: int): (r: Result<seq<Guess>, Error>)
    ensures r.Err? <==> limit < 1
    ensures r.Err? ==> r.error == Failed(HistoryQueryCall)
    ensures r.Ok? ==> r.value == ResolvedPage(GuessPartition(t, userId), limit)
  {
    if limit < 1 then Err(Failed(HistoryQueryCall))
    else Ok(ResolvedPage(GuessPartition(t, userId), limit))
  }

  /**
   * The items a history query returns from a guess partition: those among
   * the `limit` newest that are resolved, newest first.
   */
  function ResolvedPage(part: map<int, Guess>, limit: nat): (r: seq<Guess>)
    ensures |r| <= limit
    ensures forall i :: 0 <= i < |r| ==> r[i].resolved
    ensures forall g :: g in r <==> exists ts :: ts in Page(part.Keys, false, limit) && part[ts] == g && g.resolved
    ensures KeyedByStartTime(part) ==> forall i, j :: 0 <= i < j < |r| ==> r[i].startTime > r[j].startTime
  {
    var keys := QueryKeys(part, false, limit, (g: Guess) => g.resolved);
    ItemsAtContents(keys, part);
    ItemsAt(keys, part)
  }

  /** After resolving the newest guess, a history query returns it first. */
  lemma ResolvedGuessHeadsHistory(t: Table, userId: string, endPrice: int, correct: bool, scoreChange: int, nowMs: int, limit: int)
    requires GuessPartition(t, userId).Keys != {}
    requires limit >= 1
    ensures var ts := Latest(GuessPartition(t, userId));
      var t' := MarkResolved(t, userId, ts, endPrice, correct, scoreChange, nowMs);
      var h := GetGuessHistory(t', userId, limit);
      h.Ok? && |h.value| >= 1 && h.value[0] == GuessPartition(t', userId)[ts]
  {
    var part := GuessPartition(t, userId);
    var ts := Latest(part);
    var t' := MarkResolved(t, userId, ts, endPrice, correct, scoreChange, nowMs);
    var part' := GuessPartition(t', userId);
    assert part'.Keys == part.Keys;
    assert part'[ts].resolved;
    assert Latest(part') == ts;
  }

  /**
   * Because the Limit applies before the `resolved` filter, a pending
   * newest guess takes the only slot of a one-item history query.
   */
  lemma PendingGuessFillsSingleSlot(t: Table, userId: string)
    requires GetActiveGuess(t, userId).Some?
    ensures GetGuessHistory(t, userId, 1) == Ok([])
  {
    var part := GuessPartition(t, userId);
    SingleItemQuery(part, false, (g: Guess) => g.resolved);
    assert ResolvedPage(part, 1) == [];
  }
}
