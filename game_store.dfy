/**
 * The client-side game state (frontend/src/lib/stores/game.svelte.ts): the
 * signed-in user with their pending guess, the latest price, the resolved
 * history, and the derived countdown and price-age labels.
 */
module Game {
  import opened Wrappers
  import opened Domain

  /** The profile as the client holds it, with the pending guess it was served. */
  datatype ClientUser = ClientUser(userId: string, email: string, score: int, activeGuess: Option<Guess>)

  /** The countdown label: "Resolving..." or "Resolving in <seconds>s". */
  datatype Countdown = Resolving | ResolvingIn(seconds: int)

  /** The price-age label: "Just now", "<n> seconds ago" or "<n> minute(s) ago". */
  datatype LastUpdate = JustNow | SecondsAgo(seconds: int) | MinutesAgo(minutes: int, plural: bool)

  /** Start times above this are taken to be milliseconds. */
  const MillisecondThreshold := 10000000000
  /** Seconds from placement to resolution. */
  const ResolutionDelaySeconds := 60
  const ActiveGuessMessage := "You already have an active guess"
  const CreateGuessFallbackMessage := "Failed to create guess"

  /** A start time in seconds: values above the threshold are floored from milliseconds. */
  function StartSeconds(startTime: int): (s: int)
    ensures startTime > MillisecondThreshold ==> s * 1000 <= startTime < s * 1000 + 1000
    ensures startTime <= MillisecondThreshold ==> s == startTime
  {
    if startTime > MillisecondThreshold then startTime / 1000 else startTime
  }

  /** A guess is pending when it is present and not resolved. */
  predicate IsPending(guess: Option<Guess>) {
    guess.Some? && !guess.value.resolved
  }

  /** The countdown for a pending guess, at client time `currentTime` (seconds). */
  function CountdownFor(guess: Option<Guess>, currentTime: int): (c: Option<Countdown>)
    ensures c.None? <==> !IsPending(guess)
    ensures c == Some(Resolving) <==> IsPending(guess) && StartSeconds(guess.value.startTime) + ResolutionDelaySeconds <= currentTime
    ensures c.Some? && c.value.ResolvingIn? ==>
      c.value.seconds > 0 && c.value.seconds == StartSeconds(guess.value.startTime) + ResolutionDelaySeconds - currentTime
  {
    if !IsPending(guess) then None
    else
      var remaining := StartSeconds(guess.value.startTime) + ResolutionDelaySeconds - currentTime;
      if remaining <= 0 then Some(Resolving) else Some(ResolvingIn(remaining))
  }

  /**
   * For a guess stamped in milliseconds by the placement step, a client
   * whose clock is not behind the placement shows at most a minute to go,
   * and "Resolving..." from the first second after the minute is up.
   */
  lemma CountdownWithinAMinute(guess: Guess, nowMs: int)
    requires !guess.resolved && guess.startTime > MillisecondThreshold
    requires nowMs >= guess.startTime
    ensures var c := CountdownFor(Some(guess), Seconds(nowMs)).value;
      && (c.ResolvingIn? ==> 1 <= c.seconds <= ResolutionDelaySeconds)
      && (nowMs >= guess.startTime + ResolutionDelaySeconds * 1000 ==> c == Resolving)
  {
  }

  /** The age label of a classified age in seconds. */
  function AgeLabel(secondsAgo: int): (u: LastUpdate)
    ensures u == JustNow <==> secondsAgo < 5
    ensures u.SecondsAgo? <==> 5 <= secondsAgo < 60
    ensures u.SecondsAgo? ==> u.seconds == secondsAgo
    ensures u.MinutesAgo? <==> secondsAgo >= 60
    ensures u.MinutesAgo? ==> u.minutes >= 1 && u.minutes * 60 <= secondsAgo < u.minutes * 60 + 60 && (u.plural <==> u.minutes > 1)
  {
    if secondsAgo < 5 then JustNow
    else if secondsAgo < 60 then SecondsAgo(secondsAgo)
    else
      var minutes := secondsAgo / 60;
      MinutesAgo(minutes, minutes > 1)
  }

  /**
   * The price-age label as written: the price timestamp, taken as seconds,
   * is subtracted from the client time; a zero timestamp means no label.
   */
  function FreshnessFor(priceTimestamp: int, currentTime: int): (u: Option<LastUpdate>)
    ensures u.None? <==> priceTimestamp == 0
    ensures u.Some? ==> u.value == AgeLabel(currentTime - priceTimestamp)
  {
    if priceTimestamp == 0 then None else Some(AgeLabel(currentTime - priceTimestamp))
  }

  /**
   * Price timestamps arrive in milliseconds (the ledger's stamp). Read as
   * seconds, any stamp from a clock less than a thousandfold later than the
   * stamp itself reads "Just now", however old the price is.
   */
  lemma MillisecondStampReadsJustNow(priceTimestamp: int, nowMs: int)
    requires priceTimestamp > 0 && 0 <= nowMs < 1000 * priceTimestamp
    ensures FreshnessFor(priceTimestamp, Seconds(nowMs)) == Some(JustNow)
  {
  }

  /**
   * The price-age label with the timestamp normalised the way the countdown
   * normalises start times.
   */
  function NormalisedFreshnessFor(priceTimestamp: int, currentTime: int): (u: Option<LastUpdate>)
    ensures u.None? <==> priceTimestamp == 0
    ensures u.Some? ==> u.value == AgeLabel(currentTime - StartSeconds(priceTimestamp))
  {
    if priceTimestamp == 0 then None else Some(AgeLabel(currentTime - StartSeconds(priceTimestamp)))
  }

  /**
   * With normalisation the label follows the real age of a millisecond
   * stamp: under four seconds old reads "Just now"; a minute or more reads
   * in minutes.
   */
  lemma NormalisedFreshnessTracksAge(priceTimestamp: int, nowMs: int)
    requires priceTimestamp > MillisecondThreshold && nowMs >= priceTimestamp
    ensures nowMs < priceTimestamp + 4000 ==> NormalisedFreshnessFor(priceTimestamp, Seconds(nowMs)) == Some(JustNow)
    ensures 5000 <= nowMs - priceTimestamp ==> NormalisedFreshnessFor(priceTimestamp, Seconds(nowMs)) != Some(JustNow)
    ensures nowMs >= priceTimestamp + 60000 ==> NormalisedFreshnessFor(priceTimestamp, Seconds(nowMs)).value.MinutesAgo?
  {
  }

  class GameStore {
    var user: Option<ClientUser>
    var currentPrice: int
    var priceTimestamp: int
    var guessHistory: seq<Guess>
    var isLoading: bool
    var error: Option<string>
    var currentTime: int   // seconds

    constructor (nowMs: int)
      ensures user.None? && currentPrice == 0 && priceTimestamp == 0 && guessHistory == []
      ensures !isLoading && error.None? && currentTime == Seconds(nowMs)
    {
      user := None;
      currentPrice := 0;
      priceTimestamp := 0;
      guessHistory := [];
      isLoading := false;
      error := None;
      currentTime := Seconds(nowMs);
    }

    function ActiveGuess(): Option<Guess>
      reads this
    {
      if user.Some? then user.value.activeGuess else None
    }

    function HasActiveGuess(): (b: bool)
      reads this
      ensures b <==> user.Some? && user.value.activeGuess.Some? && !user.value.activeGuess.value.resolved
    {
      IsPending(ActiveGuess())
    }

    /** The score shown: the user's, or 0 when signed out. */
    function Score(): (s: int)
      reads this
      ensures user.Some? ==> s == user.value.score
      ensures user.None? ==> s == 0
    {
      if user.Some? then user.value.score else 0
    }

    function TimeUntilResolution(): (c: Option<Countdown>)
      reads this
      ensures c.None? <==> !HasActiveGuess()
    {
      CountdownFor(ActiveGuess(), currentTime)
    }

    function PriceLastUpdated(): (u: Option<LastUpdate>)
      reads this
      ensures u.None? <==> priceTimestamp == 0
    {
      NormalisedFreshnessFor(priceTimestamp, currentTime)
    }

    /** The clock tick: the client time in whole seconds. */
    method Tick(nowMs: int)
      modifies this
      ensures currentTime == Seconds(nowMs)
      ensures user == old(user) && currentPrice == old(currentPrice) && priceTimestamp == old(priceTimestamp)
      ensures guessHistory == old(guessHistory) && isLoading == old(isLoading) && error == old(error)
    {
      currentTime := Seconds(nowMs);
    }

    /**
     * Placing a guess. With a pending guess only the error is set and no
     * request is made. Otherwise `response` is the backend's answer: the
     * new guess becomes the user's active guess, or its error message is
     * shown and rethrown.
     */
    method MakeGuess(direction: Direction, response: Result<Guess, string>) returns (r: Outcome<string>)
      modifies this
      ensures old(HasActiveGuess()) ==>
        && r == Pass && error == Some(ActiveGuessMessage)
        && user == old(user) && guessHistory == old(guessHistory) && isLoading == old(isLoading)
      ensures !old(HasActiveGuess()) && response.Ok? ==>
        && r == Pass && error.None? && !isLoading
        && user == (if old(user).Some? then Some(old(user).value.(activeGuess := Some(response.value))) else None)
        && guessHistory == old(guessHistory)
      ensures !old(HasActiveGuess()) && response.Err? ==>
        && r == Fail(response.error) && !isLoading && user == old(user) && guessHistory == old(guessHistory)
        && error == Some(if response.error == "" then CreateGuessFallbackMessage else response.error)
      ensures currentPrice == old(currentPrice) && priceTimestamp == old(priceTimestamp) && currentTime == old(currentTime)
    {
      if HasActiveGuess() {
        error := Some(ActiveGuessMessage);
        return Pass;
      }
      isLoading := true;
      error := None;
      match response {
        case Ok(guess) =>
          if user.Some? {
            user := Some(user.value.(activeGuess := Some(guess)));
          }
          r := Pass;
        case Err(message) =>
          error := Some(if message == "" then CreateGuessFallbackMessage else message);
          r := Fail(message);
      }
      isLoading := false;
    }

    /**
     * A guess update from the subscription. Only an update for the active
     * guess has an effect: it replaces the active guess, and if resolved it
     * adds its (non-zero) score change, is prepended to the history and
     * stops being active.
     */
    method OnGuessUpdated(updated: Guess)
      modifies this
      ensures var matches := old(user).Some? && old(user).value.activeGuess.Some?
                             && old(user).value.activeGuess.value.guessId == updated.guessId;
        && (!matches ==> user == old(user) && guessHistory == old(guessHistory))
        && (matches && !updated.resolved ==>
              user == Some(old(user).value.(activeGuess := Some(updated))) && guessHistory == old(guessHistory))
        && (matches && updated.resolved ==>
              && user.Some? && user.value.activeGuess.None?
              && user.value.userId == old(user).value.userId && user.value.email == old(user).value.email
              && user.value.score == old(user).value.score + updated.scoreChange.GetOr(0)
              && guessHistory == [updated] + old(guessHistory))
      ensures currentPrice == old(currentPrice) && priceTimestamp == old(priceTimestamp) && currentTime == old(currentTime)
      ensures isLoading == old(isLoading) && error == old(error)
    {
      if user.Some? && user.value.activeGuess.Some? && user.value.activeGuess.value.guessId == updated.guessId {
        user := Some(user.value.(activeGuess := Some(updated)));
        if updated.resolved {
          if updated.scoreChange.Some? && updated.scoreChange.value != 0 {
            user := Some(user.value.(score := user.value.score + updated.scoreChange.value));
          }
          guessHistory := [updated] + guessHistory;
          user := Some(user.value.(activeGuess := None));
        }
      }
    }

    /** A price update from the subscription. */
    method OnPriceUpdated(price: int, timestamp: int)
      modifies this
      ensures currentPrice == price && priceTimestamp == timestamp
      ensures user == old(user) && guessHistory == old(guessHistory) && currentTime == old(currentTime)
      ensures isLoading == old(isLoading) && error == old(error)
    {
      currentPrice := price;
      priceTimestamp := timestamp;
    }

    /** Sign-out: clears the session state; the price stamp and the clock stay. */
    method Reset()
      modifies this
      ensures user.None? && currentPrice == 0 && guessHistory == [] && !isLoading && error.None?
      ensures priceTimestamp == old(priceTimestamp) && currentTime == old(currentTime)
    {
      user := None;
      currentPrice := 0;
      guessHistory := [];
      isLoading := false;
      error := None;
    }
  }
}
