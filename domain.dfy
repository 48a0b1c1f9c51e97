/**
 * Entities shared by the backend handlers and the frontend store, the
 * environment a handler invocation runs in, and the errors it can raise.
 *
 * Prices are JavaScript numbers that the code only compares and copies; they
 * are modelled as integers (cents). Guess start times and price timestamps are
 * milliseconds since the epoch; profile and resolution timestamps are seconds.
 */
module Domain {
  import opened Wrappers

  /** The only instrument the handlers ever use. */
  const Instrument: string := "BTCUSD"

  datatype Direction = Up | Down

  /** A guess record (the `Guess` interface of the handlers and of the client). */
  datatype Guess = Guess(
    guessId: string,
    userId: string,
    instrument: string,
    direction: Direction,
    startPrice: int,
    startTime: int,            // milliseconds
    resolved: bool,
    endPrice: Option<int>,
    correct: Option<bool>,
    scoreChange: Option<int>,
    resolvedAt: Option<int>)   // seconds

  /** A user profile as the store layer returns it. */
  datatype User = User(userId: string, email: string, score: int, createdAt: int, updatedAt: int)

  /** A stored user profile item; `score` may be missing from the item. */
  datatype Profile = Profile(email: string, score: Option<int>, createdAt: int, updatedAt: int)

  /** A stored price observation (one entry of the append-only ledger). */
  datatype Observation = Observation(price: int, timestamp: int, source: string, ttl: int)

  /**
   * The body of a resolution task on the delay queue. `instrument` is sent by
   * the placement step but not by a retry; `retryCount` is absent on the first
   * delivery.
   */
  datatype Task = Task(
    userId: string,
    guessId: string,
    instrument: Option<string>,
    direction: Direction,
    startPrice: int,
    startTime: int,
    retryCount: Option<int>)

  /** The external calls a handler makes; each one may fail. */
  datatype Call =
    | GetUserCall | PutUserCall | GetActiveGuessCall | PutGuessCall
    | UpdateScoreCall | ResolveGuessCall | HistoryQueryCall
    | CacheReadCall | CacheWriteCall | LedgerQueryCall
    | PriceFetchCall | QueueSendCall

  /** What a handler raises: a guard failure or a failed external call. */
  datatype Error =
    | Unauthorized
    | InvalidDirection
    | ProfileNotFound
    | ActiveGuessExists
    | Failed(call: Call)

  /**
   * The environment of one invocation: the clock (`Date.now()`, read once),
   * the price the upstream source would return, and which calls fail.
   */
  datatype Env = Env(nowMs: int, upstreamPrice: int, failing: set<Call>)

  /** `Math.floor(ms / 1000)`: Dafny's division by a positive divisor floors. */
  function Seconds(ms: int): (s: int)
    ensures s * 1000 <= ms < s * 1000 + 1000
  {
    ms / 1000
  }

  /** The caller's identity, `identity?.claims?.sub`, rejected when falsy. */
  function CallerId(sub: Option<string>): (r: Option<string>)
    ensures r.Some? <==> sub.Some? && sub.value != ""
    ensures r.Some? ==> r.value == sub.value
  {
    if sub.Some? && sub.value != "" then sub else None
  }
}
