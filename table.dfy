/**
 * The single DynamoDB table shared by the store layer and the price ledger,
 * and the semantics of its Query operation.
 *
 * Items live under a (partition key, sort key) pair. Within a partition the
 * sort keys `GUESS#<ms>` and `TIMESTAMP#<ms>` are ordered by their numeric
 * timestamp. A Query with a `Limit` first takes that many items in sort-key
 * order and only then applies its filter expression, so a filter can only
 * remove items from the page, never reach past it.
 */
module Table {
  import opened Wrappers
  import opened Domain

  datatype PK = UserPK(userId: string) | InstrumentPK(instrument: string)
  datatype SK = ProfileSK | GuessSK(startTime: int) | TimestampSK(timestamp: int)
  datatype Key = Key(pk: PK, sk: SK)

  datatype Item =
    | ProfileItem(profile: Profile)
    | GuessItem(guess: Guess)
    | PriceItem(obs: Observation)

  type Table = map<Key, Item>

  /** The DynamoDB table as mutable state; writes reassign `items`. */
  class Store {
    var items: Table

    constructor (initial: Table)
      ensures items == initial
    {
      items := initial;
    }
  }

  function ProfileKey(userId: string): Key { Key(UserPK(userId), ProfileSK) }
  function GuessKey(userId: string, startTime: int): Key { Key(UserPK(userId), GuessSK(startTime)) }
  function PriceKey(instrument: string, timestamp: int): Key { Key(InstrumentPK(instrument), TimestampSK(timestamp)) }

  /** The guess items of a user's partition, by start time (`begins_with(SK, 'GUESS#')`). */
  function GuessPartition(t: Table, userId: string): (part: map<int, Guess>)
    ensures forall ts :: ts in part <==> GuessKey(userId, ts) in t && t[GuessKey(userId, ts)].GuessItem?
    ensures forall ts :: ts in part ==> part[ts] == t[GuessKey(userId, ts)].guess
  {
    map k | k in t && k.pk == UserPK(userId) && k.sk.GuessSK? && t[k].GuessItem? :: k.sk.startTime := t[k].guess
  }

  /** The price observations of an instrument's partition, by timestamp. */
  function PricePartition(t: Table, instrument: string): (part: map<int, Observation>)
    ensures forall ts :: ts in part <==> PriceKey(instrument, ts) in t && t[PriceKey(instrument, ts)].PriceItem?
    ensures forall ts :: ts in part ==> part[ts] == t[PriceKey(instrument, ts)].obs
  {
    map k | k in t && k.pk == InstrumentPK(instrument) && k.sk.TimestampSK? && t[k].PriceItem? :: k.sk.timestamp := t[k].obs
  }

  /** The key condition `SK > <prefix><after>`. */
  function After<T>(part: map<int, T>, after: int): (r: map<int, T>)
    ensures forall ts :: ts in r <==> ts in part && ts > after
    ensures forall ts :: ts in r ==> r[ts] == part[ts]
  {
    map ts | ts in part && ts > after :: part[ts]
  }

  /** `a` comes strictly before `b` in ascending (forward) or descending order. */
  predicate Before(a: int, b: int, forward: bool) {
    if forward then a < b else a > b
  }

  lemma {:induction false} FirstExists(s: set<int>, forward: bool)
    requires s != {}
    ensures exists m :: m in s && forall x :: x in s && x != m ==> Before(m, x, forward)
  {
    if forall x :: x !in s {
      assert false;
    }
    var y :| y in s;
    if s == {y} {
      assert forall x :: x in s && x != y ==> Before(y, x, forward);
    } else {
      FirstExists(s - {y}, forward);
      var m :| m in s - {y} && forall x :: x in s - {y} && x != m ==> Before(m, x, forward);
      if Before(y, m, forward) {
        forall x | x in s && x != y
          ensures Before(y, x, forward)
        {
          assert x in s - {y};
        }
      } else {
        forall x | x in s && x != m
          ensures Before(m, x, forward)
        {
          if x != y { assert x in s - {y}; }
        }
      }
    }
  }

  /** The first sort key of a non-empty set in the given scan direction. */
  function First(s: set<int>, forward: bool): (m: int)
    requires s != {}
    ensures m in s
    ensures forall x :: x in s && x != m ==> Before(m, x, forward)
  {
    FirstExists(s, forward);
    var m :| m in s && forall x :: x in s && x != m ==> Before(m, x, forward);
    m
  }

  /** The sort keys in scan order (`ScanIndexForward`). */
  function SortedKeys(s: set<int>, forward: bool): (r: seq<int>)
    ensures |r| == |s|
    ensures forall x :: x in r <==> x in s
    ensures forall i, j :: 0 <= i < j < |r| ==> Before(r[i], r[j], forward)
    ensures s != {} ==> r[0] == First(s, forward)
    decreases |s|
  {
    if s == {} then []
    else
      var m := First(s, forward);
      [m] + SortedKeys(s - {m}, forward)
  }

  /** Writing a ledger entry leaves every user's guesses as they were. */
  lemma PutPriceKeepsGuesses(t: Table, instrument: string, timestamp: int, o: Observation, userId: string)
    ensures GuessPartition(t[PriceKey(instrument, timestamp) := PriceItem(o)], userId) == GuessPartition(t, userId)
  {
    var a := GuessPartition(t[PriceKey(instrument, timestamp) := PriceItem(o)], userId);
    var b := GuessPartition(t, userId);
    assert forall ts :: ts in a <==> ts in b;
  }

  /** The most recent sort key of a non-empty partition. */
  function Latest<T>(part: map<int, T>): (ts: int)
    requires part.Keys != {}
    ensures ts in part && forall x :: x in part ==> x <= ts
  {
    First(part.Keys, false)
  }

  /** The oldest sort key of a non-empty partition. */
  function Earliest<T>(part: map<int, T>): (ts: int)
    requires part.Keys != {}
    ensures ts in part && forall x :: x in part ==> ts <= x
  {
    First(part.Keys, true)
  }

  /** The first `limit` sort keys in scan order: the page a Query reads. */
  function Page(s: set<int>, forward: bool, limit: nat): (r: seq<int>)
    ensures |r| == if limit < |s| then limit else |s|
    ensures forall x :: x in r ==> x in s
    ensures forall i, j :: 0 <= i < j < |r| ==> Before(r[i], r[j], forward)
    ensures forall x, y :: x in r && y in s && y !in r ==> Before(x, y, forward)
    ensures s != {} && limit >= 1 ==> r[0] == First(s, forward)
  {
    var all := SortedKeys(s, forward);
    var n := if limit < |s| then limit else |s|;
    assert forall y :: y in s && y !in all[..n] ==> exists j :: n <= j < |all| && all[j] == y;
    all[..n]
  }

  /** The keys of `page` whose items the filter keeps, in page order. */
  function FilterKeys<T>(page: seq<int>, part: map<int, T>, keep: T -> bool, forward: bool): (r: seq<int>)
    requires forall i :: 0 <= i < |page| ==> page[i] in part
    requires forall i, j :: 0 <= i < j < |page| ==> Before(page[i], page[j], forward)
    ensures |r| <= |page|
    ensures forall x :: x in r <==> x in page && keep(part[x])
    ensures forall i, j :: 0 <= i < j < |r| ==> Before(r[i], r[j], forward)
    ensures page != [] && keep(part[page[0]]) ==> r != [] && r[0] == page[0]
    ensures |page| == 1 && !keep(part[page[0]]) ==> r == []
  {
    if page == [] then []
    else
      var rest := FilterKeys(page[1..], part, keep, forward);
      if keep(part[page[0]]) then
        assert forall x :: x in rest ==> Before(page[0], x, forward) by {
          forall x | x in rest ensures Before(page[0], x, forward) {
            var k :| 0 <= k < |page[1..]| && page[1..][k] == x;
            assert page[k + 1] == x;
          }
        }
        [page[0]] + rest
      else rest
  }

  /**
   * A Query over one partition: the sort keys of the items it returns, in
   * scan order. It reads the first `limit` keys and keeps those whose item
   * passes the filter.
   */
  function QueryKeys<T>(part: map<int, T>, forward: bool, limit: nat, keep: T -> bool): (r: seq<int>)
    ensures |r| <= limit
    ensures forall x :: x in r ==> x in part && keep(part[x])
    ensures forall i, j :: 0 <= i < j < |r| ==> Before(r[i], r[j], forward)
    ensures forall x :: x in r <==> x in Page(part.Keys, forward, limit) && keep(part[x])
    ensures part.Keys != {} && limit >= 1 && keep(part[First(part.Keys, forward)]) ==> r != [] && r[0] == First(part.Keys, forward)
    ensures part.Keys == {} ==> r == []
  {
    var page := Page(part.Keys, forward, limit);
    FilterKeys(page, part, keep, forward)
  }

  /** A Query with Limit 1 inspects the first key only: it returns it if the filter keeps it, else nothing. */
  lemma SingleItemQuery<T>(part: map<int, T>, forward: bool, keep: T -> bool)
    ensures QueryKeys(part, forward, 1, keep) ==
      if part.Keys == {} then []
      else if keep(part[First(part.Keys, forward)]) then [First(part.Keys, forward)]
      else []
  {
    if part.Keys != {} {
      var page := Page(part.Keys, forward, 1);
      assert page == [First(part.Keys, forward)];
    }
  }

  /** The items at the given sort keys. */
  function ItemsAt<T>(keys: seq<int>, part: map<int, T>): (r: seq<T>)
    requires forall i :: 0 <= i < |keys| ==> keys[i] in part
    ensures |r| == |keys|
    ensures forall i :: 0 <= i < |r| ==> r[i] == part[keys[i]]
  {
    seq(|keys|, i requires 0 <= i < |keys| => part[keys[i]])
  }

  /** The items at `keys` are exactly the values stored under those keys. */
  lemma ItemsAtContents<T>(keys: seq<int>, part: map<int, T>)
    requires forall i :: 0 <= i < |keys| ==> keys[i] in part
    ensures forall v :: v in ItemsAt(keys, part) <==> exists k :: k in keys && k in part && part[k] == v
  {
    var items := ItemsAt(keys, part);
    forall v ensures v in items <==> exists k :: k in keys && k in part && part[k] == v {
      if v in items {
        var i :| 0 <= i < |items| && items[i] == v;
        assert keys[i] in keys;
      }
      if exists k :: k in keys && k in part && part[k] == v {
        var k :| k in keys && k in part && part[k] == v;
        var i :| 0 <= i < |keys| && keys[i] == k;
        assert items[i] == v;
      }
    }
  }
}
