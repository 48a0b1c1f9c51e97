/**
 * The change-stream fan-out (backend/lambdas/streamProcessor/index.ts):
 * turns table changes into real-time notifications. A guess item modified
 * into the resolved state publishes the guess to its owner; a newly inserted
 * price entry publishes the price. A record that fails is skipped; the batch
 * never fails.
 */
module StreamProcessor {
  import opened Wrappers
  import opened Domain

  datatype EventName = Insert | Modify | Remove

  /**
   * The unmarshalled new image of a changed item: its key attributes as
   * text, its entity type, and the guess and price attributes it may carry.
   */
  datatype Image = Image(
    pk: Option<string>,
    sk: Option<string>,
    entityType: Option<string>,
    guess: Guess,
    price: int,
    timestamp: int)

  datatype StreamRecord = StreamRecord(eventName: EventName, newImage: Option<Image>)

  /** A GraphQL mutation sent to the notification endpoint. */
  datatype Publication =
    | GuessStatus(userId: string, guess: Guess)
    | PriceUpdate(instrument: string, price: int, timestamp: int)

  const UserPrefix := "USER#"
  const InstrumentPrefix := "INSTRUMENT#"
  const GuessPrefix := "GUESS#"
  const PriceEntity := "PRICE"

  predicate StartsWith(s: string, prefix: string) {
    |prefix| <= |s| && s[..|prefix|] == prefix
  }

  /** `pattern` occurs in `s` at index `i`. */
  predicate OccursAt(s: string, pattern: string, i: int) {
    0 <= i && i + |pattern| <= |s| && s[i..i + |pattern|] == pattern
  }

  /** `pattern` occurs in `s` at no index below `i`. */
  predicate NoneBefore(s: string, pattern: string, i: int) {
    forall j :: 0 <= j < i ==> !OccursAt(s, pattern, j)
  }

  /** `s.replace(pattern, '')` with a string pattern: removes the first occurrence only. */
  function RemoveFirst(s: string, pattern: string): (r: string)
    ensures |r| == |s| || |r| == |s| - |pattern|
    ensures StartsWith(s, pattern) ==> r == s[|pattern|..]
    decreases |s|
  {
    if StartsWith(s, pattern) then s[|pattern|..]
    else if |s| <= |pattern| then s
    else [s[0]] + RemoveFirst(s[1..], pattern)
  }

  /** Dropping the first character shifts every occurrence one index down. */
  lemma OccursInTail(s: string, pattern: string, j: int)
    requires |s| > 0 && 0 <= j
    ensures OccursAt(s[1..], pattern, j) <==> OccursAt(s, pattern, j + 1)
  {
    if j + |pattern| <= |s| - 1 {
      assert s[1..][j..j + |pattern|] == s[j + 1..j + 1 + |pattern|];
    }
  }

  /** The pattern occurs in `s` at index `i` and nowhere before: exactly that occurrence is cut out. */
  lemma {:induction false} RemoveFirstCutsFirstOccurrence(s: string, pattern: string, i: int)
    requires OccursAt(s, pattern, i) && NoneBefore(s, pattern, i)
    ensures RemoveFirst(s, pattern) == s[..i] + s[i + |pattern|..]
    decreases |s|
  {
    if i == 0 {
      assert StartsWith(s, pattern);
    } else {
      assert !OccursAt(s, pattern, 0);
      var t := s[1..];
      OccursInTail(s, pattern, i - 1);
      forall j | 0 <= j < i - 1 ensures !OccursAt(t, pattern, j) {
        OccursInTail(s, pattern, j);
      }
      RemoveFirstCutsFirstOccurrence(t, pattern, i - 1);
      assert s[..i] == [s[0]] + t[..i - 1];
      assert s[i + |pattern|..] == t[i - 1 + |pattern|..];
    }
  }

  /** Without an occurrence of the pattern the text is returned unchanged. */
  lemma {:induction false} RemoveFirstWithoutOccurrence(s: string, pattern: string)
    requires NoneBefore(s, pattern, |s| + 1)
    ensures RemoveFirst(s, pattern) == s
    decreases |s|
  {
    assert !OccursAt(s, pattern, 0);
    if |pattern| < |s| {
      var t := s[1..];
      forall j | 0 <= j < |t| + 1 ensures !OccursAt(t, pattern, j) {
        OccursInTail(s, pattern, j);
      }
      RemoveFirstWithoutOccurrence(t, pattern);
      assert [s[0]] + t == s;
    }
  }

  /** Stripping the key prefix recovers the id the key was built from. */
  lemma StripRecoversId(prefix: string, id: string)
    ensures RemoveFirst(prefix + id, prefix) == id
  {
    assert (prefix + id)[..|prefix|] == prefix;
    assert (prefix + id)[|prefix|..] == id;
  }

  /** The guess-resolution route: a MODIFY whose image is a resolved guess. */
  predicate IsGuessResolution(record: StreamRecord)
    requires record.newImage.Some?
  {
    var item := record.newImage.value;
    item.sk.Some? && StartsWith(item.sk.value, GuessPrefix) && item.guess.resolved && record.eventName == Modify
  }

  /** The price route: an INSERT of a price entry. */
  predicate IsPriceInsert(record: StreamRecord)
    requires record.newImage.Some?
  {
    record.newImage.value.entityType == Some(PriceEntity) && record.eventName == Insert
  }

  /**
   * The mutation of the guess route: the owner is the partition key with its
   * prefix removed, and it also replaces the guess's own `userId`.
   */
  function GuessPublication(pk: string, item: Image): (p: Publication)
    ensures p.GuessStatus? && p.userId == RemoveFirst(pk, UserPrefix) && p.guess.userId == p.userId
    ensures p.guess.(userId := item.guess.userId) == item.guess
  {
    var userId := RemoveFirst(pk, UserPrefix);
    GuessStatus(userId, item.guess.(userId := userId))
  }

  /** The mutation of the price route: the instrument is the partition key without its prefix. */
  function PricePublication(pk: string, item: Image): (p: Publication)
    ensures p.PriceUpdate? && p.price == item.price && p.timestamp == item.timestamp
    ensures StartsWith(pk, InstrumentPrefix) ==> p.instrument == pk[|InstrumentPrefix|..]
  {
    PriceUpdate(RemoveFirst(pk, InstrumentPrefix), item.price, item.timestamp)
  }

  /**
   * The mutations one record calls for, in order. Reading the partition key
   * of an image without one throws, which ends the record's processing.
   */
  function Intended(record: StreamRecord): (ps: seq<Publication>)
    ensures record.newImage.None? ==> ps == []
    ensures |ps| <= 1
    ensures |ps| > 0 ==> record.newImage.Some? && record.newImage.value.pk.Some?
  {
    match record.newImage
    case None => []
    case Some(item) =>
      if IsGuessResolution(record) then
        if item.pk.None? then [] else [GuessPublication(item.pk.value, item)]
      else if IsPriceInsert(record) then
        if item.pk.None? then [] else [PricePublication(item.pk.value, item)]
      else []
  }

  /**
   * Routing: a record publishes iff its new image has a partition key and
   * it is a guess resolution or a price insert; a guess resolution
   * publishes its guess mutation and nothing else, any other publishing
   * record is a price insert and publishes its price mutation.
   */
  lemma IntendedRoutes(record: StreamRecord)
    ensures var ps := Intended(record);
      && (|ps| > 0 <==>
            && record.newImage.Some? && record.newImage.value.pk.Some?
            && (IsGuessResolution(record) || IsPriceInsert(record)))
      && (|ps| > 0 && IsGuessResolution(record) ==>
            ps == [GuessPublication(record.newImage.value.pk.value, record.newImage.value)])
      && (|ps| > 0 && !IsGuessResolution(record) ==>
            IsPriceInsert(record) && ps == [PricePublication(record.newImage.value.pk.value, record.newImage.value)])
  {
  }

  /**
   * The mutations of one record that the endpoint accepts: they are sent in
   * order, and the first rejected one ends the record.
   */
  function Accepted(ps: seq<Publication>, rejected: set<Publication>): (r: seq<Publication>)
    ensures |r| <= |ps| && r == ps[..|r|]
    ensures forall i :: 0 <= i < |r| ==> r[i] !in rejected
    ensures |r| < |ps| ==> ps[|r|] in rejected
  {
    if ps == [] || ps[0] in rejected then []
    else [ps[0]] + Accepted(ps[1..], rejected)
  }

  /** The mutations a batch publishes: each record's, in record order. */
  function Published(records: seq<StreamRecord>, rejected: set<Publication>): (r: seq<Publication>)
    ensures |r| <= |records|
  {
    if records == [] then []
    else Published(records[..|records| - 1], rejected) + Accepted(Intended(records[|records| - 1]), rejected)
  }

  /** The handler: one record at a time; a failing record is logged and skipped. */
  method Handle(records: seq<StreamRecord>, rejected: set<Publication>) returns (published: seq<Publication>)
    ensures published == Published(records, rejected)
  {
    published := [];
    var i := 0;
    while i < |records|
      invariant 0 <= i <= |records|
      invariant published == Published(records[..i], rejected)
    {
      var record := records[i];
      if record.newImage.Some? {
        var item := record.newImage.value;
        if IsGuessResolution(record) {
          if item.pk.Some? {
            var p := GuessPublication(item.pk.value, item);
            if p !in rejected {
              published := published + [p];
            }
          }
        } else if IsPriceInsert(record) {
          if item.pk.Some? {
            var p := PricePublication(item.pk.value, item);
            if p !in rejected {
              published := published + [p];
            }
          }
        }
      }
      assert records[..i + 1][..i] == records[..i];
      i := i + 1;
    }
    assert records[..|records|] == records;
  }

  /** Records are processed independently: a batch publishes what its parts publish. */
  lemma {:induction false} PublishedSplits(a: seq<StreamRecord>, b: seq<StreamRecord>, rejected: set<Publication>)
    ensures Published(a + b, rejected) == Published(a, rejected) + Published(b, rejected)
    decreases |b|
  {
    if b != [] {
      var ab := a + b;
      var front := b[..|b| - 1];
      var tail := Accepted(Intended(b[|b| - 1]), rejected);
      assert ab[..|ab| - 1] == a + front;
      assert ab[|ab| - 1] == b[|b| - 1];
      assert Published(ab, rejected) == Published(a + front, rejected) + tail;
      assert Published(b, rejected) == Published(front, rejected) + tail;
      PublishedSplits(a, front, rejected);
    } else {
      assert a + b == a;
    }
  }

  /** A rejected mutation costs only its own record: the records after it still publish. */
  lemma RejectionIsContained(before: seq<StreamRecord>, failing: StreamRecord, after: seq<StreamRecord>, rejected: set<Publication>)
    requires forall p :: p in Intended(failing) ==> p in rejected
    ensures Published(before + [failing] + after, rejected) == Published(before, rejected) + Published(after, rejected)
  {
    var ps := Intended(failing);
    if ps != [] {
      assert ps[0] in ps;
    }
    assert Accepted(ps, rejected) == [];
    OneRecord(failing, rejected);
    PublishedSplits(before, [failing], rejected);
    var head := before + [failing];
    assert Published(head, rejected) == Published(before, rejected);
    PublishedSplits(head, after, rejected);
  }

  /** A batch of one record publishes what that record's accepted mutations are. */
  lemma OneRecord(record: StreamRecord, rejected: set<Publication>)
    ensures Published([record], rejected) == Accepted(Intended(record), rejected)
  {
    assert [record][..0] == [];
  }

  /**
   * A guess item that the resolver's update turned resolved, stored under
   * USER#<userId>, publishes the resolved guess to that user.
   */
  lemma ResolvedGuessReachesOwner(userId: string, sk: string, item: Image, rejected: set<Publication>)
    requires StartsWith(sk, GuessPrefix) && item.guess.resolved
    requires item.pk == Some(UserPrefix + userId) && item.sk == Some(sk)
    requires GuessStatus(userId, item.guess.(userId := userId)) !in rejected
    ensures Published([StreamRecord(Modify, Some(item))], rejected) == [GuessStatus(userId, item.guess.(userId := userId))]
  {
    StripRecoversId(UserPrefix, userId);
    OneRecord(StreamRecord(Modify, Some(item)), rejected);
  }

  /** A new ledger entry for an instrument publishes its price and timestamp under the instrument's name. */
  lemma NewPriceIsBroadcast(instrument: string, item: Image, rejected: set<Publication>)
    requires item.entityType == Some(PriceEntity) && item.pk == Some(InstrumentPrefix + instrument)
    requires PriceUpdate(instrument, item.price, item.timestamp) !in rejected
    ensures Published([StreamRecord(Insert, Some(item))], rejected) == [PriceUpdate(instrument, item.price, item.timestamp)]
  {
    StripRecoversId(InstrumentPrefix, instrument);
    OneRecord(StreamRecord(Insert, Some(item)), rejected);
  }

  /** Records without a new image, and removals, publish nothing. */
  lemma NothingWithoutNewImageOrOnRemove(record: StreamRecord)
    requires record.newImage.None? || record.eventName == Remove
    ensures Intended(record) == []
  {
  }
}
