// Value records of the marketplace domain (the dataclasses of user.py), the
// failures its operations raise, and the first-match lookup that every
// "find the entry with this uuid" step of the entities uses.

module Records {

  datatype Option<+T> = None | Some(value: T)

  /** An operation that yields a value or raises one of the domain's failures. */
  datatype Result<+T> = Ok(value: T) | Err(error: Error)

  /** An operation that yields nothing or raises one of the domain's failures. */
  datatype Outcome = Pass | Fail(error: Error)

  /** The exceptions the entities and handlers raise. The last four are the
      Python built-in exceptions the code runs into: `next()` over an empty
      generator, a method called on `None` or on the wrong kind of entity, a
      repository delete of an absent key, and calling a list. */
  datatype Error =
    | NotVip
    | AdAlreadyExist
    | AdvertisementAlreadyPromoted
    | SmsLimitWasReached
    | CommentNotFound
    | ReportNotOpened
    | UserNotActive
    | StopIteration
    | AttributeError
    | KeyError
    | TypeError

  /** A clock reading, in microseconds (the resolution of Python's datetime). */
  type Time = int

  /** `datetime.timedelta(days=7)` in microseconds. */
  const WEEK: int := 7 * 24 * 60 * 60 * 1_000_000

  datatype Location = Location(street: string, number: int, city: string, zipCode: int, state: string, country: string)

  datatype Billing = Billing(cardNumber: string, expiryDate: string, secretCode: string, fullname: string)

  /** `datePublished` and `expiryDate` are `None` once the advert is unpublished;
      `localisation`, `service` and `prices` may be `None` as the callers pass them. */
  datatype Advertisement = Advertisement(
    title: string,
    description: string,
    datePublished: Option<Time>,
    expiryDate: Option<Time>,
    localisation: Option<Location>,
    service: Option<map<string, string>>,
    prices: Option<map<string, int>>,
    owner: string,
    published: bool,
    uuid: string)

  datatype PremiumAdvertisement = PremiumAdvertisement(providerUuid: string, adUuid: string, datePublished: Time, expiryDate: Option<Time>)

  datatype PrivatePicture = PrivatePicture(picture: seq<bv8>, datePublished: Time)

  datatype Comment = Comment(targetUuid: string, ownerUuid: string, timestamp: Time, modifTimestamp: Option<Time>, content: string, uuid: string)

  datatype ReportStatus = New | Pending | Closed

  datatype Report = Report(targetUuid: string, ownerUuid: string, timestamp: Time, content: string, status: ReportStatus, uuid: string, comments: seq<Comment>)

  // The identifiers the lookups match on.
  function AdKey(a: Advertisement): string { a.uuid }
  function CommentKey(c: Comment): string { c.uuid }
  function PremiumKey(p: PremiumAdvertisement): string { p.adUuid }

  /** The position of the FIRST entry of `s` whose key is `id`, as
      `next(a for a in s if key(a) == id)` finds it; `None` when there is none. */
  function IndexOf<T>(s: seq<T>, key: T -> string, id: string): (r: Option<nat>)
    ensures r.Some? ==> r.value < |s| && key(s[r.value]) == id
    ensures r.Some? ==> forall j :: 0 <= j < r.value ==> key(s[j]) != id
    ensures r.None? <==> forall j :: 0 <= j < |s| ==> key(s[j]) != id
  {
    if |s| == 0 then None
    else if key(s[0]) == id then Some(0)
    else match IndexOf(s[1..], key, id)
      case None => None
      case Some(i) => Some(i + 1)
  }

  /** No two entries share a key. */
  ghost predicate UniqueKeys<T>(s: seq<T>, key: T -> string)
  {
    forall i, j :: 0 <= i < j < |s| ==> key(s[i]) != key(s[j])
  }

  /** `s` without its entry at `i` (Python's `list.remove` of that entry). */
  function RemoveAt<T>(s: seq<T>, i: nat): (r: seq<T>)
    requires i < |s|
    ensures |r| == |s| - 1
    ensures multiset(r) + multiset{s[i]} == multiset(s)
    ensures forall j :: 0 <= j < |r| ==> r[j] == if j < i then s[j] else s[j + 1]
  {
    assert s == s[..i] + [s[i]] + s[i + 1..];
    s[..i] + s[i + 1..]
  }

  /** Appending an entry whose key is absent keeps the keys unique, and the
      first-match lookup then finds the new entry at the end. */
  lemma AppendFreshKeepsUnique<T>(s: seq<T>, key: T -> string, x: T)
    requires UniqueKeys(s, key)
    requires IndexOf(s, key, key(x)).None?
    ensures UniqueKeys(s + [x], key)
    ensures IndexOf(s + [x], key, key(x)) == Some(|s|)
  {
    var t := s + [x];
    forall i, j | 0 <= i < j < |t| ensures key(t[i]) != key(t[j]) {
      assert t[i] == s[i];
      if j < |s| { assert t[j] == s[j]; } else { assert t[j] == x; }
    }
    assert t[|s|] == x;
    assert forall j :: 0 <= j < |s| ==> t[j] == s[j];
  }

  /** Removing the entry at `i` from a uniquely keyed sequence leaves no entry
      with its key, and the rest stays uniquely keyed. */
  lemma RemoveLeavesNoMatch<T>(s: seq<T>, key: T -> string, i: nat)
    requires UniqueKeys(s, key)
    requires i < |s|
    ensures UniqueKeys(RemoveAt(s, i), key)
    ensures IndexOf(RemoveAt(s, i), key, key(s[i])).None?
  {
    var r := RemoveAt(s, i);
    forall j | 0 <= j < |r| ensures key(r[j]) != key(s[i]) {
      if j < i { assert r[j] == s[j]; } else { assert r[j] == s[j + 1]; }
    }
    forall a, b | 0 <= a < b < |r| ensures key(r[a]) != key(r[b]) {
      var a' := if a < i then a else a + 1;
      var b' := if b < i then b else b + 1;
      assert r[a] == s[a'] && r[b] == s[b'] && a' < b';
    }
  }

  /** Overwriting the entry the lookup found with one of the same key keeps
      the lookup's answer and the uniqueness of the keys. */
  lemma ReplaceKeepsLookup<T>(s: seq<T>, key: T -> string, id: string, y: T)
    requires IndexOf(s, key, id).Some?
    requires key(y) == id
    ensures IndexOf(s[IndexOf(s, key, id).value := y], key, id) == IndexOf(s, key, id)
    ensures UniqueKeys(s, key) ==> UniqueKeys(s[IndexOf(s, key, id).value := y], key)
  {
    var i := IndexOf(s, key, id).value;
    var t := s[i := y];
    assert key(t[i]) == id;
    assert forall j :: 0 <= j < |t| && j != i ==> t[j] == s[j];
  }
}
