// The user roles of user.py and their behaviours. Providers and visitors are
// objects whose lists and counters the behaviours change in place; moderators
// and admins hold only identity and the active flag. Operations every role
// shares (reporting, commenting on a report) take the acting user's uuid.

module Users {
  import opened Records

  /** The active flag: absent until an admin first sets it, then on or off.
      A guarded operation fails only when the flag is off. */
  datatype Activity = Unset | Active | Inactive

  /** The lifetime cap on text messages a visitor may send. */
  const SMS_LIMIT: nat := 50

  type SmsCount = n: nat | n <= SMS_LIMIT

  class Provider {
    const uuid: string
    var username: string
    var active: Activity
    var verified: bool
    var vip: bool
    var ads: seq<Advertisement>
    var billing: Option<Billing>
    var premiumAds: seq<PremiumAdvertisement>
    var privatePics: seq<PrivatePicture>

    constructor (username: string, uuid: string, ads: seq<Advertisement>, verified: bool, vip: bool, billing: Option<Billing>)
      ensures this.username == username && this.uuid == uuid && this.ads == ads
      ensures this.verified == verified && this.vip == vip && this.billing == billing
      ensures active == Unset && premiumAds == [] && privatePics == []
    {
      this.username := username;
      this.uuid := uuid;
      this.ads := ads;
      this.verified := verified;
      this.vip := vip;
      this.billing := billing;
      active := Unset;
      premiumAds := [];
      privatePics := [];
    }

    /** Appends a published advert owned by this provider, unless an advert
        with that uuid is already listed. The clock is read twice: `now` for
        the publication date, `later` for the expiry. */
    method PublishAd(title: string, description: string, prices: Option<map<string, int>>, location: Option<Location>,
                     services: Option<map<string, string>>, adUuid: string, now: Time, later: Time)
      returns (r: Result<Advertisement>)
      modifies this`ads
      ensures r.Ok? <==> active != Inactive && IndexOf(old(ads), AdKey, adUuid).None?
      ensures r.Err? ==> ads == old(ads)
      ensures r.Err? ==> r.error == if active == Inactive then UserNotActive else AdAlreadyExist
      ensures r.Ok? ==> ads == old(ads) + [r.value] && r.value == ads[|ads| - 1]
      ensures r.Ok? ==> r.value == Advertisement(title, description, Some(now), Some(later + WEEK), location, services, prices, uuid, true, adUuid)
      ensures r.Ok? && UniqueKeys(old(ads), AdKey) ==> UniqueKeys(ads, AdKey)
      ensures r.Ok? && now <= later ==> r.value.expiryDate.value >= r.value.datePublished.value + WEEK
    {
      if active == Inactive {
        return Err(UserNotActive);
      }
      if IndexOf(ads, AdKey, adUuid).Some? {
        return Err(AdAlreadyExist);
      }
      var ad := Advertisement(title, description, Some(now), Some(later + WEEK), location, services, prices, uuid, true, adUuid);
      if UniqueKeys(ads, AdKey) {
        AppendFreshKeepsUnique(ads, AdKey, ad);
      }
      ads := ads + [ad];
      r := Ok(ads[|ads| - 1]);
    }

    /** Withdraws the first advert with that uuid: not published, both dates
        cleared, whatever its state was. */
    method UnPublishAd(adUuid: string) returns (r: Result<Advertisement>)
      modifies this`ads
      ensures IndexOf(old(ads), AdKey, adUuid).None? ==> r == Err(StopIteration) && ads == old(ads)
      ensures IndexOf(old(ads), AdKey, adUuid).Some? ==>
        var i := IndexOf(old(ads), AdKey, adUuid).value;
        && ads == old(ads)[i := old(ads)[i].(published := false, datePublished := None, expiryDate := None)]
        && r == Ok(ads[i])
      ensures r.Ok? ==> !r.value.published && r.value.datePublished.None? && r.value.expiryDate.None? && r.value.uuid == adUuid
      ensures r.Ok? ==> IndexOf(ads, AdKey, adUuid) == IndexOf(old(ads), AdKey, adUuid)
      ensures UniqueKeys(old(ads), AdKey) ==> UniqueKeys(ads, AdKey)
    {
      var found := IndexOf(ads, AdKey, adUuid);
      if found.None? {
        return Err(StopIteration);
      }
      var i := found.value;
      ReplaceKeepsLookup(ads, AdKey, adUuid, ads[i].(published := false, datePublished := None, expiryDate := None));
      ads := ads[i := ads[i].(published := false, datePublished := None, expiryDate := None)];
      r := Ok(ads[i]);
    }

    /** VIP only: republishes the first advert with that uuid at `now`, with
        an expiry exactly one week later. */
    method UpdateAdPublishedDate(adUuid: string, now: Time) returns (r: Result<Advertisement>)
      modifies this`ads
      ensures !vip ==> r == Err(NotVip) && ads == old(ads)
      ensures vip && IndexOf(old(ads), AdKey, adUuid).None? ==> r == Err(StopIteration) && ads == old(ads)
      ensures vip && IndexOf(old(ads), AdKey, adUuid).Some? ==>
        var i := IndexOf(old(ads), AdKey, adUuid).value;
        && ads == old(ads)[i := old(ads)[i].(datePublished := Some(now), expiryDate := Some(now + WEEK))]
        && r == Ok(ads[i])
      ensures r.Ok? ==> r.value.datePublished == Some(now) && r.value.expiryDate == Some(r.value.datePublished.value + WEEK)
      ensures r.Ok? ==> IndexOf(ads, AdKey, adUuid) == IndexOf(old(ads), AdKey, adUuid)
      ensures UniqueKeys(old(ads), AdKey) ==> UniqueKeys(ads, AdKey)
    {
      if !vip {
        return Err(NotVip);
      }
      var found := IndexOf(ads, AdKey, adUuid);
      if found.None? {
        return Err(StopIteration);
      }
      var i := found.value;
      ReplaceKeepsLookup(ads, AdKey, adUuid, ads[i].(datePublished := Some(now), expiryDate := Some(now + WEEK)));
      ads := ads[i := ads[i].(datePublished := Some(now), expiryDate := Some(now + WEEK))];
      r := Ok(ads[i]);
    }

    /** The billing details held, as the last `UpdateBilling` left them. */
    function GetBilling(): (b: Option<Billing>)
      reads this
      ensures b == billing
    {
      billing
    }

    /** Replaces the billing details wholesale. */
    method UpdateBilling(cardNumber: string, expiryDate: string, secretCode: string, fullname: string) returns (b: Billing)
      modifies this`billing
      ensures b == Billing(cardNumber, expiryDate, secretCode, fullname)
      ensures billing == Some(b) && GetBilling() == Some(b)
    {
      b := Billing(cardNumber, expiryDate, secretCode, fullname);
      billing := Some(b);
    }

    /** The first advert with that uuid, or `None`; never fails. */
    function GetAd(adUuid: string): (r: Option<Advertisement>)
      reads this
      ensures r.None? <==> forall j :: 0 <= j < |ads| ==> ads[j].uuid != adUuid
      ensures r.Some? ==> IndexOf(ads, AdKey, adUuid).Some? && r.value == ads[IndexOf(ads, AdKey, adUuid).value]
    {
      match IndexOf(ads, AdKey, adUuid)
      case None => None
      case Some(i) => Some(ads[i])
    }

    /** Replaces the location of the first advert with that uuid wholesale. */
    method UpdateAdLocation(adUuid: string, street: string, number: int, city: string, zipCode: int, state: string, country: string)
      returns (r: Result<Advertisement>)
      modifies this`ads
      ensures IndexOf(old(ads), AdKey, adUuid).None? ==> r == Err(StopIteration) && ads == old(ads)
      ensures IndexOf(old(ads), AdKey, adUuid).Some? ==>
        var i := IndexOf(old(ads), AdKey, adUuid).value;
        && ads == old(ads)[i := old(ads)[i].(localisation := Some(Location(street, number, city, zipCode, state, country)))]
        && r == Ok(ads[i])
      ensures r.Ok? ==> IndexOf(ads, AdKey, adUuid) == IndexOf(old(ads), AdKey, adUuid)
      ensures UniqueKeys(old(ads), AdKey) ==> UniqueKeys(ads, AdKey)
    {
      var found := IndexOf(ads, AdKey, adUuid);
      if found.None? {
        return Err(StopIteration);
      }
      var i := found.value;
      ReplaceKeepsLookup(ads, AdKey, adUuid, ads[i].(localisation := Some(Location(street, number, city, zipCode, state, country))));
      ads := ads[i := ads[i].(localisation := Some(Location(street, number, city, zipCode, state, country)))];
      r := Ok(ads[i]);
    }

    /** Replaces the services of the first advert with that uuid wholesale. */
    method UpdateAdServices(adUuid: string, offers: Option<map<string, string>>) returns (r: Result<Advertisement>)
      modifies this`ads
      ensures IndexOf(old(ads), AdKey, adUuid).None? ==> r == Err(StopIteration) && ads == old(ads)
      ensures IndexOf(old(ads), AdKey, adUuid).Some? ==>
        var i := IndexOf(old(ads), AdKey, adUuid).value;
        && ads == old(ads)[i := old(ads)[i].(service := offers)]
        && r == Ok(ads[i])
      ensures r.Ok? ==> IndexOf(ads, AdKey, adUuid) == IndexOf(old(ads), AdKey, adUuid)
      ensures UniqueKeys(old(ads), AdKey) ==> UniqueKeys(ads, AdKey)
    {
      var found := IndexOf(ads, AdKey, adUuid);
      if found.None? {
        return Err(StopIteration);
      }
      var i := found.value;
      ReplaceKeepsLookup(ads, AdKey, adUuid, ads[i].(service := offers));
      ads := ads[i := ads[i].(service := offers)];
      r := Ok(ads[i]);
    }

    /** Replaces the prices of the first advert with that uuid wholesale. */
    method UpdateAdPrices(adUuid: string, prices: Option<map<string, int>>) returns (r: Result<Advertisement>)
      modifies this`ads
      ensures IndexOf(old(ads), AdKey, adUuid).None? ==> r == Err(StopIteration) && ads == old(ads)
      ensures IndexOf(old(ads), AdKey, adUuid).Some? ==>
        var i := IndexOf(old(ads), AdKey, adUuid).value;
        && ads == old(ads)[i := old(ads)[i].(prices := prices)]
        && r == Ok(ads[i])
      ensures r.Ok? ==> IndexOf(ads, AdKey, adUuid) == IndexOf(old(ads), AdKey, adUuid)
      ensures UniqueKeys(old(ads), AdKey) ==> UniqueKeys(ads, AdKey)
    {
      var found := IndexOf(ads, AdKey, adUuid);
      if found.None? {
        return Err(StopIteration);
      }
      var i := found.value;
      ReplaceKeepsLookup(ads, AdKey, adUuid, ads[i].(prices := prices));
      ads := ads[i := ads[i].(prices := prices)];
      r := Ok(ads[i]);
    }

    /** Removes the first advert with that uuid; when the uuids are unique,
        no advert with it is left. */
    method DeleteAd(adUuid: string) returns (r: Outcome)
      modifies this`ads
      ensures IndexOf(old(ads), AdKey, adUuid).None? ==> r == Fail(StopIteration) && ads == old(ads)
      ensures IndexOf(old(ads), AdKey, adUuid).Some? ==>
        r == Pass && ads == RemoveAt(old(ads), IndexOf(old(ads), AdKey, adUuid).value)
      ensures r.Pass? ==> |ads| == |old(ads)| - 1
      ensures r.Pass? && UniqueKeys(old(ads), AdKey) ==> UniqueKeys(ads, AdKey) && GetAd(adUuid).None?
    {
      var found := IndexOf(ads, AdKey, adUuid);
      if found.None? {
        return Fail(StopIteration);
      }
      if UniqueKeys(ads, AdKey) {
        RemoveLeavesNoMatch(ads, AdKey, found.value);
      }
      ads := RemoveAt(ads, found.value);
      r := Pass;
    }

    /** VIP only, once per advert: records a premium promotion carrying the
        advert's current expiry. The checks run in this order: VIP, already
        promoted, advert present. */
    method PromoteAdToPremium(adUuid: string, now: Time) returns (r: Result<PremiumAdvertisement>)
      modifies this`premiumAds
      ensures !vip ==> r == Err(NotVip)
      ensures vip && IndexOf(old(premiumAds), PremiumKey, adUuid).Some? ==> r == Err(AdvertisementAlreadyPromoted)
      ensures vip && IndexOf(old(premiumAds), PremiumKey, adUuid).None? && IndexOf(ads, AdKey, adUuid).None? ==>
        r == Err(StopIteration)
      ensures vip && IndexOf(old(premiumAds), PremiumKey, adUuid).None? && IndexOf(ads, AdKey, adUuid).Some? ==>
        r == Ok(PremiumAdvertisement(uuid, adUuid, now, ads[IndexOf(ads, AdKey, adUuid).value].expiryDate))
      ensures r.Err? ==> premiumAds == old(premiumAds)
      ensures r.Ok? ==> premiumAds == old(premiumAds) + [r.value]
      ensures UniqueKeys(old(premiumAds), PremiumKey) ==> UniqueKeys(premiumAds, PremiumKey)
    {
      if !vip {
        return Err(NotVip);
      }
      if IndexOf(premiumAds, PremiumKey, adUuid).Some? {
        return Err(AdvertisementAlreadyPromoted);
      }
      var found := IndexOf(ads, AdKey, adUuid);
      if found.None? {
        return Err(StopIteration);
      }
      var promoted := PremiumAdvertisement(uuid, ads[found.value].uuid, now, ads[found.value].expiryDate);
      if UniqueKeys(premiumAds, PremiumKey) {
        AppendFreshKeepsUnique(premiumAds, PremiumKey, promoted);
      }
      premiumAds := premiumAds + [promoted];
      r := Ok(promoted);
    }

    /** The `private_pics` getter: the pictures the setter last stored. */
    function PrivatePics(): (pics: seq<PrivatePicture>)
      reads this
      ensures pics == privatePics
    {
      privatePics
    }

    /** The `private_pics` setter: replaces the list wholesale. */
    method SetPrivatePics(pictures: seq<PrivatePicture>)
      modifies this`privatePics
      ensures privatePics == pictures && PrivatePics() == pictures
    {
      privatePics := pictures;
    }
  }

  /** `get_ad` yields the FIRST advert with that uuid: every advert before
      the one returned has another uuid. */
  lemma GetAdIsFirstMatch(p: Provider, adUuid: string)
    ensures p.GetAd(adUuid).Some? ==>
      exists i :: 0 <= i < |p.ads| && p.ads[i] == p.GetAd(adUuid).value && p.ads[i].uuid == adUuid
                  && forall j :: 0 <= j < i ==> p.ads[j].uuid != adUuid
  {
  }

  /** A new comment by `ownerUuid` on `targetUuid`, not yet modified. */
  function NewComment(targetUuid: string, ownerUuid: string, content: string, uuid: string, now: Time): (c: Comment)
    ensures c.targetUuid == targetUuid && c.ownerUuid == ownerUuid && c.uuid == uuid
    ensures c.content == content && c.timestamp == now && c.modifTimestamp.None?
  {
    Comment(targetUuid, ownerUuid, now, None, content, uuid)
  }

  class Visitor {
    const uuid: string
    var username: string
    var active: Activity
    var isPremium: bool
    var smsSent: SmsCount
    var comments: seq<Comment>

    constructor (username: string, uuid: string, isPremium: bool, comments: seq<Comment>)
      ensures this.username == username && this.uuid == uuid && this.isPremium == isPremium
      ensures this.comments == comments && active == Unset && smsSent == 0
    {
      this.username := username;
      this.uuid := uuid;
      this.isPremium := isPremium;
      this.comments := comments;
      active := Unset;
      smsSent := 0;
    }

    /** Counts one more text message while under the cap, refuses at the cap;
        the counter is the number of successful calls. */
    method SendSms() returns (r: Outcome)
      modifies this`smsSent
      ensures r.Pass? <==> old(smsSent) < SMS_LIMIT
      ensures r.Fail? ==> r.error == SmsLimitWasReached
      ensures smsSent == if r.Pass? then old(smsSent) + 1 else old(smsSent)
    {
      if smsSent < SMS_LIMIT {
        smsSent := smsSent + 1;
        r := Pass;
      } else {
        r := Fail(SmsLimitWasReached);
      }
    }

    /** Writes a comment on `targetUuid` and keeps it in this visitor's list. */
    method AddComment(targetUuid: string, content: string, commentUuid: string, now: Time) returns (r: Result<Comment>)
      modifies this`comments
      ensures r.Ok? <==> active != Inactive
      ensures r.Err? ==> r.error == UserNotActive && comments == old(comments)
      ensures r.Ok? ==> r.value == NewComment(targetUuid, uuid, content, commentUuid, now)
      ensures r.Ok? ==> comments == old(comments) + [r.value]
    {
      if active == Inactive {
        return Err(UserNotActive);
      }
      var c := NewComment(targetUuid, uuid, content, commentUuid, now);
      comments := comments + [c];
      r := Ok(c);
    }

    /** Rewrites the first of this visitor's comments with that uuid and
        stamps the modification time. */
    method ModifyComment(commentUuid: string, content: string, now: Time) returns (r: Result<Comment>)
      modifies this`comments
      ensures IndexOf(old(comments), CommentKey, commentUuid).None? ==> r == Err(CommentNotFound) && comments == old(comments)
      ensures IndexOf(old(comments), CommentKey, commentUuid).Some? ==>
        var i := IndexOf(old(comments), CommentKey, commentUuid).value;
        && comments == old(comments)[i := old(comments)[i].(content := content, modifTimestamp := Some(now))]
        && r == Ok(comments[i])
    {
      var found := IndexOf(comments, CommentKey, commentUuid);
      if found.None? {
        return Err(CommentNotFound);
      }
      var i := found.value;
      comments := comments[i := comments[i].(content := content, modifTimestamp := Some(now))];
      r := Ok(comments[i]);
    }

    /** Removes the first of this visitor's comments with that uuid. */
    method DeleteComment(commentUuid: string) returns (r: Outcome)
      modifies this`comments
      ensures IndexOf(old(comments), CommentKey, commentUuid).None? ==> r == Fail(CommentNotFound) && comments == old(comments)
      ensures IndexOf(old(comments), CommentKey, commentUuid).Some? ==>
        r == Pass && comments == RemoveAt(old(comments), IndexOf(old(comments), CommentKey, commentUuid).value)
    {
      var found := IndexOf(comments, CommentKey, commentUuid);
      if found.None? {
        return Fail(CommentNotFound);
      }
      comments := RemoveAt(comments, found.value);
      r := Pass;
    }
  }

  /** `User.report`: a fresh report by `ownerUuid` against `targetUuid`,
      in status NEW with an empty comment trail. */
  function NewReport(ownerUuid: string, targetUuid: string, content: string, uuid: string, now: Time): (r: Report)
    ensures r.status == New && r.comments == []
    ensures r.ownerUuid == ownerUuid && r.targetUuid == targetUuid && r.uuid == uuid
    ensures r.content == content && r.timestamp == now
  {
    Report(targetUuid, ownerUuid, now, content, New, uuid, [])
  }

  /** `report` extended by exactly `c` at the end of its trail, status `s`,
      every other field as it was. */
  ghost predicate Extends(report: Report, s: ReportStatus, c: Comment, after: Report)
  {
    after == report.(status := s, comments := report.comments + [c])
  }

  /** `User.comment_report`: any user may comment once the report has left
      NEW; `None` stands for a repository read that found no report. */
  function CommentOnReport(authorUuid: string, target: Option<Report>, content: string, commentUuid: string, now: Time): (r: Result<Report>)
    ensures target.None? ==> r == Err(AttributeError)
    ensures target.Some? ==> (r.Ok? <==> target.value.status != New)
    ensures target.Some? && r.Err? ==> r.error == ReportNotOpened
    ensures r.Ok? ==> Extends(target.value, target.value.status, NewComment(target.value.uuid, authorUuid, content, commentUuid, now), r.value)
  {
    match target
    case None => Err(AttributeError)
    case Some(report) =>
      if report.status == New then Err(ReportNotOpened)
      else Ok(report.(comments := report.comments + [NewComment(report.uuid, authorUuid, content, commentUuid, now)]))
  }

  function OpenedMessage(username: string): string { "Moderator " + username + " has opened your ticket !" }
  function ClosedMessage(username: string): string { "Moderator " + username + " has closed your ticket !" }

  class Moderator {
    const uuid: string
    var username: string
    var active: Activity

    constructor (username: string, uuid: string)
      ensures this.username == username && this.uuid == uuid && active == Unset
    {
      this.username := username;
      this.uuid := uuid;
      active := Unset;
    }

    /** Moves a report to PENDING and appends one automatic comment on it
        naming this moderator. Guarded by the active flag, which is checked
        before the report is touched. */
    function OpenReport(target: Option<Report>, commentUuid: string, now: Time): (r: Result<Report>)
      reads this
      ensures active == Inactive ==> r == Err(UserNotActive)
      ensures active != Inactive && target.None? ==> r == Err(AttributeError)
      ensures r.Ok? <==> active != Inactive && target.Some?
      ensures r.Ok? ==> Extends(target.value, Pending, NewComment(target.value.uuid, uuid, OpenedMessage(username), commentUuid, now), r.value)
    {
      if active == Inactive then Err(UserNotActive)
      else match target
        case None => Err(AttributeError)
        case Some(report) =>
          Ok(report.(status := Pending, comments := report.comments + [NewComment(report.uuid, uuid, OpenedMessage(username), commentUuid, now)]))
    }

    /** Moves a PENDING report to CLOSED and appends one automatic comment on
        it naming this moderator; any other status is refused. */
    function CloseReport(target: Option<Report>, commentUuid: string, now: Time): (r: Result<Report>)
      reads this
      ensures target.None? ==> r == Err(AttributeError)
      ensures target.Some? ==> (r.Ok? <==> target.value.status == Pending)
      ensures target.Some? && r.Err? ==> r.error == ReportNotOpened
      ensures r.Ok? ==> Extends(target.value, Closed, NewComment(target.value.uuid, uuid, ClosedMessage(username), commentUuid, now), r.value)
    {
      match target
      case None => Err(AttributeError)
      case Some(report) =>
        if report.status != Pending then Err(ReportNotOpened)
        else Ok(report.(status := Closed, comments := report.comments + [NewComment(report.uuid, uuid, ClosedMessage(username), commentUuid, now)]))
    }
  }

  // The user an admin operation acts on, by role: only its `active` field
  // may change.

  ghost function ProvidersOf(target: Option<Entity>): set<Provider>
  {
    if target.Some? && target.value.ProviderEntity? then {target.value.provider} else {}
  }

  ghost function VisitorsOf(target: Option<Entity>): set<Visitor>
  {
    if target.Some? && target.value.VisitorEntity? then {target.value.visitor} else {}
  }

  ghost function ModeratorsOf(target: Option<Entity>): set<Moderator>
  {
    if target.Some? && target.value.ModeratorEntity? then {target.value.moderator} else {}
  }

  ghost function AdminsOf(target: Option<Entity>): set<Admin>
  {
    if target.Some? && target.value.AdminEntity? then {target.value.admin} else {}
  }

  class Admin {
    const uuid: string
    var username: string
    var active: Activity

    constructor (username: string, uuid: string)
      ensures this.username == username && this.uuid == uuid && active == Unset
    {
      this.username := username;
      this.uuid := uuid;
      active := Unset;
    }

    /** Switches the target user's active flag on. */
    method ActivateUser(target: Option<Entity>) returns (r: Outcome)
      modifies ProvidersOf(target)`active, VisitorsOf(target)`active, ModeratorsOf(target)`active, AdminsOf(target)`active
      ensures r.Pass? <==> target.Some? && target.value.IsUser()
      ensures r.Fail? ==> r.error == AttributeError
      ensures r.Pass? ==> target.value.Flag() == Active
    {
      r := SetActivity(target, Active);
    }

    /** Switches the target user's active flag off. */
    method DisableUser(target: Option<Entity>) returns (r: Outcome)
      modifies ProvidersOf(target)`active, VisitorsOf(target)`active, ModeratorsOf(target)`active, AdminsOf(target)`active
      ensures r.Pass? <==> target.Some? && target.value.IsUser()
      ensures r.Fail? ==> r.error == AttributeError
      ensures r.Pass? ==> target.value.Flag() == Inactive
    {
      r := SetActivity(target, Inactive);
    }
  }

  /** The flag flip both admin operations perform. */
  method SetActivity(target: Option<Entity>, flag: Activity) returns (r: Outcome)
    modifies ProvidersOf(target)`active, VisitorsOf(target)`active, ModeratorsOf(target)`active, AdminsOf(target)`active
    ensures r.Pass? <==> target.Some? && target.value.IsUser()
    ensures r.Fail? ==> r.error == AttributeError
    ensures r.Pass? ==> target.value.Flag() == flag
  {
    if target.None? {
      return Fail(AttributeError);
    }
    match target.value
    case ProviderEntity(p) => p.active := flag; r := Pass;
    case VisitorEntity(v) => v.active := flag; r := Pass;
    case ModeratorEntity(m) => m.active := flag; r := Pass;
    case AdminEntity(a) => a.active := flag; r := Pass;
    case _ => r := Fail(AttributeError);
  }

  /** Everything the repository can hold. Users are objects; the records are values. */
  datatype Entity =
    | ProviderEntity(provider: Provider)
    | VisitorEntity(visitor: Visitor)
    | ModeratorEntity(moderator: Moderator)
    | AdminEntity(admin: Admin)
    | AdEntity(ad: Advertisement)
    | PremiumEntity(premium: PremiumAdvertisement)
    | CommentEntity(comment: Comment)
    | ReportEntity(report: Report)
  {
    predicate IsUser()
    {
      ProviderEntity? || VisitorEntity? || ModeratorEntity? || AdminEntity?
    }

    /** The identifier the repository files the entity under; a premium
        record has none of its own and is filed under its advert's uuid. */
    function Key(): string
    {
      match this
      case ProviderEntity(p) => p.uuid
      case VisitorEntity(v) => v.uuid
      case ModeratorEntity(m) => m.uuid
      case AdminEntity(a) => a.uuid
      case AdEntity(a) => a.uuid
      case PremiumEntity(p) => p.adUuid
      case CommentEntity(c) => c.uuid
      case ReportEntity(r) => r.uuid
    }

    /** The objects an operation on this entity may change. */
    ghost function Objects(): set<object>
    {
      match this
      case ProviderEntity(p) => {p}
      case VisitorEntity(v) => {v}
      case ModeratorEntity(m) => {m}
      case AdminEntity(a) => {a}
      case _ => {}
    }

    function Flag(): Activity
      requires IsUser()
      reads Objects()
    {
      match this
      case ProviderEntity(p) => p.active
      case VisitorEntity(v) => v.active
      case ModeratorEntity(m) => m.active
      case AdminEntity(a) => a.active
    }
  }
}
