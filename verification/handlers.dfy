// The command handlers of Domain/handlers.py. Every handler enters the unit of
// work, reads the actor (and the target) from the repository, calls one entity
// behaviour, writes the result back with create/update/delete and commits as
// the last statement of the scope; leaving the scope always rolls back. A
// failure at any step skips the rest, so it is never committed, and the
// failure reaches the caller unchanged. Fresh uuids and clock readings are
// parameters.

module Handlers {
  import opened Records
  import opened Users
  import opened UnitOfWork
  import Commands

  /** The notification port as the in-memory fake keeps it: every message
      sent, in order, with its recipient. */
  class Notifier {
    var sent: seq<(string, string)>

    constructor ()
      ensures sent == []
    {
      sent := [];
    }

    method Send(to: string, message: string)
      modifies this
      ensures sent == old(sent) + [(to, message)]
    {
      sent := sent + [(to, message)];
    }
  }

  // What a repository read finds, by the kind the handler expects there.

  function ProviderAt(store: map<string, Entity>, key: string): Option<Provider>
  {
    if key in store && store[key].ProviderEntity? then Some(store[key].provider) else None
  }

  function VisitorAt(store: map<string, Entity>, key: string): Option<Visitor>
  {
    if key in store && store[key].VisitorEntity? then Some(store[key].visitor) else None
  }

  function ModeratorAt(store: map<string, Entity>, key: string): Option<Moderator>
  {
    if key in store && store[key].ModeratorEntity? then Some(store[key].moderator) else None
  }

  function ReportAt(store: map<string, Entity>, key: string): Option<Report>
  {
    if key in store && store[key].ReportEntity? then Some(store[key].report) else None
  }

  /** The provider, or visitor, filed under `key`, as a frame. */
  ghost function ProvidersAt(store: map<string, Entity>, key: string): set<Provider>
  {
    if key in store && store[key].ProviderEntity? then {store[key].provider} else {}
  }

  ghost function VisitorsAt(store: map<string, Entity>, key: string): set<Visitor>
  {
    if key in store && store[key].VisitorEntity? then {store[key].visitor} else {}
  }

  /** What a repository read of `key` finds, whatever its kind. */
  function EntryAt(store: map<string, Entity>, key: string): Option<Entity>
  {
    if key in store then Some(store[key]) else None
  }

  /** The worker went through one scope with the repository calls `body`,
      committing exactly when `ok`; a commit raises the fake's flag for good. */
  ghost predicate Ran(w: Worker, log0: seq<Step>, committed0: bool, body: seq<Step>, ok: bool)
    reads w
  {
    w.log == log0 + Scope(body, ok) && w.committed == (committed0 || ok)
  }

  method PublishAdvertisement(command: Commands.PublishAdvertisement, w: Worker, adUuid: string, now: Time, later: Time)
    returns (r: Result<Advertisement>)
    requires w.Valid()
    modifies w, ProvidersAt(w.store, command.owner)`ads
    ensures w.Valid()
    ensures ProviderAt(old(w.store), command.owner).None? ==> r == Err(AttributeError)
    ensures r.Err? ==> w.store == old(w.store) && Ran(w, old(w.log), old(w.committed), [Step.Read(command.owner)], false)
    ensures ProviderAt(old(w.store), command.owner).Some? ==>
      var p := ProviderAt(old(w.store), command.owner).value;
      && (r.Ok? <==> old(p.active) != Inactive && IndexOf(old(p.ads), AdKey, adUuid).None?)
      && (r.Err? ==> p.ads == old(p.ads) && r.error == if old(p.active) == Inactive then UserNotActive else AdAlreadyExist)
      && (r.Ok? ==> p.ads == old(p.ads) + [r.value])
    ensures r.Ok? ==> r.value == Advertisement(command.title, command.description, Some(now), Some(later + WEEK),
                                               command.localisation, command.service, command.prices, command.owner, true, adUuid)
    ensures r.Ok? ==> w.store == old(w.store)[adUuid := AdEntity(r.value)]
    ensures r.Ok? ==> Ran(w, old(w.log), old(w.committed), [Step.Read(command.owner), Created(adUuid)], true)
  {
    ScopeOf1(w.log, Step.Read(command.owner));
    ScopeOf2(w.log, Step.Read(command.owner), Created(adUuid));
    var scope := w.Enter();
    var publisher := w.Read(command.owner);
    if !(publisher.Some? && publisher.value.ProviderEntity?) {
      w.Exit();
      return Err(AttributeError);
    }
    var p := publisher.value.provider;
    var advertisement := p.PublishAd(command.title, command.description, command.prices, command.localisation,
                                     command.service, adUuid, now, later);
    if advertisement.Err? {
      assert w.store == old(w.store);
      w.Exit();
      return advertisement;
    }
    w.Create(AdEntity(advertisement.value));
    w.Commit();
    w.Exit();
    r := advertisement;
  }

  method UnPublishAdvertisement(command: Commands.UnPublishAdvertisement, w: Worker) returns (r: Result<Advertisement>)
    requires w.Valid()
    modifies w, ProvidersAt(w.store, command.owner)`ads
    ensures w.Valid()
    ensures ProviderAt(old(w.store), command.owner).None? ==> r == Err(AttributeError)
    ensures r.Err? ==> w.store == old(w.store) && Ran(w, old(w.log), old(w.committed), [Step.Read(command.owner)], false)
    ensures ProviderAt(old(w.store), command.owner).Some? ==>
      var p := ProviderAt(old(w.store), command.owner).value;
      && (IndexOf(old(p.ads), AdKey, command.uuid).None? ==> r == Err(StopIteration) && p.ads == old(p.ads))
      && (IndexOf(old(p.ads), AdKey, command.uuid).Some? ==>
            var i := IndexOf(old(p.ads), AdKey, command.uuid).value;
            p.ads == old(p.ads)[i := old(p.ads)[i].(published := false, datePublished := None, expiryDate := None)]
            && r == Ok(p.ads[i]))
    ensures r.Ok? ==> !r.value.published && r.value.datePublished.None? && r.value.expiryDate.None?
    ensures r.Ok? ==> w.store == old(w.store)[command.uuid := AdEntity(r.value)]
    ensures r.Ok? ==> Ran(w, old(w.log), old(w.committed), [Step.Read(command.owner), Updated(command.uuid)], true)
  {
    ScopeOf1(w.log, Step.Read(command.owner));
    ScopeOf2(w.log, Step.Read(command.owner), Updated(command.uuid));
    var scope := w.Enter();
    var publisher := w.Read(command.owner);
    if !(publisher.Some? && publisher.value.ProviderEntity?) {
      w.Exit();
      return Err(AttributeError);
    }
    var p := publisher.value.provider;
    var advertisement := p.UnPublishAd(command.uuid);
    if advertisement.Err? {
      assert w.store == old(w.store);
      w.Exit();
      return advertisement;
    }
    w.Update(AdEntity(advertisement.value));
    w.Commit();
    w.Exit();
    r := advertisement;
  }

  method UpdateAdPublishedDate(command: Commands.UpdateAdvertisementPublishedDate, w: Worker, now: Time) returns (r: Result<Advertisement>)
    requires w.Valid()
    modifies w, ProvidersAt(w.store, command.owner)`ads
    ensures w.Valid()
    ensures ProviderAt(old(w.store), command.owner).None? ==> r == Err(AttributeError)
    ensures r.Err? ==> w.store == old(w.store) && Ran(w, old(w.log), old(w.committed), [Step.Read(command.owner)], false)
    ensures ProviderAt(old(w.store), command.owner).Some? ==>
      var p := ProviderAt(old(w.store), command.owner).value;
      && (!old(p.vip) ==> r == Err(NotVip) && p.ads == old(p.ads))
      && (old(p.vip) && IndexOf(old(p.ads), AdKey, command.uuid).None? ==> r == Err(StopIteration) && p.ads == old(p.ads))
      && (old(p.vip) && IndexOf(old(p.ads), AdKey, command.uuid).Some? ==>
            var i := IndexOf(old(p.ads), AdKey, command.uuid).value;
            p.ads == old(p.ads)[i := old(p.ads)[i].(datePublished := Some(now), expiryDate := Some(now + WEEK))]
            && r == Ok(p.ads[i]))
    ensures r.Ok? ==> r.value.datePublished == Some(now) && r.value.expiryDate == Some(now + WEEK)
    ensures r.Ok? ==> w.store == old(w.store)[command.uuid := AdEntity(r.value)]
    ensures r.Ok? ==> Ran(w, old(w.log), old(w.committed), [Step.Read(command.owner), Updated(command.uuid)], true)
  {
    ScopeOf1(w.log, Step.Read(command.owner));
    ScopeOf2(w.log, Step.Read(command.owner), Updated(command.uuid));
    var scope := w.Enter();
    var publisher := w.Read(command.owner);
    if !(publisher.Some? && publisher.value.ProviderEntity?) {
      w.Exit();
      return Err(AttributeError);
    }
    var p := publisher.value.provider;
    var advertisement := p.UpdateAdPublishedDate(command.uuid, now);
    if advertisement.Err? {
      assert w.store == old(w.store);
      w.Exit();
      return advertisement;
    }
    w.Update(AdEntity(advertisement.value));
    w.Commit();
    w.Exit();
    r := advertisement;
  }

  /** The premium record is filed under its advert's uuid. */
  method PromoteAdToPremium(command: Commands.PromoteAdvertisementToPremium, w: Worker, now: Time)
    returns (r: Result<PremiumAdvertisement>)
    requires w.Valid()
    modifies w, ProvidersAt(w.store, command.owner)`premiumAds
    ensures w.Valid()
    ensures ProviderAt(old(w.store), command.owner).None? ==> r == Err(AttributeError)
    ensures r.Err? ==> w.store == old(w.store) && Ran(w, old(w.log), old(w.committed), [Step.Read(command.owner)], false)
    ensures ProviderAt(old(w.store), command.owner).Some? ==>
      var p := ProviderAt(old(w.store), command.owner).value;
      && (!old(p.vip) ==> r == Err(NotVip))
      && (old(p.vip) && IndexOf(old(p.premiumAds), PremiumKey, command.uuid).Some? ==> r == Err(AdvertisementAlreadyPromoted))
      && (old(p.vip) && IndexOf(old(p.premiumAds), PremiumKey, command.uuid).None? && IndexOf(old(p.ads), AdKey, command.uuid).None? ==>
            r == Err(StopIteration))
      && (old(p.vip) && IndexOf(old(p.premiumAds), PremiumKey, command.uuid).None? && IndexOf(old(p.ads), AdKey, command.uuid).Some? ==>
            r == Ok(PremiumAdvertisement(command.owner, command.uuid, now, old(p.ads)[IndexOf(old(p.ads), AdKey, command.uuid).value].expiryDate)))
      && (r.Err? ==> p.premiumAds == old(p.premiumAds))
      && (r.Ok? ==> p.premiumAds == old(p.premiumAds) + [r.value])
      && p.ads == old(p.ads)
    ensures r.Ok? ==> w.store == old(w.store)[command.uuid := PremiumEntity(r.value)]
    ensures r.Ok? ==> Ran(w, old(w.log), old(w.committed), [Step.Read(command.owner), Updated(command.uuid)], true)
  {
    ScopeOf1(w.log, Step.Read(command.owner));
    ScopeOf2(w.log, Step.Read(command.owner), Updated(command.uuid));
    var scope := w.Enter();
    var publisher := w.Read(command.owner);
    if !(publisher.Some? && publisher.value.ProviderEntity?) {
      w.Exit();
      return Err(AttributeError);
    }
    var p := publisher.value.provider;
    var advertisement := p.PromoteAdToPremium(command.uuid, now);
    if advertisement.Err? {
      assert w.store == old(w.store);
      w.Exit();
      return advertisement;
    }
    w.Update(PremiumEntity(advertisement.value));
    w.Commit();
    w.Exit();
    r := advertisement;
  }

  /** The provider's list loses the advert before the repository delete,
      so a repository without that entry fails the command after the
      provider has already changed. */
  method DeleteAd(command: Commands.DeleteAdvertisement, w: Worker) returns (r: Outcome)
    requires w.Valid()
    modifies w, ProvidersAt(w.store, command.owner)`ads
    ensures w.Valid()
    ensures ProviderAt(old(w.store), command.owner).None? ==> r == Fail(AttributeError)
    ensures ProviderAt(old(w.store), command.owner).Some? ==>
      var p := ProviderAt(old(w.store), command.owner).value;
      && (IndexOf(old(p.ads), AdKey, command.uuid).None? ==> r == Fail(StopIteration) && p.ads == old(p.ads))
      && (IndexOf(old(p.ads), AdKey, command.uuid).Some? ==>
            p.ads == RemoveAt(old(p.ads), IndexOf(old(p.ads), AdKey, command.uuid).value)
            && (r.Pass? <==> command.uuid in old(w.store))
            && (r.Fail? ==> r.error == KeyError))
      && (r.Pass? && UniqueKeys(old(p.ads), AdKey) ==> p.GetAd(command.uuid).None?)
    ensures r.Fail? ==> w.store == old(w.store)
    ensures r.Pass? ==> w.store == old(w.store) - {command.uuid} && command.uuid !in w.store
    ensures r == Fail(AttributeError) || r == Fail(StopIteration) ==>
      Ran(w, old(w.log), old(w.committed), [Step.Read(command.owner)], false)
    ensures r == Fail(KeyError) ==> Ran(w, old(w.log), old(w.committed), [Step.Read(command.owner), Deleted(command.uuid)], false)
    ensures r.Pass? ==> Ran(w, old(w.log), old(w.committed), [Step.Read(command.owner), Deleted(command.uuid)], true)
  {
    ScopeOf1(w.log, Step.Read(command.owner));
    ScopeOf2(w.log, Step.Read(command.owner), Deleted(command.uuid));
    var scope := w.Enter();
    var publisher := w.Read(command.owner);
    if !(publisher.Some? && publisher.value.ProviderEntity?) {
      w.Exit();
      return Fail(AttributeError);
    }
    var p := publisher.value.provider;
    var removed := p.DeleteAd(command.uuid);
    if removed.Fail? {
      assert w.store == old(w.store);
      w.Exit();
      return removed;
    }
    var deleted := w.Delete(command.uuid);
    if deleted.Fail? {
      assert w.store == old(w.store);
      w.Exit();
      return deleted;
    }
    w.Commit();
    w.Exit();
    r := Pass;
  }

  method AddComment(command: Commands.AddComment, w: Worker, commentUuid: string, now: Time) returns (r: Result<Comment>)
    requires w.Valid()
    modifies w, VisitorsAt(w.store, command.owner)`comments
    ensures w.Valid()
    ensures VisitorAt(old(w.store), command.owner).None? ==> r == Err(AttributeError)
    ensures r.Err? ==> w.store == old(w.store) && Ran(w, old(w.log), old(w.committed), [Step.Read(command.owner)], false)
    ensures VisitorAt(old(w.store), command.owner).Some? ==>
      var v := VisitorAt(old(w.store), command.owner).value;
      && (r.Ok? <==> old(v.active) != Inactive)
      && (r.Err? ==> r.error == UserNotActive && v.comments == old(v.comments))
      && (r.Ok? ==> v.comments == old(v.comments) + [r.value])
    ensures r.Ok? ==> r.value == NewComment(command.targetUuid, command.owner, command.content, commentUuid, now)
    ensures r.Ok? ==> w.store == old(w.store)[commentUuid := CommentEntity(r.value)]
    ensures r.Ok? ==> Ran(w, old(w.log), old(w.committed), [Step.Read(command.owner), Created(commentUuid)], true)
  {
    ScopeOf1(w.log, Step.Read(command.owner));
    ScopeOf2(w.log, Step.Read(command.owner), Created(commentUuid));
    var scope := w.Enter();
    var visitor := w.Read(command.owner);
    if !(visitor.Some? && visitor.value.VisitorEntity?) {
      w.Exit();
      return Err(AttributeError);
    }
    var v := visitor.value.visitor;
    var comment := v.AddComment(command.targetUuid, command.content, commentUuid, now);
    if comment.Err? {
      assert w.store == old(w.store);
      w.Exit();
      return comment;
    }
    w.Create(CommentEntity(comment.value));
    w.Commit();
    w.Exit();
    r := comment;
  }

  /** As written: the handler hands the comment's uuid, a string, to the
      static `modify_comment`, which sets `content` on its first argument.
      A string has no such attribute, and a non-visitor has no such method,
      so the call always raises and nothing is stored or committed. */
  method ModifyCommentAsWritten(command: Commands.ModifyComment, w: Worker) returns (r: Result<Comment>)
    requires w.Valid()
    modifies w
    ensures w.Valid()
    ensures r == Err(AttributeError)
    ensures w.store == old(w.store)
    ensures Ran(w, old(w.log), old(w.committed), [Step.Read(command.owner)], false)
  {
    ScopeOf1(w.log, Step.Read(command.owner));
    var scope := w.Enter();
    var visitor := w.Read(command.owner);
    w.Exit();
    r := Err(AttributeError);
  }

  /** Corrected: the comment with that uuid is looked up among the visitor's
      comments and rewritten there. */
  method ModifyComment(command: Commands.ModifyComment, w: Worker, now: Time) returns (r: Result<Comment>)
    requires w.Valid()
    modifies w, VisitorsAt(w.store, command.owner)`comments
    ensures w.Valid()
    ensures VisitorAt(old(w.store), command.owner).None? ==> r == Err(AttributeError)
    ensures r.Err? ==> w.store == old(w.store) && Ran(w, old(w.log), old(w.committed), [Step.Read(command.owner)], false)
    ensures VisitorAt(old(w.store), command.owner).Some? ==>
      var v := VisitorAt(old(w.store), command.owner).value;
      && (IndexOf(old(v.comments), CommentKey, command.uuid).None? ==> r == Err(CommentNotFound) && v.comments == old(v.comments))
      && (IndexOf(old(v.comments), CommentKey, command.uuid).Some? ==>
            var i := IndexOf(old(v.comments), CommentKey, command.uuid).value;
            v.comments == old(v.comments)[i := old(v.comments)[i].(content := command.content, modifTimestamp := Some(now))]
            && r == Ok(v.comments[i]))
    ensures r.Ok? ==> r.value.content == command.content && r.value.modifTimestamp == Some(now)
    ensures r.Ok? ==> w.store == old(w.store)[command.uuid := CommentEntity(r.value)]
    ensures r.Ok? ==> Ran(w, old(w.log), old(w.committed), [Step.Read(command.owner), Updated(command.uuid)], true)
  {
    ScopeOf1(w.log, Step.Read(command.owner));
    ScopeOf2(w.log, Step.Read(command.owner), Updated(command.uuid));
    var scope := w.Enter();
    var visitor := w.Read(command.owner);
    if !(visitor.Some? && visitor.value.VisitorEntity?) {
      w.Exit();
      return Err(AttributeError);
    }
    var v := visitor.value.visitor;
    var comment := v.ModifyComment(command.uuid, command.content, now);
    if comment.Err? {
      assert w.store == old(w.store);
      w.Exit();
      return comment;
    }
    w.Update(CommentEntity(comment.value));
    w.Commit();
    w.Exit();
    r := comment;
  }

  method DeleteComment(command: Commands.DeleteComment, w: Worker) returns (r: Outcome)
    requires w.Valid()
    modifies w, VisitorsAt(w.store, command.owner)`comments
    ensures w.Valid()
    ensures VisitorAt(old(w.store), command.owner).None? ==> r == Fail(AttributeError)
    ensures VisitorAt(old(w.store), command.owner).Some? ==>
      var v := VisitorAt(old(w.store), command.owner).value;
      && (IndexOf(old(v.comments), CommentKey, command.uuid).None? ==> r == Fail(CommentNotFound) && v.comments == old(v.comments))
      && (IndexOf(old(v.comments), CommentKey, command.uuid).Some? ==>
            v.comments == RemoveAt(old(v.comments), IndexOf(old(v.comments), CommentKey, command.uuid).value)
            && (r.Pass? <==> command.uuid in old(w.store))
            && (r.Fail? ==> r.error == KeyError))
    ensures r.Fail? ==> w.store == old(w.store)
    ensures r.Pass? ==> w.store == old(w.store) - {command.uuid} && command.uuid !in w.store
    ensures r == Fail(AttributeError) || r == Fail(CommentNotFound) ==>
      Ran(w, old(w.log), old(w.committed), [Step.Read(command.owner)], false)
    ensures r == Fail(KeyError) ==> Ran(w, old(w.log), old(w.committed), [Step.Read(command.owner), Deleted(command.uuid)], false)
    ensures r.Pass? ==> Ran(w, old(w.log), old(w.committed), [Step.Read(command.owner), Deleted(command.uuid)], true)
  {
    ScopeOf1(w.log, Step.Read(command.owner));
    ScopeOf2(w.log, Step.Read(command.owner), Deleted(command.uuid));
    var scope := w.Enter();
    var visitor := w.Read(command.owner);
    if !(visitor.Some? && visitor.value.VisitorEntity?) {
      w.Exit();
      return Fail(AttributeError);
    }
    var v := visitor.value.visitor;
    var removed := v.DeleteComment(command.uuid);
    if removed.Fail? {
      assert w.store == old(w.store);
      w.Exit();
      return removed;
    }
    var deleted := w.Delete(command.uuid);
    if deleted.Fail? {
      assert w.store == old(w.store);
      w.Exit();
      return deleted;
    }
    w.Commit();
    w.Exit();
    r := Pass;
  }

  /** As written: the message goes out before the visitor's counter is
      checked, so a call refused at the limit (or one whose uuid is no
      visitor) has still sent its message. */
  method SendSmsVisitor(command: Commands.SendSms, w: Worker, notification: Notifier) returns (r: Outcome)
    requires w.Valid()
    modifies w, notification, VisitorsAt(w.store, command.userUuid)`smsSent
    ensures w.Valid()
    ensures notification.sent == old(notification.sent) + [(command.to, command.message)]
    ensures w.store == old(w.store)
    ensures VisitorAt(old(w.store), command.userUuid).None? ==> r == Fail(AttributeError)
    ensures VisitorAt(old(w.store), command.userUuid).Some? ==>
      var v := VisitorAt(old(w.store), command.userUuid).value;
      && (r.Pass? <==> old(v.smsSent) < SMS_LIMIT)
      && (r.Fail? ==> r.error == SmsLimitWasReached)
      && v.smsSent == if r.Pass? then old(v.smsSent) + 1 else old(v.smsSent)
    ensures r.Fail? ==> Ran(w, old(w.log), old(w.committed), [Step.Read(command.userUuid)], false)
    ensures r.Pass? ==> Ran(w, old(w.log), old(w.committed), [Step.Read(command.userUuid), Updated(command.userUuid)], true)
  {
    ScopeOf1(w.log, Step.Read(command.userUuid));
    ScopeOf2(w.log, Step.Read(command.userUuid), Updated(command.userUuid));
    var scope := w.Enter();
    var visitor := w.Read(command.userUuid);
    notification.Send(command.to, command.message);
    if !(visitor.Some? && visitor.value.VisitorEntity?) {
      w.Exit();
      return Fail(AttributeError);
    }
    var v := visitor.value.visitor;
    var counted := v.SendSms();
    if counted.Fail? {
      assert w.store == old(w.store);
      w.Exit();
      return counted;
    }
    w.Update(VisitorEntity(v));
    assert w.store == old(w.store);
    w.Commit();
    w.Exit();
    r := Pass;
  }

  /** Corrected order: the visitor's counter is checked first, and a message
      goes out only for a call that the counter accepted, so the messages
      sent match the counter exactly. */
  method SendSmsVisitorWithinLimit(command: Commands.SendSms, w: Worker, notification: Notifier) returns (r: Outcome)
    requires w.Valid()
    modifies w, notification, VisitorsAt(w.store, command.userUuid)`smsSent
    ensures w.Valid()
    ensures notification.sent == old(notification.sent) + (if r.Pass? then [(command.to, command.message)] else [])
    ensures w.store == old(w.store)
    ensures VisitorAt(old(w.store), command.userUuid).None? ==> r == Fail(AttributeError)
    ensures VisitorAt(old(w.store), command.userUuid).Some? ==>
      var v := VisitorAt(old(w.store), command.userUuid).value;
      && (r.Pass? <==> old(v.smsSent) < SMS_LIMIT)
      && (r.Fail? ==> r.error == SmsLimitWasReached)
      && v.smsSent - old(v.smsSent) == |notification.sent| - |old(notification.sent)|
    ensures r.Fail? ==> Ran(w, old(w.log), old(w.committed), [Step.Read(command.userUuid)], false)
    ensures r.Pass? ==> Ran(w, old(w.log), old(w.committed), [Step.Read(command.userUuid), Updated(command.userUuid)], true)
  {
    ScopeOf1(w.log, Step.Read(command.userUuid));
    ScopeOf2(w.log, Step.Read(command.userUuid), Updated(command.userUuid));
    var scope := w.Enter();
    var visitor := w.Read(command.userUuid);
    if !(visitor.Some? && visitor.value.VisitorEntity?) {
      w.Exit();
      return Fail(AttributeError);
    }
    var v := visitor.value.visitor;
    var counted := v.SendSms();
    if counted.Fail? {
      assert w.store == old(w.store);
      w.Exit();
      return counted;
    }
    notification.Send(command.to, command.message);
    w.Update(VisitorEntity(v));
    assert w.store == old(w.store);
    w.Commit();
    w.Exit();
    r := Pass;
  }

  method Report(command: Commands.Report, w: Worker, reportUuid: string, now: Time) returns (r: Result<Report>)
    requires w.Valid()
    modifies w
    ensures w.Valid()
    ensures r.Ok? <==> command.owner in old(w.store) && old(w.store)[command.owner].IsUser()
    ensures r.Err? ==> r.error == AttributeError && w.store == old(w.store)
    ensures r.Err? ==> Ran(w, old(w.log), old(w.committed), [Step.Read(command.owner)], false)
    ensures r.Ok? ==> r.value == NewReport(command.owner, command.targetUuid, command.content, reportUuid, now)
    ensures r.Ok? ==> w.store == old(w.store)[reportUuid := ReportEntity(r.value)]
    ensures r.Ok? ==> Ran(w, old(w.log), old(w.committed), [Step.Read(command.owner), Created(reportUuid)], true)
  {
    ScopeOf1(w.log, Step.Read(command.owner));
    ScopeOf2(w.log, Step.Read(command.owner), Created(reportUuid));
    var scope := w.Enter();
    var reportingUser := w.Read(command.owner);
    if !(reportingUser.Some? && reportingUser.value.IsUser()) {
      w.Exit();
      return Err(AttributeError);
    }
    var report := NewReport(reportingUser.value.Key(), command.targetUuid, command.content, reportUuid, now);
    w.Create(ReportEntity(report));
    w.Commit();
    w.Exit();
    r := Ok(report);
  }

  method CommentReport(command: Commands.CommentReport, w: Worker, commentUuid: string, now: Time) returns (r: Result<Report>)
    requires w.Valid()
    modifies w
    ensures w.Valid()
    ensures !(command.owner in old(w.store) && old(w.store)[command.owner].IsUser()) ==> r == Err(AttributeError)
    ensures command.owner in old(w.store) && old(w.store)[command.owner].IsUser() ==>
      r == CommentOnReport(command.owner, ReportAt(old(w.store), command.targetUuid), command.content, commentUuid, now)
    ensures r.Err? ==> w.store == old(w.store)
    ensures r.Err? ==> Ran(w, old(w.log), old(w.committed), [Step.Read(command.owner), Step.Read(command.targetUuid)], false)
    ensures r.Ok? ==> w.store == old(w.store)[command.targetUuid := ReportEntity(r.value)]
    ensures r.Ok? ==> Ran(w, old(w.log), old(w.committed),
                          [Step.Read(command.owner), Step.Read(command.targetUuid), Updated(command.targetUuid)], true)
  {
    ScopeOf2(w.log, Step.Read(command.owner), Step.Read(command.targetUuid));
    ScopeOf3(w.log, Step.Read(command.owner), Step.Read(command.targetUuid), Updated(command.targetUuid));
    var scope := w.Enter();
    var commentingUser := w.Read(command.owner);
    var targetReport := w.Read(command.targetUuid);
    if !(commentingUser.Some? && commentingUser.value.IsUser()) {
      w.Exit();
      return Err(AttributeError);
    }
    var target := if targetReport.Some? && targetReport.value.ReportEntity? then Some(targetReport.value.report) else None;
    var commented := CommentOnReport(commentingUser.value.Key(), target, command.content, commentUuid, now);
    if commented.Err? {
      assert w.store == old(w.store);
      w.Exit();
      return commented;
    }
    w.Update(ReportEntity(commented.value));
    w.Commit();
    w.Exit();
    r := commented;
  }

  method OpenReport(command: Commands.OpenReport, w: Worker, commentUuid: string, now: Time) returns (r: Outcome)
    requires w.Valid()
    modifies w
    ensures w.Valid()
    ensures ModeratorAt(old(w.store), command.moderatorUuid).None? ==> r == Fail(AttributeError)
    ensures ModeratorAt(old(w.store), command.moderatorUuid).Some? ==>
      var pending := ModeratorAt(old(w.store), command.moderatorUuid).value.OpenReport(ReportAt(old(w.store), command.reportUuid), commentUuid, now);
      && (r.Pass? <==> pending.Ok?)
      && (r.Fail? ==> r.error == pending.error)
      && (r.Pass? ==> w.store == old(w.store)[command.reportUuid := ReportEntity(pending.value)])
    ensures r.Fail? ==> w.store == old(w.store)
    ensures r.Fail? ==> Ran(w, old(w.log), old(w.committed), [Step.Read(command.moderatorUuid), Step.Read(command.reportUuid)], false)
    ensures r.Pass? ==> Ran(w, old(w.log), old(w.committed),
                            [Step.Read(command.moderatorUuid), Step.Read(command.reportUuid), Updated(command.reportUuid)], true)
  {
    ScopeOf2(w.log, Step.Read(command.moderatorUuid), Step.Read(command.reportUuid));
    ScopeOf3(w.log, Step.Read(command.moderatorUuid), Step.Read(command.reportUuid), Updated(command.reportUuid));
    var scope := w.Enter();
    var moderator := w.Read(command.moderatorUuid);
    var targetReport := w.Read(command.reportUuid);
    if !(moderator.Some? && moderator.value.ModeratorEntity?) {
      w.Exit();
      return Fail(AttributeError);
    }
    var target := if targetReport.Some? && targetReport.value.ReportEntity? then Some(targetReport.value.report) else None;
    var pending := moderator.value.moderator.OpenReport(target, commentUuid, now);
    if pending.Err? {
      assert w.store == old(w.store);
      w.Exit();
      return Fail(pending.error);
    }
    w.Update(ReportEntity(pending.value));
    w.Commit();
    w.Exit();
    r := Pass;
  }

  method CloseReport(command: Commands.CloseReport, w: Worker, commentUuid: string, now: Time) returns (r: Outcome)
    requires w.Valid()
    modifies w
    ensures w.Valid()
    ensures ModeratorAt(old(w.store), command.moderatorUuid).None? ==> r == Fail(AttributeError)
    ensures ModeratorAt(old(w.store), command.moderatorUuid).Some? ==>
      var closed := ModeratorAt(old(w.store), command.moderatorUuid).value.CloseReport(ReportAt(old(w.store), command.reportUuid), commentUuid, now);
      && (r.Pass? <==> closed.Ok?)
      && (r.Fail? ==> r.error == closed.error)
      && (r.Pass? ==> w.store == old(w.store)[command.reportUuid := ReportEntity(closed.value)])
    ensures r.Fail? ==> w.store == old(w.store)
    ensures r.Fail? ==> Ran(w, old(w.log), old(w.committed), [Step.Read(command.moderatorUuid), Step.Read(command.reportUuid)], false)
    ensures r.Pass? ==> Ran(w, old(w.log), old(w.committed),
                            [Step.Read(command.moderatorUuid), Step.Read(command.reportUuid), Updated(command.reportUuid)], true)
  {
    ScopeOf2(w.log, Step.Read(command.moderatorUuid), Step.Read(command.reportUuid));
    ScopeOf3(w.log, Step.Read(command.moderatorUuid), Step.Read(command.reportUuid), Updated(command.reportUuid));
    var scope := w.Enter();
    var moderator := w.Read(command.moderatorUuid);
    var targetReport := w.Read(command.reportUuid);
    if !(moderator.Some? && moderator.value.ModeratorEntity?) {
      w.Exit();
      return Fail(AttributeError);
    }
    var target := if targetReport.Some? && targetReport.value.ReportEntity? then Some(targetReport.value.report) else None;
    var closed := moderator.value.moderator.CloseReport(target, commentUuid, now);
    if closed.Err? {
      assert w.store == old(w.store);
      w.Exit();
      return Fail(closed.error);
    }
    w.Update(ReportEntity(closed.value));
    w.Commit();
    w.Exit();
    r := Pass;
  }

  method ActivateUser(command: Commands.ActivateUser, w: Worker) returns (r: Outcome)
    requires w.Valid()
    modifies w, ProvidersOf(EntryAt(w.store, command.userUuid))`active, VisitorsOf(EntryAt(w.store, command.userUuid))`active,
      ModeratorsOf(EntryAt(w.store, command.userUuid))`active, AdminsOf(EntryAt(w.store, command.userUuid))`active
    ensures w.Valid()
    ensures w.store == old(w.store)
    ensures r.Pass? <==> command.adminUuid in old(w.store) && old(w.store)[command.adminUuid].AdminEntity?
                         && command.userUuid in old(w.store) && old(w.store)[command.userUuid].IsUser()
    ensures r.Fail? ==> r.error == AttributeError
    ensures r.Pass? ==> w.store[command.userUuid].Flag() == Active
    ensures r.Fail? && command.userUuid in w.store && w.store[command.userUuid].IsUser() ==>
      w.store[command.userUuid].Flag() == old(w.store[command.userUuid].Flag())
    ensures r.Fail? ==> Ran(w, old(w.log), old(w.committed), [Step.Read(command.adminUuid), Step.Read(command.userUuid)], false)
    ensures r.Pass? ==> Ran(w, old(w.log), old(w.committed),
                            [Step.Read(command.adminUuid), Step.Read(command.userUuid), Updated(command.userUuid)], true)
  {
    ScopeOf2(w.log, Step.Read(command.adminUuid), Step.Read(command.userUuid));
    ScopeOf3(w.log, Step.Read(command.adminUuid), Step.Read(command.userUuid), Updated(command.userUuid));
    var scope := w.Enter();
    var admin := w.Read(command.adminUuid);
    var targetUser := w.Read(command.userUuid);
    if !(admin.Some? && admin.value.AdminEntity?) {
      w.Exit();
      return Fail(AttributeError);
    }
    var flipped := admin.value.admin.ActivateUser(targetUser);
    if flipped.Fail? {
      assert w.store == old(w.store);
      w.Exit();
      return flipped;
    }
    w.Update(targetUser.value);
    assert w.store == old(w.store);
    w.Commit();
    w.Exit();
    r := Pass;
  }

  method DisableUser(command: Commands.ActivateUser, w: Worker) returns (r: Outcome)
    requires w.Valid()
    modifies w, ProvidersOf(EntryAt(w.store, command.userUuid))`active, VisitorsOf(EntryAt(w.store, command.userUuid))`active,
      ModeratorsOf(EntryAt(w.store, command.userUuid))`active, AdminsOf(EntryAt(w.store, command.userUuid))`active
    ensures w.Valid()
    ensures w.store == old(w.store)
    ensures r.Pass? <==> command.adminUuid in old(w.store) && old(w.store)[command.adminUuid].AdminEntity?
                         && command.userUuid in old(w.store) && old(w.store)[command.userUuid].IsUser()
    ensures r.Fail? ==> r.error == AttributeError
    ensures r.Pass? ==> w.store[command.userUuid].Flag() == Inactive
    ensures r.Fail? && command.userUuid in w.store && w.store[command.userUuid].IsUser() ==>
      w.store[command.userUuid].Flag() == old(w.store[command.userUuid].Flag())
    ensures r.Fail? ==> Ran(w, old(w.log), old(w.committed), [Step.Read(command.adminUuid), Step.Read(command.userUuid)], false)
    ensures r.Pass? ==> Ran(w, old(w.log), old(w.committed),
                            [Step.Read(command.adminUuid), Step.Read(command.userUuid), Updated(command.userUuid)], true)
  {
    ScopeOf2(w.log, Step.Read(command.adminUuid), Step.Read(command.userUuid));
    ScopeOf3(w.log, Step.Read(command.adminUuid), Step.Read(command.userUuid), Updated(command.userUuid));
    var scope := w.Enter();
    var admin := w.Read(command.adminUuid);
    var targetUser := w.Read(command.userUuid);
    if !(admin.Some? && admin.value.AdminEntity?) {
      w.Exit();
      return Fail(AttributeError);
    }
    var flipped := admin.value.admin.DisableUser(targetUser);
    if flipped.Fail? {
      assert w.store == old(w.store);
      w.Exit();
      return flipped;
    }
    w.Update(targetUser.value);
    assert w.store == old(w.store);
    w.Commit();
    w.Exit();
    r := Pass;
  }

  /** As written: the handler calls the `private_pics` property as if it
      were a function. The property yields the list, and calling a list
      raises, so no provider ever gets its pictures and nothing is committed. */
  method SetPrivatePicsAsWritten(command: Commands.SetPrivatePics, w: Worker) returns (r: Outcome)
    requires w.Valid()
    modifies w
    ensures w.Valid()
    ensures r.Fail?
    ensures r.error == if ProviderAt(old(w.store), command.userUuid).Some? then TypeError else AttributeError
    ensures w.store == old(w.store)
    ensures Ran(w, old(w.log), old(w.committed), [Step.Read(command.userUuid)], false)
  {
    ScopeOf1(w.log, Step.Read(command.userUuid));
    var scope := w.Enter();
    var provider := w.Read(command.userUuid);
    if !(provider.Some? && provider.value.ProviderEntity?) {
      w.Exit();
      return Fail(AttributeError);
    }
    w.Exit();
    r := Fail(TypeError);
  }

  /** Corrected: the pictures go through the `private_pics` setter. */
  method SetPrivatePics(command: Commands.SetPrivatePics, w: Worker) returns (r: Outcome)
    requires w.Valid()
    modifies w, ProvidersAt(w.store, command.userUuid)`privatePics
    ensures w.Valid()
    ensures w.store == old(w.store)
    ensures r.Pass? <==> ProviderAt(old(w.store), command.userUuid).Some?
    ensures r.Fail? ==> r.error == AttributeError
    ensures r.Pass? ==> ProviderAt(w.store, command.userUuid).value.privatePics == command.pictures
    ensures r.Fail? ==> Ran(w, old(w.log), old(w.committed), [Step.Read(command.userUuid)], false)
    ensures r.Pass? ==> Ran(w, old(w.log), old(w.committed), [Step.Read(command.userUuid), Updated(command.userUuid)], true)
  {
    ScopeOf1(w.log, Step.Read(command.userUuid));
    ScopeOf2(w.log, Step.Read(command.userUuid), Updated(command.userUuid));
    var scope := w.Enter();
    var provider := w.Read(command.userUuid);
    if !(provider.Some? && provider.value.ProviderEntity?) {
      w.Exit();
      return Fail(AttributeError);
    }
    var p := provider.value.provider;
    p.SetPrivatePics(command.pictures);
    w.Update(provider.value);
    assert w.store == old(w.store);
    w.Commit();
    w.Exit();
    r := Pass;
  }

  method UpdateBilling(command: Commands.UpdateBilling, w: Worker) returns (r: Outcome)
    requires w.Valid()
    modifies w, ProvidersAt(w.store, command.userUuid)`billing
    ensures w.Valid()
    ensures w.store == old(w.store)
    ensures r.Pass? <==> ProviderAt(old(w.store), command.userUuid).Some?
    ensures r.Fail? ==> r.error == AttributeError
    ensures r.Pass? ==> ProviderAt(w.store, command.userUuid).value.billing ==
                        Some(Billing(command.cardNumber, command.expiryDate, command.secretCode, command.fullname))
    ensures r.Fail? ==> Ran(w, old(w.log), old(w.committed), [Step.Read(command.userUuid)], false)
    ensures r.Pass? ==> Ran(w, old(w.log), old(w.committed), [Step.Read(command.userUuid), Updated(command.userUuid)], true)
  {
    ScopeOf1(w.log, Step.Read(command.userUuid));
    ScopeOf2(w.log, Step.Read(command.userUuid), Updated(command.userUuid));
    var scope := w.Enter();
    var provider := w.Read(command.userUuid);
    if !(provider.Some? && provider.value.ProviderEntity?) {
      w.Exit();
      return Fail(AttributeError);
    }
    var p := provider.value.provider;
    var billing := p.UpdateBilling(command.cardNumber, command.expiryDate, command.secretCode, command.fullname);
    w.Update(provider.value);
    assert w.store == old(w.store);
    w.Commit();
    w.Exit();
    r := Pass;
  }
}
