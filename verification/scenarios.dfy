// Runs of the handlers and the entities in the arrangements the repository's
// tests set up (test_handlers.py and Domain/test.py), each stating as its
// postcondition what the test observes. Fresh uuids and clock readings are
// parameters, as in the handlers.

module Scenarios {
  import opened Records
  import opened Users
  import opened UnitOfWork
  import Commands
  import Handlers
  import DraftHandlers

  const PROVIDER_UUID: string := "00000-0000-0000-00000000"
  const VISITOR_UUID: string := "00000-0000-0000-00000001"

  /** A fake worker whose repository holds one non-VIP (or VIP) provider
      with no adverts. */
  method ProviderWorld(vip: bool) returns (w: Worker, p: Provider)
    ensures fresh(w) && fresh(p) && w.Valid() && !w.committed
    ensures w.store == map[PROVIDER_UUID := ProviderEntity(p)]
    ensures p.uuid == PROVIDER_UUID && p.ads == [] && p.premiumAds == [] && p.vip == vip && p.active == Unset && p.billing.None?
  {
    w := new Worker();
    p := new Provider("testdude", PROVIDER_UUID, [], false, vip, None);
    w.Create(ProviderEntity(p));
  }

  function AdCommand(): Commands.PublishAdvertisement
  {
    Commands.PublishAdvertisement("TestAd", "This is a test Ad", None, None, None, PROVIDER_UUID)
  }

  /** test_publish_advertisement: the published advert can be read back by
      its uuid and the worker has committed. */
  method PublishedAdIsReadable(adUuid: string, now: Time, later: Time)
    returns (ad: Result<Advertisement>, found: Option<Entity>, committed: bool)
    requires adUuid != PROVIDER_UUID
    ensures ad.Ok? && ad.value.uuid == adUuid && ad.value.published
    ensures found == Some(AdEntity(ad.value))
    ensures committed
  {
    var w, p := ProviderWorld(false);
    ad := Handlers.PublishAdvertisement(AdCommand(), w, adUuid, now, later);
    found := w.Read(ad.value.uuid);
    committed := w.committed;
  }

  /** test_unpublish_advertisement: after publishing and withdrawing, the
      repository's copy is unpublished with both dates cleared. */
  method UnpublishedAdIsWithdrawn(adUuid: string, now: Time, later: Time)
    returns (found: Option<Entity>, committed: bool)
    requires adUuid != PROVIDER_UUID
    ensures found.Some? && found.value.AdEntity?
    ensures !found.value.ad.published && found.value.ad.expiryDate.None? && found.value.ad.datePublished.None?
    ensures committed
  {
    var w, p := ProviderWorld(false);
    var ad := Handlers.PublishAdvertisement(AdCommand(), w, adUuid, now, later);
    assert p.ads == [ad.value] && IndexOf(p.ads, AdKey, adUuid) == Some(0);
    var withdrawn := Handlers.UnPublishAdvertisement(Commands.UnPublishAdvertisement(p.uuid, ad.value.uuid), w);
    found := w.Read(withdrawn.value.uuid);
    committed := w.committed;
  }

  /** test_update_published_date_advertisement: a VIP's refresh at a later
      clock reading moves the publication date strictly forward. */
  method RefreshMovesDateForward(adUuid: string, now: Time, later: Time, refreshed: Time)
    returns (firstDate: Time, secondDate: Time, committed: bool)
    requires adUuid != PROVIDER_UUID
    requires now < refreshed
    ensures firstDate < secondDate
    ensures committed
  {
    var w, p := ProviderWorld(true);
    var ad := Handlers.PublishAdvertisement(AdCommand(), w, adUuid, now, later);
    firstDate := ad.value.datePublished.value;
    assert p.ads == [ad.value] && IndexOf(p.ads, AdKey, adUuid) == Some(0);
    var updated := Handlers.UpdateAdPublishedDate(Commands.UpdateAdvertisementPublishedDate(p.uuid, ad.value.uuid), w, refreshed);
    secondDate := updated.value.datePublished.value;
    committed := w.committed;
  }

  /** test_promote_ad_to_premium: a VIP's fresh advert is promoted, and the
      premium record carries the advert's expiry. */
  method PromotedAdIsPremium(adUuid: string, now: Time, later: Time, promotedAt: Time)
    returns (promoted: Result<PremiumAdvertisement>, committed: bool)
    requires adUuid != PROVIDER_UUID
    ensures promoted == Ok(PremiumAdvertisement(PROVIDER_UUID, adUuid, promotedAt, Some(later + WEEK)))
    ensures committed
  {
    var w, p := ProviderWorld(true);
    var ad := Handlers.PublishAdvertisement(AdCommand(), w, adUuid, now, later);
    assert p.ads == [ad.value] && IndexOf(p.ads, AdKey, adUuid) == Some(0);
    assert IndexOf(p.premiumAds, PremiumKey, adUuid).None?;
    promoted := Handlers.PromoteAdToPremium(Commands.PromoteAdvertisementToPremium(p.uuid, ad.value.uuid), w, promotedAt);
    committed := w.committed;
  }

  /** test_delete_ad: the deleted advert is gone from the provider and from
      the repository. */
  method DeletedAdIsGone(adUuid: string, now: Time, later: Time)
    returns (kept: Option<Advertisement>, found: Option<Entity>, committed: bool)
    requires adUuid != PROVIDER_UUID
    ensures kept.None? && found.None?
    ensures committed
  {
    var w, p := ProviderWorld(false);
    var ad := Handlers.PublishAdvertisement(AdCommand(), w, adUuid, now, later);
    assert p.ads == [ad.value] && IndexOf(p.ads, AdKey, adUuid) == Some(0);
    var deleted := Handlers.DeleteAd(Commands.DeleteAdvertisement(p.uuid, ad.value.uuid), w);
    kept := p.GetAd(ad.value.uuid);
    found := w.Read(ad.value.uuid);
    committed := w.committed;
  }

  /** The draft handlers of handlers.py: a published advert carries the
      command's fields, a second one under the same uuid is refused, and
      withdrawing it changes that advert in place, keeping one advert. */
  method DraftPublishThenWithdraw(adUuid: string, now: Time, later: Time)
    returns (ad: Result<Advertisement>, again: Result<Advertisement>, withdrawn: Result<Advertisement>, ads: seq<Advertisement>)
    requires adUuid != PROVIDER_UUID
    ensures ad.Ok? && ad.value.title == "TestAd" && ad.value.datePublished == Some(now)
    ensures again == Err(AdAlreadyExist)
    ensures withdrawn.Ok? && !withdrawn.value.published && withdrawn.value.title == "TestAd"
    ensures |ads| == 1 && ads[0] == withdrawn.value
  {
    var w, p := ProviderWorld(false);
    ad := DraftHandlers.PublishAdvertisement(AdCommand(), w, adUuid, now, later);
    assert p.ads == [ad.value] && IndexOf(p.ads, AdKey, adUuid) == Some(0);
    again := DraftHandlers.PublishAdvertisement(AdCommand(), w, adUuid, now, later);
    withdrawn := DraftHandlers.UnPublishAdvertisement(Commands.UnPublishAdvertisement(p.uuid, adUuid), w);
    ads := p.ads;
  }

  /** A fake worker holding one provider and one visitor. */
  method VisitorWorld() returns (w: Worker, v: Visitor)
    ensures fresh(w) && fresh(v) && w.Valid() && !w.committed
    ensures VISITOR_UUID in w.store && w.store[VISITOR_UUID] == VisitorEntity(v)
    ensures v.uuid == VISITOR_UUID && v.comments == [] && v.smsSent == 0 && v.active == Unset
  {
    w := new Worker();
    var p := new Provider("testdude", PROVIDER_UUID, [], false, false, None);
    v := new Visitor("testdude", VISITOR_UUID, true, []);
    w.Create(ProviderEntity(p));
    w.Create(VisitorEntity(v));
  }

  /** test_add_comment and test_modify_comment: the comment names its
      target and author, is stored and kept by the visitor, and a later
      modification replaces its content. */
  method CommentIsKeptThenModified(commentUuid: string, now: Time, later: Time)
    returns (comment: Result<Comment>, found: Option<Entity>, kept: bool, modified: Result<Comment>)
    requires commentUuid != VISITOR_UUID
    ensures comment.Ok? && comment.value.targetUuid == PROVIDER_UUID && comment.value.ownerUuid == VISITOR_UUID
    ensures comment.value.content == "C'est à chier putain."
    ensures found == Some(CommentEntity(comment.value)) && kept
    ensures modified.Ok? && modified.value.content == "Correction, c'est ULTRA À CHIER" && modified.value.modifTimestamp == Some(later)
  {
    var w, v := VisitorWorld();
    comment := Handlers.AddComment(Commands.AddComment(PROVIDER_UUID, v.uuid, "C'est à chier putain."), w, commentUuid, now);
    found := w.Read(comment.value.uuid);
    kept := comment.value in v.comments;
    assert v.comments == [comment.value] && IndexOf(v.comments, CommentKey, commentUuid) == Some(0);
    modified := Handlers.ModifyComment(Commands.ModifyComment(v.uuid, comment.value.uuid, "Correction, c'est ULTRA À CHIER"), w, later);
  }

  const ADMIN_UUID: string := "00000-0000-0000-00000009"

  /** An activation asked for by a uuid that holds no admin is refused and
      leaves the target's flag as it was. */
  method RefusedActivationKeepsFlag() returns (refused: Outcome, flag: Activity)
    ensures refused == Fail(AttributeError) && flag == Unset
  {
    var w, p := ProviderWorld(false);
    refused := Handlers.ActivateUser(Commands.ActivateUser(ADMIN_UUID, PROVIDER_UUID), w);
    flag := p.active;
  }

  /** A disable by an admin changes the flag only: the provider keeps its
      adverts and its billing. */
  method DisableChangesOnlyTheFlag(ads0: seq<Advertisement>, billing0: Billing)
    returns (disabled: Outcome, flag: Activity, ads: seq<Advertisement>, billing: Option<Billing>)
    ensures disabled == Pass && flag == Inactive
    ensures ads == ads0 && billing == Some(billing0)
  {
    var w := new Worker();
    var p := new Provider("testdudeprovider", PROVIDER_UUID, ads0, false, false, Some(billing0));
    var a := new Admin("testdudeadmin", ADMIN_UUID);
    w.Create(ProviderEntity(p));
    w.Create(AdminEntity(a));
    disabled := Handlers.DisableUser(Commands.ActivateUser(ADMIN_UUID, PROVIDER_UUID), w);
    flag := p.active;
    ads := p.ads;
    billing := p.billing;
  }

  /** test_send_sms_visitor, as the handler is written: fifty sends pass and
      are counted; the fifty-first is refused, yet its message has gone out
      too. */
  method FiftyOneSmsAsWritten() returns (counted: nat, messages: nat, last: Outcome)
    ensures counted == 50
    ensures last == Fail(SmsLimitWasReached)
    ensures messages == 51
  {
    var w, v := VisitorWorld();
    var n := new Handlers.Notifier();
    var command := Commands.SendSms(v.uuid, "+320000000", "This is a test SMS");
    var i := 0;
    while i < 50
      invariant 0 <= i <= 50
      invariant w.Valid() && VISITOR_UUID in w.store && w.store[VISITOR_UUID] == VisitorEntity(v)
      invariant v.smsSent == i && |n.sent| == i
    {
      var sent := Handlers.SendSmsVisitor(command, w, n);
      i := i + 1;
    }
    counted := v.smsSent;
    last := Handlers.SendSmsVisitor(command, w, n);
    messages := |n.sent|;
  }

  /** The same run with the corrected order: the refused call sends nothing,
      so the messages sent equal the calls counted. */
  method FiftyOneSmsWithinLimit() returns (counted: nat, messages: nat, last: Outcome)
    ensures counted == 50
    ensures last == Fail(SmsLimitWasReached)
    ensures messages == 50
  {
    var w, v := VisitorWorld();
    var n := new Handlers.Notifier();
    var command := Commands.SendSms(v.uuid, "+320000000", "This is a test SMS");
    var i := 0;
    while i < 50
      invariant 0 <= i <= 50
      invariant w.Valid() && VISITOR_UUID in w.store && w.store[VISITOR_UUID] == VisitorEntity(v)
      invariant v.smsSent == i && |n.sent| == i
    {
      var sent := Handlers.SendSmsVisitorWithinLimit(command, w, n);
      i := i + 1;
    }
    counted := v.smsSent;
    last := Handlers.SendSmsVisitorWithinLimit(command, w, n);
    messages := |n.sent|;
  }

  /** Domain/test.py, test_publish_advertisement: a second advert under the
      same uuid is refused and the list keeps one advert. */
  method SameAdTwiceIsRefused(now: Time, later: Time) returns (first: Result<Advertisement>, second: Result<Advertisement>, count: nat)
    ensures first.Ok? && first.value.published && first.value.datePublished.Some? && first.value.expiryDate.Some?
    ensures second == Err(AdAlreadyExist)
    ensures count == 1
  {
    var p := new Provider("testdude", PROVIDER_UUID, [], false, false, None);
    first := p.PublishAd("TestAd", "This is a test Ad", Some(map["service1" := 123]), None, None, PROVIDER_UUID, now, later);
    assert IndexOf(p.ads, AdKey, PROVIDER_UUID) == Some(0);
    second := p.PublishAd("TestAd", "This is a test Ad", Some(map["service1" := 123]), None, None, PROVIDER_UUID, now, later);
    count := |p.ads|;
  }

  /** Domain/test.py, test_promote_ad_to_premium: promotion succeeds once,
      is refused the second time, and is refused to a provider who lost VIP. */
  method PromoteOnceThenRefused(now: Time, later: Time)
    returns (promoted: Result<PremiumAdvertisement>, again: Result<PremiumAdvertisement>, demoted: Result<PremiumAdvertisement>)
    ensures promoted.Ok? && promoted.value.adUuid == VISITOR_UUID && promoted.value.providerUuid == PROVIDER_UUID
    ensures again == Err(AdvertisementAlreadyPromoted)
    ensures demoted == Err(NotVip)
  {
    var p := new Provider("testdude", PROVIDER_UUID, [], false, true, None);
    var ad := p.PublishAd("TestAd", "This is a test Ad", None, None, Some(map[]), VISITOR_UUID, now, later);
    assert IndexOf(p.ads, AdKey, VISITOR_UUID) == Some(0);
    promoted := p.PromoteAdToPremium(ad.value.uuid, now);
    assert IndexOf(p.premiumAds, PremiumKey, VISITOR_UUID) == Some(0);
    again := p.PromoteAdToPremium(ad.value.uuid, now);
    p.vip := false;
    demoted := p.PromoteAdToPremium(ad.value.uuid, now);
  }

  /** Domain/test.py, test_update_ad_location, test_update_ad_services and
      test_update_ad_prices: each update is seen in the provider's copy of
      the advert. */
  method AdUpdatesAreSeen(now: Time, later: Time) returns (seen: Option<Advertisement>)
    ensures seen.Some?
    ensures seen.value.localisation == Some(Location("Avenue Paul Des Fleurs", 42, "Mont-Marchienne", 6000, "Brabant Flamoush", "Belgique"))
    ensures seen.value.service == Some(map["service2" := "Je prends"])
    ensures seen.value.prices == Some(map["service1" := 220])
  {
    var p := new Provider("testdude", PROVIDER_UUID, [], false, true, None);
    var location := Location("Avenue Pas Paul Des Fleurs", 27, "Mont-pas-Marchienne", 6142, "Brabant", "Belgium");
    var ad := p.PublishAd("TestAd", "This is a test Ad", Some(map["service1" := 132]), Some(location), Some(map[]), VISITOR_UUID, now, later);
    assert IndexOf(p.ads, AdKey, VISITOR_UUID) == Some(0);
    var moved := p.UpdateAdLocation(VISITOR_UUID, "Avenue Paul Des Fleurs", 42, "Mont-Marchienne", 6000, "Brabant Flamoush", "Belgique");
    assert IndexOf(p.ads, AdKey, VISITOR_UUID) == Some(0);
    var offered := p.UpdateAdServices(VISITOR_UUID, Some(map["service2" := "Je prends"]));
    assert IndexOf(p.ads, AdKey, VISITOR_UUID) == Some(0);
    var priced := p.UpdateAdPrices(VISITOR_UUID, Some(map["service1" := 220]));
    seen := p.GetAd(VISITOR_UUID);
    assert IndexOf(p.ads, AdKey, VISITOR_UUID) == Some(0);
  }

  /** Domain/test.py, test_update_billing and test_assign_private_pics. */
  method BillingAndPicturesAreReplaced(taken: Time) returns (billing: Option<Billing>, pictures: seq<PrivatePicture>)
    ensures billing == Some(Billing("789548112558", "30-01-2030", "000", "EQ EB"))
    ensures |pictures| == 3 && pictures[0].datePublished == taken
  {
    var p := new Provider("testdude", PROVIDER_UUID, [], false, true, Some(Billing("7987846548498", "29-04-2027", "999", "VC AC")));
    var b := p.UpdateBilling("789548112558", "30-01-2030", "000", "EQ EB");
    billing := p.GetBilling();
    p.SetPrivatePics([PrivatePicture([], taken), PrivatePicture([], taken), PrivatePicture([], taken)]);
    pictures := p.PrivatePics();
  }

  /** Domain/test.py, test_report_user, test_add_comment_to_report and
      test_close_report: a fresh report refuses comments and closing; an
      active moderator opens it with an automatic comment; then comments are
      accepted, and closing adds the closing comment after them. */
  lemma {:induction false} ReportLifecycle(m: Moderator, reporter: string, target: string, content: string, reportUuid: string,
                                           c1: string, c2: string, c3: string, t0: Time, t1: Time, t2: Time, t3: Time)
    requires m.active != Inactive
    ensures var filed := NewReport(reporter, target, content, reportUuid, t0);
      && CommentOnReport(reporter, Some(filed), "This should fail", c1, t1) == Err(ReportNotOpened)
      && m.CloseReport(Some(filed), c1, t1) == Err(ReportNotOpened)
      && var pending := m.OpenReport(Some(filed), c1, t1);
      && pending.Ok? && pending.value.status == Pending
      && |pending.value.comments| == 1
      && pending.value.comments[0].targetUuid == reportUuid
      && pending.value.comments[0].content == "Moderator " + m.username + " has opened your ticket !"
      && var commented := CommentOnReport(reporter, Some(pending.value), "This should work", c2, t2);
      && commented.Ok? && commented.value.comments[1].content == "This should work"
      && var closed := m.CloseReport(Some(commented.value), c3, t3);
      && closed.Ok? && closed.value.status == Closed && |closed.value.comments| == 3
      && closed.value.comments[2].content == "Moderator " + m.username + " has closed your ticket !"
  {
    var filed := NewReport(reporter, target, content, reportUuid, t0);
    var pending := m.OpenReport(Some(filed), c1, t1);
    assert pending.value.comments == [NewComment(reportUuid, m.uuid, OpenedMessage(m.username), c1, t1)];
    var commented := CommentOnReport(reporter, Some(pending.value), "This should work", c2, t2);
    assert commented.value.comments == pending.value.comments + [NewComment(reportUuid, reporter, "This should work", c2, t2)];
  }

  /** Domain/test.py, test_enable_disable_user and
      test_protection_disabled_user: once an admin disables them, the
      provider cannot publish, the visitor cannot comment and the moderator
      cannot open a report. */
  method DisabledUsersAreRefused(now: Time, later: Time)
    returns (published: Result<Advertisement>, commented: Result<Comment>, openedReport: Result<Report>)
    ensures published == Err(UserNotActive)
    ensures commented == Err(UserNotActive)
    ensures openedReport == Err(UserNotActive)
  {
    var p := new Provider("testdudeprovider", PROVIDER_UUID, [], false, false, None);
    var v := new Visitor("testdude", VISITOR_UUID, false, []);
    var m := new Moderator("testdudemodo2", VISITOR_UUID);
    var a := new Admin("testdudeadmin", VISITOR_UUID);
    var report := NewReport(v.uuid, p.uuid, "This is fake", "00000-0000-0000-00000002", now);
    var off1 := a.DisableUser(Some(ProviderEntity(p)));
    var off2 := a.DisableUser(Some(VisitorEntity(v)));
    var off3 := a.DisableUser(Some(ModeratorEntity(m)));
    assert p.active == Inactive && v.active == Inactive;
    published := p.PublishAd("TestAd", "This is a test Ad", Some(map["service1" := 123]), None, None, PROVIDER_UUID, now, later);
    commented := v.AddComment(PROVIDER_UUID, "test", VISITOR_UUID, now);
    openedReport := m.OpenReport(Some(report), "00000-0000-0000-00000003", now);
  }
}
