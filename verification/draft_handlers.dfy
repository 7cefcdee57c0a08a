// The earlier draft of the two advert handlers in handlers.py. They follow
// the same recipe as the domain handlers, with the `return` written inside
// the `with` block: the result is fixed first, and leaving the scope still
// rolls back after the commit, before the caller sees that result.

module DraftHandlers {
  import opened Records
  import opened Users
  import opened UnitOfWork
  import Commands
  import Handlers

  method PublishAdvertisement(command: Commands.PublishAdvertisement, w: Worker, adUuid: string, now: Time, later: Time)
    returns (r: Result<Advertisement>)
    requires w.Valid()
    modifies w, Handlers.ProvidersAt(w.store, command.owner)`ads
    ensures w.Valid()
    ensures Handlers.ProviderAt(old(w.store), command.owner).None? ==> r == Err(AttributeError)
    ensures Handlers.ProviderAt(old(w.store), command.owner).Some? ==>
      var p := Handlers.ProviderAt(old(w.store), command.owner).value;
      && (r.Ok? <==> old(p.active) != Inactive && IndexOf(old(p.ads), AdKey, adUuid).None?)
      && (r.Err? ==> p.ads == old(p.ads) && r.error == if old(p.active) == Inactive then UserNotActive else AdAlreadyExist)
      && (r.Ok? ==> p.ads == old(p.ads) + [r.value])
    ensures r.Ok? ==> r.value == Advertisement(command.title, command.description, Some(now), Some(later + WEEK),
                                               command.localisation, command.service, command.prices, command.owner, true, adUuid)
    ensures r.Ok? ==> w.store == old(w.store)[adUuid := AdEntity(r.value)]
    ensures r.Err? ==> w.store == old(w.store)
    ensures r.Err? ==> Handlers.Ran(w, old(w.log), old(w.committed), [Step.Read(command.owner)], false)
    ensures r.Ok? ==> Handlers.Ran(w, old(w.log), old(w.committed), [Step.Read(command.owner), Created(adUuid)], true)
  {
    ScopeOf1(w.log, Step.Read(command.owner));
    ScopeOf2(w.log, Step.Read(command.owner), Created(adUuid));
    var entered := w.Enter();
    var publisher := w.Read(command.owner);
    if !(publisher.Some? && publisher.value.ProviderEntity?) {
      r := Err(AttributeError);
      w.Exit();
      return;
    }
    var p := publisher.value.provider;
    var advertisement := p.PublishAd(command.title, command.description, command.prices,
                                                            command.localisation, command.service, adUuid, now, later);
    if advertisement.Err? {
      r := advertisement;
      assert w.store == old(w.store);
      w.Exit();
      return;
    }
    w.Create(AdEntity(advertisement.value));
    w.Commit();
    r := advertisement;
    w.Exit();
  }

  method UnPublishAdvertisement(command: Commands.UnPublishAdvertisement, w: Worker) returns (r: Result<Advertisement>)
    requires w.Valid()
    modifies w, Handlers.ProvidersAt(w.store, command.owner)`ads
    ensures w.Valid()
    ensures Handlers.ProviderAt(old(w.store), command.owner).None? ==> r == Err(AttributeError)
    ensures Handlers.ProviderAt(old(w.store), command.owner).Some? ==>
      var p := Handlers.ProviderAt(old(w.store), command.owner).value;
      && (IndexOf(old(p.ads), AdKey, command.uuid).None? ==> r == Err(StopIteration) && p.ads == old(p.ads))
      && (IndexOf(old(p.ads), AdKey, command.uuid).Some? ==>
            var i := IndexOf(old(p.ads), AdKey, command.uuid).value;
            p.ads == old(p.ads)[i := old(p.ads)[i].(published := false, datePublished := None, expiryDate := None)]
            && r == Ok(p.ads[i]))
    ensures r.Ok? ==> r.value.uuid == command.uuid && !r.value.published
                      && r.value.datePublished.None? && r.value.expiryDate.None?
    ensures r.Ok? ==> w.store == old(w.store)[command.uuid := AdEntity(r.value)]
    ensures r.Err? ==> w.store == old(w.store)
    ensures r.Err? ==> Handlers.Ran(w, old(w.log), old(w.committed), [Step.Read(command.owner)], false)
    ensures r.Ok? ==> Handlers.Ran(w, old(w.log), old(w.committed), [Step.Read(command.owner), Updated(command.uuid)], true)
  {
    ScopeOf1(w.log, Step.Read(command.owner));
    ScopeOf2(w.log, Step.Read(command.owner), Updated(command.uuid));
    var entered := w.Enter();
    var publisher := w.Read(command.owner);
    if !(publisher.Some? && publisher.value.ProviderEntity?) {
      r := Err(AttributeError);
      w.Exit();
      return;
    }
    var p := publisher.value.provider;
    var advertisement := p.UnPublishAd(command.uuid);
    if advertisement.Err? {
      r := advertisement;
      assert w.store == old(w.store);
      w.Exit();
      return;
    }
    w.Update(AdEntity(advertisement.value));
    w.Commit();
    r := advertisement;
    w.Exit();
  }
}
