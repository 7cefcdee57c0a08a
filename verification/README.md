# hubservice domain layer in Dafny

This project models the domain command layer of the hubservice classifieds
marketplace. It covers the following:

- **Users** (`users.dfy`). Providers publish, withdraw, refresh, edit,
  delete and promote adverts, and keep billing details and private
  pictures. Visitors send a capped number of text messages and write
  comments. Moderators open and close reports. Admins switch a user's
  active flag.
- **Unit of work** (`worker.dfy`). The handlers run inside a scope. It
  always rolls back on exit and commits only through its `_commit` hook.
  The repository is the uuid-keyed in-memory store of the test fake.
- **Command handlers** (`handlers.dfy`, `draft_handlers.dfy`). Each
  handler enters a scope, reads its actors and targets, calls one entity
  behaviour, writes the result back, and commits as the scope's last
  statement.
- **Records** (`records.dfy`). These are the value records, the failures
  raised, and the first-match lookup ("the first advert with that uuid")
  that the entity behaviours share.
- **Commands** (`commands.dfy`). These are the command shapes.
- **Scenarios** (`scenarios.dfy`). Most replay one of the repository's
  tests and prove what it observes. `ReportLifecycle` joins the report
  tests into one run, with a comment between opening and closing.
  `DraftPublishThenWithdraw`, `RefusedActivationKeepsFlag` and
  `DisableChangesOnlyTheFlag` replay no test: they exercise the draft
  handlers and the admin handlers' frames.

Users are classes whose fields the behaviours update in place.
Adverts, comments, reports, billing details and premium records are
values. A handler writes a value back into the repository explicitly.

Python exceptions are modelled as `Result`/`Outcome` errors:
- a `next()` over no match is `StopIteration`;
- a method called on `None`, or on the wrong kind of entity, is `AttributeError`;
- deleting an absent repository key is `KeyError`;
- calling a list is `TypeError`.

Every handler's contract, the two draft handlers' included, states three
things:
- its result, for every path, and the new state of the entity it acts on;
- the new repository contents;
- the exact trace of scope events and repository calls (a ghost log).

From the trace it follows that a failure is never committed. The proved
lemma `UnitOfWork.CommitIsLastInScope` shows that the only commit in a
scope is the step just before the rollback.

The clock and `uuid.uuid4()` are parameters. `publish_ad` reads the clock
twice: `now` gives the publication date and `later` the expiry.

Some of the code goes beyond what `user.py` defines. In each case the
model follows the code and the tests:

- **Missing behaviours.** `Domain/handlers.py` calls several behaviours
  that `user.py` does not define. Each is modelled after the test that
  uses it, or, where no test does, after the handler's call alone:
  - `comment_report`, `open_report` and `close_report`, and the report's
    comment trail, as `Domain/test.py:159-217` uses them;
  - `activate_user` and `disable_user`, as `Domain/test.py:220-263` uses
    them;
  - the visitor's comment list, which `add_comment` extends, as
    `test_handlers.py:133` expects;
  - `delete_comment`, which no test calls: it removes the first of the
    visitor's comments with the uuid the handler passes
    (`Domain/handlers.py:78`), and fails with `CommentNotFound` otherwise.
- **`modify_comment`.** `user.py:218-222` defines it as a static method
  taking a `Comment` object. `Domain/handlers.py:69` passes a uuid string
  instead, so as written `comment.content = ...` on a string raises
  `AttributeError` and the handler can never succeed
  (`Handlers.ModifyCommentAsWritten`, under "## Findings"). The rest of
  the model follows `test_handlers.py:136-149`, which expects the handler
  to rewrite the comment with that uuid: `Users.Visitor.ModifyComment`
  looks the comment up among the visitor's comments by uuid.
- **Active flag.** The flag starts unset. Only publishing, commenting and
  opening a report are refused once it is off, as
  `Domain/test.py:235-263` checks.
- **Open-report comment author.** The automatic comment added when a
  report is opened names the moderator's uuid as its owner. The test's
  uuids cannot tell owner from moderator.
- **Rollback.** The scope always rolls back when it is left, after a
  commit too (`Domain/worker.py:15-16`). The fake's rollback does nothing
  (`test_handlers.py:40-41`), so committed writes stay.

## Model

| member | source | states |
|---|---|---|
| Records.IndexOf | user.py:119 | The first index whose key matches, and no earlier index matches. `None` exactly when no entry matches. |
| Records.RemoveAt | user.py:161 | `list.remove` of the found entry: one entry shorter, the same multiset less that entry, the order of the rest kept. |
| Records.AppendFreshKeepsUnique | user.py:111-114 | Appending an advert whose uuid is absent keeps uuids unique, and the lookup then finds it at the end. |
| Records.RemoveLeavesNoMatch | user.py:159-161 | After deleting from a uniquely keyed list, no entry with that uuid remains and the keys stay unique. |
| Records.ReplaceKeepsLookup | user.py:145-147 | Editing the found advert in place keeps the lookup's answer and the uniqueness of the uuids. |
| UnitOfWork.Scope | Domain/worker.py:12-16 | A scope's trace begins with entering and ends with the rollback. The body calls sit in between, and a commit sits just before the rollback. |
| UnitOfWork.CommitIsLastInScope | Domain/worker.py:15-19 | A scope contains a commit exactly when it committed, and never earlier than the step before the rollback. |
| UnitOfWork.Worker.constructor | test_handlers.py:32-35 | A fake worker starts with an empty repository, nothing committed and an empty trace. |
| UnitOfWork.Worker.Enter | Domain/worker.py:12-13 | Returns the worker itself and records the entry. |
| UnitOfWork.Worker.Exit | Domain/worker.py:15-16 | Always rolls back. |
| UnitOfWork.Worker.Commit | Domain/worker.py:18-19 | Delegates to the commit hook, which raises the committed flag. |
| UnitOfWork.Worker.CommitHook | test_handlers.py:37-38 | The fake's hook: the committed flag is set. |
| UnitOfWork.Worker.Rollback | test_handlers.py:40-41 | The fake's rollback leaves the data unchanged. |
| UnitOfWork.Worker.Read | test_handlers.py:21-22 | The entity filed under the key, or `None`. A found entity carries that key. |
| UnitOfWork.Worker.Create | test_handlers.py:18-19 | Files the entity under its own key and keeps the repository well keyed. |
| UnitOfWork.Worker.Update | test_handlers.py:28-29 | Files the entity under its own key, replacing the old entry. |
| UnitOfWork.Worker.Delete | test_handlers.py:24-26 | Removes the key. Fails with `KeyError` exactly when the key was absent. |
| Users.Provider.constructor | user.py:97-108 | Stores the given fields. No premium records, no pictures, flag unset. |
| Users.Provider.PublishAd | user.py:110-116 | Succeeds iff no advert has that uuid and the flag is not off. The new published advert, expiring a week after the second clock reading, is appended. Otherwise `AdAlreadyExist` or `UserNotActive` with the list unchanged. Keeps uuids unique. |
| Users.Provider.UnPublishAd | user.py:118-123 | Only the first advert with the uuid becomes unpublished with both dates cleared, and the lookup still finds it at the same position. `StopIteration` when it is absent. |
| Users.Provider.UpdateAdPublishedDate | user.py:125-132 | Non-VIP is refused with `NotVip`. Otherwise the first matching advert gets date `now` and expiry `now` plus a week, or `StopIteration`. |
| Users.Provider.GetBilling | user.py:134-135 | Returns the billing details held; `UpdateBilling` states that afterwards it returns the new ones. |
| Users.Provider.UpdateBilling | user.py:137-139 | The billing becomes exactly the new details, which are returned, and `GetBilling` then yields them. |
| Users.Provider.GetAd | user.py:141-142 | `None` iff no advert has the uuid, otherwise the advert at the position the first-match lookup finds. |
| Users.GetAdIsFirstMatch | user.py:141-142 | The advert `get_ad` returns is the FIRST with that uuid: it is in the list, and no earlier advert has that uuid. |
| Users.Provider.UpdateAdLocation | user.py:144-147 | Only the first matching advert's location is replaced, or `StopIteration` with the list unchanged. |
| Users.Provider.UpdateAdServices | user.py:149-152 | Only the first matching advert's services are replaced, or `StopIteration`. |
| Users.Provider.UpdateAdPrices | user.py:154-157 | Only the first matching advert's prices are replaced, or `StopIteration`. |
| Users.Provider.DeleteAd | user.py:159-161 | Removes the first matching advert, or `StopIteration` with the list unchanged. With unique uuids, none is left. |
| Users.Provider.PromoteAdToPremium | user.py:163-174 | Checks in source order: `NotVip`, then `AdvertisementAlreadyPromoted`, then `StopIteration`. On success it appends a record carrying the advert's expiry. |
| Users.Provider.PrivatePics | user.py:176-178 | The `private_pics` getter returns the pictures held; `SetPrivatePics` states that afterwards it returns the new list. |
| Users.Provider.SetPrivatePics | user.py:180-182 | The picture list becomes exactly the given one, and the getter then yields it. |
| Users.NewComment | user.py:215-216 | A comment by the owner on the target with the given content, stamped now and never modified. |
| Users.Visitor.constructor | user.py:195-203 | No messages sent, flag unset. |
| Users.Visitor.SendSms | user.py:205-209 | Counts one more message iff fewer than 50 were sent, otherwise `SmsLimitWasReached` with the count unchanged. |
| Users.Visitor.AddComment | user.py:215-216 | Succeeds iff the flag is not off, and appends the new comment to the visitor's list. |
| Users.Visitor.ModifyComment | user.py:218-222 | Only the first matching comment gets the new content and modification time, or `CommentNotFound`. |
| Users.Visitor.DeleteComment | Domain/handlers.py:75-80 | Removes the first matching comment, or `CommentNotFound` with the list unchanged. |
| Users.NewReport | user.py:27-28 | The report is NEW with an empty comment trail, filed by the reporter against the target. |
| Users.CommentOnReport | Domain/handlers.py:101-108 | Accepted iff the report has left NEW, appending exactly one comment. No report found gives `AttributeError`, a NEW report gives `ReportNotOpened`. |
| Users.Moderator.constructor | user.py:230-232 | Stores the identity, flag unset. |
| Users.Moderator.OpenReport | Domain/handlers.py:111-117 | Refused with `UserNotActive` when the flag is off. Otherwise the report becomes PENDING with the automatic opening comment appended. |
| Users.Moderator.CloseReport | Domain/handlers.py:120-126 | Accepted iff the report is PENDING. It becomes CLOSED with the closing comment appended, otherwise `ReportNotOpened`. |
| Users.Admin.constructor | user.py:225-227 | Stores the identity, flag unset. |
| Users.Admin.ActivateUser | Domain/handlers.py:129-135 | Succeeds iff the target is a user, whose flag is then on. Otherwise `AttributeError`. Only the target's `active` field may change. |
| Users.Admin.DisableUser | Domain/handlers.py:138-144 | Succeeds iff the target is a user, whose flag is then off. Otherwise `AttributeError`. Only the target's `active` field may change. |
| Users.SetActivity | Domain/handlers.py:129-144 | The shared flag flip: it succeeds iff the target is a user, which then has the given flag. Only that field may change. |
| Handlers.Notifier.constructor | test_handlers.py:153-154 | The fake notifier starts with no messages. |
| Handlers.Notifier.Send | test_handlers.py:156-157 | Records the message after the earlier ones. |
| Handlers.PublishAdvertisement | Domain/handlers.py:13-19 | Results as for `publish_ad`, with `AttributeError` when the owner is no provider. A success stores the advert under its uuid and commits after reading and creating. A failure changes no stored entry and is not committed. |
| Handlers.UnPublishAdvertisement | Domain/handlers.py:22-28 | A withdrawal is written back with `update` and committed. An absent owner or advert leaves the repository unchanged and uncommitted. |
| Handlers.UpdateAdPublishedDate | Domain/handlers.py:31-37 | A VIP's refresh is written back and committed. `NotVip` or `StopIteration` is not committed. |
| Handlers.PromoteAdToPremium | Domain/handlers.py:40-46 | The premium record is filed under the advert's uuid and committed, in the entity's check order. That replaces the advert's repository entry. The provider's own advert list is untouched. |
| Handlers.DeleteAd | Domain/handlers.py:49-54 | The provider loses the advert before the repository delete. A missing repository entry fails with `KeyError` after that change, uncommitted. A success removes the key and commits. |
| Handlers.AddComment | Domain/handlers.py:57-63 | The visitor's new comment is created in the repository and committed, or `UserNotActive` with nothing stored. |
| Handlers.ModifyCommentAsWritten | Domain/handlers.py:66-72 | As written, the handler always fails with `AttributeError`: nothing is stored or committed. |
| Handlers.ModifyComment | Domain/handlers.py:66-72 | The rewritten comment is written back and committed, or `CommentNotFound` uncommitted. |
| Handlers.DeleteComment | Domain/handlers.py:75-80 | As for adverts: the visitor's list first, then the repository delete, committed only when both succeed. |
| Handlers.SendSmsVisitor | Domain/handlers.py:83-89 | As written, the message is sent on every path, even when the count is refused. The counter follows `send_sms`. |
| Handlers.SendSmsVisitorWithinLimit | Domain/handlers.py:83-89 | Corrected order: a message is sent only when the counter accepts it, so messages sent equal the counter's growth. |
| Handlers.Report | Domain/handlers.py:92-98 | Any user files a NEW report that is created and committed. A uuid that is no user fails with `AttributeError`. |
| Handlers.CommentReport | Domain/handlers.py:101-108 | The result is the report-comment rule applied to the stored report. Success is written back and committed. |
| Handlers.OpenReport | Domain/handlers.py:111-117 | The result is the moderator's open rule applied to the stored report. Success is written back and committed, failure leaves the repository unchanged. |
| Handlers.CloseReport | Domain/handlers.py:120-126 | The result is the moderator's close rule applied to the stored report. Success is written back and committed. |
| Handlers.ActivateUser | Domain/handlers.py:129-135 | Succeeds iff the admin uuid holds an admin and the target is a user, whose flag is then on. Committed only then. A refused call leaves the flag as it was, and only the target's `active` field may change. |
| Handlers.DisableUser | Domain/handlers.py:138-144 | Succeeds iff the admin uuid holds an admin and the target is a user, whose flag is then off. Committed only then. A refused call leaves the flag as it was, and only the target's `active` field may change. |
| Handlers.SetPrivatePicsAsWritten | Domain/handlers.py:147-152 | As written, the handler always fails: `TypeError` for a provider, `AttributeError` otherwise. Nothing is stored or committed. |
| Handlers.SetPrivatePics | Domain/handlers.py:147-152 | Corrected: the provider's pictures become the given ones, committed. `AttributeError` when the uuid is no provider. |
| Handlers.UpdateBilling | Domain/handlers.py:155-160 | The provider's billing becomes the given details, committed. `AttributeError` when the uuid is no provider. |
| DraftHandlers.PublishAdvertisement | handlers.py:10-16 | The same outcomes as the domain handler, returning from inside the scope: `AttributeError`, `UserNotActive` or `AdAlreadyExist` with the list unchanged, or the advert built from the command's fields appended, created and committed. |
| DraftHandlers.UnPublishAdvertisement | handlers.py:19-25 | Only the first advert with the uuid is withdrawn in the provider's list, with both dates cleared, and is written back and committed; `StopIteration` or `AttributeError` with nothing changed otherwise. |
| Scenarios.PublishedAdIsReadable | test_handlers.py:44-52 | A published advert is read back by its uuid, and the worker committed. |
| Scenarios.UnpublishedAdIsWithdrawn | test_handlers.py:55-68 | After publishing and withdrawing, the stored advert is unpublished with no dates. |
| Scenarios.RefreshMovesDateForward | test_handlers.py:71-87 | A VIP refresh at a later clock reading moves the publication date strictly forward. |
| Scenarios.PromotedAdIsPremium | test_handlers.py:90-101 | The promoted record names the provider and advert and carries the advert's expiry. |
| Scenarios.DeletedAdIsGone | test_handlers.py:104-116 | After deletion, neither the provider nor the repository has the advert. |
| Scenarios.DraftPublishThenWithdraw | handlers.py:10-25 | The draft handlers publish the command's advert, refuse the same uuid again, and withdraw it in place so that one advert stays. |
| Scenarios.CommentIsKeptThenModified | test_handlers.py:119-149 | The comment is stored and kept by its author, and a later modification replaces the content and stamps the time. |
| Scenarios.FiftyOneSmsAsWritten | test_handlers.py:160-176 | Fifty sends are counted and the fifty-first is refused, yet fifty-one messages went out. |
| Scenarios.FiftyOneSmsWithinLimit | test_handlers.py:160-176 | With the corrected order, exactly fifty messages go out. |
| Scenarios.SameAdTwiceIsRefused | Domain/test.py:11-21 | A second advert under the same uuid is refused, and the list keeps one advert. |
| Scenarios.PromoteOnceThenRefused | Domain/test.py:114-132 | Promotion succeeds once, is refused a second time, and is refused once VIP is withdrawn. |
| Scenarios.AdUpdatesAreSeen | Domain/test.py:70-111 | Location, services and prices updates all show in the provider's copy. |
| Scenarios.BillingAndPicturesAreReplaced | Domain/test.py:53-67 | The billing details and picture list are replaced wholesale. |
| Scenarios.ReportLifecycle | Domain/test.py:159-217 | A NEW report refuses comments and closing. Opening adds the moderator's comment. Comments are then accepted, and closing appends the closing comment third. |
| Scenarios.RefusedActivationKeepsFlag | Domain/handlers.py:129-135 | An activation asked for by a uuid holding no admin is refused with `AttributeError` and leaves the target's flag unset. |
| Scenarios.DisableChangesOnlyTheFlag | Domain/handlers.py:138-144 | A disable by an admin turns the provider's flag off and leaves its adverts and billing as they were. |
| Scenarios.DisabledUsersAreRefused | Domain/test.py:220-263 | Once disabled, a provider cannot publish, a visitor cannot comment and a moderator cannot open a report. |

## Left out

- The web UI, the HTTP routes and the JavaScript are not part of this model.
- The abstract database and notification ports are represented only by the in-memory fakes of the tests.
- The fake notifier keeps one list per recipient; the model keeps one ordered list of (recipient, message) pairs, from which each recipient's list is the projection.
- The command shapes carry no logic and are plain datatypes.
- Passwords, e-mail addresses, birthdays, addresses, profile pictures and preferences are stored by the source and never inspected by the core, so the model leaves them out. Private pictures keep their bytes and date, which the core stores but never inspects.
- Clock readings are integer microseconds supplied by the caller. Fresh uuids are parameters, so their uniqueness is assumed by whoever passes them.
- The fake repository is a Python `set`. There, `update` adds without removing, and some records are unhashable. The model files every entity under its uuid, and `update` replaces the entry. `PremiumAdvertisement` has no `uuid` of its own (`user.py:49-54`), so the fake's `read` could never find it. The model chooses to file it under its `ad_uuid`. It therefore replaces the advert's entry in the repository.
- Aliasing between an advert returned to a caller and the provider's list is not modelled. Adverts are values, and a caller sees later edits only through `GetAd` or the repository, not through an old reference.
- Admin flag changes on an entity that is no user raise `AttributeError` in the model. Python would instead attach a new attribute to such an object.
- The flag guard on publishing comes from `Domain/test.py:235-263`, not from `user.py`, which has none.
- The visitor's constructor in `user.py:196` takes nine arguments, while the tests pass ten, the tenth a list of comments (`Domain/test.py:147`, `test_handlers.py:120`). The model's constructor takes the username, uuid, premium flag and that comment list. It leaves out the identity data that is never inspected, and it keeps a comment list the source's `Visitor` does not define.

## Findings

| source | as written | input that shows it | evidently intended | confidence | as-written member | corrected member |
|---|---|---|---|---|---|---|
| Domain/handlers.py:150 | `provider.private_pics(command.pictures)` calls the value of a property, a list, so it raises `TypeError`. | Any provider uuid with any picture list. | Assign through the `private_pics` setter and commit. | high, not executed | Handlers.SetPrivatePicsAsWritten | Handlers.SetPrivatePics |
| Domain/handlers.py:69 | `visitor.modify_comment(command.uuid, command.content)` passes a uuid string to the static `modify_comment` (`user.py:218-222`), which sets `content` on it and raises `AttributeError`. | Any visitor uuid and any comment uuid. | Rewrite the visitor's comment with that uuid, as `test_handlers.py:136-149` expects. | high, not executed | Handlers.ModifyCommentAsWritten | Handlers.ModifyComment |
| Domain/handlers.py:86-87 | The message is sent before `send_sms` checks the limit. | The 51st send for one visitor: `SmsLimitWasReached` is raised, but the message has gone out. | Check the limit first and send only when it is accepted. | medium, not executed | Scenarios.FiftyOneSmsAsWritten | Scenarios.FiftyOneSmsWithinLimit |
