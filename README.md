# silva.app.subscriptions in Dafny

A Dafny model of the email-subscription add-on for the Silva CMS, with
proofs about it. The add-on has three parts:

- **The resolver.** Its files are `subscribable.py` (`Subscribable`, `SubscribableContainer` and `SubscribableRoot`). Every content node has a record with two parts: a three-valued subscribability flag (not subscribable, subscribable, acquire) and a set of locally subscribed emails. The record is created lazily on first adaptation. The resolver answers two questions by walking from a node up to the root:
  - Is the node effectively subscribable?
  - Which emails receive notifications at the node, and which ancestor holds each subscription?
- **The subscription service.** Its file is `service.py`, covering `SubscriptionService` and the `version_published` handler. The service holds:
  - a global switch;
  - the sender, site name and maximum confirmation delay.

  It runs a request/confirm protocol. Confirmation uses stateless tokens: base64 of `<seconds>:<digest>`. On publication it sends one notification per subscribed email, first for the published content and then for each haunting ghost.
- **The 3.0 migration.** Its file is `upgrader/upgrade_300.py`. It moves legacy subscription attributes on a content object into the object's annotations.

Files:

| file | what it holds |
|---|---|
| `wrappers.dfy` | `Option` |
| `content_tree.dfy` | the content tree |
| `resolver.dfy` | `subscribable.py` |
| `tokens.dfy` | `_generate_token` and `_validate_token`, with the `str`, `int`, `join` and `split` they use |
| `service.dfy` | `service.py` |
| `upgrade300.dfy` | `upgrade_300.py` |

How the model is built:

- **The tree.** The content tree has an explicit parent map and a depth map; the depth map proves that every walk to the root terminates. Node kinds:
  - an asset has no subscription manager;
  - content and containers use the ordinary adapter;
  - the root uses the root adapter, whose flag cannot be Acquire.
- **The resolver.** Its queries are functions over the stored records. A node without a record reads as its default record. The record store is the class `Resolver.Annotations`: its methods write the store and are proved against those functions. The nested loops of `subscriptions` are methods, proved equal to a reference definition. The walk of `_get_subscribable_parents` is a recursive function with the accumulator and the `last_explicit` mark of the original. It is proved equal to a function of the flags met on the chain to the root.
- **The service.** `Service.SubscriptionService` is a class with the switch, the settings, the installed templates and an outbox of `Mail` records. Sending a mail is modelled as appending a record to the outbox. The clock is passed in as integer seconds.
- **Library calls.** The secret digest, base64, URL quoting and address validation are the function fields of `Tokens.Externals`. The lemmas state what they need of these calls as requirements:
  - `Laws`: decoding undoes encoding, a digest has no `:`, and unquoting undoes quoting;
  - `DigestInjective`: the digest is injective.
- **The upgrader.** The content object is the class `Upgrade300.SilvaObject`. The upgrade is a method on it, proved against the function `Upgrade300.Upgraded`.

The code differs from what one might expect of the add-on in three places, and the model follows the code:

- `request_cancellation` checks neither the switch nor subscribability (`service.py:126-131`).
- `subscribe` and `unsubscribe` do not check subscribability again. They refuse a node only when it has no manager (`service.py:153-155`, `169-171`).
- A token expires on whole days, counted as the floor of `timedelta.days`. It does not expire on the exact elapsed time (`service.py:205-206`).

Some code in test_upgrader300.py does not match upgrade_300.py. The test asks the manager of the object questions before the upgrade (`test_upgrader300.py:28-33`). That adaptation creates a default record (`subscribable.py:50-53`). The code as written then leaves any object that already has a record untouched (`upgrade_300.py:25`, `Upgrade300.UpgradeKeepsExisting`). The test, though, expects the legacy flag and emails to be visible afterwards. The model follows the code.

## Model

| member | source | states |
|---|---|---|
| `ContentTree.Chain` | src/silva/app/subscriptions/subscribable.py:63-64 | the `aq_parent` path from a node runs from the node to the root, and every node above the first is a container or the root |
| `ContentTree.ChainManaged` | src/silva/app/subscriptions/subscribable.py:137-145 | every node on the path from a node with a manager has a manager, because containers and the root are adapted |
| `Resolver.DefaultData` | src/silva/app/subscriptions/subscribable.py:27-54 | the lazily created record has no emails; its flag is Acquire for content and containers and NotSubscribable for the root (line 144), always one of the node's possibilities |
| `Resolver.DataOf` | src/silva/app/subscriptions/subscribable.py:47-54 | what an adapter sees as its record: the stored one, else the default; on a valid store the flag is one of the node's possibilities, and a node never adapted holds no emails |
| `Resolver.FlagOf` | src/silva/app/subscriptions/subscribable.py:66-69 | the flag read from a valid store is one of the node's possibilities; the root's is never Acquire |
| `Resolver.LocalEmails` | src/silva/app/subscriptions/subscribable.py:76-78 | the node's local emails; a node never adapted has none |
| `Resolver.IsSubscribable` | src/silva/app/subscriptions/subscribable.py:58-64 | an explicit flag on the node decides, and the root always decides by its own flag; for Acquire the parent is asked (the whole chain is characterised by `IsSubscribableFirstExplicit`) |
| `Resolver.ChainFlags` | src/silva/app/subscriptions/subscribable.py:58-64 | one flag per node of the path to the root, the node's own first |
| `Resolver.ChainFlagsAt` | src/silva/app/subscriptions/subscribable.py:58-64 | the i-th flag met on the walk is the flag of the i-th node of the chain to the root |
| `Resolver.ChainFlagsLast` | src/silva/app/subscriptions/subscribable.py:141-145 | the last flag met, the root's, is explicit, so the walk of `is_subscribable` ends |
| `Resolver.IsSubscribableFirstExplicit` | src/silva/app/subscriptions/subscribable.py:58-64 | a node is subscribable exactly when the first explicit flag on its chain is Subscribable |
| `Resolver.FirstNot` | src/silva/app/subscriptions/subscribable.py:99-103 | the position where the walk stops at a NotSubscribable node; no earlier flag is NotSubscribable |
| `Resolver.SubscribableParents` | src/silva/app/subscriptions/subscribable.py:94-110 | the walk with its accumulator and `last_explicit` mark, the root variant (lines 147-158) included; it never cuts the list below the mark, so the nodes before it are always kept |
| `Resolver.Kept` | src/silva/app/subscriptions/subscribable.py:94-110 | reference length of the part the walk keeps, never longer than the flags (its shape is `KeptShape`) |
| `Resolver.KeptShape` | src/silva/app/subscriptions/subscribable.py:94-110 | the part the walk keeps ends in an explicit Subscribable, lies before the first NotSubscribable, and only Acquire flags lie between the two |
| `Resolver.ParentsAccumulate` | src/silva/app/subscriptions/subscribable.py:94-110 | the accumulator walk, with any list and mark, appends the kept prefix of the chain or cuts the list back to the mark; the root variant at lines 147-158 included |
| `Resolver.ParentsOf` | src/silva/app/subscriptions/subscribable.py:94-98 | `_get_subscribable_parents()` is the chain to the root cut to the kept prefix |
| `Resolver.ParentsManaged` | src/silva/app/subscriptions/subscribable.py:104-110 | the collected nodes are a prefix of the chain, start at the node itself and all have managers |
| `Resolver.ParentsNotDisabled` | src/silva/app/subscriptions/subscribable.py:99-104 | no collected node is NotSubscribable |
| `Resolver.ParentsEndExplicit` | src/silva/app/subscriptions/subscribable.py:105-108 | the last collected node is explicitly Subscribable |
| `Resolver.ParentsDropAcquire` | src/silva/app/subscriptions/subscribable.py:99-103 | a walk that stops short of the root met a NotSubscribable node, and it dropped only Acquire nodes |
| `Resolver.IsSubscribableKept` | src/silva/app/subscriptions/subscribable.py:58-64 | being subscribable is the same as the walk keeping a non-empty prefix |
| `Resolver.SubscribableIffParents` | src/silva/app/subscriptions/subscribable.py:94-110 | a node is effectively subscribable exactly when the walk collects some node |
| `Resolver.EmailsAlong` | src/silva/app/subscriptions/subscribable.py:88-89 | every local email of every collected node is among the emails found |
| `Resolver.FirstHolder` | src/silva/app/subscriptions/subscribable.py:88-91 | the position of the nearest collected node holding an email: it holds the email and no earlier one does |
| `Resolver.SubscriptionsAlong` | src/silva/app/subscriptions/subscribable.py:86-92 | reference map of the nested loops: its keys are exactly the emails held along the walked nodes (what each maps to is `SubscriptionsMeaning`) |
| `Resolver.SubscriptionsAt` | src/silva/app/subscriptions/subscribable.py:85-92 | the `subscriptions` property: keyed by email, each subscription held at a node the walk collects |
| `Resolver.NewHolders` | src/silva/app/subscriptions/subscribable.py:89-91 | one node's contribution: exactly its emails not yet found, each held at that node |
| `Resolver.NewHoldersStep` | src/silva/app/subscriptions/subscribable.py:90-91 | an email already found keeps its holder; a new one is held at the current node |
| `Resolver.AddNewHolders` | src/silva/app/subscriptions/subscribable.py:89-91 | the inner loop adds exactly the node's emails not yet found |
| `Resolver.CollectAlong` | src/silva/app/subscriptions/subscribable.py:87-92 | the nested loops compute the reference map, each email held by its nearest holder |
| `Resolver.SubscriptionsAlongSnoc` | src/silva/app/subscriptions/subscribable.py:88-91 | walking one more node adds that node's new emails and keeps every earlier subscription |
| `Resolver.SubscriptionsKeyed` | src/silva/app/subscriptions/subscribable.py:91 | each key of the subscriptions map is the email of its subscription |
| `Resolver.SubscriptionsMeaning` | src/silva/app/subscriptions/subscribable.py:86-92 | an email is subscribed at a node exactly when a collected node holds it locally; its subscription is held at the first such node |
| `Resolver.NotSubscribableHasNoSubscriptions` | src/silva/app/subscriptions/subscribable.py:99-103 | a node that is not effectively subscribable has no subscriptions |
| `Resolver.NearestSubscriptionWins` | src/silva/app/subscriptions/subscribable.py:88-91 | on a subscribable node, its own email shadows any ancestor's: the subscription is held at the node |
| `Resolver.SubscriptionOnChain` | src/silva/app/subscriptions/subscribable.py:86-92 | a subscription is held at a managed node of the chain to the root that holds the email locally |
| `Resolver.ParentsFrame` | src/silva/app/subscriptions/subscribable.py:94-110 | the walk depends only on the records of the nodes on the chain |
| `Resolver.EmailsAlongFrame` | src/silva/app/subscriptions/subscribable.py:88-91 | the emails found and their holders depend only on the records of the walked nodes |
| `Resolver.SubscriptionsAlongFrame` | src/silva/app/subscriptions/subscribable.py:86-92 | the subscriptions along a walk depend only on the walked nodes' records |
| `Resolver.ParentsOfFrame` | src/silva/app/subscriptions/subscribable.py:94-98 | the collected nodes depend only on the records of the chain |
| `Resolver.SubscriptionsFrame` | src/silva/app/subscriptions/subscribable.py:85-92 | the subscriptions at a node depend only on the records of its chain |
| `Resolver.IsSubscribableFrame` | src/silva/app/subscriptions/subscribable.py:58-64 | effective subscribability depends only on the records of the chain |
| `Resolver.SubscribabilityIgnoresEmails` | src/silva/app/subscriptions/subscribable.py:58-64 | stores with the same flags give the same subscribability, whatever emails they hold |
| `Resolver.SameViewSameAnswers` | src/silva/app/subscriptions/subscribable.py:47-54 | stores no adapter can tell apart, such as before and after a lazy record creation, give the same answers |
| `Resolver.DisablingHidesInherited` | src/silva/app/subscriptions/subscribable.py:99-103 | setting a node to NotSubscribable empties its subscriptions and changes nothing at nodes whose chain avoids it, such as its ancestors |
| `Resolver.KeyedValuesCount` | src/silva/app/subscriptions/subscribable.py:112-113 | a map keyed by its values' emails has as many values as keys |
| `Resolver.WriteRecord` | src/silva/app/subscriptions/subscribable.py:70-80 | writing an allowed record keeps the store valid, is read back, leaves every other node's record unchanged, and is invisible when it rewrites the record already seen |
| `Resolver.Annotations.Adapt` | src/silva/app/subscriptions/subscribable.py:47-54 | adaptation fails exactly for assets; otherwise a node without a record gets the default record and nothing observable changes |
| `Resolver.Annotations.SetSubscribability` | src/silva/app/subscriptions/subscribable.py:70-72 | a flag outside the possibilities is refused with nothing observable changed; an accepted one is stored and read back |
| `Resolver.Annotations.SetLocalEmails` | src/silva/app/subscriptions/subscribable.py:79-80 | the node's emails become the set of the given values, nothing else changes |
| `Resolver.Annotations.Subscribe` | src/silva/app/subscriptions/subscribable.py:126-128 | set insertion at that node alone; a present email changes nothing observable |
| `Resolver.Annotations.Unsubscribe` | src/silva/app/subscriptions/subscribable.py:130-133 | removal at that node alone; an absent email changes nothing; afterwards the email is not local there |
| `Resolver.Annotations.Subscriptions` | src/silva/app/subscriptions/subscribable.py:85-92 | the `subscriptions` property is the nearest-holder map of the collected nodes |
| `Resolver.Annotations.GetSubscription` | src/silva/app/subscriptions/subscribable.py:115-119 | None exactly when the email is not a key; otherwise its subscription, whose email it is |
| `Resolver.Annotations.IsSubscribed` | src/silva/app/subscriptions/subscribable.py:121-122 | true exactly when the email is a key of the subscriptions |
| `Resolver.Annotations.GetSubscriptions` | src/silva/app/subscriptions/subscribable.py:112-113 | the values of the subscriptions, one per distinct email, each filed under its email |
| `Tokens.NatToString` | src/silva/app/subscriptions/service.py:195 | `str` of a non-negative integer is decimal digits without a leading zero |
| `Tokens.ParseDigits` | src/silva/app/subscriptions/service.py:205 | `int` of a non-empty string of digits is the decimal value of the digits |
| `Tokens.ParseNatToString` | src/silva/app/subscriptions/service.py:204-205 | `int` reads back what `str` wrote |
| `Tokens.StripLeft` | src/silva/app/subscriptions/service.py:205 | the whitespace `int` skips before a literal: a suffix with no leading space, only spaces cut |
| `Tokens.StripRight` | src/silva/app/subscriptions/service.py:205 | the whitespace `int` skips after a literal: a prefix with no trailing space, only spaces cut |
| `Tokens.ParseInt` | src/silva/app/subscriptions/service.py:205 | `int` of blank text fails, which the handler of `_validate_token` turns into a refusal |
| `Tokens.Count` | src/silva/app/subscriptions/service.py:202 | no occurrence exactly when the separator is absent |
| `Tokens.Join` | src/silva/app/subscriptions/service.py:197 | the joined text starts with the first piece, followed by the separator when there are more pieces |
| `Tokens.Split` | src/silva/app/subscriptions/service.py:204 | `split` gives one more piece than separators, no piece holds one, and joining the pieces gives the text back |
| `Tokens.SplitJoin2` | src/silva/app/subscriptions/service.py:197-204 | a two-piece join of separator-free pieces splits back into them |
| `Tokens.TokenText` | src/silva/app/subscriptions/service.py:195-197 | the text of a fresh token opens with the decimal timestamp followed by a colon |
| `Tokens.GenerateToken` | src/silva/app/subscriptions/service.py:193-197 | the token decodes to the timestamp, a `:` and the digest of content id, email, timestamp and action |
| `Tokens.ValidateToken` | src/silva/app/subscriptions/service.py:199-212 | undecodable text, text without `:` and text with more than one `:` are refused without raising |
| `Tokens.AcceptedTokenCarriesDigest` | src/silva/app/subscriptions/service.py:199-210 | an accepted token decodes to a parsable timestamp within the delay, a `:` and the digest of this content, email, timestamp and action |
| `Tokens.TokenTextSplits` | src/silva/app/subscriptions/service.py:197-204 | the text of a fresh token splits into its timestamp and its digest |
| `Tokens.TokenRoundTrip` | src/silva/app/subscriptions/service.py:193-210 | a token issued at second t is accepted for the same content, email and action exactly while the whole days elapsed do not exceed the maximum delay |
| `Tokens.TokenExpires` | src/silva/app/subscriptions/service.py:205-207 | a token is refused once maximum delay plus one days have passed |
| `Tokens.TokenScoped` | src/silva/app/subscriptions/service.py:208-210 | with an injective digest, a token is refused for any other content, email or action |
| `Service.InformationMail` | src/silva/app/subscriptions/service.py:221-233 | an information mail comes from the configured sender and goes to the given email, with the site name and delay, and carries no subscribed content and no link |
| `Service.ConfirmationMail` | src/silva/app/subscriptions/service.py:235-249 | a confirmation mail has the same sender and recipient, names the subscribed content, and carries a link that targets the subscribed content |
| `Service.NotificationMail` | src/silva/app/subscriptions/service.py:186-191 | a notification comes from the configured sender, goes to the subscription's email and names the node that holds the subscription |
| `Service.ConfirmationLinkValid` | src/silva/app/subscriptions/service.py:235-249 | the link of a confirmation mail targets the subscribed content, unquotes to the email, and its token is accepted exactly within the delay |
| `Service.ConfirmedSubscriptionIsSeen` | src/silva/app/subscriptions/service.py:157-160 | after confirmation on a subscribable node, the node stays subscribable and the email is subscribed there through the node itself |
| `Service.Notifications` | src/silva/app/subscriptions/service.py:186-191 | one mail per visited subscription, in order, to its email and about its holder |
| `Service.NotificationsSnoc` | src/silva/app/subscriptions/service.py:186-191 | visiting one more subscription appends exactly its mail after the earlier ones |
| `Service.FanOutOncePerEmail` | src/silva/app/subscriptions/service.py:186-191 | every email subscribed at the node gets exactly one mail, about the node holding its subscription, and nobody else gets one |
| `Service.BatchesStep` | src/silva/app/subscriptions/service.py:389-393 | one more notification pass appends its batch after the earlier ones |
| `Service.EnumeratedSnoc` | src/silva/app/subscriptions/service.py:389-393 | a pass that visits each subscription of the next node once keeps every pass so far exact |
| `Service.SubscriptionService.constructor` | src/silva/app/subscriptions/service.py:59-63 | a new service is off, with the class defaults for sender, site name and delay |
| `Service.SubscriptionService.Install` | src/silva/app/subscriptions/service.py:367-378 | `service_created` sets the site name to the root's title and installs the five templates |
| `Service.SubscriptionService.EnableSubscriptions` | src/silva/app/subscriptions/service.py:69-70 | only the switch changes, to on |
| `Service.SubscriptionService.DisableSubscriptions` | src/silva/app/subscriptions/service.py:74-75 | only the switch changes, to off |
| `Service.SubscriptionService.AreSubscriptionsEnabled` | src/silva/app/subscriptions/service.py:78-86 | false while off; without a context the switch; with one, false for an asset and otherwise the node's effective subscribability |
| `Service.SubscriptionService.SendInformation` | src/silva/app/subscriptions/service.py:230-233 | a missing template raises before sending; otherwise exactly one information mail |
| `Service.SubscriptionService.SendConfirmation` | src/silva/app/subscriptions/service.py:235-249 | a missing template raises before sending; otherwise exactly one mail with a link and a fresh token |
| `Service.SubscriptionService.RequestSubscription` | src/silva/app/subscriptions/service.py:91-119 | switch, subscribability, address, existing subscription, checked in that order, each with its error; one mail on the last two branches; the store untouched |
| `Service.SubscriptionService.RequestCancellation` | src/silva/app/subscriptions/service.py:122-142 | manager, then address; a mail about not being subscribed, or one confirmation targeting the holder of the subscription; the store untouched |
| `Service.SubscriptionService.Subscribe` | src/silva/app/subscriptions/service.py:147-160 | no manager raises NotSubscribable, a refused token SubscriptionError with the store unchanged; otherwise the unquoted email is added at that node alone |
| `Service.SubscriptionService.Unsubscribe` | src/silva/app/subscriptions/service.py:163-176 | no manager or a refused token raise CancellationError with the store unchanged; otherwise the unquoted email is removed at that node alone |
| `Service.SubscriptionService.Deliver` | src/silva/app/subscriptions/service.py:186-191 | the loop visits every subscription exactly once and appends its mail |
| `Service.SubscriptionService.SendNotification` | src/silva/app/subscriptions/service.py:179-191 | nothing while off; a missing template or an asset raises with nothing sent; otherwise one mail per subscription at the node |
| `Service.SubscriptionService.NotifyEach` | src/silva/app/subscriptions/service.py:389-393 | the notification passes for each node in order, stopping at the first error |
| `Service.VersionPublished` | src/silva/app/subscriptions/service.py:382-393 | nothing without a service or for non-publishable content; otherwise the content's batch, then each haunting ghost's, in order |
| `Upgrade300.LegacyEmails` | src/silva/app/subscriptions/upgrader/upgrade_300.py:28-29 | the emails of the legacy dict are its keys, none when the attribute is absent |
| `Upgrade300.Upgraded` | src/silva/app/subscriptions/upgrader/upgrade_300.py:21-34 | reference for one upgrade: either the attributes are left as they are, or a content object without a record gains one and loses all three legacy attributes |
| `Upgrade300.Upgrade` | src/silva/app/subscriptions/upgrader/upgrade_300.py:21-34 | the object's attributes become `Upgraded` of the old ones, and the object itself is returned |
| `Upgrade300.UpgradeSkips` | src/silva/app/subscriptions/upgrader/upgrade_300.py:22-23 | objects that are not content, and content without a legacy flag, are returned unchanged |
| `Upgrade300.UpgradeKeepsExisting` | src/silva/app/subscriptions/upgrader/upgrade_300.py:25 | an existing annotation entry and the legacy attributes are left untouched |
| `Upgrade300.UpgradeMigrates` | src/silva/app/subscriptions/upgrader/upgrade_300.py:24-33 | a migrated object has a record with the legacy flag and exactly the legacy emails, and no legacy attribute is left |
| `Upgrade300.UpgradeOnlyAdds` | src/silva/app/subscriptions/upgrader/upgrade_300.py:25-27 | an entry is only ever added, never replaced |
| `Upgrade300.UpgradeIdempotent` | src/silva/app/subscriptions/upgrader/upgrade_300.py:23-33 | a second run changes nothing |
| `Upgrade300.MigratedRecordAnswers` | src/silva/app/subscriptions/upgrader/upgrade_300.py:26-29 | seen through the resolver, a migrated record gives the legacy flag and emails; a legacy Subscribable node is subscribable and each legacy email is subscribed there |

## Left out

- Rendering templates, `sendmail` and the URL text of the confirmation link are not modelled. A mail is a record holding the template, the data fields and the link's parts.
- `_get_template` logs an error before its KeyError; logging is not modelled.
- ZODB persistence (`_p_changed`), security declarations and adapter lookup are not modelled. The ZMI forms, the MaildropHost installer, the views, the SMI screens and the captcha are UI and are also left out.
- The clock is an integer number of seconds. The model does not cover three things:
  - local time zones and daylight saving in `datetime.now` and `fromtimestamp`;
  - timestamps outside the range `fromtimestamp` allows;
  - fractions of a second. Because the issued timestamp is a whole second, they do not change the day count.
- The model does not implement `ISecretService.digest`, base64, `urllib` quoting or `isValidMailAddress`. They are supplied functions, and the lemmas state their laws as requirements. The model also leaves out:
  - the line wrapping of base64;
  - the conversion of the content id to text before digesting.
- `Tokens.ParseInt` models `int` on a byte string as surrounding ASCII whitespace, an optional sign and decimal digits. Other corners of CPython's parser are not modelled.
- Flags are the three-valued `Subscribability`. Stored integers other than 0, 1 and 2 are not modelled, and neither are legacy flags with such values.
- `get_content_from_id` returning None fails an `assert` in the original. Here a known node id is a requirement of `Subscribe` and `Unsubscribe`.
- `IPublishable` and `IContent` are modelled as "has a manager", that is, every node that is not an asset.
- IHaunted is not part of this model. The haunting ghosts are passed to `VersionPublished`; like every content node, each one is required to have a manager.
- The service adapts nodes in `are_subscriptions_enabled`, `request_*`, `subscribe`, `unsubscribe` and `send_notification`. It does not write the default record there. The resolver does not write it either when it walks up to ancestors. `Resolver.Annotations.Adapt` performs that write, and `Resolver.SameViewSameAnswers` shows that no resolver or service answer can observe it.
- The upgrader's annotation entry (`Upgrade300.SilvaObject.annotation`) is a store of its own, apart from `Resolver.Annotations`. The test for a record in `upgrade_300.py:25` is therefore not connected to the resolver's lazy write: the model does not capture that a node adapted before the migration, by a service call or as an ancestor visited by a walk, already has a record and is skipped with its legacy attributes left in place.
- The upgrader's `validate`, its version string and its priority belong to the upgrade framework and are not part of this model.
- A confirmation can be replayed within the delay. The model, like the original, keeps no record of used tokens.
