/**
 * The subscription service (`SubscriptionService` and the
 * `version_published` event handler): the global switch, the
 * request/confirm protocol with its ordered checks, and the fan-out of
 * publication notifications. Sending a mail appends a `Mail` record to the
 * outbox; rendering and delivery are not part of the model.
 */
module Service {
  import opened Wrappers
  import opened ContentTree
  import opened Resolver
  import opened Tokens

  /** The exceptions of errors.py, plus the two the service lets escape from its dependencies. */
  datatype Error =
    | SubscriptionError
    | CancellationError
    | InvalidEmailaddressError
    | NotSubscribableError
    | AlreadySubscribedError
    | NotSubscribedError
    | TemplateMissing(template: Template)   // the KeyError of `_get_template`
    | CouldNotAdapt                         // `ISubscriptionManager(content)` without a default

  datatype Outcome = Ok | Raised(error: Error)

  /** The page templates `service_created` installs in the service. */
  datatype Template =
    | SubscriptionConfirmationTemplate
    | AlreadySubscribedTemplate
    | CancellationConfirmationTemplate
    | NotSubscribedTemplate
    | PublicationEventTemplate

  const AllTemplates: set<Template> :=
    {SubscriptionConfirmationTemplate, AlreadySubscribedTemplate, CancellationConfirmationTemplate,
     NotSubscribedTemplate, PublicationEventTemplate}

  /** The fields of `ISubscriptionSettings`: `_from`, `_sitename` and `_maximum_delay` (in days). */
  datatype Settings = Settings(sender: string, sitename: string, maximumDelay: int)

  const DefaultSettings: Settings := Settings("Subscription Service <subscription-service@example.com>", "Silva", 3)

  /** The query of a confirmation URL: the action view, the content id, the quoted email and the token. */
  datatype Link = Link(action: Action, content: NodeId, email: string, token: string)

  /**
   * A rendered message: the template, the `data` it is rendered with
   * (`from`, `to`, `sitename`, `confirmation_delay`, the content whose
   * metadata is shown, `subscribed_content`, `confirmation_url`).
   */
  datatype Mail = Mail(template: Template, sender: string, to: Email, sitename: string, confirmationDelay: int,
                       context: NodeId, subscribed: Option<NodeId>, confirmation: Option<Link>)

  /** `_get_default_data(content, email)` rendered with `template`. */
  function InformationMail(st: Settings, template: Template, content: NodeId, email: Email): (m: Mail)
    ensures m.sender == st.sender && m.to == email && m.sitename == st.sitename
    ensures m.confirmationDelay == st.maximumDelay && m.subscribed.None? && m.confirmation.None?
  {
    Mail(template, st.sender, email, st.sitename, st.maximumDelay, content, None, None)
  }

  /** What `_send_confirmation` renders: the default data plus the subscribed content and its confirmation link. */
  function ConfirmationMail(x: Externals, st: Settings, template: Template, content: NodeId, subscribed: NodeId,
                            email: Email, action: Action, now: nat): (m: Mail)
    ensures m.sender == st.sender && m.to == email && m.subscribed == Some(subscribed)
    ensures m.confirmation.Some? && m.confirmation.value.content == subscribed
  {
    InformationMail(st, template, content, email).(
      subscribed := Some(subscribed),
      confirmation := Some(Link(action, subscribed, x.quote(email), GenerateToken(x, subscribed, email, action, now))))
  }

  /** One iteration of the loop of `send_notification`: `data['to']` and `data['subscribed_content']` set for `s`. */
  function NotificationMail(st: Settings, template: Template, content: NodeId, s: Subscription): (m: Mail)
    ensures m.sender == st.sender && m.to == s.email && m.subscribed == Some(s.content)
  {
    InformationMail(st, template, content, s.email).(subscribed := Some(s.content))
  }

  /**
   * The link of a confirmation mail, followed with its email unquoted,
   * carries a token that is accepted for the subscribed content and the
   * action exactly while the delay in whole days is within the maximum.
   */
  lemma ConfirmationLinkValid(x: Externals, st: Settings, t: Template, content: NodeId, subscribed: NodeId,
                              email: Email, action: Action, sent: nat, now: int)
    requires Laws(x)
    ensures var link := ConfirmationMail(x, st, t, content, subscribed, email, action, sent).confirmation.value;
            && link.content == subscribed
            && x.unquote(link.email) == email
            && (ValidateToken(x, link.content, x.unquote(link.email), action, link.token, now, st.maximumDelay)
                <==> (now - sent) / Day <= st.maximumDelay)
  {
    assert x.unquote(x.quote(email)) == email;
    TokenRoundTrip(x, subscribed, email, action, sent, now, st.maximumDelay);
  }

  /**
   * The protocol's end: once a confirmed subscription has added `e` to the
   * emails of a node that is effectively subscribable, the node stays
   * subscribable and `e` is subscribed there, through the node itself.
   */
  lemma ConfirmedSubscriptionIsSeen(t: Tree, recs: map<NodeId, SubscribableData>, n: NodeId, e: Email)
    requires Ready(t, recs) && HasManager(t, n) && IsSubscribable(t, recs, n)
    ensures var after := recs[n := DataOf(t, recs, n).(subscriptions := LocalEmails(t, recs, n) + {e})];
            && Ready(t, after)
            && IsSubscribable(t, after, n)
            && e in SubscriptionsAt(t, after, n) && SubscriptionsAt(t, after, n)[e] == Subscription(e, n)
  {
    var d := DataOf(t, recs, n).(subscriptions := LocalEmails(t, recs, n) + {e});
    assert d.subscribability == FlagOf(t, recs, n);
    WriteRecord(t, recs, n, d);
    var after := recs[n := d];
    SubscribabilityIgnoresEmails(t, recs, after, n);
    NearestSubscriptionWins(t, after, n, e);
  }

  /** The mails of one pass of the notification loop, visiting the subscriptions in the order `order`. */
  function Notifications(st: Settings, template: Template, content: NodeId, order: seq<Subscription>): (ms: seq<Mail>)
    ensures |ms| == |order|
    ensures forall i :: 0 <= i < |order| ==> ms[i] == NotificationMail(st, template, content, order[i])
  {
    if order == [] then []
    else Notifications(st, template, content, order[..|order| - 1]) + [NotificationMail(st, template, content, order[|order| - 1])]
  }

  /** Visiting one more subscription appends its mail. */
  lemma NotificationsSnoc(st: Settings, template: Template, content: NodeId, order: seq<Subscription>,
                          s: Subscription, before: seq<Mail>)
    ensures before + Notifications(st, template, content, order + [s]) ==
            before + Notifications(st, template, content, order) + [NotificationMail(st, template, content, s)]
  {
    assert (order + [s])[..|order|] == order;
  }

  /** `order` lists every element of `all` exactly once. */
  ghost predicate Enumerates<T>(order: seq<T>, all: set<T>) {
    && (forall i, j :: 0 <= i < j < |order| ==> order[i] != order[j])
    && (forall i :: 0 <= i < |order| ==> order[i] in all)
    && (forall s :: s in all ==> s in order)
  }

  /**
   * The fan-out promise: when the notification loop visits each subscription
   * at a node once, every email subscribed there gets exactly one mail,
   * about the node that holds its subscription, and nobody else gets one.
   */
  lemma FanOutOncePerEmail(st: Settings, template: Template, content: NodeId, subs: map<Email, Subscription>,
                           order: seq<Subscription>, e: Email)
    requires forall k :: k in subs ==> subs[k].email == k
    requires Enumerates(order, subs.Values)
    ensures var ms := Notifications(st, template, content, order);
            && (e in subs <==> exists i :: 0 <= i < |ms| && ms[i].to == e)
            && (forall i :: 0 <= i < |ms| && ms[i].to == e ==> ms[i].subscribed == Some(subs[e].content))
            && (forall i, j :: 0 <= i < |ms| && 0 <= j < |ms| && ms[i].to == e && ms[j].to == e ==> i == j)
  {
    var ms := Notifications(st, template, content, order);
    if e in subs {
      assert subs[e] in subs.Values;
      var i :| 0 <= i < |order| && order[i] == subs[e];
      assert ms[i].to == e;
    }
    forall i | 0 <= i < |ms| && ms[i].to == e ensures e in subs && order[i] == subs[e] {
      assert order[i] in subs.Values;
      var k :| k in subs && subs[k] == order[i];
    }
    forall i, j | 0 <= i < |ms| && 0 <= j < |ms| && ms[i].to == e && ms[j].to == e ensures i == j {
      assert order[i] == order[j];
    }
  }

  /** The mails of several notification passes, one per node, in order. */
  function Batches(st: Settings, template: Template, nodes: seq<NodeId>, orders: seq<seq<Subscription>>): seq<Mail>
    requires |nodes| == |orders|
  {
    if nodes == [] then []
    else Batches(st, template, nodes[..|nodes| - 1], orders[..|orders| - 1]) +
         Notifications(st, template, nodes[|nodes| - 1], orders[|orders| - 1])
  }

  /** One more notification pass appends its batch. */
  lemma BatchesStep(st: Settings, template: Template, nodes: seq<NodeId>, orders: seq<seq<Subscription>>,
                    i: nat, order: seq<Subscription>, before: seq<Mail>)
    requires i < |nodes| && |orders| == i
    ensures before + Batches(st, template, nodes[..i + 1], orders + [order]) ==
            before + Batches(st, template, nodes[..i], orders) + Notifications(st, template, nodes[i], order)
  {
    assert nodes[..i + 1][..i] == nodes[..i];
    assert (orders + [order])[..i] == orders;
  }

  /** One more pass that visits each subscription at its node once keeps every pass so far exact. */
  lemma EnumeratedSnoc(t: Tree, recs: map<NodeId, SubscribableData>, nodes: seq<NodeId>,
                       orders: seq<seq<Subscription>>, order: seq<Subscription>)
    requires Ready(t, recs) && |orders| < |nodes| && forall k :: 0 <= k < |nodes| ==> HasManager(t, nodes[k])
    requires forall k :: 0 <= k < |orders| ==> Enumerates(orders[k], SubscriptionsAt(t, recs, nodes[k]).Values)
    requires Enumerates(order, SubscriptionsAt(t, recs, nodes[|orders|]).Values)
    ensures forall k :: 0 <= k < |orders| + 1 ==>
              Enumerates((orders + [order])[k], SubscriptionsAt(t, recs, nodes[k]).Values)
  {
    forall k | 0 <= k < |orders| + 1
      ensures Enumerates((orders + [order])[k], SubscriptionsAt(t, recs, nodes[k]).Values)
    {
      if k < |orders| { assert (orders + [order])[k] == orders[k]; }
    }
  }

  class SubscriptionService {
    var enabled: bool
    var settings: Settings
    var templates: set<Template>
    var outbox: seq<Mail>
    const store: Annotations
    const externals: Externals

    ghost predicate Valid()
      reads this, store
    {
      store.Valid()
    }

    /** A new service: subscriptions off, the class defaults, no templates and nothing sent. */
    constructor (store: Annotations, externals: Externals)
      requires store.Valid()
      ensures Valid() && this.store == store && this.externals == externals
      ensures !enabled && settings == DefaultSettings && templates == {} && outbox == []
    {
      this.store := store;
      this.externals := externals;
      enabled := false;
      settings := DefaultSettings;
      templates := {};
      outbox := [];
    }

    /** `service_created`: the site name becomes the root's title and the five templates are added. */
    method Install(rootTitle: string)
      requires Valid()
      modifies this
      ensures Valid()
      ensures settings == old(settings).(sitename := rootTitle) && templates == old(templates) + AllTemplates
      ensures enabled == old(enabled) && outbox == old(outbox)
    {
      settings := settings.(sitename := rootTitle);
      templates := templates + AllTemplates;
    }

    /** `enable_subscriptions`: only the switch changes. */
    method EnableSubscriptions()
      requires Valid()
      modifies this
      ensures Valid()
      ensures enabled && settings == old(settings) && templates == old(templates) && outbox == old(outbox)
    {
      enabled := true;
    }

    /** `disable_subscriptions`: only the switch changes. */
    method DisableSubscriptions()
      requires Valid()
      modifies this
      ensures Valid()
      ensures !enabled && settings == old(settings) && templates == old(templates) && outbox == old(outbox)
    {
      enabled := false;
    }

    /**
     * `are_subscriptions_enabled(context)`: never while the switch is off;
     * without a context it is the switch; with one, false for a node without a
     * manager and otherwise the node's effective subscribability.
     */
    function AreSubscriptionsEnabled(context: Option<NodeId>): (b: bool)
      reads this, store
      requires Valid() && (context.Some? ==> IsNode(store.tree, context.value))
      ensures !enabled ==> !b
      ensures enabled && context.None? ==> b
      ensures context.Some? && !HasManager(store.tree, context.value) ==> !b
      ensures enabled && context.Some? && HasManager(store.tree, context.value) ==>
                (b <==> IsSubscribable(store.tree, store.records, context.value))
    {
      if !enabled then false
      else if context.None? then true
      else if !HasManager(store.tree, context.value) then false
      else IsSubscribable(store.tree, store.records, context.value)
    }

    /** `_send_information`: a missing template raises KeyError before anything is sent. */
    method SendInformation(content: NodeId, email: Email, template: Template) returns (outcome: Outcome)
      requires Valid()
      modifies this
      ensures Valid()
      ensures enabled == old(enabled) && settings == old(settings) && templates == old(templates)
      ensures template !in templates ==> outcome == Raised(TemplateMissing(template)) && outbox == old(outbox)
      ensures template in templates ==>
                outcome == Ok && outbox == old(outbox) + [InformationMail(settings, template, content, email)]
    {
      if template !in templates {
        return Raised(TemplateMissing(template));
      }
      outbox := outbox + [InformationMail(settings, template, content, email)];
      outcome := Ok;
    }

    /**
     * `_send_confirmation`: one mail to `email` with a link, and a token
     * issued at `now`, for `subscribed` and `action`.
     */
    method SendConfirmation(content: NodeId, subscribed: NodeId, email: Email, template: Template,
                            action: Action, now: nat) returns (outcome: Outcome)
      requires Valid()
      modifies this
      ensures Valid()
      ensures enabled == old(enabled) && settings == old(settings) && templates == old(templates)
      ensures template !in templates ==> outcome == Raised(TemplateMissing(template)) && outbox == old(outbox)
      ensures template in templates ==>
                && outcome == Ok
                && outbox == old(outbox) + [ConfirmationMail(externals, settings, template, content, subscribed, email, action, now)]
    {
      if template !in templates {
        return Raised(TemplateMissing(template));
      }
      outbox := outbox + [ConfirmationMail(externals, settings, template, content, subscribed, email, action, now)];
      outcome := Ok;
    }

    /**
     * `request_subscription` at second `now`. The checks come in this order:
     * the switch, then a manager that is effectively subscribable, then the
     * address, then whether the address is already subscribed there (one
     * mail about the existing subscription, and AlreadySubscribed). Only a
     * request that passes them all sends the confirmation mail. The store is
     * never written.
     */
    method RequestSubscription(content: NodeId, email: Email, now: nat) returns (outcome: Outcome)
      requires Valid() && IsNode(store.tree, content)
      modifies this
      ensures Valid()
      ensures enabled == old(enabled) && settings == old(settings) && templates == old(templates)
      ensures !enabled ==> outcome == Raised(NotSubscribableError) && outbox == old(outbox)
      ensures enabled && !(HasManager(store.tree, content) && IsSubscribable(store.tree, store.records, content)) ==>
                outcome == Raised(NotSubscribableError) && outbox == old(outbox)
      ensures enabled && HasManager(store.tree, content) && IsSubscribable(store.tree, store.records, content) ==>
                && (!externals.isValidMailAddress(email) ==>
                      outcome == Raised(InvalidEmailaddressError) && outbox == old(outbox))
                && (externals.isValidMailAddress(email) && email in SubscriptionsAt(store.tree, store.records, content) ==>
                      if AlreadySubscribedTemplate in templates then
                        && outcome == Raised(AlreadySubscribedError)
                        && outbox == old(outbox) + [ConfirmationMail(externals, settings, AlreadySubscribedTemplate, content,
                                                    SubscriptionsAt(store.tree, store.records, content)[email].content,
                                                    email, ConfirmSubscription, now)]
                      else outcome == Raised(TemplateMissing(AlreadySubscribedTemplate)) && outbox == old(outbox))
                && (externals.isValidMailAddress(email) && email !in SubscriptionsAt(store.tree, store.records, content) ==>
                      if SubscriptionConfirmationTemplate in templates then
                        && outcome == Ok
                        && outbox == old(outbox) + [ConfirmationMail(externals, settings, SubscriptionConfirmationTemplate,
                                                    content, content, email, ConfirmSubscription, now)]
                      else outcome == Raised(TemplateMissing(SubscriptionConfirmationTemplate)) && outbox == old(outbox))
    {
      if !AreSubscriptionsEnabled(None) {
        return Raised(NotSubscribableError);
      }
      if !HasManager(store.tree, content) || !IsSubscribable(store.tree, store.records, content) {
        return Raised(NotSubscribableError);
      }
      if !externals.isValidMailAddress(email) {
        return Raised(InvalidEmailaddressError);
      }
      var subscription := store.GetSubscription(content, email);
      if subscription.Some? {
        outcome := SendConfirmation(content, subscription.value.content, email, AlreadySubscribedTemplate,
                                    ConfirmSubscription, now);
        if outcome.Ok? {
          outcome := Raised(AlreadySubscribedError);
        }
        return;
      }
      outcome := SendConfirmation(content, content, email, SubscriptionConfirmationTemplate, ConfirmSubscription, now);
    }

    /**
     * `request_cancellation` at second `now`: neither the switch nor
     * subscribability is checked. No manager, then an invalid address, are
     * refused; an address not subscribed gets one information mail and
     * NotSubscribed; otherwise one confirmation mail targets the node that
     * holds the subscription, which may be an ancestor. The store is never
     * written.
     */
    method RequestCancellation(content: NodeId, email: Email, now: nat) returns (outcome: Outcome)
      requires Valid() && IsNode(store.tree, content)
      modifies this
      ensures Valid()
      ensures enabled == old(enabled) && settings == old(settings) && templates == old(templates)
      ensures !HasManager(store.tree, content) ==> outcome == Raised(NotSubscribableError) && outbox == old(outbox)
      ensures HasManager(store.tree, content) ==>
                && (!externals.isValidMailAddress(email) ==>
                      outcome == Raised(InvalidEmailaddressError) && outbox == old(outbox))
                && (externals.isValidMailAddress(email) && email !in SubscriptionsAt(store.tree, store.records, content) ==>
                      if NotSubscribedTemplate in templates then
                        && outcome == Raised(NotSubscribedError)
                        && outbox == old(outbox) + [InformationMail(settings, NotSubscribedTemplate, content, email)]
                      else outcome == Raised(TemplateMissing(NotSubscribedTemplate)) && outbox == old(outbox))
                && (externals.isValidMailAddress(email) && email in SubscriptionsAt(store.tree, store.records, content) ==>
                      if CancellationConfirmationTemplate in templates then
                        && outcome == Ok
                        && outbox == old(outbox) + [ConfirmationMail(externals, settings, CancellationConfirmationTemplate, content,
                                                    SubscriptionsAt(store.tree, store.records, content)[email].content,
                                                    email, ConfirmCancellation, now)]
                      else outcome == Raised(TemplateMissing(CancellationConfirmationTemplate)) && outbox == old(outbox))
    {
      if !HasManager(store.tree, content) {
        return Raised(NotSubscribableError);
      }
      if !externals.isValidMailAddress(email) {
        return Raised(InvalidEmailaddressError);
      }
      var subscription := store.GetSubscription(content, email);
      if subscription.None? {
        outcome := SendInformation(content, email, NotSubscribedTemplate);
        if outcome.Ok? {
          outcome := Raised(NotSubscribedError);
        }
        return;
      }
      outcome := SendConfirmation(content, subscription.value.content, email, CancellationConfirmationTemplate,
                                  ConfirmCancellation, now);
    }

    /**
     * `subscribe(content_id, email, token)` at second `now`: the quoted email
     * from the link is unquoted and, when the token is accepted for this
     * content, email and `confirm_subscription`, added to this node's own
     * emails. Neither the switch nor subscribability is checked again.
     */
    method Subscribe(contentId: NodeId, email: string, token: string, now: int) returns (outcome: Outcome)
      requires Valid() && IsNode(store.tree, contentId)
      modifies store
      ensures Valid()
      ensures !HasManager(store.tree, contentId) ==>
                outcome == Raised(NotSubscribableError) && store.records == old(store.records)
      ensures HasManager(store.tree, contentId) &&
              !ValidateToken(externals, contentId, externals.unquote(email), ConfirmSubscription, token, now, settings.maximumDelay) ==>
                outcome == Raised(SubscriptionError) && store.records == old(store.records)
      ensures HasManager(store.tree, contentId) &&
              ValidateToken(externals, contentId, externals.unquote(email), ConfirmSubscription, token, now, settings.maximumDelay) ==>
                && outcome == Ok
                && store.records == old(store.records)[contentId := DataOf(store.tree, old(store.records), contentId).(
                     subscriptions := LocalEmails(store.tree, old(store.records), contentId) + {externals.unquote(email)})]
    {
      if !HasManager(store.tree, contentId) {
        return Raised(NotSubscribableError);
      }
      var address := externals.unquote(email);
      if !ValidateToken(externals, contentId, address, ConfirmSubscription, token, now, settings.maximumDelay) {
        return Raised(SubscriptionError);
      }
      store.Subscribe(contentId, address);
      outcome := Ok;
    }

    /**
     * `unsubscribe(content_id, email, token)` at second `now`: the same
     * protocol for `confirm_cancellation`; both a node without a manager and
     * a refused token raise CancellationError.
     */
    method Unsubscribe(contentId: NodeId, email: string, token: string, now: int) returns (outcome: Outcome)
      requires Valid() && IsNode(store.tree, contentId)
      modifies store
      ensures Valid()
      ensures !HasManager(store.tree, contentId) ==>
                outcome == Raised(CancellationError) && store.records == old(store.records)
      ensures HasManager(store.tree, contentId) &&
              !ValidateToken(externals, contentId, externals.unquote(email), ConfirmCancellation, token, now, settings.maximumDelay) ==>
                outcome == Raised(CancellationError) && store.records == old(store.records)
      ensures HasManager(store.tree, contentId) &&
              ValidateToken(externals, contentId, externals.unquote(email), ConfirmCancellation, token, now, settings.maximumDelay) ==>
                && outcome == Ok
                && store.records ==
                   if externals.unquote(email) in LocalEmails(store.tree, old(store.records), contentId) then
                     old(store.records)[contentId := DataOf(store.tree, old(store.records), contentId).(
                       subscriptions := LocalEmails(store.tree, old(store.records), contentId) - {externals.unquote(email)})]
                   else old(store.records)
    {
      if !HasManager(store.tree, contentId) {
        return Raised(CancellationError);
      }
      var address := externals.unquote(email);
      if !ValidateToken(externals, contentId, address, ConfirmCancellation, token, now, settings.maximumDelay) {
        return Raised(CancellationError);
      }
      store.Unsubscribe(contentId, address);
      outcome := Ok;
    }

    /**
     * The body of the notification loop: one mail per element of `all`, in the
     * order `order` the loop picks them.
     */
    method Deliver(all: set<Subscription>, template: Template, content: NodeId) returns (ghost order: seq<Subscription>)
      requires Valid()
      modifies this
      ensures Valid()
      ensures enabled == old(enabled) && settings == old(settings) && templates == old(templates)
      ensures Enumerates(order, all)
      ensures outbox == old(outbox) + Notifications(settings, template, content, order)
    {
      order := [];
      var pending := all;
      while pending != {}
        invariant pending <= all
        invariant enabled == old(enabled) && settings == old(settings) && templates == old(templates)
        invariant outbox == old(outbox) + Notifications(settings, template, content, order)
        invariant forall i, j :: 0 <= i < j < |order| ==> order[i] != order[j]
        invariant forall i :: 0 <= i < |order| ==> order[i] in all && order[i] !in pending
        invariant forall s :: s in all && s !in pending ==> s in order
        decreases pending
      {
        var s :| s in pending;
        NotificationsSnoc(settings, template, content, order, s, old(outbox));
        outbox := outbox + [NotificationMail(settings, template, content, s)];
        order := order + [s];
        pending := pending - {s};
      }
    }

    /**
     * `send_notification(content, template)`: nothing while the switch is
     * off; a missing template raises KeyError and a node without a manager
     * cannot be adapted; otherwise one mail per subscription seen at
     * `content`, in the order `order` the loop visits them.
     */
    method SendNotification(content: NodeId, template: Template) returns (outcome: Outcome, ghost order: seq<Subscription>)
      requires Valid() && IsNode(store.tree, content)
      modifies this
      ensures Valid()
      ensures enabled == old(enabled) && settings == old(settings) && templates == old(templates)
      ensures !enabled ==> outcome == Ok && outbox == old(outbox)
      ensures enabled && template !in templates ==> outcome == Raised(TemplateMissing(template)) && outbox == old(outbox)
      ensures enabled && template in templates && !HasManager(store.tree, content) ==>
                outcome == Raised(CouldNotAdapt) && outbox == old(outbox)
      ensures enabled && template in templates && HasManager(store.tree, content) ==>
                && outcome == Ok
                && Enumerates(order, SubscriptionsAt(store.tree, store.records, content).Values)
                && outbox == old(outbox) + Notifications(settings, template, content, order)
    {
      order := [];
      if !AreSubscriptionsEnabled(None) {
        return Ok, order;
      }
      if template !in templates {
        return Raised(TemplateMissing(template)), order;
      }
      if !HasManager(store.tree, content) {
        return Raised(CouldNotAdapt), order;
      }
      var all := store.GetSubscriptions(content);
      order := Deliver(all, template, content);
      outcome := Ok;
    }

    /**
     * The notification passes of `version_published` for `nodes` in order,
     * stopping at the first error; every node has a manager.
     */
    method NotifyEach(nodes: seq<NodeId>, template: Template) returns (outcome: Outcome, ghost orders: seq<seq<Subscription>>)
      requires Valid() && forall i :: 0 <= i < |nodes| ==> HasManager(store.tree, nodes[i])
      modifies this
      ensures Valid()
      ensures enabled == old(enabled) && settings == old(settings) && templates == old(templates)
      ensures !enabled ==> outcome == Ok && outbox == old(outbox)
      ensures enabled && template !in templates && nodes != [] ==>
                outcome == Raised(TemplateMissing(template)) && outbox == old(outbox)
      ensures enabled && template in templates ==>
                && outcome == Ok
                && |orders| == |nodes|
                && (forall k :: 0 <= k < |nodes| ==>
                      Enumerates(orders[k], SubscriptionsAt(store.tree, store.records, nodes[k]).Values))
                && outbox == old(outbox) + Batches(settings, template, nodes, orders)
    {
      orders := [];
      ghost var tree, recs := store.tree, store.records;
      ghost var live := enabled && template in templates;
      var i := 0;
      while i < |nodes|
        invariant 0 <= i <= |nodes|
        invariant enabled == old(enabled) && settings == old(settings) && templates == old(templates)
        invariant !live ==> outbox == old(outbox)
        invariant enabled && template !in templates ==> i == 0
        invariant live ==> |orders| == i
        invariant live ==> forall k :: 0 <= k < i ==> Enumerates(orders[k], SubscriptionsAt(tree, recs, nodes[k]).Values)
        invariant live ==> outbox == old(outbox) + Batches(settings, template, nodes[..i], orders)
      {
        ghost var order;
        outcome, order := SendNotification(nodes[i], template);
        if !outcome.Ok? {
          return;
        }
        if live {
          assert store.tree == tree && store.records == recs;
          assert Enumerates(order, SubscriptionsAt(tree, recs, nodes[i]).Values);
          BatchesStep(settings, template, nodes, orders, i, order, old(outbox));
          EnumeratedSnoc(tree, recs, nodes, orders, order);
          orders := orders + [order];
        }
        i := i + 1;
      }
      assert nodes[..i] == nodes;
      outcome := Ok;
    }
  }

  /**
   * `version_published`: with a service installed and publishable content,
   * notify the content's subscribers, then those of each haunting ghost in
   * turn; an error stops the handler. Publishable content is content with a
   * manager here; ghosts are content, so every haunting node has one.
   */
  method VersionPublished(service: SubscriptionService?, content: NodeId, haunting: seq<NodeId>)
    returns (outcome: Outcome, ghost orders: seq<seq<Subscription>>)
    requires service != null ==> service.Valid() && IsNode(service.store.tree, content)
    requires service != null ==> forall i :: 0 <= i < |haunting| ==> HasManager(service.store.tree, haunting[i])
    modifies service
    ensures service == null ==> outcome == Ok
    ensures service != null ==>
              && service.Valid()
              && service.enabled == old(service.enabled) && service.settings == old(service.settings)
              && service.templates == old(service.templates)
    ensures service != null && (!HasManager(service.store.tree, content) || !service.enabled) ==>
              outcome == Ok && service.outbox == old(service.outbox)
    ensures service != null && HasManager(service.store.tree, content) && service.enabled &&
            PublicationEventTemplate !in service.templates ==>
              outcome == Raised(TemplateMissing(PublicationEventTemplate)) && service.outbox == old(service.outbox)
    ensures service != null && HasManager(service.store.tree, content) && service.enabled &&
            PublicationEventTemplate in service.templates ==>
              && outcome == Ok
              && |orders| == 1 + |haunting|
              && (forall i :: 0 <= i < |orders| ==>
                    Enumerates(orders[i], SubscriptionsAt(service.store.tree, service.store.records, ([content] + haunting)[i]).Values))
              && service.outbox == old(service.outbox) + Batches(service.settings, PublicationEventTemplate, [content] + haunting, orders)
  {
    orders := [];
    if service == null || !HasManager(service.store.tree, content) {
      return Ok, orders;
    }
    outcome, orders := service.NotifyEach([content] + haunting, PublicationEventTemplate);
  }
}
