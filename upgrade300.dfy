/**
 * The 3.0 data migration (`SubscriptionUpgrader.upgrade`): subscription
 * settings that older versions kept as attributes of the content object move
 * into the object's annotations, under the key 'silva.app.subscriptions'.
 */
module Upgrade300 {
  import opened Wrappers
  import opened ContentTree
  import opened Resolver

  /**
   * What the upgrader reads and writes on one object: its annotation entry
   * and the three legacy attributes `__subscribability__`,
   * `__subscriptions__` (a dict whose keys are the emails) and
   * `__pending_subscription_tokens__`. `None` is an absent attribute.
   */
  datatype Attributes = Attributes(
    annotation: Option<SubscribableData>,
    subscribability: Option<Subscribability>,
    subscriptions: Option<map<Email, Email>>,
    pendingTokens: Option<map<Email, string>>)

  /** `IContent.providedBy`: every node that has a subscription manager. */
  predicate IsContent(k: Kind) {
    k != Asset
  }

  /** The emails a legacy `__subscriptions__` attribute holds: its keys, none when it is absent. */
  function LegacyEmails(subscriptions: Option<map<Email, Email>>): (es: set<Email>)
    ensures forall e :: e in es <==> subscriptions.Some? && e in subscriptions.value
  {
    if subscriptions.Some? then subscriptions.value.Keys else {}
  }

  /** The attributes of an object of kind `k` after one `upgrade`. */
  function Upgraded(k: Kind, a: Attributes): (b: Attributes)
    ensures b == a || (IsContent(k) && a.annotation.None? && b.annotation.Some? &&
                       b.subscribability.None? && b.subscriptions.None? && b.pendingTokens.None?)
  {
    if !IsContent(k) || a.subscribability.None? || a.annotation.Some? then a
    else Attributes(Some(SubscribableData(a.subscribability.value, LegacyEmails(a.subscriptions))), None, None, None)
  }

  /** A content object: its kind and the attributes the upgrader touches. */
  class SilvaObject {
    const kind: Kind
    var annotation: Option<SubscribableData>
    var legacySubscribability: Option<Subscribability>
    var legacySubscriptions: Option<map<Email, Email>>
    var legacyPendingTokens: Option<map<Email, string>>

    function State(): Attributes
      reads this
    {
      Attributes(annotation, legacySubscribability, legacySubscriptions, legacyPendingTokens)
    }

    constructor (kind: Kind, a: Attributes)
      ensures this.kind == kind && State() == a
    {
      this.kind := kind;
      annotation := a.annotation;
      legacySubscribability := a.subscribability;
      legacySubscriptions := a.subscriptions;
      legacyPendingTokens := a.pendingTokens;
    }
  }

  /**
   * `upgrade(content)`: for content that still has `__subscribability__`
   * and no annotation entry yet, store a record with the legacy flag, copy
   * the legacy emails into it, then delete the legacy attributes. The object
   * itself is returned in every case.
   */
  method Upgrade(content: SilvaObject) returns (r: SilvaObject)
    modifies content
    ensures r == content
    ensures content.State() == Upgraded(content.kind, old(content.State()))
  {
    if IsContent(content.kind) && content.legacySubscribability.Some? {
      if content.annotation.None? {
        var data := SubscribableData(content.legacySubscribability.value, {});
        content.annotation := Some(data);
        if content.legacySubscriptions.Some? {
          data := data.(subscriptions := content.legacySubscriptions.value.Keys);
          content.annotation := Some(data);
          content.legacySubscriptions := None;
        }
        if content.legacyPendingTokens.Some? {
          content.legacyPendingTokens := None;
        }
        content.legacySubscribability := None;
      }
    }
    r := content;
  }

  /** Objects that are not content, and content without a legacy flag, are left as they are. */
  lemma UpgradeSkips(k: Kind, a: Attributes)
    requires !IsContent(k) || a.subscribability.None?
    ensures Upgraded(k, a) == a
  {
  }

  /** An existing annotation entry wins: neither it nor the legacy attributes are touched. */
  lemma UpgradeKeepsExisting(k: Kind, a: Attributes)
    requires a.annotation.Some?
    ensures Upgraded(k, a) == a
  {
  }

  /**
   * A migrated object carries a record with the legacy flag whose emails
   * are exactly the legacy ones, and none of the legacy attributes.
   */
  lemma UpgradeMigrates(k: Kind, a: Attributes, e: Email)
    requires IsContent(k) && a.subscribability.Some? && a.annotation.None?
    ensures var b := Upgraded(k, a);
            && b.annotation.Some?
            && b.annotation.value.subscribability == a.subscribability.value
            && (e in b.annotation.value.subscriptions <==> a.subscriptions.Some? && e in a.subscriptions.value)
            && b.subscribability.None? && b.subscriptions.None? && b.pendingTokens.None?
  {
  }

  /** The upgrader only ever adds an annotation entry, and never replaces one. */
  lemma UpgradeOnlyAdds(k: Kind, a: Attributes)
    ensures a.annotation.Some? ==> Upgraded(k, a).annotation == a.annotation
    ensures Upgraded(k, a) != a ==> a.annotation.None? && Upgraded(k, a).annotation.Some?
  {
  }

  /** A second run changes nothing: the first leaves no legacy flag behind, or found a record already. */
  lemma UpgradeIdempotent(k: Kind, a: Attributes)
    ensures Upgraded(k, Upgraded(k, a)) == Upgraded(k, a)
  {
  }

  /**
   * Seen through the resolver, a migrated record on a node that had none
   * answers with the legacy settings: the flag and the emails are the legacy
   * ones, the node is subscribable when the legacy flag said so, and then
   * every legacy email is subscribed there, through the node itself.
   */
  lemma MigratedRecordAnswers(t: Tree, recs: map<NodeId, SubscribableData>, n: NodeId, a: Attributes, e: Email)
    requires Ready(t, recs) && HasManager(t, n) && n !in recs
    requires a.annotation.None? && a.subscribability.Some? && a.subscribability.value in Possibilities(t.kind[n])
    ensures var d := Upgraded(t.kind[n], a).annotation.value;
            && Ready(t, recs[n := d])
            && FlagOf(t, recs[n := d], n) == a.subscribability.value
            && LocalEmails(t, recs[n := d], n) == LegacyEmails(a.subscriptions)
            && (a.subscribability.value == Subscribable ==> IsSubscribable(t, recs[n := d], n))
            && (a.subscribability.value == NotSubscribable ==> !IsSubscribable(t, recs[n := d], n))
            && (a.subscribability.value == Subscribable && e in LegacyEmails(a.subscriptions) ==>
                  e in SubscriptionsAt(t, recs[n := d], n) && SubscriptionsAt(t, recs[n := d], n)[e] == Subscription(e, n))
  {
    var d := Upgraded(t.kind[n], a).annotation.value;
    WriteRecord(t, recs, n, d);
    if a.subscribability.value == Subscribable && e in LegacyEmails(a.subscriptions) {
      NearestSubscriptionWins(t, recs[n := d], n, e);
    }
  }
}
