/**
 * The subscription manager of a content node (`Subscribable`,
 * `SubscribableContainer`, `SubscribableRoot`): the per-node record, the
 * resolution of effective subscribability along the path to the root, and
 * the aggregated subscriptions visible at a node.
 */
module Resolver {
  import opened Wrappers
  import opened ContentTree

  type Email = string

  /** The tri-state flag; stored as 0, 1 and 2 by the original. */
  datatype Subscribability = NotSubscribable | Subscribable | Acquire

  /** The record kept in a node's annotations under 'silva.app.subscriptions'. */
  datatype SubscribableData = SubscribableData(subscribability: Subscribability, subscriptions: set<Email>)

  /** Derived view record: `email` receives notifications through the subscription held at `content`. */
  datatype Subscription = Subscription(email: Email, content: NodeId)

  /** `default_subscribability` of the adapter for a node kind. */
  function DefaultSubscribability(k: Kind): Subscribability {
    if k == Root then NotSubscribable else Acquire
  }

  /** `subscribability_possibilities` of the adapter for a node kind. */
  function Possibilities(k: Kind): set<Subscribability> {
    if k == Root then {NotSubscribable, Subscribable} else {NotSubscribable, Subscribable, Acquire}
  }

  /** The record `__init__` creates when a node is adapted for the first time. */
  function DefaultData(k: Kind): (d: SubscribableData)
    ensures d.subscriptions == {}
    ensures d.subscribability in Possibilities(k)
    ensures k == Root ==> d.subscribability == NotSubscribable
    ensures k != Root ==> d.subscribability == Acquire
  {
    SubscribableData(DefaultSubscribability(k), {})
  }

  /**
   * Only nodes with a manager have a record, and every stored flag is one of
   * the node's possibilities (so the root never holds Acquire).
   */
  ghost predicate StoreValid(t: Tree, recs: map<NodeId, SubscribableData>) {
    && (forall n :: n in recs ==> HasManager(t, n))
    && (forall n :: n in recs ==> recs[n].subscribability in Possibilities(t.kind[n]))
  }

  ghost predicate Ready(t: Tree, recs: map<NodeId, SubscribableData>) {
    WellFormed(t) && StoreValid(t, recs)
  }

  /** What an adapter on `n` sees as `self.data`: the stored record, or the default one it would create. */
  function DataOf(t: Tree, recs: map<NodeId, SubscribableData>, n: NodeId): (d: SubscribableData)
    requires n in t.kind
    ensures StoreValid(t, recs) && t.kind[n] != Asset ==> d.subscribability in Possibilities(t.kind[n])
    ensures n !in recs ==> d.subscriptions == {}
  {
    if n in recs then recs[n] else DefaultData(t.kind[n])
  }

  /** The `subscribability` getter. */
  function FlagOf(t: Tree, recs: map<NodeId, SubscribableData>, n: NodeId): (f: Subscribability)
    requires Ready(t, recs) && n in t.kind
    ensures t.kind[n] != Asset ==> f in Possibilities(t.kind[n])
    ensures n == t.root ==> f != Acquire
  {
    DataOf(t, recs, n).subscribability
  }

  /** The `locally_subscribed_emails` getter; a set value, so no caller can alter the stored one through it. */
  function LocalEmails(t: Tree, recs: map<NodeId, SubscribableData>, n: NodeId): (es: set<Email>)
    requires n in t.kind
    ensures n !in recs ==> es == {}
  {
    DataOf(t, recs, n).subscriptions
  }

  /** Two stores that no adapter can tell apart. */
  ghost predicate SameView(t: Tree, r1: map<NodeId, SubscribableData>, r2: map<NodeId, SubscribableData>) {
    forall n :: HasManager(t, n) ==> DataOf(t, r1, n) == DataOf(t, r2, n)
  }

  // ---------------------------------------------------------------------
  // is_subscribable

  /** `is_subscribable`: NotSubscribable and Subscribable decide, Acquire asks the parent. */
  function IsSubscribable(t: Tree, recs: map<NodeId, SubscribableData>, n: NodeId): (b: bool)
    requires Ready(t, recs) && HasManager(t, n)
    decreases t.depth[n]
    ensures FlagOf(t, recs, n) != Acquire ==> (b <==> FlagOf(t, recs, n) == Subscribable)
    ensures t.kind[n] == Root ==> (b <==> FlagOf(t, recs, n) == Subscribable)
  {
    match FlagOf(t, recs, n)
    case NotSubscribable => false
    case Subscribable => true
    case Acquire => IsSubscribable(t, recs, t.parent[n])
  }

  /**
   * The flags met on the way from `n` to the root, in that order: one per
   * node of `Chain(t, n)` (see `ChainFlagsAt`).
   */
  function ChainFlags(t: Tree, recs: map<NodeId, SubscribableData>, n: NodeId): (fs: seq<Subscribability>)
    requires Ready(t, recs) && HasManager(t, n)
    decreases t.depth[n]
    ensures |fs| == |Chain(t, n)|
    ensures fs[0] == FlagOf(t, recs, n)
  {
    if t.kind[n] == Root then [FlagOf(t, recs, n)]
    else [FlagOf(t, recs, n)] + ChainFlags(t, recs, t.parent[n])
  }

  /** Each flag of `ChainFlags` is the flag of the matching chain node. */
  lemma {:induction false} ChainFlagsAt(t: Tree, recs: map<NodeId, SubscribableData>, n: NodeId)
    requires Ready(t, recs) && HasManager(t, n)
    ensures forall i :: 0 <= i < |Chain(t, n)| ==> ChainFlags(t, recs, n)[i] == FlagOf(t, recs, Chain(t, n)[i])
    decreases t.depth[n]
  {
    if t.kind[n] != Root {
      var p := t.parent[n];
      ChainFlagsAt(t, recs, p);
      var c, c' := Chain(t, n), Chain(t, p);
      var fs, fs' := ChainFlags(t, recs, n), ChainFlags(t, recs, p);
      assert c == [n] + c' && fs == [fs[0]] + fs';
      forall i | 0 < i < |c| ensures fs[i] == FlagOf(t, recs, c[i]) {
        assert fs[i] == fs'[i - 1] && c[i] == c'[i - 1];
      }
    }
  }

  /** The last flag met, the root's, is explicit. */
  lemma {:induction false} ChainFlagsLast(t: Tree, recs: map<NodeId, SubscribableData>, n: NodeId)
    requires Ready(t, recs) && HasManager(t, n)
    ensures ChainFlags(t, recs, n)[|Chain(t, n)| - 1] != Acquire
    decreases t.depth[n]
  {
    if t.kind[n] != Root {
      var p := t.parent[n];
      ChainFlagsLast(t, recs, p);
      assert ChainFlags(t, recs, n) == [FlagOf(t, recs, n)] + ChainFlags(t, recs, p);
    }
  }

  /** The first explicit (non-Acquire) flag of `fs`, or Acquire when there is none. */
  function FirstExplicit(fs: seq<Subscribability>): Subscribability {
    if fs == [] then Acquire
    else if fs[0] != Acquire then fs[0]
    else FirstExplicit(fs[1..])
  }

  /**
   * A node is subscribable exactly when the first explicit setting met on the
   * way to the root is Subscribable; an absent explicit setting means not
   * subscribable.
   */
  lemma {:induction false} IsSubscribableFirstExplicit(t: Tree, recs: map<NodeId, SubscribableData>, n: NodeId)
    requires Ready(t, recs) && HasManager(t, n)
    ensures IsSubscribable(t, recs, n) <==> FirstExplicit(ChainFlags(t, recs, n)) == Subscribable
    decreases t.depth[n]
  {
    if FlagOf(t, recs, n) == Acquire {
      IsSubscribableFirstExplicit(t, recs, t.parent[n]);
    }
  }

  // ---------------------------------------------------------------------
  // _get_subscribable_parents

  /**
   * `_get_subscribable_parents(subscribables, last_explicit)`: the list is
   * threaded through the recursion, `n` is appended unless its flag is
   * NotSubscribable, in which case the list is cut back to `last`; an
   * explicit Subscribable moves `last` to the end of the list. The root
   * variant appends itself and stops.
   */
  function SubscribableParents(t: Tree, recs: map<NodeId, SubscribableData>, n: NodeId,
                               acc: seq<NodeId>, last: nat): (p: seq<NodeId>)
    requires Ready(t, recs) && HasManager(t, n) && last <= |acc|
    decreases t.depth[n]
    ensures last <= |p| && p[..last] == acc[..last]
  {
    if FlagOf(t, recs, n) == NotSubscribable then acc[..last]
    else if t.kind[n] == Root then acc + [n]
    else
      var acc' := acc + [n];
      SubscribableParents(t, recs, t.parent[n], acc',
                          if FlagOf(t, recs, n) == Subscribable then |acc'| else last)
  }

  /** Index of the first NotSubscribable flag of `fs`, `|fs|` when there is none. */
  function FirstNot(fs: seq<Subscribability>): (j: nat)
    ensures j <= |fs|
    ensures j < |fs| ==> fs[j] == NotSubscribable
    ensures forall i :: 0 <= i < j ==> fs[i] != NotSubscribable
  {
    if fs == [] then 0
    else if fs[0] == NotSubscribable then 0
    else 1 + FirstNot(fs[1..])
  }

  /**
   * Reference for the walk: the length of the longest prefix of `fs` that
   * ends in an explicit Subscribable flag and comes before the first
   * NotSubscribable flag (0 when there is none).
   */
  function Kept(fs: seq<Subscribability>): (k: nat)
    ensures k <= |fs|
  {
    if fs == [] then 0
    else if fs[0] == NotSubscribable then 0
    else
      var k := Kept(fs[1..]);
      if k > 0 then k + 1
      else if fs[0] == Subscribable then 1
      else 0
  }

  /**
   * What `Kept` keeps: no NotSubscribable flag, an explicit Subscribable
   * last, and between its end and the first NotSubscribable flag (when the
   * last flag is not Acquire, there is one) only Acquire flags.
   */
  lemma {:induction false} KeptShape(fs: seq<Subscribability>)
    requires fs != [] ==> fs[|fs| - 1] != Acquire
    ensures Kept(fs) <= FirstNot(fs)
    ensures Kept(fs) > 0 ==> fs[Kept(fs) - 1] == Subscribable
    ensures Kept(fs) < |fs| ==> FirstNot(fs) < |fs|
    ensures forall i :: Kept(fs) <= i < FirstNot(fs) ==> fs[i] == Acquire
  {
    if fs != [] && fs[0] != NotSubscribable {
      var fs' := fs[1..];
      if fs' != [] { assert fs'[|fs'| - 1] == fs[|fs| - 1]; }
      KeptShape(fs');
      forall i | Kept(fs) <= i < FirstNot(fs) ensures fs[i] == Acquire {
        if i > 0 { assert fs[i] == fs'[i - 1]; }
      }
    }
  }

  lemma PrefixCons<T>(x: T, s: seq<T>, k: nat)
    requires k <= |s|
    ensures ([x] + s)[..k + 1] == [x] + s[..k]
  {
  }

  /** One step of the walk, stated on the flags and nodes alone: appending `n` and walking on agrees with `Kept`. */
  lemma KeptStep(f: Subscribability, fs': seq<Subscribability>, n: NodeId, c': seq<NodeId>, acc: seq<NodeId>, last: nat)
    requires f != NotSubscribable && last <= |acc| && |fs'| == |c'|
    ensures var acc' := acc + [n];
            var last' := if f == Subscribable then |acc'| else last;
            (if Kept(fs') > 0 then acc' + c'[..Kept(fs')] else acc'[..last']) ==
            (if Kept([f] + fs') > 0 then acc + ([n] + c')[..Kept([f] + fs')] else acc[..last])
  {
    var fs := [f] + fs';
    assert fs[1..] == fs';
    var k' := Kept(fs');
    var acc' := acc + [n];
    if k' > 0 {
      assert Kept(fs) == k' + 1;
      PrefixCons(n, c', k');
      assert acc' + c'[..k'] == acc + ([n] + c'[..k']);
    } else if f == Subscribable {
      assert Kept(fs) == 1;
      assert acc'[..|acc'|] == acc';
      PrefixCons(n, c', 0);
      assert [n] + c'[..0] == [n];
    } else {
      assert Kept(fs) == 0;
      assert acc'[..last] == acc[..last];
    }
  }

  /** The accumulator version of the walk agrees with the reference `Kept`. */
  lemma {:induction false} ParentsAccumulate(t: Tree, recs: map<NodeId, SubscribableData>, n: NodeId,
                                             acc: seq<NodeId>, last: nat)
    requires Ready(t, recs) && HasManager(t, n) && last <= |acc|
    ensures SubscribableParents(t, recs, n, acc, last) ==
            if Kept(ChainFlags(t, recs, n)) > 0 then acc + Chain(t, n)[..Kept(ChainFlags(t, recs, n))]
            else acc[..last]
    decreases t.depth[n]
  {
    var f := FlagOf(t, recs, n);
    var fs := ChainFlags(t, recs, n);
    if f == NotSubscribable {
      assert Kept(fs) == 0;
    } else if t.kind[n] == Root {
      assert fs == [f] && Chain(t, n) == [n];
    } else {
      var p := t.parent[n];
      var acc' := acc + [n];
      var last' := if f == Subscribable then |acc'| else last;
      ParentsAccumulate(t, recs, p, acc', last');
      assert Chain(t, n) == [n] + Chain(t, p);
      assert fs == [f] + ChainFlags(t, recs, p);
      KeptStep(f, ChainFlags(t, recs, p), n, Chain(t, p), acc, last);
    }
  }

  /** `_get_subscribable_parents()` as called with no arguments: a prefix of the chain to the root. */
  function ParentsOf(t: Tree, recs: map<NodeId, SubscribableData>, n: NodeId): (p: seq<NodeId>)
    requires Ready(t, recs) && HasManager(t, n)
    ensures p == Chain(t, n)[..Kept(ChainFlags(t, recs, n))]
  {
    ParentsAccumulate(t, recs, n, [], 0);
    SubscribableParents(t, recs, n, [], 0)
  }

  /**
   * The walk collects a prefix of the node-to-root chain, starting at `n`;
   * every collected node is a node of the tree with a manager.
   */
  lemma ParentsManaged(t: Tree, recs: map<NodeId, SubscribableData>, n: NodeId)
    requires Ready(t, recs) && HasManager(t, n)
    ensures AllManaged(t, ParentsOf(t, recs, n))
    ensures |ParentsOf(t, recs, n)| <= |Chain(t, n)|
    ensures ParentsOf(t, recs, n) == Chain(t, n)[..|ParentsOf(t, recs, n)|]
    ensures ParentsOf(t, recs, n) != [] ==> ParentsOf(t, recs, n)[0] == n
  {
    var c := Chain(t, n);
    var p := ParentsOf(t, recs, n);
    ChainManaged(t, n);
    forall i | 0 <= i < |p| ensures HasManager(t, p[i]) {
      assert p[i] == c[i];
    }
  }

  /** No node the walk collects is NotSubscribable. */
  lemma ParentsNotDisabled(t: Tree, recs: map<NodeId, SubscribableData>, n: NodeId)
    requires Ready(t, recs) && HasManager(t, n)
    ensures AllManaged(t, ParentsOf(t, recs, n))
    ensures forall i :: 0 <= i < |ParentsOf(t, recs, n)| ==>
              FlagOf(t, recs, ParentsOf(t, recs, n)[i]) != NotSubscribable
  {
    var fs := ChainFlags(t, recs, n);
    var c := Chain(t, n);
    var p := ParentsOf(t, recs, n);
    ParentsManaged(t, recs, n);
    ChainFlagsAt(t, recs, n);
    ChainFlagsLast(t, recs, n);
    KeptShape(fs);
    forall i | 0 <= i < |p| ensures FlagOf(t, recs, p[i]) != NotSubscribable {
      assert p[i] == c[i] && fs[i] != NotSubscribable;
    }
  }

  /** The last node the walk collects is explicitly Subscribable. */
  lemma ParentsEndExplicit(t: Tree, recs: map<NodeId, SubscribableData>, n: NodeId)
    requires Ready(t, recs) && HasManager(t, n)
    ensures AllManaged(t, ParentsOf(t, recs, n))
    ensures ParentsOf(t, recs, n) != [] ==>
              FlagOf(t, recs, ParentsOf(t, recs, n)[|ParentsOf(t, recs, n)| - 1]) == Subscribable
  {
    var fs := ChainFlags(t, recs, n);
    var c := Chain(t, n);
    var p := ParentsOf(t, recs, n);
    ParentsManaged(t, recs, n);
    ChainFlagsAt(t, recs, n);
    ChainFlagsLast(t, recs, n);
    KeptShape(fs);
    if p != [] {
      assert p[|p| - 1] == c[|p| - 1];
    }
  }

  /**
   * What the walk drops: when it stops short of the root, the chain has a
   * NotSubscribable node, and every flag between the last collected node and
   * the first NotSubscribable one is Acquire (the flags of `ChainFlags` are
   * those of the chain's nodes, `ChainFlagsAt`).
   */
  lemma ParentsDropAcquire(t: Tree, recs: map<NodeId, SubscribableData>, n: NodeId)
    requires Ready(t, recs) && HasManager(t, n)
    ensures |ParentsOf(t, recs, n)| < |Chain(t, n)| ==>
              && FirstNot(ChainFlags(t, recs, n)) < |Chain(t, n)|
              && |ParentsOf(t, recs, n)| <= FirstNot(ChainFlags(t, recs, n))
              && forall i :: |ParentsOf(t, recs, n)| <= i < FirstNot(ChainFlags(t, recs, n)) ==>
                   ChainFlags(t, recs, n)[i] == Acquire
  {
    var fs := ChainFlags(t, recs, n);
    ChainFlagsLast(t, recs, n);
    KeptShape(fs);
    assert |ParentsOf(t, recs, n)| == Kept(fs);
  }

  /** `Kept` of the chain's flags is positive exactly when the node is subscribable. */
  lemma {:induction false} IsSubscribableKept(t: Tree, recs: map<NodeId, SubscribableData>, n: NodeId)
    requires Ready(t, recs) && HasManager(t, n)
    ensures IsSubscribable(t, recs, n) <==> Kept(ChainFlags(t, recs, n)) > 0
    decreases t.depth[n]
  {
    var fs := ChainFlags(t, recs, n);
    if FlagOf(t, recs, n) == Acquire {
      var p := t.parent[n];
      IsSubscribableKept(t, recs, p);
      assert fs[1..] == ChainFlags(t, recs, p);
    }
  }

  /** A node is effectively subscribable exactly when the walk collects something. */
  lemma SubscribableIffParents(t: Tree, recs: map<NodeId, SubscribableData>, n: NodeId)
    requires Ready(t, recs) && HasManager(t, n)
    ensures IsSubscribable(t, recs, n) <==> ParentsOf(t, recs, n) != []
  {
    IsSubscribableKept(t, recs, n);
  }
  // ---------------------------------------------------------------------
  // subscriptions

  /** All emails held locally by the nodes of `p`. */
  function EmailsAlong(t: Tree, recs: map<NodeId, SubscribableData>, p: seq<NodeId>): (es: set<Email>)
    requires forall i :: 0 <= i < |p| ==> p[i] in t.kind
    ensures forall i, e :: 0 <= i < |p| && e in LocalEmails(t, recs, p[i]) ==> e in es
  {
    if p == [] then {} else LocalEmails(t, recs, p[0]) + EmailsAlong(t, recs, p[1..])
  }

  /** Index of the first node of `p` holding `e`. */
  function FirstHolder(t: Tree, recs: map<NodeId, SubscribableData>, p: seq<NodeId>, e: Email): (i: nat)
    requires forall i :: 0 <= i < |p| ==> p[i] in t.kind
    requires e in EmailsAlong(t, recs, p)
    ensures i < |p| && e in LocalEmails(t, recs, p[i])
    ensures forall j :: 0 <= j < i ==> e !in LocalEmails(t, recs, p[j])
  {
    if e in LocalEmails(t, recs, p[0]) then 0 else 1 + FirstHolder(t, recs, p[1..], e)
  }

  /** Reference for the nested loops of `subscriptions`: each email maps to its nearest holder in `p`. */
  function SubscriptionsAlong(t: Tree, recs: map<NodeId, SubscribableData>, p: seq<NodeId>): (m: map<Email, Subscription>)
    requires forall i :: 0 <= i < |p| ==> p[i] in t.kind
    ensures m.Keys == EmailsAlong(t, recs, p)
  {
    map e | e in EmailsAlong(t, recs, p) :: Subscription(e, p[FirstHolder(t, recs, p, e)])
  }

  /** The `subscriptions` property of the adapter on `n`. */
  function SubscriptionsAt(t: Tree, recs: map<NodeId, SubscribableData>, n: NodeId): (m: map<Email, Subscription>)
    requires Ready(t, recs) && HasManager(t, n)
    ensures forall e :: e in m ==> m[e].email == e && m[e].content in ParentsOf(t, recs, n)
  {
    ParentsManaged(t, recs, n);
    SubscriptionsAlong(t, recs, ParentsOf(t, recs, n))
  }

  lemma {:induction false} EmailsAlongSnoc(t: Tree, recs: map<NodeId, SubscribableData>, p: seq<NodeId>, q: NodeId)
    requires forall i :: 0 <= i < |p| ==> p[i] in t.kind
    requires q in t.kind
    ensures EmailsAlong(t, recs, p + [q]) == EmailsAlong(t, recs, p) + LocalEmails(t, recs, q)
  {
    if p != [] {
      assert (p + [q])[1..] == p[1..] + [q];
      EmailsAlongSnoc(t, recs, p[1..], q);
    } else {
      assert (p + [q])[1..] == [];
    }
  }

  lemma {:induction false} FirstHolderSnoc(t: Tree, recs: map<NodeId, SubscribableData>, p: seq<NodeId>, q: NodeId, e: Email)
    requires forall i :: 0 <= i < |p| ==> p[i] in t.kind
    requires q in t.kind
    requires e in EmailsAlong(t, recs, p + [q])
    ensures e in EmailsAlong(t, recs, p) ==>
              FirstHolder(t, recs, p + [q], e) == FirstHolder(t, recs, p, e)
    ensures e !in EmailsAlong(t, recs, p) ==> FirstHolder(t, recs, p + [q], e) == |p|
  {
    EmailsAlongSnoc(t, recs, p, q);
    if p != [] {
      assert (p + [q])[0] == p[0];
      assert (p + [q])[1..] == p[1..] + [q];
      if e !in LocalEmails(t, recs, p[0]) {
        FirstHolderSnoc(t, recs, p[1..], q, e);
      }
    }
  }

  /** The subscriptions node `q` adds for those of `es` not already in `seen`. */
  function NewHolders(es: set<Email>, seen: map<Email, Subscription>, q: NodeId): (m: map<Email, Subscription>)
    ensures m.Keys == es - seen.Keys
    ensures forall e :: e in m ==> m[e] == Subscription(e, q)
  {
    map e | e in es && e !in seen :: Subscription(e, q)
  }

  /** One step of the inner loop of `subscriptions`: an email found again keeps its first holder. */
  lemma NewHoldersStep(before: map<Email, Subscription>, done: set<Email>, e: Email, q: NodeId)
    ensures e !in done ==>
              var cur := before + NewHolders(done, before, q);
              before + NewHolders(done + {e}, before, q) == if e in cur then cur else cur[e := Subscription(e, q)]
  {
    if e !in done {
      var cur := before + NewHolders(done, before, q);
      var nxt := before + NewHolders(done + {e}, before, q);
      if e in cur {
        assert e in before;
        assert NewHolders(done + {e}, before, q) == NewHolders(done, before, q);
      } else {
        assert nxt.Keys == cur.Keys + {e};
      }
    }
  }

  /** The inner loop of `subscriptions`: each of `emails` not yet a key becomes a subscription held at `q`. */
  method AddNewHolders(subs: map<Email, Subscription>, emails: set<Email>, q: NodeId)
    returns (subs': map<Email, Subscription>)
    ensures subs' == subs + NewHolders(emails, subs, q)
  {
    subs' := subs;
    var pending := emails;
    ghost var done: set<Email> := {};
    while pending != {}
      invariant done + pending == emails && done * pending == {}
      invariant subs' == subs + NewHolders(done, subs, q)
      decreases pending
    {
      var email :| email in pending;
      NewHoldersStep(subs, done, email, q);
      if email !in subs' {
        subs' := subs'[email := Subscription(email, q)];
      }
      pending := pending - {email};
      done := done + {email};
    }
    assert done == emails;
  }

  /** The outer loop of `subscriptions`: the collected nodes in order, the nearest holder first. */
  method CollectAlong(t: Tree, recs: map<NodeId, SubscribableData>, parents: seq<NodeId>)
    returns (subs: map<Email, Subscription>)
    requires forall i :: 0 <= i < |parents| ==> parents[i] in t.kind
    ensures subs == SubscriptionsAlong(t, recs, parents)
  {
    subs := map[];
    var i := 0;
    while i < |parents|
      invariant 0 <= i <= |parents|
      invariant subs == SubscriptionsAlong(t, recs, parents[..i])
    {
      var parent := parents[i];
      subs := AddNewHolders(subs, LocalEmails(t, recs, parent), parent);
      assert parents[..i + 1] == parents[..i] + [parent];
      SubscriptionsAlongSnoc(t, recs, parents[..i], parent);
      i := i + 1;
    }
    assert parents[..i] == parents;
  }

  /** Extending the walk by one node adds that node's emails not already found. */
  lemma SubscriptionsAlongSnoc(t: Tree, recs: map<NodeId, SubscribableData>, p: seq<NodeId>, q: NodeId)
    requires forall i :: 0 <= i < |p| ==> p[i] in t.kind
    requires q in t.kind
    ensures forall i :: 0 <= i < |p + [q]| ==> (p + [q])[i] in t.kind
    ensures SubscriptionsAlong(t, recs, p + [q]) ==
            SubscriptionsAlong(t, recs, p) + NewHolders(LocalEmails(t, recs, q), SubscriptionsAlong(t, recs, p), q)
  {
    EmailsAlongSnoc(t, recs, p, q);
    var lhs := SubscriptionsAlong(t, recs, p + [q]);
    var old_ := SubscriptionsAlong(t, recs, p);
    var rhs := old_ + NewHolders(LocalEmails(t, recs, q), old_, q);
    forall e | e in lhs ensures e in rhs && lhs[e] == rhs[e] {
      FirstHolderSnoc(t, recs, p, q, e);
    }
    assert lhs.Keys == rhs.Keys;
  }

  /** Each key of the subscriptions map is the email of its subscription. */
  lemma SubscriptionsKeyed(t: Tree, recs: map<NodeId, SubscribableData>, p: seq<NodeId>)
    requires forall i :: 0 <= i < |p| ==> p[i] in t.kind
    ensures forall e :: e in SubscriptionsAlong(t, recs, p) ==> SubscriptionsAlong(t, recs, p)[e].email == e
  {
  }

  /**
   * `subscriptions`: an email is a key exactly when some collected node holds
   * it locally, and its subscription lives at the nearest such node.
   */
  lemma SubscriptionsMeaning(t: Tree, recs: map<NodeId, SubscribableData>, n: NodeId, e: Email)
    requires Ready(t, recs) && HasManager(t, n)
    ensures AllManaged(t, ParentsOf(t, recs, n))
    ensures e in SubscriptionsAt(t, recs, n) <==>
              exists i :: 0 <= i < |ParentsOf(t, recs, n)| && e in LocalEmails(t, recs, ParentsOf(t, recs, n)[i])
    ensures e in SubscriptionsAt(t, recs, n) ==>
              && SubscriptionsAt(t, recs, n)[e].email == e
              && var i := FirstHolder(t, recs, ParentsOf(t, recs, n), e);
                 && SubscriptionsAt(t, recs, n)[e].content == ParentsOf(t, recs, n)[i]
                 && e in LocalEmails(t, recs, ParentsOf(t, recs, n)[i])
                 && forall j :: 0 <= j < i ==> e !in LocalEmails(t, recs, ParentsOf(t, recs, n)[j])
  {
    ParentsManaged(t, recs, n);
  }

  /** A node that is not effectively subscribable has no subscriptions. */
  lemma NotSubscribableHasNoSubscriptions(t: Tree, recs: map<NodeId, SubscribableData>, n: NodeId)
    requires Ready(t, recs) && HasManager(t, n)
    requires !IsSubscribable(t, recs, n)
    ensures SubscriptionsAt(t, recs, n) == map[]
  {
    SubscribableIffParents(t, recs, n);
  }

  /** Shadowing: a subscribable node's own subscription wins over any ancestor's for the same email. */
  lemma NearestSubscriptionWins(t: Tree, recs: map<NodeId, SubscribableData>, n: NodeId, e: Email)
    requires Ready(t, recs) && HasManager(t, n)
    requires IsSubscribable(t, recs, n) && e in LocalEmails(t, recs, n)
    ensures e in SubscriptionsAt(t, recs, n) && SubscriptionsAt(t, recs, n)[e] == Subscription(e, n)
  {
    SubscribableIffParents(t, recs, n);
    ParentsManaged(t, recs, n);
  }

  /** A subscription is only ever found at a node of the chain from `n` to the root. */
  lemma SubscriptionOnChain(t: Tree, recs: map<NodeId, SubscribableData>, n: NodeId, e: Email)
    requires Ready(t, recs) && HasManager(t, n)
    requires e in SubscriptionsAt(t, recs, n)
    ensures SubscriptionsAt(t, recs, n)[e].content in Chain(t, n)
    ensures HasManager(t, SubscriptionsAt(t, recs, n)[e].content)
    ensures e in LocalEmails(t, recs, SubscriptionsAt(t, recs, n)[e].content)
  {
    ParentsManaged(t, recs, n);
    SubscriptionsMeaning(t, recs, n, e);
    var p := ParentsOf(t, recs, n);
    var i := FirstHolder(t, recs, p, e);
    assert p[i] == Chain(t, n)[i];
  }

  // ---------------------------------------------------------------------
  // what a store change can affect

  ghost predicate AgreeOn(t: Tree, r1: map<NodeId, SubscribableData>, r2: map<NodeId, SubscribableData>, c: seq<NodeId>)
    requires forall i :: 0 <= i < |c| ==> c[i] in t.kind
  {
    forall i :: 0 <= i < |c| ==> DataOf(t, r1, c[i]) == DataOf(t, r2, c[i])
  }

  lemma {:induction false} ParentsFrame(t: Tree, r1: map<NodeId, SubscribableData>, r2: map<NodeId, SubscribableData>,
                                        n: NodeId, acc: seq<NodeId>, last: nat)
    requires Ready(t, r1) && Ready(t, r2) && HasManager(t, n) && last <= |acc|
    requires AgreeOn(t, r1, r2, Chain(t, n))
    ensures SubscribableParents(t, r1, n, acc, last) == SubscribableParents(t, r2, n, acc, last)
    decreases t.depth[n]
  {
    var c := Chain(t, n);
    assert c[0] == n;
    if FlagOf(t, r1, n) != NotSubscribable && t.kind[n] != Root {
      var p := t.parent[n];
      assert c[1..] == Chain(t, p);
      assert AgreeOn(t, r1, r2, Chain(t, p)) by {
        forall i | 0 <= i < |Chain(t, p)| ensures DataOf(t, r1, Chain(t, p)[i]) == DataOf(t, r2, Chain(t, p)[i]) {
          assert Chain(t, p)[i] == c[i + 1];
        }
      }
      var acc' := acc + [n];
      ParentsFrame(t, r1, r2, p, acc', if FlagOf(t, r1, n) == Subscribable then |acc'| else last);
    }
  }

  lemma {:induction false} EmailsAlongFrame(t: Tree, r1: map<NodeId, SubscribableData>, r2: map<NodeId, SubscribableData>, p: seq<NodeId>)
    requires forall i :: 0 <= i < |p| ==> p[i] in t.kind
    requires AgreeOn(t, r1, r2, p)
    ensures EmailsAlong(t, r1, p) == EmailsAlong(t, r2, p)
    ensures forall e :: e in EmailsAlong(t, r1, p) ==> FirstHolder(t, r1, p, e) == FirstHolder(t, r2, p, e)
  {
    if p != [] {
      assert AgreeOn(t, r1, r2, p[1..]) by {
        forall i | 0 <= i < |p[1..]| ensures DataOf(t, r1, p[1..][i]) == DataOf(t, r2, p[1..][i]) {
          assert p[1..][i] == p[i + 1];
        }
      }
      EmailsAlongFrame(t, r1, r2, p[1..]);
      assert DataOf(t, r1, p[0]) == DataOf(t, r2, p[0]);
    }
  }

  /** Subscriptions along a walk depend only on the records of the walked nodes. */
  lemma SubscriptionsAlongFrame(t: Tree, r1: map<NodeId, SubscribableData>, r2: map<NodeId, SubscribableData>, p: seq<NodeId>)
    requires forall i :: 0 <= i < |p| ==> p[i] in t.kind
    requires AgreeOn(t, r1, r2, p)
    ensures SubscriptionsAlong(t, r1, p) == SubscriptionsAlong(t, r2, p)
  {
    EmailsAlongFrame(t, r1, r2, p);
  }

  /** The walk from `n` depends only on the records of the nodes on its chain to the root. */
  lemma ParentsOfFrame(t: Tree, r1: map<NodeId, SubscribableData>, r2: map<NodeId, SubscribableData>, n: NodeId)
    requires Ready(t, r1) && Ready(t, r2) && HasManager(t, n)
    requires AgreeOn(t, r1, r2, Chain(t, n))
    ensures ParentsOf(t, r1, n) == ParentsOf(t, r2, n)
  {
    ParentsFrame(t, r1, r2, n, [], 0);
  }

  /** Subscriptions at `n` depend only on the records of the nodes on its chain to the root. */
  lemma SubscriptionsFrame(t: Tree, r1: map<NodeId, SubscribableData>, r2: map<NodeId, SubscribableData>, n: NodeId)
    requires Ready(t, r1) && Ready(t, r2) && HasManager(t, n)
    requires AgreeOn(t, r1, r2, Chain(t, n))
    ensures SubscriptionsAt(t, r1, n) == SubscriptionsAt(t, r2, n)
  {
    ParentsOfFrame(t, r1, r2, n);
    ParentsManaged(t, r1, n);
    var p := ParentsOf(t, r1, n);
    var c := Chain(t, n);
    assert AgreeOn(t, r1, r2, p) by {
      forall i | 0 <= i < |p| ensures DataOf(t, r1, p[i]) == DataOf(t, r2, p[i]) {
        assert p[i] == c[i];
      }
    }
    SubscriptionsAlongFrame(t, r1, r2, p);
  }

  lemma {:induction false} IsSubscribableFrame(t: Tree, r1: map<NodeId, SubscribableData>, r2: map<NodeId, SubscribableData>, n: NodeId)
    requires Ready(t, r1) && Ready(t, r2) && HasManager(t, n)
    requires AgreeOn(t, r1, r2, Chain(t, n))
    ensures IsSubscribable(t, r1, n) == IsSubscribable(t, r2, n)
    decreases t.depth[n]
  {
    var c := Chain(t, n);
    assert c[0] == n;
    if FlagOf(t, r1, n) == Acquire {
      var p := t.parent[n];
      assert c[1..] == Chain(t, p);
      assert AgreeOn(t, r1, r2, Chain(t, p)) by {
        forall i | 0 <= i < |Chain(t, p)| ensures DataOf(t, r1, Chain(t, p)[i]) == DataOf(t, r2, Chain(t, p)[i]) {
          assert Chain(t, p)[i] == c[i + 1];
        }
      }
      IsSubscribableFrame(t, r1, r2, p);
    }
  }

  /**
   * Effective subscribability reads flags only: stores whose flags agree on
   * every node give the same answer, whatever emails they hold.
   */
  lemma {:induction false} SubscribabilityIgnoresEmails(t: Tree, r1: map<NodeId, SubscribableData>,
                                                        r2: map<NodeId, SubscribableData>, n: NodeId)
    requires Ready(t, r1) && Ready(t, r2) && HasManager(t, n)
    requires forall m :: IsNode(t, m) ==> FlagOf(t, r1, m) == FlagOf(t, r2, m)
    ensures IsSubscribable(t, r1, n) == IsSubscribable(t, r2, n)
    decreases t.depth[n]
  {
    assert FlagOf(t, r1, n) == FlagOf(t, r2, n);
    if FlagOf(t, r1, n) == Acquire {
      SubscribabilityIgnoresEmails(t, r1, r2, t.parent[n]);
    }
  }

  /** Stores no adapter can tell apart give the same answers everywhere. */
  lemma SameViewSameAnswers(t: Tree, r1: map<NodeId, SubscribableData>, r2: map<NodeId, SubscribableData>, n: NodeId)
    requires Ready(t, r1) && Ready(t, r2) && HasManager(t, n)
    requires SameView(t, r1, r2)
    ensures IsSubscribable(t, r1, n) == IsSubscribable(t, r2, n)
    ensures SubscriptionsAt(t, r1, n) == SubscriptionsAt(t, r2, n)
  {
    ChainManaged(t, n);
    var c := Chain(t, n);
    assert AgreeOn(t, r1, r2, c) by {
      forall i | 0 <= i < |c| ensures DataOf(t, r1, c[i]) == DataOf(t, r2, c[i]) {
        assert HasManager(t, c[i]);
      }
    }
    IsSubscribableFrame(t, r1, r2, n);
    SubscriptionsFrame(t, r1, r2, n);
  }

  /**
   * Setting a node `m` to NotSubscribable removes every subscription seen at
   * `m` (including those inherited from above), and changes nothing at any
   * node whose chain to the root does not pass through `m`, such as its
   * ancestors.
   */
  lemma DisablingHidesInherited(t: Tree, recs: map<NodeId, SubscribableData>, m: NodeId, n: NodeId)
    requires Ready(t, recs) && HasManager(t, m) && HasManager(t, n)
    requires m !in Chain(t, n)
    ensures Ready(t, recs[m := DataOf(t, recs, m).(subscribability := NotSubscribable)])
    ensures SubscriptionsAt(t, recs[m := DataOf(t, recs, m).(subscribability := NotSubscribable)], m) == map[]
    ensures SubscriptionsAt(t, recs[m := DataOf(t, recs, m).(subscribability := NotSubscribable)], n) ==
            SubscriptionsAt(t, recs, n)
  {
    var recs' := recs[m := DataOf(t, recs, m).(subscribability := NotSubscribable)];
    assert StoreValid(t, recs');
    NotSubscribableHasNoSubscriptions(t, recs', m);
    var c := Chain(t, n);
    assert AgreeOn(t, recs, recs', c) by {
      forall i | 0 <= i < |c| ensures DataOf(t, recs, c[i]) == DataOf(t, recs', c[i]) {
        assert c[i] != m;
      }
    }
    SubscriptionsFrame(t, recs, recs', n);
  }

  // ---------------------------------------------------------------------
  // the adapter, with the annotation store it writes to

  /** Distinct keys, distinct values: a map keyed by the email of its values has as many values as keys. */
  lemma {:induction false} KeyedValuesCount(m: map<Email, Subscription>)
    requires forall e :: e in m ==> m[e].email == e
    ensures |m.Values| == |m.Keys|
    decreases |m.Keys|
  {
    if m != map[] {
      var e :| e in m;
      var m' := m - {e};
      KeyedValuesCount(m');
      assert m.Keys == m'.Keys + {e};
      assert m.Values == m'.Values + {m[e]};
      assert m[e] !in m'.Values;
    }
  }

  /**
   * Writing one managed node's record keeps the store valid when the flag is
   * allowed there, and other nodes see no change; rewriting the record an
   * adapter already sees changes nothing observable.
   */
  lemma WriteRecord(t: Tree, recs: map<NodeId, SubscribableData>, n: NodeId, d: SubscribableData)
    requires Ready(t, recs) && HasManager(t, n) && d.subscribability in Possibilities(t.kind[n])
    ensures Ready(t, recs[n := d])
    ensures DataOf(t, recs[n := d], n) == d
    ensures forall m :: m in t.kind && m != n ==> DataOf(t, recs[n := d], m) == DataOf(t, recs, m)
    ensures d == DataOf(t, recs, n) ==> SameView(t, recs, recs[n := d])
  {
  }

  /**
   * The 'silva.app.subscriptions' annotations of all nodes of one content
   * tree; the adapter's methods take the node they are adapting.
   */
  class Annotations {
    const tree: Tree
    var records: map<NodeId, SubscribableData>

    ghost predicate Valid()
      reads this
    {
      Ready(tree, records)
    }

    constructor (t: Tree)
      requires WellFormed(t)
      ensures Valid() && tree == t && records == map[]
    {
      tree := t;
      records := map[];
    }

    /**
     * `ISubscriptionManager(node, None)`: no manager for an asset; otherwise
     * `__init__` writes a default record for a node that has none. No
     * adapter can observe that write.
     */
    method Adapt(n: NodeId) returns (hasManager: bool)
      requires Valid() && n in tree.kind
      modifies this
      ensures Valid()
      ensures hasManager == HasManager(tree, n)
      ensures records == if hasManager && n !in old(records) then old(records)[n := DefaultData(tree.kind[n])]
                         else old(records)
      ensures SameView(tree, old(records), records)
    {
      hasManager := tree.kind[n] != Asset;
      if hasManager && n !in records {
        records := records[n := DefaultData(tree.kind[n])];
      }
    }

    /**
     * The `subscribability` setter: a value outside the node's possibilities
     * is refused (the AssertionError) and nothing observable changes; an
     * accepted value is what the getter returns afterwards.
     */
    method SetSubscribability(n: NodeId, flag: Subscribability) returns (accepted: bool)
      requires Valid() && HasManager(tree, n)
      modifies this
      ensures Valid()
      ensures accepted <==> flag in Possibilities(tree.kind[n])
      ensures accepted ==> records == old(records)[n := DataOf(tree, old(records), n).(subscribability := flag)]
      ensures accepted ==> FlagOf(tree, records, n) == flag
      ensures !accepted ==> SameView(tree, old(records), records)
    {
      accepted := flag in Possibilities(tree.kind[n]);
      if accepted {
        var d := DataOf(tree, records, n).(subscribability := flag);
        WriteRecord(tree, records, n, d);
        records := records[n := d];
      } else {
        var _ := Adapt(n);
      }
    }

    /** The `locally_subscribed_emails` setter: the stored set becomes the set of the given values. */
    method SetLocalEmails(n: NodeId, emails: seq<Email>)
      requires Valid() && HasManager(tree, n)
      modifies this
      ensures Valid()
      ensures records == old(records)[n := DataOf(tree, old(records), n).(subscriptions := set e | e in emails)]
    {
      var d := DataOf(tree, records, n).(subscriptions := set e | e in emails);
      WriteRecord(tree, records, n, d);
      records := records[n := d];
    }

    /**
     * `subscribe`: set insertion into the node's own record; the flag and
     * every other node's record are untouched, and subscribing a present
     * email changes nothing anyone can see.
     */
    method Subscribe(n: NodeId, email: Email)
      requires Valid() && HasManager(tree, n)
      modifies this
      ensures Valid()
      ensures records == old(records)[n := DataOf(tree, old(records), n).(subscriptions := LocalEmails(tree, old(records), n) + {email})]
      ensures email in LocalEmails(tree, old(records), n) ==> SameView(tree, old(records), records)
    {
      var d := DataOf(tree, records, n);
      WriteRecord(tree, records, n, d.(subscriptions := d.subscriptions + {email}));
      records := records[n := d.(subscriptions := d.subscriptions + {email})];
    }

    /**
     * `unsubscribe`: removal from the node's own record; the flag and every
     * other node's record are untouched, and removing an absent email changes
     * nothing at all.
     */
    method Unsubscribe(n: NodeId, email: Email)
      requires Valid() && HasManager(tree, n)
      modifies this
      ensures Valid()
      ensures records == if email in LocalEmails(tree, old(records), n) then
                           old(records)[n := DataOf(tree, old(records), n).(subscriptions := LocalEmails(tree, old(records), n) - {email})]
                         else old(records)
      ensures email !in LocalEmails(tree, records, n)
    {
      var d := DataOf(tree, records, n);
      if email in d.subscriptions {
        WriteRecord(tree, records, n, d.(subscriptions := d.subscriptions - {email}));
        records := records[n := d.(subscriptions := d.subscriptions - {email})];
      }
    }

    /**
     * The `subscriptions` property: for each collected node in order, each of
     * its local emails not seen yet becomes a subscription held there.
     */
    method Subscriptions(n: NodeId) returns (subs: map<Email, Subscription>)
      requires Valid() && HasManager(tree, n)
      ensures subs == SubscriptionsAt(tree, records, n)
    {
      var parents := SubscribableParents(tree, records, n, [], 0);
      ParentsManaged(tree, records, n);
      subs := CollectAlong(tree, records, parents);
    }

    /** `get_subscription`: the subscription of `email` at `n`, or None. */
    method GetSubscription(n: NodeId, email: Email) returns (s: Option<Subscription>)
      requires Valid() && HasManager(tree, n)
      ensures s.Some? <==> email in SubscriptionsAt(tree, records, n)
      ensures s.Some? ==> s.value == SubscriptionsAt(tree, records, n)[email] && s.value.email == email
    {
      var subs := Subscriptions(n);
      ParentsManaged(tree, records, n);
      SubscriptionsKeyed(tree, records, ParentsOf(tree, records, n));
      if email in subs { s := Some(subs[email]); } else { s := None; }
    }

    /** `is_subscribed`: `email` is a key of the subscriptions at `n`. */
    method IsSubscribed(n: NodeId, email: Email) returns (b: bool)
      requires Valid() && HasManager(tree, n)
      ensures b <==> email in SubscriptionsAt(tree, records, n)
    {
      var subs := Subscriptions(n);
      b := email in subs;
    }

    /** `get_subscriptions`: one subscription per distinct subscribed email. */
    method GetSubscriptions(n: NodeId) returns (all: set<Subscription>)
      requires Valid() && HasManager(tree, n)
      ensures all == SubscriptionsAt(tree, records, n).Values
      ensures |all| == |SubscriptionsAt(tree, records, n).Keys|
      ensures forall s :: s in all ==>
                (s.email in SubscriptionsAt(tree, records, n) && SubscriptionsAt(tree, records, n)[s.email] == s)
    {
      var subs := Subscriptions(n);
      ParentsManaged(tree, records, n);
      SubscriptionsKeyed(tree, records, ParentsOf(tree, records, n));
      KeyedValuesCount(subs);
      all := subs.Values;
    }
  }
}
