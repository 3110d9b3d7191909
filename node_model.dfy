/**
 * The value model of one resource node (CommonApiValue and
 * CommonApiCollectionValue): its state, the action handlers as state
 * transformers, the permission and precondition gates, and the watcher list.
 */
module NodeModel {
  import opened Wrappers
  import opened Packets

  /** A plain value node, or a collection over every path starting with `prefix`. */
  datatype Kind = Plain | Collection(prefix: string)

  /** A subscriber: who asked (`src`) and under which message id (`msgId`). */
  datatype Watcher = Watcher(src: string, msgId: string)

  datatype NodeState = NodeState(
    kind: Kind,
    entity: Option<Entity>,
    contentType: Option<string>,
    version: nat,
    permissions: seq<string>,
    watchers: seq<Watcher>)

  /** What the `makeValue` factory yields for a path nobody has stored yet. */
  const Blank := NodeState(Plain, None, None, 0, [], [])

  /** The node actions the router can dispatch to. */
  datatype Op = Get | Set | Delete | Watch | Unwatch

  /** The action name a handler answers to. */
  function ActionName(op: Op): string
  {
    match op
    case Get => "get"
    case Set => "set"
    case Delete => "delete"
    case Watch => "watch"
    case Unwatch => "unWatch"
  }

  /**
   * The `handle<Action>` lookup. A collection has no entity of its own, so it
   * has no `set` or `delete` handler.
   */
  function HandlerFor(kind: Kind, action: string): (r: Option<Op>)
    ensures r.Some? ==> ActionName(r.value) == action && (kind.Collection? ==> !r.value.Set? && !r.value.Delete?)
    ensures r.None? ==> forall op: Op :: ActionName(op) == action ==> kind.Collection? && (op.Set? || op.Delete?)
  {
    if action == "get" then Some(Get)
    else if action == "watch" then Some(Watch)
    else if action == "unWatch" then Some(Unwatch)
    else if kind.Plain? && action == "set" then Some(Set)
    else if kind.Plain? && action == "delete" then Some(Delete)
    else None
  }

  /** The permission gate: every token the node requires has been granted. */
  predicate Permitted(required: seq<string>, granted: set<string>): (ok: bool)
    ensures ok <==> (set i | 0 <= i < |required| :: required[i]) <= granted
    ensures required == [] ==> ok
  {
    forall t :: t in required ==> t in granted
  }

  /** The precondition gate: an `ifTag`, when present, names the current version. */
  predicate PreconditionHolds(ifTag: Option<int>, version: nat): (ok: bool)
    ensures ok <==> ifTag in {None, Some(version)}
  {
    ifTag.None? || ifTag.value == version
  }

  /** The watcher list with every entry participant `src` registered under message id `id` removed. */
  function Without(ws: seq<Watcher>, src: string, id: string): (r: seq<Watcher>)
    ensures |r| <= |ws| && Watcher(src, id) !in r
    decreases |ws|
  {
    if ws == [] then []
    else
      var last := ws[|ws| - 1];
      Without(ws[..|ws| - 1], src, id) + (if last == Watcher(src, id) then [] else [last])
  }

  /** The `changed` packet one watcher receives. */
  function Notice(w: Watcher, resource: string, change: Entity): Reply
  {
    Reply(Changed, w.src, Some(resource), w.msgId, Some(change))
  }

  /** One `changed` packet per watcher, in registration order. */
  function Notices(ws: seq<Watcher>, resource: string, change: Entity): seq<Reply>
    decreases |ws|
  {
    if ws == [] then []
    else Notices(ws[..|ws| - 1], resource, change) + [Notice(ws[|ws| - 1], resource, change)]
  }

  /**
   * The node state after a handler has run for request `req`. No handler
   * changes a node's kind or permissions; `get` changes nothing; only `watch`
   * and `unWatch` touch the watchers, and they touch nothing else.
   */
  function Apply(op: Op, n: NodeState, req: Request): (m: NodeState)
    ensures m.kind == n.kind && m.permissions == n.permissions
    ensures op.Get? ==> m == n
    ensures op.Set? || op.Delete? ==> m.watchers == n.watchers
    ensures op.Watch? || op.Unwatch? ==> m == n.(watchers := m.watchers)
    ensures op.Unwatch? ==> |m.watchers| <= |n.watchers|
  {
    match op
    case Get => n
    case Set => n.(entity := req.entity, contentType := req.contentType, version := n.version + 1)
    case Delete => n.(entity := None, contentType := None, version := 0)
    case Watch => n.(watchers := n.watchers + [Watcher(req.src, req.msgId)])
    case Unwatch => n.(watchers := Without(n.watchers, req.src, req.replyTo))
  }

  /** `set` replaces entity and content type and touches nothing the router gates on but the version. */
  lemma SetReplacesValue(n: NodeState, req: Request)
    ensures var m := Apply(Set, n, req);
      && m.entity == req.entity && m.contentType == req.contentType
      && m.kind == n.kind && m.permissions == n.permissions && m.watchers == n.watchers
  {
  }

  /** `delete` leaves no value behind and resets the version to zero. */
  lemma DeleteClearsValue(n: NodeState, req: Request)
    ensures var m := Apply(Delete, n, req);
      && m.entity.None? && m.contentType.None? && m.version == 0
      && m.kind == n.kind && m.permissions == n.permissions && m.watchers == n.watchers
  {
  }

  /** Unwatching keeps exactly the watchers another participant or another message id registered. */
  lemma {:induction false} WithoutKeeps(ws: seq<Watcher>, src: string, id: string)
    ensures forall w :: w in Without(ws, src, id) <==> w in ws && (w.src != src || w.msgId != id)
    decreases |ws|
  {
    if ws != [] {
      var init := ws[..|ws| - 1];
      WithoutKeeps(init, src, id);
      assert ws == init + [ws[|ws| - 1]];
    }
  }

  /** Unwatching a subscription nobody holds changes nothing. */
  lemma {:induction false} WithoutAbsent(ws: seq<Watcher>, src: string, id: string)
    requires Watcher(src, id) !in ws
    ensures Without(ws, src, id) == ws
    decreases |ws|
  {
    if ws != [] {
      var init, last := ws[..|ws| - 1], ws[|ws| - 1];
      assert ws == init + [last];
      assert last in ws;
      WithoutAbsent(init, src, id);
    }
  }

  /**
   * A `watch` followed by an `unWatch` from the same participant whose
   * `replyTo` is the watch's `msgId` restores the watcher list, provided that
   * subscription was not already held; in particular an unwatched node ends
   * with no watchers.
   */
  lemma WatchThenUnwatch(n: NodeState, watch: Request, unwatch: Request)
    requires unwatch.src == watch.src && unwatch.replyTo == watch.msgId
    requires Watcher(watch.src, watch.msgId) !in n.watchers
    ensures Apply(Watch, n, watch).watchers[|n.watchers|] == Watcher(watch.src, watch.msgId)
    ensures Apply(Unwatch, Apply(Watch, n, watch), unwatch) == n
    ensures n.watchers == [] ==> Apply(Unwatch, Apply(Watch, n, watch), unwatch).watchers == []
  {
    var ws := n.watchers + [Watcher(watch.src, watch.msgId)];
    assert ws[..|ws| - 1] == n.watchers;
    WithoutAbsent(n.watchers, watch.src, watch.msgId);
  }

  /** Watcher `k` receives the `k`-th `changed` packet, and nobody else receives one. */
  lemma {:induction false} NoticesAt(ws: seq<Watcher>, resource: string, change: Entity, k: nat)
    requires k < |ws|
    ensures |Notices(ws, resource, change)| == |ws|
    ensures Notices(ws, resource, change)[k] == Notice(ws[k], resource, change)
    decreases |ws|
  {
    var init := ws[..|ws| - 1];
    if k < |init| {
      NoticesAt(init, resource, change, k);
    } else {
      NoticesLength(init, resource, change);
    }
  }

  /** Exactly one `changed` packet per watcher. */
  lemma {:induction false} NoticesLength(ws: seq<Watcher>, resource: string, change: Entity)
    ensures |Notices(ws, resource, change)| == |ws|
    decreases |ws|
  {
    if ws != [] {
      NoticesLength(ws[..|ws| - 1], resource, change);
    }
  }
}
