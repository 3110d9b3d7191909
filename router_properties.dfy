/**
 * What the router promises, stated over the reference model: the gate
 * outcomes in order, the reply to a `get`, the `changed` packets a `set` or
 * `delete` fans out, the root `list`, and how a collection follows the store.
 */
module RouterProperties {
  import opened Wrappers
  import opened Packets
  import opened NodeModel
  import opened RouterModel

  /**
   * The gates in order: a resource-validation error or an action other than
   * `set` on a missing path gives `noMatch`; then a missing permission gives
   * `noPerm`; then a failed `ifTag` gives `noMatch`; then an action without a
   * handler gives `badAction`; only a packet past all of them reaches a handler.
   */
  lemma GateOrder(st: Store, req: Request, granted: set<string>, leaderState: string, resourceError: bool)
    requires req.resource.Some?
    ensures var path := req.resource.value;
      var n := Resolved(st, path);
      var r := Route(st, req, granted, leaderState, resourceError);
      var found := !resourceError && (path in st.nodes || req.action == "set");
      && (!found ==> r.dispatch == Refused(NoMatch))
      && (found ==> (r.dispatch == Refused(NoPerm) <==> !Permitted(n.permissions, granted)))
      && (found && Permitted(n.permissions, granted) ==>
            (r.dispatch == Refused(NoMatch) <==> !PreconditionHolds(req.ifTag, n.version)))
      && (found && Permitted(n.permissions, granted) && PreconditionHolds(req.ifTag, n.version) ==>
            (r.dispatch == Refused(BadAction) <==> HandlerFor(n.kind, req.action).None?)
            && (HandlerFor(n.kind, req.action).Some? ==> r.dispatch == NodeHandler(HandlerFor(n.kind, req.action).value)))
  {
  }

  /** A packet naming no resource reaches the root table: `list` answers with every stored path, anything else is `badAction`. */
  lemma RootDispatch(st: Store, req: Request, granted: set<string>, leaderState: string, resourceError: bool)
    requires WellFormed(st) && req.resource.None?
    ensures var r := Route(st, req, granted, leaderState, resourceError);
      && r.store == st && r.sent == []
      && (req.action == "list" ==>
            r.dispatch == RootHandler("list") && r.reply.response == Ok
            && r.reply.entity == Some(PathList(st.keys))
            && forall p :: p in r.reply.entity.value.paths <==> p in st.nodes)
      && (req.action != "list" ==> r.reply == ReplyFor(req, BadAction, None))
  {
  }

  /**
   * A permitted `get` on a stored node answers `ok` to the sender, echoing the
   * resource and the message id, with what the node reads as; it changes
   * nothing and sends nobody a `changed` packet, leader or not.
   */
  lemma {:induction false} GetOnStoredNode(st: Store, req: Request, granted: set<string>, leaderState: string)
    requires WellFormed(st)
    requires req.resource.Some? && req.resource.value in st.nodes && req.action == "get"
    requires Permitted(st.nodes[req.resource.value].permissions, granted)
    requires PreconditionHolds(req.ifTag, st.nodes[req.resource.value].version)
    ensures var r := Route(st, req, granted, leaderState, false);
      && r.dispatch == NodeHandler(Get)
      && r.reply == Reply(Ok, req.src, req.resource, req.msgId, View(st.keys, st.nodes[req.resource.value]))
      && r.store == st
      && r.sent == []
  {
    var path := req.resource.value;
    assert st.nodes[path := st.nodes[path]] == st.nodes;
    CollectionNoticesQuiet(st.dynamic, st.nodes, st.keys);
  }

  /**
   * A leader's permitted `set` on a stored plain node replaces its value and
   * sends exactly one `changed` packet per watcher of that node, in watch
   * order, carrying the old and the new entity; no collection changes, since
   * the set of stored paths does not.
   */
  lemma {:induction false} SetNotifiesWatchers(st: Store, req: Request, granted: set<string>)
    requires WellFormed(st)
    requires req.resource.Some? && req.resource.value in st.nodes && req.action == "set"
    requires st.nodes[req.resource.value].kind.Plain?
    requires Permitted(st.nodes[req.resource.value].permissions, granted)
    requires PreconditionHolds(req.ifTag, st.nodes[req.resource.value].version)
    ensures var path := req.resource.value;
      var n := st.nodes[path];
      var r := Route(st, req, granted, "leader", false);
      && r.dispatch == NodeHandler(Set) && r.reply == ReplyFor(req, Ok, None)
      && r.store.keys == st.keys
      && r.store.nodes[path].entity == req.entity && r.store.nodes[path].contentType == req.contentType
      && |r.sent| == |n.watchers|
      && forall k :: 0 <= k < |n.watchers| ==> r.sent[k] == Notice(n.watchers[k], path, Change(n.entity, req.entity))
  {
    var path := req.resource.value;
    var n := st.nodes[path];
    var r := Route(st, req, granted, "leader", false);
    var change := Change(n.entity, req.entity);
    CollectionNoticesQuiet(st.dynamic, r.store.nodes, st.keys);
    assert r.sent == Notices(n.watchers, path, change);
    NoticesLength(n.watchers, path, change);
    forall k | 0 <= k < |n.watchers|
      ensures r.sent[k] == Notice(n.watchers[k], path, change)
    {
      NoticesAt(n.watchers, path, change, k);
    }
  }

  /**
   * A leader's permitted `delete` on a stored plain node clears its value and
   * sends exactly one `changed` packet per watcher of that node, in watch
   * order, carrying the old entity and no new one.
   */
  lemma {:induction false} DeleteNotifiesWatchers(st: Store, req: Request, granted: set<string>)
    requires WellFormed(st)
    requires req.resource.Some? && req.resource.value in st.nodes && req.action == "delete"
    requires st.nodes[req.resource.value].kind.Plain?
    requires Permitted(st.nodes[req.resource.value].permissions, granted)
    requires PreconditionHolds(req.ifTag, st.nodes[req.resource.value].version)
    ensures var path := req.resource.value;
      var n := st.nodes[path];
      var r := Route(st, req, granted, "leader", false);
      && r.dispatch == NodeHandler(Delete) && r.reply == ReplyFor(req, Ok, None)
      && r.store.keys == st.keys
      && r.store.nodes[path].entity.None? && r.store.nodes[path].contentType.None? && r.store.nodes[path].version == 0
      && |r.sent| == |n.watchers|
      && forall k :: 0 <= k < |n.watchers| ==> r.sent[k] == Notice(n.watchers[k], path, Change(n.entity, None))
  {
    var path := req.resource.value;
    var n := st.nodes[path];
    var r := Route(st, req, granted, "leader", false);
    var change := Change(n.entity, None);
    CollectionNoticesQuiet(st.dynamic, r.store.nodes, st.keys);
    assert r.sent == Notices(n.watchers, path, change);
    NoticesLength(n.watchers, path, change);
    forall k | 0 <= k < |n.watchers|
      ensures r.sent[k] == Notice(n.watchers[k], path, change)
    {
      NoticesAt(n.watchers, path, change, k);
    }
  }

  /**
   * Only `set` and `delete` notify: a packet with any other action, routed by
   * a leader or not, stopped at a gate or handled, sends no `changed` packet,
   * since its handler leaves the entity and the set of stored paths alone.
   */
  lemma {:induction false} OnlyWritesNotify(st: Store, req: Request, granted: set<string>, leaderState: string, resourceError: bool)
    requires WellFormed(st)
    ensures req.action != "set" && req.action != "delete" ==>
      Route(st, req, granted, leaderState, resourceError).sent == []
  {
    var r := Route(st, req, granted, leaderState, resourceError);
    if req.action != "set" && req.action != "delete" && r.dispatch.NodeHandler? {
      var path := req.resource.value;
      assert path in st.nodes;
      CollectionNoticesQuiet(st.dynamic, r.store.nodes, st.keys);
    }
  }

  /**
   * A `set` on a path nobody has stored creates the node from the factory's
   * blank one, appends the path to the key order, and a leader then notifies
   * exactly the registered collections whose list changed.
   */
  lemma SetCreatesNode(st: Store, req: Request, granted: set<string>, leaderState: string)
    requires WellFormed(st)
    requires req.resource.Some? && req.resource.value !in st.nodes && req.action == "set"
    requires PreconditionHolds(req.ifTag, 0)
    ensures var path := req.resource.value;
      var r := Route(st, req, granted, leaderState, false);
      && r.dispatch == NodeHandler(Set) && r.reply == ReplyFor(req, Ok, None)
      && r.store.nodes == st.nodes[path := Blank.(entity := req.entity, contentType := req.contentType, version := 1)]
      && r.store.keys == st.keys + [path]
      && r.sent == (if leaderState == "leader" then CollectionNotices(st.dynamic, r.store.nodes, st.keys, r.store.keys) else [])
  {
  }

  /** After a new path is stored, a collection reads as before plus that path when its pattern covers it. */
  lemma CollectionFollowsStore(keys: seq<string>, n: NodeState, path: string)
    requires n.kind.Collection?
    ensures View(keys + [path], n) == Some(PathList(Matching(keys, n.kind.prefix) + (if Matches(n.kind.prefix, path) then [path] else [])))
    ensures forall p :: p in View(keys, n).value.paths <==> p in keys && Matches(n.kind.prefix, p)
  {
    MatchingAppend(keys, n.kind.prefix, path);
    MatchingMembers(keys, n.kind.prefix);
  }

  /**
   * With a single registered collection, a change of key list notifies its
   * watchers with the old and the new list exactly when the list changed.
   */
  lemma OneCollectionNotices(c: string, nodes: map<string, NodeState>, before: seq<string>, after: seq<string>)
    requires c in nodes && nodes[c].kind.Collection?
    ensures var pre := Matching(before, nodes[c].kind.prefix);
      var post := Matching(after, nodes[c].kind.prefix);
      CollectionNotices([c], nodes, before, after)
        == if pre == post then [] else Notices(nodes[c].watchers, c, Change(Some(PathList(pre)), Some(PathList(post))))
  {
    assert [c][..0] == [];
  }
}
