/**
 * The reference model of the Common API Base: the store as a value and the
 * packet router as a function from a store and a request to the new store,
 * the one reply, the `changed` packets sent and the handler that ran.
 */
module RouterModel {
  import opened Wrappers
  import opened Packets
  import opened NodeModel

  /**
   * The store: `nodes` maps each path to its node, `keys` lists the paths in
   * the order they were first stored (the key order of the `data` object), and
   * `dynamic` lists the paths registered with `addDynamicNode`.
   */
  datatype Store = Store(nodes: map<string, NodeState>, keys: seq<string>, dynamic: seq<string>)

  /** Paths are unique keys and `keys` enumerates exactly the stored paths. */
  ghost predicate WellFormed(st: Store)
  {
    && (forall i, j :: 0 <= i < j < |st.keys| ==> st.keys[i] != st.keys[j])
    && (forall p :: p in st.nodes <==> p in st.keys)
  }

  const Empty := Store(map[], [], [])

  /** Whether a collection with pattern `prefix` covers `path`. */
  predicate Matches(prefix: string, path: string)
  {
    |prefix| <= |path| && path[..|prefix|] == prefix
  }

  /** The paths of `keys` a collection with pattern `prefix` covers, in key order. */
  function Matching(keys: seq<string>, prefix: string): (r: seq<string>)
    ensures |r| <= |keys|
    ensures forall i :: 0 <= i < |r| ==> Matches(prefix, r[i])
    decreases |keys|
  {
    if keys == [] then []
    else
      var last := keys[|keys| - 1];
      Matching(keys[..|keys| - 1], prefix) + (if Matches(prefix, last) then [last] else [])
  }

  /** What a read of node `n` sees: a collection computes its entity from the store. */
  function View(keys: seq<string>, n: NodeState): (v: Option<Entity>)
    ensures n.kind.Plain? ==> v == n.entity
    ensures n.kind.Collection? ==>
      (v.Some? && v.value.PathList? && forall p :: p in v.value.paths <==> p in keys && Matches(n.kind.prefix, p))
  {
    if n.kind.Collection? then
      MatchingMembers(keys, n.kind.prefix);
      Some(PathList(Matching(keys, n.kind.prefix)))
    else n.entity
  }

  /** `data[path] = n`: a new path joins the end of the key order. */
  function Insert(st: Store, path: string, n: NodeState): (r: Store)
    ensures WellFormed(st) ==> WellFormed(r)
    ensures r.nodes == st.nodes[path := n] && r.dynamic == st.dynamic
    ensures WellFormed(st) && path in st.nodes ==> r.keys == st.keys
    ensures path !in st.nodes ==> r.keys == st.keys + [path]
  {
    Store(st.nodes[path := n], if path in st.nodes then st.keys else st.keys + [path], st.dynamic)
  }

  /** `addDynamicNode`: store the collection under its path and register it. */
  function AddDynamicNode(st: Store, path: string, n: NodeState): (r: Store)
    requires n.kind.Collection?
    ensures WellFormed(st) ==> WellFormed(r)
    ensures r.nodes == st.nodes[path := n] && r.dynamic == st.dynamic + [path]
  {
    var s := Insert(st, path, n);
    s.(dynamic := s.dynamic + [path])
  }

  /** The `changed` packets one registered collection owes when the key list goes from `before` to `after`. */
  function CollectionNotice(path: string, n: NodeState, before: seq<string>, after: seq<string>): seq<Reply>
    requires n.kind.Collection?
  {
    var pre := Matching(before, n.kind.prefix);
    var post := Matching(after, n.kind.prefix);
    if pre == post then []
    else Notices(n.watchers, path, Change(Some(PathList(pre)), Some(PathList(post))))
  }

  /** The `changed` packets of every registered collection, in registration order. */
  function CollectionNotices(dyn: seq<string>, nodes: map<string, NodeState>, before: seq<string>, after: seq<string>): seq<Reply>
    decreases |dyn|
  {
    if dyn == [] then []
    else
      var c := dyn[|dyn| - 1];
      CollectionNotices(dyn[..|dyn| - 1], nodes, before, after)
        + (if c in nodes && nodes[c].kind.Collection? then CollectionNotice(c, nodes[c], before, after) else [])
  }

  /** The `changed` packets the node's own watchers receive: only `set` and `delete` notify. */
  function OwnNotices(op: Op, path: string, oldEntity: Option<Entity>, m: NodeState): seq<Reply>
  {
    if op.Set? || op.Delete? then Notices(m.watchers, path, Change(oldEntity, m.entity)) else []
  }

  /** Which handler a routed packet reached, or the outcome that stopped it. */
  datatype Dispatch = RootHandler(action: string) | NodeHandler(op: Op) | Refused(outcome: Response)

  /** Everything one routed packet produces. */
  datatype Step = Step(store: Store, reply: Reply, sent: seq<Reply>, dispatch: Dispatch)

  /** A packet stopped at a gate: one reply, nothing changed, nothing sent. */
  function Refuse(st: Store, req: Request, outcome: Response): Step
  {
    Step(st, ReplyFor(req, outcome, None), [], Refused(outcome))
  }

  /** The actions a packet naming no resource can reach (`rootHandle<Action>`). */
  const RootActions: set<string> := {"list"}

  /** The node a path resolves to: the stored one, or a blank one `makeValue` would create. */
  function Resolved(st: Store, path: string): NodeState
  {
    if path in st.nodes then st.nodes[path] else Blank
  }

  /**
   * What is sent after a handler turned the node at `path` from one with
   * entity `oldEntity` into `m` and the key list from `before` into `after`:
   * only a leader notifies.
   */
  function Sent(leaderState: string, op: Op, path: string, oldEntity: Option<Entity>, m: NodeState,
                dyn: seq<string>, nodes: map<string, NodeState>, before: seq<string>, after: seq<string>): seq<Reply>
  {
    if leaderState == "leader" then OwnNotices(op, path, oldEntity, m) + CollectionNotices(dyn, nodes, before, after)
    else []
  }

  /** A packet that passed every gate reaches the handler `op` on the node at `path`. */
  function Perform(st: Store, req: Request, path: string, op: Op, leaderState: string): (r: Step)
    ensures r.dispatch == NodeHandler(op) && r.reply == ReplyFor(req, Ok, r.reply.entity)
    ensures r.store.nodes == st.nodes[path := Apply(op, Resolved(st, path), req)] && r.store.dynamic == st.dynamic
    ensures WellFormed(st) ==> WellFormed(r.store)
    ensures op.Get? ==> r.reply.entity == View(st.keys, Resolved(st, path))
    ensures !op.Get? ==> r.reply.entity.None?
    ensures leaderState != "leader" ==> r.sent == []
  {
    var n := Resolved(st, path);
    var m := Apply(op, n, req);
    var st' := Insert(st, path, m);
    var reply := ReplyFor(req, Ok, if op.Get? then View(st.keys, n) else None);
    Step(st', reply, Sent(leaderState, op, path, n.entity, m, st.dynamic, st'.nodes, st.keys, st'.keys), NodeHandler(op))
  }

  /**
   * `routePacket`: resolve the node, then the resource-validation, permission
   * and precondition gates, then dispatch; a leader finally notifies watchers.
   * `granted` is the requester's precomputed authorisation and `resourceError`
   * whether resource validation failed.
   */
  function Route(st: Store, req: Request, granted: set<string>, leaderState: string, resourceError: bool): (r: Step)
    ensures r.reply.dst == req.src && r.reply.replyTo == req.msgId && r.reply.resource == req.resource
    ensures r.reply.response in {Ok, BadAction, NoPerm, NoMatch}
    ensures r.dispatch.Refused? <==> r.reply.response != Ok
    ensures r.dispatch.Refused? ==> r.reply.response == r.dispatch.outcome && r.store == st && r.sent == []
    ensures leaderState != "leader" ==> r.sent == []
    ensures r.store.dynamic == st.dynamic
    ensures WellFormed(st) ==> WellFormed(r.store)
  {
    match req.resource
    case None =>
      if req.action in RootActions then
        Step(st, ReplyFor(req, Ok, Some(PathList(st.keys))), [], RootHandler(req.action))
      else Refuse(st, req, BadAction)
    case Some(path) =>
      if resourceError then Refuse(st, req, NoMatch)
      else if path !in st.nodes && req.action != "set" then Refuse(st, req, NoMatch)
      else
        var n := Resolved(st, path);
        if !Permitted(n.permissions, granted) then Refuse(st, req, NoPerm)
        else if !PreconditionHolds(req.ifTag, n.version) then Refuse(st, req, NoMatch)
        else match HandlerFor(n.kind, req.action)
          case None => Refuse(st, req, BadAction)
          case Some(op) => Perform(st, req, path, op, leaderState)
  }

  /** Storing twice under one path keeps only the second node and the first key position. */
  lemma InsertTwice(st: Store, path: string, n: NodeState, m: NodeState)
    ensures Insert(Insert(st, path, n), path, m) == Insert(st, path, m)
  {
    assert st.nodes[path := n][path := m] == st.nodes[path := m];
  }

  /** A collection lists exactly the stored paths its pattern covers. */
  lemma {:induction false} MatchingMembers(keys: seq<string>, prefix: string)
    ensures forall p :: p in Matching(keys, prefix) <==> p in keys && Matches(prefix, p)
    decreases |keys|
  {
    if keys != [] {
      var init := keys[..|keys| - 1];
      MatchingMembers(init, prefix);
      assert keys == init + [keys[|keys| - 1]];
    }
  }

  /** A collection whose pattern covers every stored path lists them all, in key order. */
  lemma {:induction false} MatchingAll(keys: seq<string>, prefix: string)
    requires forall i :: 0 <= i < |keys| ==> Matches(prefix, keys[i])
    ensures Matching(keys, prefix) == keys
    decreases |keys|
  {
    if keys != [] {
      var init := keys[..|keys| - 1];
      assert forall i :: 0 <= i < |init| ==> init[i] == keys[i];
      MatchingAll(init, prefix);
      assert keys == init + [keys[|keys| - 1]];
    }
  }

  /** Storing a new path extends a collection's list by that path exactly when the pattern covers it. */
  lemma MatchingAppend(keys: seq<string>, prefix: string, path: string)
    ensures Matching(keys + [path], prefix) == Matching(keys, prefix) + (if Matches(prefix, path) then [path] else [])
  {
    assert (keys + [path])[..|keys|] == keys;
  }

  /** Without a change of key list, no collection owes a notification. */
  lemma {:induction false} CollectionNoticesQuiet(dyn: seq<string>, nodes: map<string, NodeState>, keys: seq<string>)
    ensures CollectionNotices(dyn, nodes, keys, keys) == []
    decreases |dyn|
  {
    if dyn != [] {
      CollectionNoticesQuiet(dyn[..|dyn| - 1], nodes, keys);
    }
  }
}
