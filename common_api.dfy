/**
 * The Common API Base as the program runs it: node objects updated in place,
 * a store object holding the `data` dictionary, and a packet context that
 * collects the replies. Every operation is proved against the reference
 * model in RouterModel.
 */
module CommonApi {
  import opened Wrappers
  import opened Packets
  import opened NodeModel
  import opened RouterModel

  /** CommonApiValue and CommonApiCollectionValue: one resource node. */
  class ApiValue {
    const resource: string
    const kind: Kind
    var entity: Option<Entity>
    var contentType: Option<string>
    var version: nat
    var permissions: seq<string>
    var watchers: seq<Watcher>

    /** The node's fields as a value. */
    ghost function State(): NodeState
      reads this
    {
      NodeState(kind, entity, contentType, version, permissions, watchers)
    }

    constructor (resource: string, kind: Kind, entity: Option<Entity>, contentType: Option<string>, version: nat)
      ensures this.resource == resource
      ensures State() == NodeState(kind, entity, contentType, version, [], [])
    {
      this.resource := resource;
      this.kind := kind;
      this.entity := entity;
      this.contentType := contentType;
      this.version := version;
      this.permissions := [];
      this.watchers := [];
    }

    /** `watch({src, msgId})`: a new subscriber goes to the end of the list. */
    method Watch(w: Watcher)
      modifies this
      ensures State() == old(State()).(watchers := old(watchers) + [w])
    {
      watchers := watchers + [w];
    }

    /** `unwatch`: drop the subscription participant `src` holds under message id `id`. */
    method Unwatch(src: string, id: string)
      modifies this
      ensures State() == old(State()).(watchers := Without(old(watchers), src, id))
    {
      var ws := watchers;
      var kept := [];
      for i := 0 to |ws|
        invariant kept == Without(ws[..i], src, id)
      {
        assert ws[..i + 1][..i] == ws[..i];
        if ws[i] != Watcher(src, id) {
          kept := kept + [ws[i]];
        }
      }
      assert ws[..|ws|] == ws;
      watchers := kept;
    }
  }

  /** A packet context: one inbound request and the replies queued for it. */
  class PacketContext {
    const request: Request
    const leaderState: string
    /** The requester's precomputed authorisation: the permission tokens it holds. */
    const granted: set<string>
    var responses: seq<Reply>

    constructor (request: Request, leaderState: string, granted: set<string>)
      ensures this.request == request && this.leaderState == leaderState && this.granted == granted
      ensures responses == []
    {
      this.request := request;
      this.leaderState := leaderState;
      this.granted := granted;
      this.responses := [];
    }

    /** `replyTo`: queue a reply addressed to the requester. */
    method ReplyTo(response: Response, entity: Option<Entity>)
      modifies this
      ensures responses == old(responses) + [ReplyFor(request, response, entity)]
    {
      responses := responses + [ReplyFor(request, response, entity)];
    }
  }

  /** The paths of `keys` a collection with pattern `prefix` covers, as its refresh loop collects them. */
  method CollectPaths(keys: seq<string>, prefix: string) returns (paths: seq<string>)
    ensures paths == Matching(keys, prefix)
    ensures forall p :: p in paths <==> p in keys && Matches(prefix, p)
  {
    paths := [];
    for i := 0 to |keys|
      invariant paths == Matching(keys[..i], prefix)
    {
      assert keys[..i + 1][..i] == keys[..i];
      if Matches(prefix, keys[i]) {
        paths := paths + [keys[i]];
      }
    }
    assert keys[..|keys|] == keys;
    MatchingMembers(keys, prefix);
  }

  /** CommonApiBase: the store and the packet router. */
  class ApiBase {
    /** The `data` dictionary from path to node. */
    var data: map<string, ApiValue>
    /** The key order of `data`: each path in the order it was first stored. */
    var keys: seq<string>
    /** The paths registered with `addDynamicNode`. */
    var dynamicNodes: seq<string>
    /** The packets handed to the participant (`participant.sentPackets`). */
    var sentPackets: seq<Reply>

    ghost function Nodes(): set<ApiValue>
      reads this`data
    {
      set p | p in data :: data[p]
    }

    /** Each node sits under its own path and `keys` enumerates the stored paths once each. */
    ghost predicate Valid()
      reads this`data, this`keys
    {
      && (forall p :: p in data ==> data[p].resource == p)
      && (forall i, j :: 0 <= i < j < |keys| ==> keys[i] != keys[j])
      && (forall p :: p in data <==> p in keys)
    }

    /** The state of every stored node. */
    ghost function NodeStates(): map<string, NodeState>
      reads this`data, Nodes()
    {
      map p | p in data :: data[p].State()
    }

    /** The store as a value. */
    ghost function Abs(): Store
      reads this`data, this`keys, this`dynamicNodes, Nodes()
    {
      Store(NodeStates(), keys, dynamicNodes)
    }

    constructor ()
      ensures Valid() && Abs() == Empty && sentPackets == []
    {
      data := map[];
      keys := [];
      dynamicNodes := [];
      sentPackets := [];
    }

    /** The `makeValue` factory: a blank node for a path not stored yet. */
    method MakeValue(path: string) returns (n: ApiValue)
      ensures fresh(n) && n.resource == path && n.State() == Blank
    {
      n := new ApiValue(path, Plain, None, None, 0);
    }

    /** `data[node.resource] = node`. */
    method Put(node: ApiValue)
      requires Valid()
      modifies this
      ensures Valid() && Abs() == Insert(old(Abs()), node.resource, node.State())
      ensures data == old(data)[node.resource := node]
      ensures sentPackets == old(sentPackets) && dynamicNodes == old(dynamicNodes)
      ensures Nodes() <= old(Nodes()) + {node}
    {
      ghost var st := Abs();
      var path := node.resource;
      if path !in data {
        keys := keys + [path];
      }
      data := data[path := node];
      PutNodeStates(node);
    }

    /** Storing `node` under its path changes the store's states only at that path. */
    twostate lemma PutNodeStates(node: ApiValue)
      requires data == old(data)[node.resource := node]
      requires forall o: ApiValue :: o in old(Nodes()) ==> unchanged(o)
      requires unchanged(node)
      ensures NodeStates() == old(NodeStates())[node.resource := node.State()]
    {
      var now, before := NodeStates(), old(NodeStates());
      forall q | q in data
        ensures q in now && now[q] == before[node.resource := node.State()][q]
      {
        if q != node.resource {
          assert old(data)[q] in old(Nodes());
        }
      }
      assert now.Keys == before.Keys + {node.resource};
    }

    /** `addDynamicNode`: store a collection and register it for notification. */
    method AddDynamicNode(node: ApiValue)
      requires Valid() && node.kind.Collection?
      modifies this
      ensures Valid() && Abs() == RouterModel.AddDynamicNode(old(Abs()), node.resource, node.State())
      ensures sentPackets == old(sentPackets)
    {
      Put(node);
      ghost var nodes := NodeStates();
      dynamicNodes := dynamicNodes + [node.resource];
      assert NodeStates() == nodes;
    }

    /** `handleGet`: reply `ok` with what a read of the node sees. */
    method HandleGet(node: ApiValue, ctx: PacketContext)
      modifies ctx
      ensures ctx.responses == old(ctx.responses) + [ReplyFor(ctx.request, Ok, View(keys, node.State()))]
    {
      var entity := node.entity;
      if node.kind.Collection? {
        var paths := CollectPaths(keys, node.kind.prefix);
        entity := Some(PathList(paths));
      }
      ctx.ReplyTo(Ok, entity);
    }

    /** `handleSet`: take the packet's entity and content type, reply `ok`. */
    method HandleSet(node: ApiValue, ctx: PacketContext)
      modifies node, ctx
      ensures node.State() == Apply(Set, old(node.State()), ctx.request)
      ensures node.entity == ctx.request.entity && node.contentType == ctx.request.contentType
      ensures ctx.responses == old(ctx.responses) + [ReplyFor(ctx.request, Ok, None)]
    {
      node.entity := ctx.request.entity;
      node.contentType := ctx.request.contentType;
      node.version := node.version + 1;
      ctx.ReplyTo(Ok, None);
    }

    /** `handleDelete`: clear the value and reset the version, reply `ok`. */
    method HandleDelete(node: ApiValue, ctx: PacketContext)
      modifies node, ctx
      ensures node.State() == Apply(Delete, old(node.State()), ctx.request)
      ensures node.entity.None? && node.contentType.None? && node.version == 0
      ensures ctx.responses == old(ctx.responses) + [ReplyFor(ctx.request, Ok, None)]
    {
      node.entity := None;
      node.contentType := None;
      node.version := 0;
      ctx.ReplyTo(Ok, None);
    }

    /** `handleWatch`: subscribe the requester under its message id, reply `ok`. */
    method HandleWatch(node: ApiValue, ctx: PacketContext)
      modifies node, ctx
      ensures node.State() == Apply(Watch, old(node.State()), ctx.request)
      ensures node.watchers == old(node.watchers) + [Watcher(ctx.request.src, ctx.request.msgId)]
      ensures ctx.responses == old(ctx.responses) + [ReplyFor(ctx.request, Ok, None)]
    {
      node.Watch(Watcher(ctx.request.src, ctx.request.msgId));
      ctx.ReplyTo(Ok, None);
    }

    /** `handleUnwatch`: drop the sender's subscription the packet's `replyTo` names, reply `ok`. */
    method HandleUnwatch(node: ApiValue, ctx: PacketContext)
      modifies node, ctx
      ensures node.State() == Apply(Unwatch, old(node.State()), ctx.request)
      ensures forall w :: w in node.watchers <==>
        w in old(node.watchers) && (w.src != ctx.request.src || w.msgId != ctx.request.replyTo)
      ensures ctx.responses == old(ctx.responses) + [ReplyFor(ctx.request, Ok, None)]
    {
      WithoutKeeps(node.watchers, ctx.request.src, ctx.request.replyTo);
      node.Unwatch(ctx.request.src, ctx.request.replyTo);
      ctx.ReplyTo(Ok, None);
    }

    /** `rootHandleList`: reply `ok` with every stored path. */
    method RootHandleList(ctx: PacketContext)
      requires Valid()
      modifies ctx
      ensures ctx.responses == old(ctx.responses) + [ReplyFor(ctx.request, Ok, Some(PathList(keys)))]
      ensures forall p :: p in keys <==> p in data
    {
      ctx.ReplyTo(Ok, Some(PathList(keys)));
    }

    /** `invokeHandler`: run the `handle<Action>` method `op` names. */
    method InvokeHandler(node: ApiValue, ctx: PacketContext, op: Op)
      requires Valid() && node.resource in data && data[node.resource] == node
      modifies node, ctx
      ensures node.State() == Apply(op, old(node.State()), ctx.request)
      ensures Abs() == Insert(old(Abs()), node.resource, node.State())
      ensures ctx.responses == old(ctx.responses) + [ReplyFor(ctx.request, Ok, if op.Get? then View(keys, old(node.State())) else None)]
    {
      match op {
        case Get => HandleGet(node, ctx);
        case Set => HandleSet(node, ctx);
        case Delete => HandleDelete(node, ctx);
        case Watch => HandleWatch(node, ctx);
        case Unwatch => HandleUnwatch(node, ctx);
      }
      OnlyNodeChanged(node);
    }

    /** When no stored node but `node` changed, the store's states differ from before only at `node`'s path. */
    twostate lemma OnlyNodeChanged(node: ApiValue)
      requires Valid() && node.resource in data && data[node.resource] == node
      requires old(data) == data
      requires forall o: ApiValue :: o in Nodes() && o != node ==> unchanged(o)
      ensures NodeStates() == old(NodeStates())[node.resource := node.State()]
    {
      var now, before := NodeStates(), old(NodeStates());
      forall q | q in data
        ensures q in now && q in before && now[q] == before[node.resource := node.State()][q]
      {
        if q != node.resource {
          assert data[q] in Nodes() && data[q] != node;
        }
      }
      assert now.Keys == before.Keys;
    }

    /** Send one `changed` packet to each watcher through the participant. */
    method NotifyWatchers(ws: seq<Watcher>, resource: string, change: Entity)
      modifies this`sentPackets
      ensures sentPackets == old(sentPackets) + Notices(ws, resource, change)
    {
      for i := 0 to |ws|
        invariant sentPackets == old(sentPackets) + Notices(ws[..i], resource, change)
      {
        assert ws[..i + 1][..i] == ws[..i];
        sentPackets := sentPackets + [Notice(ws[i], resource, change)];
      }
      assert ws[..|ws|] == ws;
    }

    /** Refresh the collection registered under `c`, if any: notify its watchers when its list changed. */
    method NotifyCollection(c: string, before: seq<string>)
      modifies this`sentPackets
      ensures sentPackets == old(sentPackets)
        + (var nodes := NodeStates(); if c in nodes && nodes[c].kind.Collection? then CollectionNotice(c, nodes[c], before, keys) else [])
    {
      if c in data && data[c].kind.Collection? {
        var node := data[c];
        var pre := CollectPaths(before, node.kind.prefix);
        var post := CollectPaths(keys, node.kind.prefix);
        if pre != post {
          NotifyWatchers(node.watchers, c, Change(Some(PathList(pre)), Some(PathList(post))));
        }
      }
    }

    /** One step of the refresh: the `i`-th registered collection, after the `i` before it sent on top of `base`. */
    method NotifyCollectionAt(i: nat, before: seq<string>, ghost base: seq<Reply>)
      requires i < |dynamicNodes|
      requires sentPackets == base + CollectionNotices(dynamicNodes[..i], NodeStates(), before, keys)
      modifies this`sentPackets
      ensures sentPackets == base + CollectionNotices(dynamicNodes[..i + 1], NodeStates(), before, keys)
    {
      assert dynamicNodes[..i + 1][..i] == dynamicNodes[..i];
      ghost var nodes := NodeStates();
      NotifyCollection(dynamicNodes[i], before);
      assert NodeStates() == nodes;
    }

    /** Refresh every registered collection against the key list it saw before, notifying its watchers of a change. */
    method NotifyCollections(before: seq<string>)
      modifies this`sentPackets
      ensures sentPackets == old(sentPackets) + CollectionNotices(dynamicNodes, NodeStates(), before, keys)
    {
      for i := 0 to |dynamicNodes|
        invariant sentPackets == old(sentPackets) + CollectionNotices(dynamicNodes[..i], NodeStates(), before, keys)
      {
        NotifyCollectionAt(i, before, old(sentPackets));
      }
      assert dynamicNodes[..|dynamicNodes|] == dynamicNodes;
    }

    /** A leader's notifications after handler `op` ran on `node`, whose entity was `oldEntity`. */
    method NotifyChange(leaderState: string, op: Op, path: string, oldEntity: Option<Entity>, node: ApiValue, before: seq<string>)
      modifies this`sentPackets
      ensures sentPackets == old(sentPackets) + Sent(leaderState, op, path, oldEntity, node.State(), dynamicNodes, NodeStates(), before, keys)
    {
      if leaderState == "leader" {
        if op.Set? || op.Delete? {
          NotifyWatchers(node.watchers, path, Change(oldEntity, node.entity));
        }
        NotifyCollections(before);
      }
    }

    /** Resolve `path` to its node, creating it through `makeValue` and storing it when the path is new. */
    method Materialise(path: string) returns (node: ApiValue)
      requires Valid()
      modifies this
      ensures Valid() && path in data && data[path] == node
      ensures var st := old(Abs());
        && node.State() == (if path in st.nodes then st.nodes[path] else Blank)
        && Abs() == Insert(st, path, node.State())
      ensures sentPackets == old(sentPackets) && dynamicNodes == old(dynamicNodes)
      ensures Nodes() <= old(Nodes()) + {node} && (node in old(Nodes()) || fresh(node))
    {
      if path in data {
        node := data[path];
        assert NodeStates() == old(NodeStates())[path := node.State()];
      } else {
        node := MakeValue(path);
        Put(node);
      }
    }

    /** Resolve `path` (through `makeValue` when it is new) and run handler `op` on its node. */
    method ResolveAndInvoke(ctx: PacketContext, path: string, op: Op) returns (node: ApiValue, oldEntity: Option<Entity>)
      requires Valid()
      modifies this, ctx, Nodes()
      ensures Valid() && sentPackets == old(sentPackets) && dynamicNodes == old(dynamicNodes)
      ensures oldEntity == Resolved(old(Abs()), path).entity
      ensures node.State() == Apply(op, Resolved(old(Abs()), path), ctx.request)
      ensures Abs() == Insert(old(Abs()), path, node.State())
      ensures ctx.responses == old(ctx.responses)
        + [ReplyFor(ctx.request, Ok, if op.Get? then View(old(keys), Resolved(old(Abs()), path)) else None)]
      ensures fresh(Nodes() - old(Nodes()))
    {
      ghost var st := Abs();
      node := Materialise(path);
      ghost var n := node.State();
      oldEntity := node.entity;
      InvokeHandler(node, ctx, op);
      ghost var m := node.State();
      InsertTwice(st, path, n, m);
    }

    /**
     * The part of `routePacket` after the gates: run the handler and, for a
     * leader, notify the node's watchers after a mutation and then every
     * registered collection.
     */
    method PerformAction(ctx: PacketContext, path: string, op: Op)
      requires Valid()
      modifies this, ctx, Nodes()
      ensures Valid()
      ensures var step := Perform(old(Abs()), ctx.request, path, op, ctx.leaderState);
        && Abs() == step.store
        && ctx.responses == old(ctx.responses) + [step.reply]
        && sentPackets == old(sentPackets) + step.sent
      ensures fresh(Nodes() - old(Nodes()))
    {
      var before := keys;
      var node, oldEntity := ResolveAndInvoke(ctx, path, op);
      NotifyChange(ctx.leaderState, op, path, oldEntity, node, before);
    }

    /**
     * `routePacket`: the gates, the dispatch and, for a leader, the
     * notifications, exactly as RouterModel.Route describes them.
     */
    method RoutePacket(ctx: PacketContext, resourceError: bool) returns (d: Dispatch)
      requires Valid()
      modifies this, ctx, Nodes()
      ensures Valid()
      ensures var step := Route(old(Abs()), ctx.request, ctx.granted, ctx.leaderState, resourceError);
        && Abs() == step.store
        && ctx.responses == old(ctx.responses) + [step.reply]
        && sentPackets == old(sentPackets) + step.sent
        && d == step.dispatch
      ensures fresh(Nodes() - old(Nodes()))
    {
      var req := ctx.request;
      if req.resource.None? {
        if req.action in RootActions {
          RootHandleList(ctx);
          d := RootHandler(req.action);
        } else {
          ctx.ReplyTo(BadAction, None);
          d := Refused(BadAction);
        }
      } else {
        d := RouteToNode(ctx, req.resource.value, resourceError);
      }
    }

    /** `routePacket` for a packet that names the resource `path`: the gates, then the node's handler. */
    method RouteToNode(ctx: PacketContext, path: string, resourceError: bool) returns (d: Dispatch)
      requires Valid() && ctx.request.resource == Some(path)
      modifies this, ctx, Nodes()
      ensures Valid()
      ensures var step := Route(old(Abs()), ctx.request, ctx.granted, ctx.leaderState, resourceError);
        && Abs() == step.store
        && ctx.responses == old(ctx.responses) + [step.reply]
        && sentPackets == old(sentPackets) + step.sent
        && d == step.dispatch
      ensures fresh(Nodes() - old(Nodes()))
    {
      var req := ctx.request;
      if resourceError || (path !in data && req.action != "set") {
        ctx.ReplyTo(NoMatch, None);
        d := Refused(NoMatch);
        return;
      }
      var kind, permissions, version := Plain, [], 0;
      if path in data {
        kind, permissions, version := data[path].kind, data[path].permissions, data[path].version;
      }
      if !Permitted(permissions, ctx.granted) {
        ctx.ReplyTo(NoPerm, None);
        d := Refused(NoPerm);
        return;
      }
      if !PreconditionHolds(req.ifTag, version) {
        ctx.ReplyTo(NoMatch, None);
        d := Refused(NoMatch);
        return;
      }
      var op := HandlerFor(kind, req.action);
      if op.None? {
        ctx.ReplyTo(BadAction, None);
        d := Refused(BadAction);
        return;
      }
      PerformAction(ctx, path, op.value);
      d := NodeHandler(op.value);
    }
  }
}
