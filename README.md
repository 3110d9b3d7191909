# Common API Base: resource store and packet router

A Dafny model of the Common API Base of the ozp-iwc inter-widget
communication bus. The model covers the store of resource nodes, the
action handlers, and the router that gates every inbound packet before it
reaches a handler.

A resource node (`CommonApiValue`) holds:
- an optional entity;
- an optional content type;
- a version;
- the permission tokens a requester must hold;
- an ordered list of watchers, each a `{src, msgId}` pair.

A collection node (`CommonApiCollectionValue`) has no entity of its own.
Reading it lists the stored paths its pattern covers.

The store (`CommonApiBase`) keeps a `data` dictionary from path to node. New
nodes come from a `makeValue` factory. Collections registered with
`addDynamicNode` are refreshed after every change.

`routePacket` handles one packet in this order:
1. It resolves the packet's resource.
2. A resource-validation error gives `noMatch`.
3. A missing permission gives `noPerm`.
4. A failed `ifTag` compare-and-swap check gives `noMatch`.
5. It dispatches to `handle<Action>` on the node, or to `rootHandle<Action>`
   when the packet names no resource. An action without a handler gives
   `badAction`.
6. When it runs as the leader, it sends `changed` packets:
   - to the node's own watchers after a `set` or `delete`;
   - to the watchers of every collection whose listing changed.

The project has two layers:
- **Reference model.** `Packets`, `NodeModel` and `RouterModel` describe the
  store as a value. `RouterModel.Route` maps a store and a request to:
  - the new store;
  - the one reply;
  - the `changed` packets;
  - the handler that ran, or the outcome that stopped the packet.
- **Object model.** `CommonApi` mirrors the program as it runs:
  - nodes are objects updated in place;
  - the store object holds `data`, its key order, the registered collections
    and the packets handed to the participant;
  - a packet context collects the replies.

  `ApiBase.RoutePacket` is proved to produce exactly what `Route` describes.

`RouterProperties` proves what the router promises for all stores and
requests. `Scenarios` replays the concrete situations the component is
exercised with: the node `/node`, and the collection `/foo` over
`/foo/1`..`/foo/3`.

Some details of the behaviour are not fixed by what the component is checked
against. The model settles them as follows:
- **Order.** Paths are listed in the order they were first stored, which is
  the key order of the `data` object. Both the root `list` and collection
  listings use this order. Listings are not sorted.
- **Missing paths.** A packet whose resource is not stored gets `noMatch`,
  unless its action is `set`. Only `set` creates a node through `makeValue`,
  and a refused packet never creates one.
- **Collections.** A collection is stored under its own path by
  `addDynamicNode`. It answers `get`, `watch` and `unWatch`. It has no `set`
  or `delete` handler, so those actions get `badAction`.
- **Versions.** `set` raises the version by one. `delete` resets it to 0.
- **Unwatch.** `unWatch` removes the subscription the sender (`src`) holds
  under the packet's `replyTo` message id. Another participant's subscription
  under the same message id stays.
- **Followers.** A follower runs the handler and updates its own copy of the
  store like the leader; it only sends no `changed` packets.

## Model

| member | source | states |
|---|---|---|
| CommonApi.ApiValue.constructor | test/tests/unit/specs/api/commonApiBaseSpec.js:14-19 | a node starts with the given resource, entity, content type and version, no permissions and no watchers |
| CommonApi.ApiValue.Watch | test/tests/unit/specs/api/commonApiBaseSpec.js:307 | `watch` appends the subscriber to the end of the list and changes nothing else |
| CommonApi.ApiValue.Unwatch | test/tests/unit/specs/api/commonApiBaseSpec.js:140-155 | the loop keeps exactly `Without(watchers, src, id)`: every watcher but the subscription `src` holds under `id`, in order |
| CommonApi.PacketContext.constructor | test/tests/unit/specs/api/commonApiBaseSpec.js:28-32 | a context holds its request, leader state and grants, with no responses yet |
| CommonApi.PacketContext.ReplyTo | test/tests/unit/specs/api/commonApiBaseSpec.js:41-45 | a reply is appended, addressed to the requester's `src`, echoing the resource, with `replyTo` = request `msgId` |
| CommonApi.CollectPaths | test/tests/unit/specs/api/commonApiBaseSpec.js:414-419 | the loop collects exactly `Matching(keys, prefix)`, and a path is collected iff it is stored and the pattern covers it |
| CommonApi.ApiBase.constructor | test/tests/unit/specs/api/commonApiBaseSpec.js:8-10 | a new store is empty, well-formed and has sent nothing |
| CommonApi.ApiBase.MakeValue | test/tests/unit/specs/api/commonApiBaseSpec.js:11-13 | the factory yields a fresh blank node for the path |
| CommonApi.ApiBase.Put | test/tests/unit/specs/api/commonApiBaseSpec.js:381-398 | `data[path] = node` is `Insert` on the model store: well-formedness kept, a new path goes to the end of the key order |
| CommonApi.ApiBase.AddDynamicNode | test/tests/unit/specs/api/commonApiBaseSpec.js:399 | the collection is stored under its path and registered: `RouterModel.AddDynamicNode` on the model store |
| CommonApi.ApiBase.HandleGet | test/tests/unit/specs/api/commonApiBaseSpec.js:48-63 | replies `ok` with the node's entity, or a collection's current listing |
| CommonApi.ApiBase.HandleSet | test/tests/unit/specs/api/commonApiBaseSpec.js:65-85 | entity and content type become the packet's, and an `ok` reply is appended |
| CommonApi.ApiBase.HandleDelete | test/tests/unit/specs/api/commonApiBaseSpec.js:87-99 | entity and content type become undefined, version 0, and an `ok` reply is appended |
| CommonApi.ApiBase.HandleWatch | test/tests/unit/specs/api/commonApiBaseSpec.js:101-122 | a watcher `{src, msgId}` of the request is appended, and an `ok` reply is appended |
| CommonApi.ApiBase.HandleUnwatch | test/tests/unit/specs/api/commonApiBaseSpec.js:124-156 | a watcher survives iff its `src` differs from the packet's `src` or its `msgId` from the packet's `replyTo`, and an `ok` reply is appended |
| CommonApi.ApiBase.RootHandleList | test/tests/unit/specs/api/commonApiBaseSpec.js:27-46 | replies `ok` with the key list, which holds exactly the stored paths |
| CommonApi.ApiBase.InvokeHandler | test/tests/unit/specs/api/commonApiBaseSpec.js:163-180 | the handler `op` names changes only its own node, to `Apply(op, ...)`, and replies `ok` |
| CommonApi.ApiBase.NotifyWatchers | test/tests/unit/specs/api/commonApiBaseSpec.js:319-326 | the loop sends one `changed` packet per watcher, in order: `Notices(ws, ...)` |
| CommonApi.ApiBase.NotifyCollection | test/tests/unit/specs/api/commonApiBaseSpec.js:467-473 | a registered collection notifies its watchers, with old and new listing, iff its listing changed |
| CommonApi.ApiBase.NotifyCollectionAt | test/tests/unit/specs/api/commonApiBaseSpec.js:456-475 | one step of the refresh extends the packets sent so far by the next collection's notices |
| CommonApi.ApiBase.NotifyCollections | test/tests/unit/specs/api/commonApiBaseSpec.js:456-475 | the loop sends `CollectionNotices` for every registered collection, in registration order |
| CommonApi.ApiBase.NotifyChange | test/tests/unit/specs/api/commonApiBaseSpec.js:306-347 | a leader sends the node's own notices, then the collections'; a follower sends nothing |
| CommonApi.ApiBase.Materialise | test/tests/unit/specs/api/commonApiBaseSpec.js:424-435 | a stored path resolves to its node; a new path gets a blank `makeValue` node stored under it |
| CommonApi.ApiBase.ResolveAndInvoke | test/tests/unit/specs/api/commonApiBaseSpec.js:199-220 | the resolved node ends as `Apply(op, ...)` of its resolved state, the store as `Insert` of it, with one `ok` reply |
| CommonApi.ApiBase.PerformAction | test/tests/unit/specs/api/commonApiBaseSpec.js:306-347 | store, replies and sent packets after dispatch are exactly `Perform` of the old store |
| CommonApi.ApiBase.RoutePacket | test/tests/unit/specs/api/commonApiBaseSpec.js:158-373 | new store, the one reply, the sent packets and the handler reached are exactly `Route` of the old store, and the invariant is kept |
| CommonApi.ApiBase.RouteToNode | test/tests/unit/specs/api/commonApiBaseSpec.js:224-304 | for a packet naming a resource, the gates and the dispatch are exactly `Route` of the old store |
| NodeModel.HandlerFor | test/tests/unit/specs/api/commonApiBaseSpec.js:224-243 | the handler found answers to the packet's action name, and a collection has no `set` or `delete`; no handler means no handler of that name exists for the node's kind (`badAction`) |
| NodeModel.Permitted | test/tests/unit/specs/api/commonApiBaseSpec.js:245-264 | the permission gate passes iff every token the node requires is granted; a node requiring none is open |
| NodeModel.PreconditionHolds | test/tests/unit/specs/api/commonApiBaseSpec.js:265-284 | the `ifTag` gate passes iff the packet has no `ifTag` or names the node's current version |
| NodeModel.Apply | test/tests/unit/specs/api/commonApiBaseSpec.js:65-156 | no handler changes kind or permissions; `get` changes nothing; `set` and `delete` keep the watchers; `watch` and `unWatch` change only the watchers, and `unWatch` never lengthens them |
| NodeModel.Without | test/tests/unit/specs/api/commonApiBaseSpec.js:140-155 | unwatching never lengthens the list and leaves the named subscription absent |
| NodeModel.SetReplacesValue | test/tests/unit/specs/api/commonApiBaseSpec.js:83-84 | after `set`, entity and content type are the packet's, and kind, permissions and watchers are unchanged |
| NodeModel.DeleteClearsValue | test/tests/unit/specs/api/commonApiBaseSpec.js:96-98 | after `delete`, entity and content type are undefined and version is 0, the rest unchanged |
| NodeModel.WithoutKeeps | test/tests/unit/specs/api/commonApiBaseSpec.js:140-155 | unwatching keeps a watcher iff it is listed and registered by another participant or under another id |
| NodeModel.WithoutAbsent | test/tests/unit/specs/api/commonApiBaseSpec.js:148 | unwatching a subscription nobody holds leaves the list unchanged |
| NodeModel.WatchThenUnwatch | test/tests/unit/specs/api/commonApiBaseSpec.js:124-156 | `watch` puts the new watcher at the end; an `unWatch` from the same `src` with `replyTo` = its `msgId` restores the node, so an unwatched node has no watchers |
| NodeModel.NoticesAt | test/tests/unit/specs/api/commonApiBaseSpec.js:320-325 | the k-th `changed` packet goes to the k-th watcher, carrying the change |
| NodeModel.NoticesLength | test/tests/unit/specs/api/commonApiBaseSpec.js:320 | exactly one `changed` packet per watcher |
| RouterModel.Matching | test/tests/unit/specs/api/commonApiBaseSpec.js:376-379 | a listing is no longer than the key list and holds only paths the pattern covers |
| RouterModel.View | test/tests/unit/specs/api/commonApiBaseSpec.js:402-422 | a plain node reads as its entity; a collection reads as a path list holding exactly the stored paths its pattern covers |
| RouterModel.Perform | test/tests/unit/specs/api/commonApiBaseSpec.js:163-220 | a dispatched packet runs `op`: the node at the path becomes `Apply(op, ...)` of its resolved state, the reply is `ok` with the read view for `get` and no entity otherwise, well-formedness is kept and a follower sends nothing |
| RouterModel.Insert | test/tests/unit/specs/api/commonApiBaseSpec.js:37 | storing a node keeps the store well-formed, replaces only that path, and appends a new path to the key order |
| RouterModel.AddDynamicNode | test/tests/unit/specs/api/commonApiBaseSpec.js:399 | registering a collection stores it and appends its path to the registered list, keeping the store well-formed |
| RouterModel.Route | test/tests/unit/specs/api/commonApiBaseSpec.js:158-373 | every packet gets one reply, to the sender, echoing resource and `msgId`, with outcome `ok`, `badAction`, `noPerm` or `noMatch`; a refused packet gets its outcome, changes nothing and sends nothing; a follower sends nothing |
| RouterModel.InsertTwice | test/tests/unit/specs/api/commonApiBaseSpec.js:424-435 | storing twice under one path is storing the second node once |
| RouterModel.MatchingMembers | test/tests/unit/specs/api/commonApiBaseSpec.js:376-379 | a collection lists a path iff it is stored and its pattern covers it |
| RouterModel.MatchingAll | test/tests/unit/specs/api/commonApiBaseSpec.js:414-419 | a collection whose pattern covers every stored path lists them all, in key order |
| RouterModel.MatchingAppend | test/tests/unit/specs/api/commonApiBaseSpec.js:445-450 | storing a new path extends a listing by that path exactly when the pattern covers it |
| RouterModel.CollectionNoticesQuiet | test/tests/unit/specs/api/commonApiBaseSpec.js:330-347 | with the key list unchanged, no collection sends anything |
| RouterProperties.GateOrder | test/tests/unit/specs/api/commonApiBaseSpec.js:224-304 | the gate order: validation or a missing path gives `noMatch`, then `noPerm` iff not permitted, then `noMatch` iff the `ifTag` fails, then `badAction` iff no handler, else that handler runs |
| RouterProperties.RootDispatch | test/tests/unit/specs/api/commonApiBaseSpec.js:349-372 | with the root table holding `list` only, a packet naming no resource: `list` gives one `ok` listing exactly the stored paths, anything else `badAction`; nothing changes |
| RouterProperties.GetOnStoredNode | test/tests/unit/specs/api/commonApiBaseSpec.js:199-220 | a permitted `get` replies `ok` to `src` with resource, `replyTo` = `msgId` and the node's entity, changes nothing and sends nothing |
| RouterProperties.SetNotifiesWatchers | test/tests/unit/specs/api/commonApiBaseSpec.js:306-328 | a leader's `set` on a stored node replaces its value and sends exactly one `changed` packet per watcher with old and new entity |
| RouterProperties.DeleteNotifiesWatchers | test/tests/unit/specs/api/commonApiBaseSpec.js:87-99 | a leader's `delete` on a stored node clears entity and content type, resets the version and sends exactly one `changed` packet per watcher with the old entity and none new |
| RouterProperties.OnlyWritesNotify | test/tests/unit/specs/api/commonApiBaseSpec.js:101-156 | a packet whose action is neither `set` nor `delete` (`get`, `watch`, `unWatch`, `list`, or one refused at a gate) sends no `changed` packet, leader or not |
| RouterProperties.SetCreatesNode | test/tests/unit/specs/api/commonApiBaseSpec.js:424-435 | a `set` on a new path stores a blank node with the packet's value, appends the path, and a leader sends only collection notices |
| RouterProperties.CollectionFollowsStore | test/tests/unit/specs/api/commonApiBaseSpec.js:445-450 | after a new path is stored, a collection reads as before plus that path iff its pattern covers it |
| RouterProperties.OneCollectionNotices | test/tests/unit/specs/api/commonApiBaseSpec.js:467-473 | a single registered collection notifies with old and new listing exactly when its listing changed |
| Scenarios.GetNode | test/tests/unit/specs/api/commonApiBaseSpec.js:330-347 | a `get` on the watched `/node` answers `ok` with `{foo:1}` and sends nothing |
| Scenarios.UnwatchKeepsOtherSubscriber | test/tests/unit/specs/api/commonApiBaseSpec.js:140-155 | an `unWatch` from `srcParticipant` naming 1234 ends its own subscription and keeps another participant's under the same id |
| Scenarios.UnknownAction | test/tests/unit/specs/api/commonApiBaseSpec.js:224-243 | action `OMG NO SUCH ACTION` gets `badAction` addressed to the sender |
| Scenarios.MissingPermission | test/tests/unit/specs/api/commonApiBaseSpec.js:245-264 | a node requiring `haxed` answers `noPerm` to a requester without it |
| Scenarios.StaleIfTag | test/tests/unit/specs/api/commonApiBaseSpec.js:265-284 | `ifTag` 1234 against version 1 answers `noMatch` |
| Scenarios.InvalidResource | test/tests/unit/specs/api/commonApiBaseSpec.js:285-304 | a resource failing validation answers `noMatch` |
| Scenarios.ListRoot | test/tests/unit/specs/api/commonApiBaseSpec.js:349-372 | root `list` answers exactly one `ok` with `["/node"]` |
| Scenarios.SetWatchedNode | test/tests/unit/specs/api/commonApiBaseSpec.js:306-328 | setting `{bar:2}` on the watched `/node` answers `ok` and sends one `changed` packet from `{foo:1}` to `{bar:2}` |
| Scenarios.ChildrenListing | test/tests/unit/specs/api/commonApiBaseSpec.js:376-398 | the pattern `/foo/` covers all three children |
| Scenarios.FooListings | test/tests/unit/specs/api/commonApiBaseSpec.js:418-449 | `/foo` lists `/foo/1`..`/foo/3`, and all four once `/foo/4` is stored |
| Scenarios.GetCollection | test/tests/unit/specs/api/commonApiBaseSpec.js:402-422 | a `get` on `/foo` answers `ok` with the three children |
| Scenarios.SetFourthChild | test/tests/unit/specs/api/commonApiBaseSpec.js:426-435 | the `set` on new `/foo/4` creates it and appends it to the key order, leaving `/foo` untouched |
| Scenarios.SetNewChild | test/tests/unit/specs/api/commonApiBaseSpec.js:424-475 | after the `set` on `/foo/4`, `/foo` lists four, and its watchers get `changed` from the three-element to the four-element list |
| Scenarios.WatchedCollection | test/tests/unit/specs/api/commonApiBaseSpec.js:456-475 | the one watcher of `/foo` receives exactly one `changed` packet with both listings |

## Left out

- app/tools/debugger/js/debugger.js: DOM rendering, a timer and a metrics dump. It is user interface and I/O, with no store or routing logic.
- Promises: `routePacket` completes synchronously; settling the returned promise is not modelled.
- The participant transport: handing a packet to the participant is appending it to `sentPackets`, and delivery is not modelled.
- Leader election: the leader state is an input of each packet context.
- Resource validation: whether `validateResource` throws is an input (`resourceError`). The validation rules themselves are not modelled.
- Authorisation: the requester's permission tokens are an input set (`granted`). The authorisation service that computes them is not modelled.
- RouterProperties.RootDispatch: the root table is fixed at `list`, so a packet naming no resource reaches `rootHandleList` or gets `badAction`. The dispatch to a `rootHandle<Action>` added to the store at run time, such as the `rootHandleGet` that test/tests/unit/specs/api/commonApiBaseSpec.js:182-197 installs, is not stated: that handler's reply and effect are unknown, and the model gives every packet exactly one reply. A root `get` therefore gets `badAction` here.
- Patterns: a collection's regular expression (`/^\/foo\/.*$/`) is modelled as the string prefix it tests (`/foo/`).
- Entities: JSON payloads are opaque strings compared by equality. Message ids such as 5678 are strings.
- Versions: the version is an unbounded natural number, with no overflow.
- RouterModel.Matching: lists paths in the order they were first stored. It does not sort them lexicographically, so a store holding `/foo/b` before `/foo/a` lists `/foo/b` first. Every concrete listing of the component has its paths stored in sorted order, where both orders agree.
- CommonApi.CollectPaths: collects paths in key order, as `RouterModel.Matching` lists them, and does not sort them.
- RouterModel.Route: a packet other than `set` on a path not stored gets `noMatch`, so `watch`, `get`, `delete` and `unWatch` on a missing path are refused and create nothing. The behaviour for those cases is otherwise unspecified; only `set` creates nodes through `makeValue`.
- RouterModel.Perform: a follower runs the handler and updates its own store like the leader, and only sends no `changed` packets. Which instance's writes are authoritative belongs to leader election, which is not modelled.
- NodeModel.HandlerFor: a collection has no `set` or `delete` handler, so those actions on a collection get `badAction`. Its listing is computed from the store and cannot be written.
- NodeModel.SetReplacesValue: does not state the version, which `set` raises by one, because no outcome checked for the component depends on it.
