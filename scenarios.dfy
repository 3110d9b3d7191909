/**
 * The concrete situations the Common API Base is exercised with: a store
 * holding `/node`, and a store holding `/foo/1`..`/foo/3` with the
 * collection `/foo` over every path starting with `/foo/`.
 */
module Scenarios {
  import opened Wrappers
  import opened Packets
  import opened NodeModel
  import opened RouterModel
  import opened RouterProperties

  /** `/node`: entity `{foo:1}`, JSON content, version 1, open to everybody, watched by `watchers`. */
  function SimpleNode(watchers: seq<Watcher>): NodeState
  {
    NodeState(Plain, Some(Json("{\"foo\":1}")), Some("application/json"), 1, [], watchers)
  }

  function NodeStore(watchers: seq<Watcher>): (r: Store)
    ensures WellFormed(r)
    ensures r.keys == ["/node"] && r.nodes == map["/node" := SimpleNode(watchers)] && r.dynamic == []
  {
    Insert(Empty, "/node", SimpleNode(watchers))
  }

  /** A packet from `srcParticipant` with message id `1234`. */
  function Packet(resource: Option<string>, action: string, entity: Option<Entity>, ifTag: Option<int>): Request
  {
    Request(resource, action, entity, None, ifTag, "1234", "", "srcParticipant")
  }

  const Watcher5678 := Watcher("watcher", "5678")

  /** A routed `get` on `/node` answers `ok` with its entity, and a watcher hears nothing. */
  lemma GetNode()
    ensures var r := Route(NodeStore([Watcher5678]), Packet(Some("/node"), "get", None, None), {}, "leader", false);
      && r.dispatch == NodeHandler(Get)
      && r.reply == Reply(Ok, "srcParticipant", Some("/node"), "1234", Some(Json("{\"foo\":1}")))
      && r.sent == []
  {
    GetOnStoredNode(NodeStore([Watcher5678]), Packet(Some("/node"), "get", None, None), {}, "leader");
  }

  /**
   * `srcParticipant` and another participant both watch `/node` under message
   * id 1234; an `unWatch` from `srcParticipant` naming 1234 ends only its own
   * subscription.
   */
  lemma UnwatchKeepsOtherSubscriber()
    ensures var n := SimpleNode([Watcher("srcParticipant", "1234"), Watcher("otherParticipant", "1234")]);
      var unwatch := Request(Some("/node"), "unWatch", None, None, None, "", "1234", "srcParticipant");
      Apply(Unwatch, n, unwatch).watchers == [Watcher("otherParticipant", "1234")]
  {
    var ws := [Watcher("srcParticipant", "1234"), Watcher("otherParticipant", "1234")];
    assert ws[..1] == [Watcher("srcParticipant", "1234")] && ws[..1][..0] == [];
    assert Watcher("otherParticipant", "1234") != Watcher("srcParticipant", "1234") by {
      assert "otherParticipant"[0] != "srcParticipant"[0];
    }
  }

  /** An action nobody handles is `badAction`, addressed to the sender. */
  lemma UnknownAction()
    ensures var r := Route(NodeStore([]), Packet(Some("/node"), "OMG NO SUCH ACTION", None, None), {}, "leader", false);
      r.reply == Reply(BadAction, "srcParticipant", Some("/node"), "1234", None) && r.store == NodeStore([])
  {
  }

  /** A node requiring `haxed` refuses a requester not granted it with `noPerm`. */
  lemma MissingPermission()
    ensures var st := Insert(Empty, "/node", SimpleNode([]).(permissions := ["haxed"]));
      var r := Route(st, Packet(Some("/node"), "get", None, None), {}, "leader", false);
      r.reply == Reply(NoPerm, "srcParticipant", Some("/node"), "1234", None) && r.store == st
  {
    var st := Insert(Empty, "/node", SimpleNode([]).(permissions := ["haxed"]));
    assert "haxed" in st.nodes["/node"].permissions;
  }

  /** An `ifTag` of 1234 against version 1 is `noMatch`. */
  lemma StaleIfTag()
    ensures var r := Route(NodeStore([]), Packet(Some("/node"), "get", None, Some(1234)), {}, "leader", false);
      r.reply == Reply(NoMatch, "srcParticipant", Some("/node"), "1234", None)
  {
  }

  /** A resource that fails validation is `noMatch`. */
  lemma InvalidResource()
    ensures var r := Route(NodeStore([]), Packet(Some("/node"), "get", None, None), {}, "leader", true);
      r.reply == Reply(NoMatch, "srcParticipant", Some("/node"), "1234", None)
  {
  }

  /** Root `list` answers exactly `["/node"]`. */
  lemma ListRoot()
    ensures var r := Route(NodeStore([]), Packet(None, "list", Some(Json("{\"bar\":2}")), None), {}, "leader", false);
      r.reply == Reply(Ok, "srcParticipant", None, "1234", Some(PathList(["/node"]))) && r.sent == []
  {
  }

  /** Setting `{bar:2}` on the watched `/node` sends the watcher one `changed` packet from `{foo:1}` to `{bar:2}`. */
  lemma SetWatchedNode()
    ensures var r := Route(NodeStore([Watcher5678]), Packet(Some("/node"), "set", Some(Json("{\"bar\":2}")), None), {}, "leader", false);
      && r.reply == Reply(Ok, "srcParticipant", Some("/node"), "1234", None)
      && r.sent == [Reply(Changed, "watcher", Some("/node"), "5678", Some(Change(Some(Json("{\"foo\":1}")), Some(Json("{\"bar\":2}")))))]
  {
    var st := NodeStore([Watcher5678]);
    var req := Packet(Some("/node"), "set", Some(Json("{\"bar\":2}")), None);
    SetNotifiesWatchers(st, req, {});
  }

  /** `/foo/<d>`: entity `{foo:<d>}`, JSON content, version 1. */
  function Child(d: string): NodeState
  {
    NodeState(Plain, Some(Json("{\"foo\":" + d + "}")), Some("application/json"), 1, [], [])
  }

  const Three: seq<string> := ["/foo/1", "/foo/2", "/foo/3"]
  const Four: seq<string> := ["/foo/1", "/foo/2", "/foo/3", "/foo/4"]

  /** `/foo/1`, `/foo/2` and `/foo/3` stored in that order. */
  function Children(): (r: Store)
    ensures WellFormed(r)
  {
    Store(map["/foo/1" := Child("1"), "/foo/2" := Child("2"), "/foo/3" := Child("3")], Three, [])
  }

  /** The collection `/foo` over the paths starting with `/foo/`. */
  function FooCollection(watchers: seq<Watcher>): NodeState
  {
    NodeState(Collection("/foo/"), None, None, 0, [], watchers)
  }

  /** The three children, then `/foo` registered with `addDynamicNode`. */
  function FooStore(watchers: seq<Watcher>): (r: Store)
    ensures WellFormed(r)
    ensures r.keys == Three + ["/foo"] && r.dynamic == ["/foo"]
    ensures "/foo" in r.nodes && r.nodes["/foo"] == FooCollection(watchers)
  {
    AddDynamicNode(Children(), "/foo", FooCollection(watchers))
  }

  /** The three children are exactly the paths the collection's pattern covers. */
  lemma ChildrenListing()
    ensures Matching(Three, "/foo/") == Three
  {
    forall i | 0 <= i < |Three|
      ensures Matches("/foo/", Three[i])
    {
      assert Three[i][..5] == "/foo/";
    }
    MatchingAll(Three, "/foo/");
  }

  /** The collection reads as its three children, and as four once `/foo/4` is stored. */
  lemma FooListings()
    ensures Matching(Three + ["/foo"], "/foo/") == Three
    ensures Matching(Three + ["/foo"] + ["/foo/4"], "/foo/") == Four
  {
    ChildrenListing();
    assert !Matches("/foo/", "/foo");
    MatchingAppend(Three, "/foo/", "/foo");
    assert Matches("/foo/", "/foo/4");
    MatchingAppend(Three + ["/foo"], "/foo/", "/foo/4");
  }

  /** A routed `get` on `/foo` lists the three children. */
  lemma GetCollection()
    ensures var r := Route(FooStore([]), Packet(Some("/foo"), "get", None, None), {}, "leader", false);
      r.reply == Reply(Ok, "srcParticipant", Some("/foo"), "1234", Some(PathList(Three)))
  {
    var st := FooStore([]);
    var req := Packet(Some("/foo"), "get", None, None);
    GetOnStoredNode(st, req, {}, "leader");
    FooListings();
    assert View(st.keys, st.nodes["/foo"]) == Some(PathList(Three));
  }

  /** The `set` on the new path `/foo/4`: the node is created, the key order grows by it and `/foo` is untouched. */
  lemma SetFourthChild(st: Store, watchers: seq<Watcher>)
    requires WellFormed(st) && st.keys == Three + ["/foo"] && st.dynamic == ["/foo"]
    requires "/foo" in st.nodes && st.nodes["/foo"] == FooCollection(watchers)
    ensures var set1 := Route(st, Packet(Some("/foo/4"), "set", Some(Json("{\"foo\":4}")), None), {}, "leader", false);
      && WellFormed(set1.store)
      && set1.reply.response == Ok
      && Resolved(set1.store, "/foo/4").entity == Some(Json("{\"foo\":4}"))
      && set1.store.keys == Three + ["/foo"] + ["/foo/4"]
      && "/foo" in set1.store.nodes && set1.store.nodes["/foo"] == FooCollection(watchers)
      && set1.sent == CollectionNotices(["/foo"], set1.store.nodes, st.keys, set1.store.keys)
  {
    var req := Packet(Some("/foo/4"), "set", Some(Json("{\"foo\":4}")), None);
    assert "/foo/4"[5] == '4' && |"/foo"| == 4;
    assert "/foo/4" !in st.keys;
    SetCreatesNode(st, req, {}, "leader");
  }

  /**
   * A routed `set` on the new path `/foo/4` creates it; the collection then
   * lists four children, and its watchers receive one `changed` packet each,
   * from the three-element list to the four-element one.
   */
  lemma SetNewChild(watchers: seq<Watcher>)
    ensures var set1 := Route(FooStore(watchers), Packet(Some("/foo/4"), "set", Some(Json("{\"foo\":4}")), None), {}, "leader", false);
      var get2 := Route(set1.store, Packet(Some("/foo"), "get", None, None), {}, "leader", false);
      && set1.reply.response == Ok
      && Resolved(set1.store, "/foo/4").entity == Some(Json("{\"foo\":4}"))
      && get2.reply == Reply(Ok, "srcParticipant", Some("/foo"), "1234", Some(PathList(Four)))
      && set1.sent == Notices(watchers, "/foo", Change(Some(PathList(Three)), Some(PathList(Four))))
  {
    var st := FooStore(watchers);
    var set1 := Route(st, Packet(Some("/foo/4"), "set", Some(Json("{\"foo\":4}")), None), {}, "leader", false);
    var after := set1.store;
    SetFourthChild(st, watchers);
    FooListings();
    OneCollectionNotices("/foo", after.nodes, st.keys, after.keys);
    GetOnStoredNode(after, Packet(Some("/foo"), "get", None, None), {}, "leader");
  }

  /** The watcher registered on `/foo` receives exactly that one packet. */
  lemma WatchedCollection()
    ensures var set1 := Route(FooStore([Watcher5678]), Packet(Some("/foo/4"), "set", Some(Json("{\"foo\":4}")), None), {}, "leader", false);
      set1.sent == [Reply(Changed, "watcher", Some("/foo"), "5678", Some(Change(Some(PathList(Three)), Some(PathList(Four)))))]
  {
    SetNewChild([Watcher5678]);
    assert [Watcher5678][..0] == [];
  }
}
