/**
 * The graph builder and story-point probe of internal/jira/graph.go.
 *
 * BuildGraph fills a node map keyed by ticket key and appends edges in
 * ticket order; it is proved equal to the specification functions
 * `Nodes` and `Edges`, about which the lemmas below state the node key set,
 * the synthetic epic node, last-write-wins, the edge count and the edge
 * order. The node list that Go builds from map iteration is kept as the
 * map itself: its order is unspecified.
 */
module Graph {
  import opened Wrappers
  import opened Model

  datatype GraphNode = GraphNode(
    id: string,
    labelText: string,  // Go: Label (the ticket summary)
    status: string,
    classification: string,
    storyPoints: real,
    assignee: string,
    assigneeId: string)

  /** An edge; status, classification, story points and assignee describe
      the linked ticket, except on "epic link" edges. */
  datatype GraphEdge = GraphEdge(
    from: string,
    to: string,
    edgeType: string,
    status: string,
    classification: string,
    storyPoints: real,
    assignee: string,
    assigneeId: string)

  datatype Graph = Graph(nodes: map<string, GraphNode>, edges: seq<GraphEdge>)

  // ---------------------------------------------------------------------
  // Story points

  /** The custom fields probed for story points, in order. */
  const StoryPointFields: seq<string> :=
    ["customfield_10016", "customfield_10002", "customfield_10004", "customfield_10008"]

  /** The value of the first field among `ids` whose numeric value is
      positive, or 0 when there is none. */
  function PointsFrom(f: Fields, ids: seq<string>): real
  {
    if ids == [] then 0.0
    else
      var points := GetCustomFieldAsFloat(f, ids[0]);
      if points > 0.0 then points else PointsFrom(f, ids[1..])
  }

  /** getStoryPoints: the probe over the four story-point fields. */
  function StoryPoints(t: Ticket): real
  {
    PointsFrom(t.fields, StoryPointFields)
  }

  /**
   * The probe returns the value of the first field that holds a number
   * greater than zero (a zero or negative value in an earlier field is
   * passed over), returns 0 exactly when no field does, and is never
   * negative.
   */
  lemma {:induction false} PointsFromFirstPositive(f: Fields, ids: seq<string>)
    ensures PointsFrom(f, ids) >= 0.0
    ensures PointsFrom(f, ids) == 0.0 <==> forall j :: 0 <= j < |ids| ==> GetCustomFieldAsFloat(f, ids[j]) <= 0.0
    ensures forall i :: 0 <= i < |ids| && GetCustomFieldAsFloat(f, ids[i]) > 0.0
                        && (forall j :: 0 <= j < i ==> GetCustomFieldAsFloat(f, ids[j]) <= 0.0)
                        ==> PointsFrom(f, ids) == GetCustomFieldAsFloat(f, ids[i])
  {
    if ids != [] {
      PointsFromFirstPositive(f, ids[1..]);
      assert forall j :: 1 <= j < |ids| ==> ids[j] == ids[1..][j - 1];
    }
  }

  /** getStoryPoints, stated over the four probed fields in their order. */
  lemma StoryPointsFirstPositive(t: Ticket)
    ensures StoryPoints(t) >= 0.0
    ensures StoryPoints(t) == 0.0 <==>
              forall j :: 0 <= j < |StoryPointFields| ==> GetCustomFieldAsFloat(t.fields, StoryPointFields[j]) <= 0.0
    ensures forall i :: 0 <= i < |StoryPointFields| && GetCustomFieldAsFloat(t.fields, StoryPointFields[i]) > 0.0
                        && (forall j :: 0 <= j < i ==> GetCustomFieldAsFloat(t.fields, StoryPointFields[j]) <= 0.0)
                        ==> StoryPoints(t) == GetCustomFieldAsFloat(t.fields, StoryPointFields[i])
  {
    PointsFromFirstPositive(t.fields, StoryPointFields);
  }

  // ---------------------------------------------------------------------
  // Specification of the graph

  /** The assignee id shown for a ticket: empty unless a display name is set. */
  function AssigneeIdOf(t: Ticket): string
  {
    if t.fields.assignee.displayName != "" then t.fields.assignee.accountId else ""
  }

  /** The assignee name and id BuildGraph copies from a user: both empty
      unless the display name is set. */
  method ShownAssignee(u: User) returns (name: string, id: string)
    ensures name == u.displayName
    ensures id == if u.displayName != "" then u.accountId else ""
    ensures name == "" ==> id == ""
  {
    name, id := "", "";
    if u.displayName != "" {
      name := u.displayName;
      id := u.accountId;
    }
  }

  function NodeOf(t: Ticket): GraphNode
  {
    GraphNode(t.key, t.fields.summary, t.fields.status.name, t.fields.statusCategory.key,
              StoryPoints(t), t.fields.assignee.displayName, AssigneeIdOf(t))
  }

  /** The placeholder node for an epic that is not among the tickets. */
  function EpicNode(epicKey: string): GraphNode
  {
    GraphNode(epicKey, "Epic", "Epic", "epic", 0.0, "", "")
  }

  /** Nodes keyed by ticket key; a later ticket overwrites an earlier one. */
  function NodeMap(ts: seq<Ticket>): map<string, GraphNode>
  {
    if ts == [] then map[]
    else NodeMap(ts[..|ts| - 1])[ts[|ts| - 1].key := NodeOf(ts[|ts| - 1])]
  }

  function Nodes(ts: seq<Ticket>, epicKey: string): map<string, GraphNode>
  {
    var m := NodeMap(ts);
    if epicKey in m then m else m[epicKey := EpicNode(epicKey)]
  }

  function EpicEdge(epicKey: string, t: Ticket): GraphEdge
  {
    GraphEdge(epicKey, t.key, "epic link", "Epic", "epic",
              StoryPoints(t), t.fields.assignee.displayName, AssigneeIdOf(t))
  }

  /** The edge for an outward link: from the owner to the linked ticket. */
  function OutwardEdge(owner: string, l: IssueLink): GraphEdge
  {
    var o := l.outwardIssue;
    GraphEdge(owner, o.key, l.linkType.name, o.fields.status.name, o.fields.statusCategory.key,
              StoryPoints(o), o.fields.assignee.displayName, AssigneeIdOf(o))
  }

  /** The edge for an inward link: from the linked ticket to the owner. */
  function InwardEdge(owner: string, l: IssueLink): GraphEdge
  {
    var i := l.inwardIssue;
    GraphEdge(i.key, owner, l.linkType.name, i.fields.status.name, i.fields.statusCategory.key,
              StoryPoints(i), i.fields.assignee.displayName, AssigneeIdOf(i))
  }

  /** The edges of one link: outward first, then inward, each only when
      that side has a key. */
  function LinkEdgesOf(owner: string, l: IssueLink): seq<GraphEdge>
  {
    (if l.outwardIssue.key != "" then [OutwardEdge(owner, l)] else [])
    + (if l.inwardIssue.key != "" then [InwardEdge(owner, l)] else [])
  }

  function LinkEdges(owner: string, links: seq<IssueLink>): seq<GraphEdge>
  {
    FlatMap(links, LinkEdgesFor(owner))
  }

  function LinkEdgesFor(owner: string): IssueLink -> seq<GraphEdge>
  {
    l => LinkEdgesOf(owner, l)
  }

  /** The edges contributed by one ticket: its epic link (unless it is the
      epic itself), then its issue links in order. */
  function TicketEdges(t: Ticket, epicKey: string): seq<GraphEdge>
  {
    (if t.key != epicKey then [EpicEdge(epicKey, t)] else [])
    + LinkEdges(t.key, t.fields.issueLinks)
  }

  function Edges(ts: seq<Ticket>, epicKey: string): seq<GraphEdge>
  {
    FlatMap(ts, TicketEdgesFor(epicKey))
  }

  function TicketEdgesFor(epicKey: string): Ticket -> seq<GraphEdge>
  {
    t => TicketEdges(t, epicKey)
  }

  /** The concatenation of `f` over `xs`, in order. */
  function FlatMap<T, U>(xs: seq<T>, f: T -> seq<U>): seq<U>
  {
    if xs == [] then [] else FlatMap(xs[..|xs| - 1], f) + f(xs[|xs| - 1])
  }

  lemma {:induction false} FlatMapAppend<T, U>(a: seq<T>, b: seq<T>, f: T -> seq<U>)
    ensures FlatMap(a + b, f) == FlatMap(a, f) + FlatMap(b, f)
    decreases |b|
  {
    if b == [] {
      assert a + b == a;
    } else {
      var b' := b[..|b| - 1];
      assert (a + b)[..|a + b| - 1] == a + b';
      FlatMapAppend(a, b', f);
    }
  }

  // One-step unfoldings used by the loops of BuildGraph.

  lemma NodeMapPrefix(ts: seq<Ticket>, i: nat)
    requires i < |ts|
    ensures NodeMap(ts[..i + 1]) == NodeMap(ts[..i])[ts[i].key := NodeOf(ts[i])]
  {
    assert ts[..i + 1][..i] == ts[..i];
  }

  lemma EdgesPrefix(ts: seq<Ticket>, epicKey: string, i: nat)
    requires i < |ts|
    ensures Edges(ts[..i + 1], epicKey) == Edges(ts[..i], epicKey) + TicketEdges(ts[i], epicKey)
  {
    assert ts[..i + 1][..i] == ts[..i];
  }

  lemma LinkEdgesPrefix(owner: string, links: seq<IssueLink>, j: nat)
    requires j < |links|
    ensures LinkEdges(owner, links[..j + 1]) == LinkEdges(owner, links[..j]) + LinkEdgesOf(owner, links[j])
  {
    assert links[..j + 1][..j] == links[..j];
  }

  // ---------------------------------------------------------------------
  // BuildGraph

  /** BuildGraph, as the Go code runs it: one pass for nodes, the epic
      placeholder, then one pass appending each ticket's edges. */
  method BuildGraph(issues: seq<Ticket>, epicKey: string) returns (g: Graph)
    ensures g.nodes == Nodes(issues, epicKey)
    ensures g.edges == Edges(issues, epicKey)
  {
    var nodeMap: map<string, GraphNode> := map[];
    for i := 0 to |issues|
      invariant nodeMap == NodeMap(issues[..i])
    {
      var issue := issues[i];
      var storyPoints := StoryPoints(issue);
      var assigneeName, assigneeId := ShownAssignee(issue.fields.assignee);
      var node := GraphNode(issue.key, issue.fields.summary, issue.fields.status.name,
                            issue.fields.statusCategory.key, storyPoints, assigneeName, assigneeId);
      assert node == NodeOf(issue);
      nodeMap := nodeMap[issue.key := node];
      NodeMapPrefix(issues, i);
    }
    assert nodeMap == NodeMap(issues) by { SliceWhole(issues); }

    if epicKey !in nodeMap {
      nodeMap := nodeMap[epicKey := GraphNode(epicKey, "Epic", "Epic", "epic", 0.0, "", "")];
    }

    var edges: seq<GraphEdge> := [];
    for i := 0 to |issues|
      invariant edges == Edges(issues[..i], epicKey)
    {
      edges := AppendTicketEdges(edges, issues[i], epicKey);
      EdgesPrefix(issues, epicKey, i);
    }
    assert edges == Edges(issues, epicKey) by { SliceWhole(issues); }
    g := Graph(nodeMap, edges);
  }

  /** The body of BuildGraph's edge loop for one ticket: its epic edge
      unless it is the epic itself, then its link edges. */
  method AppendTicketEdges(edges: seq<GraphEdge>, issue: Ticket, epicKey: string) returns (out: seq<GraphEdge>)
    ensures out == edges + TicketEdges(issue, epicKey)
  {
    out := edges;
    if issue.key != epicKey {
      var storyPoints := StoryPoints(issue);
      var assigneeName, assigneeId := ShownAssignee(issue.fields.assignee);
      var e := GraphEdge(epicKey, issue.key, "epic link", "Epic", "epic",
                         storyPoints, assigneeName, assigneeId);
      assert e == EpicEdge(epicKey, issue);
      out := out + [e];
    }
    out := AppendLinkEdges(out, issue.key, issue.fields.issueLinks);
  }

  /** The loop of BuildGraph over one ticket's issue links: for each link,
      the outward edge, then the inward edge, each when that side has a key. */
  method AppendLinkEdges(edges: seq<GraphEdge>, owner: string, links: seq<IssueLink>) returns (out: seq<GraphEdge>)
    ensures out == edges + LinkEdges(owner, links)
  {
    out := edges;
    for j := 0 to |links|
      invariant out == edges + LinkEdges(owner, links[..j])
    {
      var link := links[j];
      ghost var before := out;
      if link.outwardIssue.key != "" {
        var o := link.outwardIssue;
        var oName, oId := ShownAssignee(o.fields.assignee);
        var e := GraphEdge(owner, o.key, link.linkType.name, o.fields.status.name,
                           o.fields.statusCategory.key, StoryPoints(o), oName, oId);
        assert e == OutwardEdge(owner, link);
        out := out + [e];
      }
      ghost var middle := out;
      if link.inwardIssue.key != "" {
        var n := link.inwardIssue;
        var nName, nId := ShownAssignee(n.fields.assignee);
        var e := GraphEdge(n.key, owner, link.linkType.name, n.fields.status.name,
                           n.fields.statusCategory.key, StoryPoints(n), nName, nId);
        assert e == InwardEdge(owner, link);
        out := out + [e];
      }
      assert out == before + LinkEdgesOf(owner, link);
      LinkEdgesPrefix(owner, links, j);
    }
    assert links[..|links|] == links;
  }

  // ---------------------------------------------------------------------
  // Properties of the graph

  /** The keys of the tickets, as a set. */
  function TicketKeys(ts: seq<Ticket>): set<string>
  {
    set i | 0 <= i < |ts| :: ts[i].key
  }

  lemma {:induction false} NodeMapKeys(ts: seq<Ticket>)
    ensures NodeMap(ts).Keys == TicketKeys(ts)
  {
    if ts != [] {
      var init := ts[..|ts| - 1];
      NodeMapKeys(init);
      assert TicketKeys(ts) == TicketKeys(init) + {ts[|ts| - 1].key} by {
        forall k | k in TicketKeys(ts) ensures k in TicketKeys(init) + {ts[|ts| - 1].key} {
          var i :| 0 <= i < |ts| && ts[i].key == k;
          if i < |ts| - 1 { assert init[i] == ts[i]; }
        }
        forall k | k in TicketKeys(init) ensures k in TicketKeys(ts) {
          var i :| 0 <= i < |init| && init[i].key == k;
          assert ts[i] == init[i];
        }
      }
    }
  }

  /** The node keys are exactly the ticket keys plus the epic key. */
  lemma NodeKeys(ts: seq<Ticket>, epicKey: string)
    ensures Nodes(ts, epicKey).Keys == TicketKeys(ts) + {epicKey}
  {
    NodeMapKeys(ts);
  }

  /** For a key that several tickets share, the node is that of the last of them. */
  lemma {:induction false} NodeLastWriteWins(ts: seq<Ticket>, i: nat)
    requires i < |ts|
    requires forall j :: i < j < |ts| ==> ts[j].key != ts[i].key
    ensures ts[i].key in NodeMap(ts) && NodeMap(ts)[ts[i].key] == NodeOf(ts[i])
  {
    if i < |ts| - 1 {
      var init := ts[..|ts| - 1];
      NodeLastWriteWins(init, i);
    }
  }

  /** The epic's node: the placeholder when the epic is not a ticket,
      otherwise the node of the last ticket with the epic's key. */
  lemma EpicNodeKept(ts: seq<Ticket>, epicKey: string)
    ensures epicKey !in TicketKeys(ts) ==>
              Nodes(ts, epicKey)[epicKey] == GraphNode(epicKey, "Epic", "Epic", "epic", 0.0, "", "")
    ensures forall i :: 0 <= i < |ts| && ts[i].key == epicKey
                        && (forall j :: i < j < |ts| ==> ts[j].key != epicKey)
                        ==> Nodes(ts, epicKey)[epicKey] == NodeOf(ts[i])
  {
    NodeMapKeys(ts);
    forall i | 0 <= i < |ts| && ts[i].key == epicKey && (forall j :: i < j < |ts| ==> ts[j].key != epicKey)
      ensures Nodes(ts, epicKey)[epicKey] == NodeOf(ts[i])
    {
      NodeLastWriteWins(ts, i);
    }
  }

  /** Every node shows an empty assignee id when its assignee name is empty. */
  lemma {:induction false} NodeMapAssigneeConsistent(ts: seq<Ticket>)
    ensures forall k :: k in NodeMap(ts) ==> NodeMap(ts)[k].assignee == "" ==> NodeMap(ts)[k].assigneeId == ""
  {
    if ts != [] {
      NodeMapAssigneeConsistent(ts[..|ts| - 1]);
    }
  }

  /**
   * The edge order: the edges of ticket i (its epic link unless it is the
   * epic, then its link edges) come after those of every earlier ticket and
   * before those of every later one.
   */
  lemma EdgeOrder(ts: seq<Ticket>, epicKey: string, i: nat)
    requires i < |ts|
    ensures Edges(ts, epicKey)
            == Edges(ts[..i], epicKey) + TicketEdges(ts[i], epicKey) + Edges(ts[i + 1..], epicKey)
  {
    var f := TicketEdgesFor(epicKey);
    assert ts == ts[..i] + [ts[i]] + ts[i + 1..];
    FlatMapAppend(ts[..i] + [ts[i]], ts[i + 1..], f);
    FlatMapAppend(ts[..i], [ts[i]], f);
    assert [ts[i]][..0] == [];
    assert FlatMap([ts[i]], f) == f(ts[i]);
  }

  /** Within a ticket, link j contributes its outward then its inward edge,
      after the edges of the links before it and before those after it. */
  lemma LinkEdgeOrder(owner: string, links: seq<IssueLink>, j: nat)
    requires j < |links|
    ensures LinkEdges(owner, links)
            == LinkEdges(owner, links[..j]) + LinkEdgesOf(owner, links[j]) + LinkEdges(owner, links[j + 1..])
  {
    var f := LinkEdgesFor(owner);
    assert links == links[..j] + [links[j]] + links[j + 1..];
    FlatMapAppend(links[..j] + [links[j]], links[j + 1..], f);
    FlatMapAppend(links[..j], [links[j]], f);
    assert [links[j]][..0] == [];
    assert FlatMap([links[j]], f) == f(links[j]);
  }

  /** The epic-link edge of a non-epic ticket sits at the head of that
      ticket's edges, carries the fixed "epic link"/"Epic"/"epic" labels and
      the ticket's own points and assignee, and joins two node keys. */
  lemma EpicEdgeAt(ts: seq<Ticket>, epicKey: string, i: nat)
    requires i < |ts| && ts[i].key != epicKey
    ensures var off := |Edges(ts[..i], epicKey)|;
            off < |Edges(ts, epicKey)|
            && Edges(ts, epicKey)[off]
               == GraphEdge(epicKey, ts[i].key, "epic link", "Epic", "epic",
                            StoryPoints(ts[i]), ts[i].fields.assignee.displayName, AssigneeIdOf(ts[i]))
    ensures epicKey in Nodes(ts, epicKey) && ts[i].key in Nodes(ts, epicKey)
  {
    EdgeOrder(ts, epicKey, i);
    NodeKeys(ts, epicKey);
  }

  // Counting edges

  function OutwardLinkCount(links: seq<IssueLink>): nat
  {
    if links == [] then 0
    else OutwardLinkCount(links[..|links| - 1]) + (if links[|links| - 1].outwardIssue.key != "" then 1 else 0)
  }

  function InwardLinkCount(links: seq<IssueLink>): nat
  {
    if links == [] then 0
    else InwardLinkCount(links[..|links| - 1]) + (if links[|links| - 1].inwardIssue.key != "" then 1 else 0)
  }

  /** The number of tickets whose key differs from the epic key. */
  function NonEpicCount(ts: seq<Ticket>, epicKey: string): nat
  {
    if ts == [] then 0
    else NonEpicCount(ts[..|ts| - 1], epicKey) + (if ts[|ts| - 1].key != epicKey then 1 else 0)
  }

  function LinkCount(ts: seq<Ticket>): nat
  {
    if ts == [] then 0
    else LinkCount(ts[..|ts| - 1])
         + OutwardLinkCount(ts[|ts| - 1].fields.issueLinks) + InwardLinkCount(ts[|ts| - 1].fields.issueLinks)
  }

  lemma {:induction false} LinkEdgeCount(owner: string, links: seq<IssueLink>)
    ensures |LinkEdges(owner, links)| == OutwardLinkCount(links) + InwardLinkCount(links)
  {
    if links != [] {
      LinkEdgeCount(owner, links[..|links| - 1]);
    }
  }

  /** One epic link per non-epic ticket, one edge per outward link with a
      key and one per inward link with a key. */
  lemma {:induction false} EdgeCount(ts: seq<Ticket>, epicKey: string)
    ensures |Edges(ts, epicKey)| == NonEpicCount(ts, epicKey) + LinkCount(ts)
  {
    if ts != [] {
      EdgeCount(ts[..|ts| - 1], epicKey);
      LinkEdgeCount(ts[|ts| - 1].key, ts[|ts| - 1].fields.issueLinks);
    }
  }

  /** Every link edge joins the owner to a linked ticket with a non-empty
      key: from the owner when outward, to the owner when inward. */
  lemma {:induction false} LinkEdgesTouchOwner(owner: string, links: seq<IssueLink>)
    ensures forall e :: e in LinkEdges(owner, links) ==>
              (e.from == owner && e.to != "") || (e.to == owner && e.from != "")
  {
    if links != [] {
      LinkEdgesTouchOwner(owner, links[..|links| - 1]);
    }
  }

  /** On every edge an empty assignee name comes with an empty assignee id. */
  lemma {:induction false} EdgesAssigneeConsistent(ts: seq<Ticket>, epicKey: string)
    ensures forall e :: e in Edges(ts, epicKey) ==> e.assignee == "" ==> e.assigneeId == ""
  {
    if ts != [] {
      EdgesAssigneeConsistent(ts[..|ts| - 1], epicKey);
      var t := ts[|ts| - 1];
      LinkEdgesAssigneeConsistent(t.key, t.fields.issueLinks);
    }
  }

  lemma {:induction false} LinkEdgesAssigneeConsistent(owner: string, links: seq<IssueLink>)
    ensures forall e :: e in LinkEdges(owner, links) ==> e.assignee == "" ==> e.assigneeId == ""
  {
    if links != [] {
      LinkEdgesAssigneeConsistent(owner, links[..|links| - 1]);
    }
  }

  /** The assignee rule holds on the whole graph. */
  lemma GraphAssigneeConsistent(ts: seq<Ticket>, epicKey: string)
    ensures forall k :: k in Nodes(ts, epicKey) ==>
              Nodes(ts, epicKey)[k].assignee == "" ==> Nodes(ts, epicKey)[k].assigneeId == ""
    ensures forall e :: e in Edges(ts, epicKey) ==> e.assignee == "" ==> e.assigneeId == ""
  {
    NodeMapAssigneeConsistent(ts);
    EdgesAssigneeConsistent(ts, epicKey);
  }

  /** Where link j of ticket i puts its edges: after the edges of the
      earlier tickets, the ticket's own epic link and its earlier links. */
  function LinkEdgeOffset(ts: seq<Ticket>, epicKey: string, i: nat, j: nat): nat
    requires i < |ts| && j <= |ts[i].fields.issueLinks|
  {
    |Edges(ts[..i], epicKey)| + (if ts[i].key != epicKey then 1 else 0)
    + |LinkEdges(ts[i].key, ts[i].fields.issueLinks[..j])|
  }

  lemma Regroup<T>(a: seq<T>, b: seq<T>, p: seq<T>, x: seq<T>, q: seq<T>, c: seq<T>)
    ensures a + (b + (p + x + q)) + c == (a + b + p) + x + (q + c)
  {
  }

  lemma SliceMiddle<T>(a: seq<T>, x: seq<T>, c: seq<T>)
    ensures (a + x + c)[|a|..|a| + |x|] == x
  {
  }

  /** The edges of link j of ticket i sit at LinkEdgeOffset in the edge list. */
  lemma LinkEdgesAt(ts: seq<Ticket>, epicKey: string, i: nat, j: nat)
    requires i < |ts| && j < |ts[i].fields.issueLinks|
    ensures var off := LinkEdgeOffset(ts, epicKey, i, j);
            var here := LinkEdgesOf(ts[i].key, ts[i].fields.issueLinks[j]);
            off + |here| <= |Edges(ts, epicKey)| && Edges(ts, epicKey)[off..off + |here|] == here
  {
    var t := ts[i];
    var links := t.fields.issueLinks;
    EdgeOrder(ts, epicKey, i);
    LinkEdgeOrder(t.key, links, j);
    var before, after := Edges(ts[..i], epicKey), Edges(ts[i + 1..], epicKey);
    var epic: seq<GraphEdge> := if t.key != epicKey then [EpicEdge(epicKey, t)] else [];
    var p, here, q := LinkEdges(t.key, links[..j]), LinkEdgesOf(t.key, links[j]), LinkEdges(t.key, links[j + 1..]);
    assert TicketEdges(t, epicKey) == epic + (p + here + q);
    Regroup(before, epic, p, here, q, after);
    SliceMiddle(before + epic + p, here, q + after);
  }

  /** An outward link with a key gives the edge at LinkEdgeOffset. */
  lemma OutwardEdgeAt(ts: seq<Ticket>, epicKey: string, i: nat, j: nat)
    requires i < |ts| && j < |ts[i].fields.issueLinks|
    requires ts[i].fields.issueLinks[j].outwardIssue.key != ""
    ensures var off := LinkEdgeOffset(ts, epicKey, i, j);
            off < |Edges(ts, epicKey)|
            && Edges(ts, epicKey)[off] == OutwardEdge(ts[i].key, ts[i].fields.issueLinks[j])
  {
    var link := ts[i].fields.issueLinks[j];
    var off := LinkEdgeOffset(ts, epicKey, i, j);
    var here := LinkEdgesOf(ts[i].key, link);
    assert here[0] == OutwardEdge(ts[i].key, link);
    LinkEdgesAt(ts, epicKey, i, j);
    var e := Edges(ts, epicKey);
    assert e[off] == e[off..off + |here|][0];
  }

  /** An inward link with a key gives the edge right after the link's
      outward edge, or at LinkEdgeOffset when there is none. */
  lemma InwardEdgeAt(ts: seq<Ticket>, epicKey: string, i: nat, j: nat)
    requires i < |ts| && j < |ts[i].fields.issueLinks|
    requires ts[i].fields.issueLinks[j].inwardIssue.key != ""
    ensures var link := ts[i].fields.issueLinks[j];
            var off := LinkEdgeOffset(ts, epicKey, i, j) + (if link.outwardIssue.key != "" then 1 else 0);
            off < |Edges(ts, epicKey)| && Edges(ts, epicKey)[off] == InwardEdge(ts[i].key, link)
  {
    var link := ts[i].fields.issueLinks[j];
    var base := LinkEdgeOffset(ts, epicKey, i, j);
    var shift := if link.outwardIssue.key != "" then 1 else 0;
    LinkEdgesAt(ts, epicKey, i, j);
    var here := LinkEdgesOf(ts[i].key, link);
    if link.outwardIssue.key != "" {
      assert here == [OutwardEdge(ts[i].key, link), InwardEdge(ts[i].key, link)];
    } else {
      assert here == [InwardEdge(ts[i].key, link)];
    }
    var e := Edges(ts, epicKey);
    assert e[base + shift] == e[base..base + |here|][shift];
  }

  /**
   * Link edges need not stay inside the graph: an outward link from ticket
   * i to a key that is neither a fetched ticket nor the epic gives an edge
   * from ticket i to that key, and the key is not a node.
   */
  lemma OutwardEdgeLeavesGraph(ts: seq<Ticket>, epicKey: string, i: nat, j: nat)
    requires i < |ts| && j < |ts[i].fields.issueLinks|
    requires var k := ts[i].fields.issueLinks[j].outwardIssue.key;
             k != "" && k !in TicketKeys(ts) && k != epicKey
    ensures var off := LinkEdgeOffset(ts, epicKey, i, j);
            var k := ts[i].fields.issueLinks[j].outwardIssue.key;
            off < |Edges(ts, epicKey)|
            && Edges(ts, epicKey)[off].from == ts[i].key && Edges(ts, epicKey)[off].to == k
            && k !in Nodes(ts, epicKey)
  {
    OutwardEdgeAt(ts, epicKey, i, j);
    NotANode(ts, epicKey, ts[i].fields.issueLinks[j].outwardIssue.key);
  }

  /** The same for an inward link: an edge from the unfetched key, which is
      not a node, to ticket i. */
  lemma InwardEdgeLeavesGraph(ts: seq<Ticket>, epicKey: string, i: nat, j: nat)
    requires i < |ts| && j < |ts[i].fields.issueLinks|
    requires var k := ts[i].fields.issueLinks[j].inwardIssue.key;
             k != "" && k !in TicketKeys(ts) && k != epicKey
    ensures var link := ts[i].fields.issueLinks[j];
            var off := LinkEdgeOffset(ts, epicKey, i, j) + (if link.outwardIssue.key != "" then 1 else 0);
            off < |Edges(ts, epicKey)|
            && Edges(ts, epicKey)[off].from == link.inwardIssue.key && Edges(ts, epicKey)[off].to == ts[i].key
            && link.inwardIssue.key !in Nodes(ts, epicKey)
  {
    InwardEdgeAt(ts, epicKey, i, j);
    NotANode(ts, epicKey, ts[i].fields.issueLinks[j].inwardIssue.key);
  }

  /** A key that is neither a fetched ticket nor the epic has no node. */
  lemma NotANode(ts: seq<Ticket>, epicKey: string, k: string)
    requires k !in TicketKeys(ts) && k != epicKey
    ensures k !in Nodes(ts, epicKey)
  {
    NodeKeys(ts, epicKey);
  }
}
