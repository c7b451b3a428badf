/** The neural playground editor: nodes the user places on a canvas,
    connections drawn between them, the current selection, and the activity
    animation that runs while playing. Canvas coordinates, `Date.now()` ids and
    `Math.random()` draws are inputs. */
module NeuralPlayground {
  import opened Options
  import opened Randomness
  import Hex
  import opened Reals

  datatype NodeKind = Input | Hidden | Output

  /** The kinds in the order a new node's draw indexes them. */
  const Kinds: seq<NodeKind> := [Input, Hidden, Output]

  /** A placed node; `id` is the click's `Date.now()`. */
  datatype Node = Node(id: int, x: real, y: real, kind: NodeKind, activity: real, size: real)

  /** A connection between two nodes, named by their ids. */
  datatype Link = Link(id: int, from: int, to: int, strength: real)

  /** The node lies within distance 20 of the click: `sqrt(d) < 20`, compared as `d < 400`. */
  predicate Near(n: Node, x: real, y: real)
    ensures Near(n, x, y) ==> -20.0 < n.x - x < 20.0 && -20.0 < n.y - y < 20.0
    ensures -14.0 <= n.x - x <= 14.0 && -14.0 <= n.y - y <= 14.0 ==> Near(n, x, y)
  {
    Square(n.x - x);
    Square(n.y - y);
    (n.x - x) * (n.x - x) + (n.y - y) * (n.y - y) < 400.0
  }

  /** Bounds on `d * d` by the size of `d`. */
  lemma Square(d: real)
    ensures 0.0 <= d * d
    ensures (d <= -20.0 || 20.0 <= d) ==> 400.0 <= d * d
    ensures -14.0 <= d <= 14.0 ==> d * d <= 196.0
  {
    if d < 0.0 {
      assert d * d == (-d) * (-d);
    }
    assert d * d - 400.0 == (d - 20.0) * (d + 20.0);
    assert 196.0 - d * d == (14.0 - d) * (14.0 + d);
    if -14.0 <= d <= 14.0 {
      NonNegative(14.0 - d, 14.0 + d);
    }
  }

  /** `nodes.find(near)`, as the index of the node it finds. */
  function FirstNear(nodes: seq<Node>, x: real, y: real): (r: Option<nat>)
    ensures r.Some? ==> r.value < |nodes| && Near(nodes[r.value], x, y)
    ensures r.Some? ==> forall i :: 0 <= i < r.value ==> !Near(nodes[i], x, y)
    ensures r.None? <==> forall i :: 0 <= i < |nodes| ==> !Near(nodes[i], x, y)
  {
    if nodes == [] then None
    else if Near(nodes[0], x, y) then Some(0)
    else
      match FirstNear(nodes[1..], x, y)
      case None => None
      case Some(i) => Some(i + 1)
  }

  /** The node a click on empty canvas creates, drawing its kind, its activity
      and its size, in that order. */
  function NewNode(id: int, x: real, y: real, rng: Rng): (n: Node)
    ensures n.id == id && n.x == x && n.y == y && n.kind in Kinds
    ensures 0.0 <= n.activity < 1.0 && 10.0 <= n.size < 20.0
  {
    Node(id, x, y, Kinds[Pick(rng.Peek(), 3)], rng.Skip(1).Peek(), Spread(10.0, 10.0, rng.Skip(2).Peek()))
  }

  /** The connection a click draws from the selected node to the clicked one. */
  function NewLink(id: int, from: int, to: int, rng: Rng): (l: Link)
    ensures l.id == id && l.from == from && l.to == to
    ensures 0.2 <= l.strength < 1.0
  {
    Link(id, from, to, Spread(0.2, 0.8, rng.Peek()))
  }

  /** A click on `clicked` joins it to the selection: a node is selected and it
      is a different node. */
  predicate Joins(selected: Option<Node>, clicked: Node) {
    selected.Some? && selected.value.id != clicked.id
  }

  /** `handleNodeDrag`'s update: every node with id `id` moves to (x, y). */
  function Dragged(nodes: seq<Node>, id: int, x: real, y: real): (r: seq<Node>)
    ensures |r| == |nodes|
    ensures forall i :: 0 <= i < |nodes| && nodes[i].id != id ==> r[i] == nodes[i]
    ensures forall i :: 0 <= i < |nodes| && nodes[i].id == id ==> r[i] == nodes[i].(x := x, y := y)
  {
    if nodes == [] then []
    else
      var last := nodes[|nodes| - 1];
      Dragged(nodes[..|nodes| - 1], id, x, y) + [if last.id == id then last.(x := x, y := y) else last]
  }

  /** Dragging the same node twice leaves it where the second drag put it. */
  lemma DragLastWins(nodes: seq<Node>, id: int, x1: real, y1: real, x2: real, y2: real)
    ensures Dragged(Dragged(nodes, id, x1, y1), id, x2, y2) == Dragged(nodes, id, x2, y2)
  {
    var once, twice := Dragged(nodes, id, x1, y1), Dragged(Dragged(nodes, id, x1, y1), id, x2, y2);
    assert forall i :: 0 <= i < |nodes| ==> once[i].id == nodes[i].id;
  }

  /** `Math.max(0, a - 0.02 + r * 0.1)`. */
  function Stirred(a: real, r: Draw): (v: real)
    ensures v >= 0.0 && v >= a - 0.02
    ensures a >= 0.0 ==> v < a + 0.08
  {
    var v := a - 0.02 + r * 0.1;
    if v > 0.0 then v else 0.0
  }

  /** One frame of the play animation: every node's activity drifts by
      `r * 0.1 - 0.02` with its own draw, in list order, and is clamped at 0. */
  function Energized(nodes: seq<Node>, draws: nat -> Draw, start: nat): (r: seq<Node>)
    ensures |r| == |nodes|
    ensures forall i :: 0 <= i < |nodes| ==> r[i] == nodes[i].(activity := r[i].activity)
    ensures forall i :: 0 <= i < |nodes| ==> r[i].activity >= 0.0 && r[i].activity >= nodes[i].activity - 0.02
    ensures forall i :: 0 <= i < |nodes| && nodes[i].activity >= 0.0 ==> r[i].activity < nodes[i].activity + 0.08
  {
    if nodes == [] then []
    else
      var last := nodes[|nodes| - 1];
      Energized(nodes[..|nodes| - 1], draws, start) + [last.(activity := Stirred(last.activity, draws(start + |nodes| - 1)))]
  }

  /** Each node's activity is the clamped drift of its own draw. */
  lemma {:induction false} EnergizedDraws(nodes: seq<Node>, draws: nat -> Draw, start: nat, i: nat)
    requires i < |nodes|
    ensures Energized(nodes, draws, start)[i].activity == Stirred(nodes[i].activity, draws(start + i))
  {
    if i < |nodes| - 1 {
      EnergizedDraws(nodes[..|nodes| - 1], draws, start, i);
    }
  }

  /** The CSS colour of each kind. */
  function KindColor(kind: NodeKind): (c: string)
    ensures |c| == 7 && c[0] == '#'
    ensures forall i :: 1 <= i < 7 ==> c[i] in "0123456789ABCDEF"
  {
    match kind
    case Input => "#00FFFF"
    case Hidden => "#6A0DAD"
    case Output => "#FF1493"
  }

  /** `Math.floor((0.3 + activity * 0.7) * 255)`. */
  function Alpha(activity: real): (a: int)
    ensures activity >= 0.0 ==> a >= 76
    ensures activity <= 1.0 ==> a <= 255
  {
    ((0.3 + activity * 0.7) * 255.0).Floor
  }

  /** `getNodeColor`: the kind's colour followed by the alpha in hexadecimal,
      padded to at least two digits. Activities are never negative. */
  function NodeColor(kind: NodeKind, activity: real): (c: string)
    requires activity >= 0.0
    ensures |c| >= 9 && c[..7] == KindColor(kind)
  {
    KindColor(kind) + Hex.PadStart(Hex.ToHex(Alpha(activity)), 2, '0')
  }

  /** Numbers from 16 to 255 are written with exactly two hexadecimal digits. */
  lemma TwoDigits(n: nat)
    requires 16 <= n < 256
    ensures |Hex.ToHex(n)| == 2
  {
    assert Hex.Pow16(2) == 256;
    Hex.HexLength(n, 2);
  }

  /** For an activity in [0, 1] the colour is `#rrggbbaa` whose last two digits
      read back as the alpha, which lies in [76, 255]. */
  lemma NodeColorDigits(kind: NodeKind, activity: real)
    requires 0.0 <= activity <= 1.0
    ensures 76 <= Alpha(activity) <= 255
    ensures |NodeColor(kind, activity)| == 9
    ensures Hex.FromHex(NodeColor(kind, activity)[7..]) == Alpha(activity)
  {
    var a := Alpha(activity);
    TwoDigits(a);
    Hex.HexRoundTrip(a);
    assert NodeColor(kind, activity)[7..] == Hex.ToHex(a);
  }

  /** The outline colour `getNodeColor(type, 1)` is the kind's colour at full opacity. */
  lemma FullOpacity(kind: NodeKind)
    ensures NodeColor(kind, 1.0) == KindColor(kind) + "ff"
  {
    assert (0.3 + 1.0 * 0.7) * 255.0 == 255.0;
    assert Alpha(1.0) == 255;
    assert Hex.ToHex(255) == [Hex.Digits[15]] + [Hex.Digits[15]] == "ff";
  }

  /** The play animation has no upper clamp: a node at activity 0.95 and a draw
      of 0.99 reaches activity 1.029, whose alpha 260 needs three digits, and
      the colour string grows to ten characters. */
  lemma ColorOverflow()
    ensures var n := Energized([Node(0, 0.0, 0.0, Input, 0.95, 10.0)], _ => 0.99, 0)[0];
            n.activity == 1.029 && Alpha(n.activity) == 260 && |NodeColor(Input, n.activity)| == 10
  {
    var n := Energized([Node(0, 0.0, 0.0, Input, 0.95, 10.0)], _ => 0.99, 0)[0];
    EnergizedDraws([Node(0, 0.0, 0.0, Input, 0.95, 10.0)], _ => 0.99, 0, 0);
    assert Alpha(1.029) == 260;
    assert Hex.ToHex(260) == Hex.ToHex(16) + [Hex.Digits[4]];
    assert Hex.ToHex(16) == Hex.ToHex(1) + [Hex.Digits[0]];
  }

  /** `getNodeColor` with the opacity clamped at 1, so the alpha always fits
      two digits. */
  function ClampedNodeColor(kind: NodeKind, activity: real): (c: string)
    requires activity >= 0.0
    ensures activity <= 1.0 ==> c == NodeColor(kind, activity)
  {
    NodeColor(kind, Opacity(activity))
  }

  /** The activity capped at full opacity. */
  function Opacity(activity: real): (r: real)
    requires activity >= 0.0
    ensures 0.0 <= r <= 1.0
    ensures activity <= 1.0 ==> r == activity
  {
    if activity <= 1.0 then activity else 1.0
  }

  /** With the clamp every non-negative activity gives a nine-character
      `#rrggbbaa`, reading back as the alpha of the clamped activity. */
  lemma ClampedNodeColorDigits(kind: NodeKind, activity: real)
    requires activity >= 0.0
    ensures |ClampedNodeColor(kind, activity)| == 9
    ensures 76 <= Hex.FromHex(ClampedNodeColor(kind, activity)[7..]) <= 255
  {
    NodeColorDigits(kind, Opacity(activity));
  }

  /** The editor's state, as `NeuralPlayground` keeps it. */
  class Playground {
    var nodes: seq<Node>
    var connections: seq<Link>
    var selected: Option<Node>
    var isPlaying: bool

    /** Every activity is non-negative and no connection is a self-loop. */
    ghost predicate Valid()
      reads this
    {
      && (forall i :: 0 <= i < |nodes| ==> nodes[i].activity >= 0.0)
      && (forall i :: 0 <= i < |connections| ==> connections[i].from != connections[i].to)
    }

    constructor ()
      ensures nodes == [] && connections == [] && selected == None && !isPlaying
      ensures Valid()
    {
      nodes, connections, selected, isPlaying := [], [], None, false;
    }

    /** `handleCanvasClick` at canvas point (x, y) at time `now`: nothing before
        the canvas is mounted; otherwise a click near a node either joins the
        selection to it or selects it, and a click elsewhere adds a node. */
    method Click(mounted: bool, x: real, y: real, now: int, rng: Rng) returns (rng': Rng)
      requires Valid()
      modifies this`nodes, this`connections, this`selected
      ensures Valid()
      ensures !mounted ==>
        nodes == old(nodes) && connections == old(connections) && selected == old(selected) && rng' == rng
      ensures mounted && FirstNear(old(nodes), x, y).None? ==>
        && nodes == old(nodes) + [NewNode(now, x, y, rng)]
        && connections == old(connections) && selected == None
        && rng' == rng.Skip(3)
      ensures mounted && FirstNear(old(nodes), x, y).Some? ==> nodes == old(nodes)
      ensures mounted && FirstNear(old(nodes), x, y).Some? && Joins(old(selected), old(nodes)[FirstNear(old(nodes), x, y).value]) ==>
        && connections == old(connections) + [NewLink(now, old(selected).value.id, old(nodes)[FirstNear(old(nodes), x, y).value].id, rng)]
        && selected == None
        && rng' == rng.Skip(1)
      ensures mounted && FirstNear(old(nodes), x, y).Some? && !Joins(old(selected), old(nodes)[FirstNear(old(nodes), x, y).value]) ==>
        && connections == old(connections)
        && selected == Some(old(nodes)[FirstNear(old(nodes), x, y).value])
        && rng' == rng
    {
      rng' := rng;
      if !mounted {
        return;
      }
      var hit := FirstNear(nodes, x, y);
      if hit.Some? {
        var clicked := nodes[hit.value];
        if selected.Some? && selected.value.id != clicked.id {
          connections := connections + [NewLink(now, selected.value.id, clicked.id, rng)];
          selected := None;
          rng' := rng.Skip(1);
        } else {
          selected := Some(clicked);
        }
      } else {
        nodes := nodes + [NewNode(now, x, y, rng)];
        selected := None;
        rng' := rng.Skip(3);
      }
    }

    /** `handleNodeDrag`: the node with id `id` moves to (x, y), once the canvas is mounted. */
    method Drag(mounted: bool, id: int, x: real, y: real)
      requires Valid()
      modifies this`nodes
      ensures Valid()
      ensures nodes == if mounted then Dragged(old(nodes), id, x, y) else old(nodes)
    {
      if mounted {
        nodes := Dragged(nodes, id, x, y);
      }
    }

    /** `resetPlayground`: the editor's initial state, whatever state it was in,
        so a second reset changes nothing. */
    method Reset()
      modifies this
      ensures nodes == [] && connections == [] && selected == None && !isPlaying
      ensures Valid()
    {
      nodes, connections, selected, isPlaying := [], [], None, false;
    }

    /** The Play / Pause button. */
    method TogglePlay()
      modifies this`isPlaying
      ensures isPlaying == !old(isPlaying)
    {
      isPlaying := !isPlaying;
    }

    /** One animation frame while playing: each node draws once, in list order. */
    method Animate(rng: Rng) returns (rng': Rng)
      requires Valid() && isPlaying
      modifies this`nodes
      ensures Valid()
      ensures nodes == Energized(old(nodes), rng.source, rng.next)
      ensures rng' == rng.Skip(|old(nodes)|)
    {
      nodes := Energized(nodes, rng.source, rng.next);
      rng' := rng.Skip(|nodes|);
    }
  }
}
