/**
 * The neural-network animation (animations/src/components/NNIntroNeuralNetwork.jsx):
 * a fixed layered layout of neurons and dense connections, a forward pass that lights
 * chosen neurons layer by layer, a backward pass that marks each layer's connections
 * from last to first, and an `animationState` guard that admits one pass at a time.
 *
 * The scripted `setTimeout` calls are modelled as data: a schedule is a list of
 * (delay, action) pairs, fired in list order. Visual emphasis is an abstract
 * attribute per neuron and per connection.
 */
module NeuralNetwork {

  const Width: real := 600.0
  const Height: real := 400.0

  datatype Layer = Layer(name: string, neurons: nat, x: real)

  /** The four layers of the demo network, left to right. */
  function Layers(): (ls: seq<Layer>)
    ensures |ls| == 4
    ensures ls[0].neurons == 4 && ls[1].neurons == 5 && ls[2].neurons == 4 && ls[3].neurons == 1
  {
    [ Layer("Input Layer", 4, 50.0),
      Layer("Hidden Layer 1", 5, 200.0),
      Layer("Hidden Layer 2", 4, 350.0),
      Layer("Output Layer", 1, 500.0) ]
  }

  // ---------------------------------------------------------------------------
  // Layout

  /** The `cy` of neuron `i` in a layer of `n` neurons: `height / (n + 1) * (i + 1)`. */
  function NeuronY(n: nat, i: nat): real {
    Height / (n + 1) as real * (i + 1) as real
  }

  /** Every neuron of a layer lies strictly inside the canvas height. */
  lemma NeuronYInside(n: nat, i: nat)
    requires i < n
    ensures 0.0 < NeuronY(n, i) < Height
  {
    var gap := Height / (n + 1) as real;
    assert gap > 0.0;
    assert gap * (n + 1) as real == Height;
    assert gap * (i + 1) as real < gap * (n + 1) as real;
  }

  /** Neurons of a layer are evenly spaced downwards: y strictly increases with the index. */
  lemma NeuronYIncreasing(n: nat, i: nat, j: nat)
    requires i < j
    ensures NeuronY(n, i) < NeuronY(n, j)
  {
    var gap := Height / (n + 1) as real;
    assert gap > 0.0;
    assert gap * (i + 1) as real < gap * (j + 1) as real;
  }

  function Row(i: nat, b: nat): (r: seq<(nat, nat)>)
    ensures |r| == b && forall j :: 0 <= j < b ==> r[j] == (i, j)
  {
    seq(b, j requires 0 <= j < b => (i, j))
  }

  /** `d3.cross(d3.range(a), d3.range(b))`: every index pair, the first index outermost. */
  function Cross(a: nat, b: nat): (r: seq<(nat, nat)>)
    ensures |r| == a * b
    ensures forall k :: 0 <= k < |r| ==> r[k].0 < a && r[k].1 < b
  {
    if a == 0 then [] else Cross(a - 1, b) + Row(a - 1, b)
  }

  /** Row-major order: the pair `(i, j)` sits at position `i·b + j`. */
  lemma {:induction false} CrossAt(a: nat, b: nat, i: nat, j: nat)
    requires i < a && j < b
    ensures i * b + j < |Cross(a, b)| && Cross(a, b)[i * b + j] == (i, j)
  {
    if i < a - 1 {
      CrossAt(a - 1, b, i, j);
    } else {
      assert i * b + j == (a - 1) * b + j;
    }
  }

  /** One connection line, with the endpoint coordinates it was drawn with. */
  datatype Link = Link(layer: nat, src: nat, dst: nat, x1: real, y1: real, x2: real, y2: real)

  /** The connections from layer `i` to layer `i + 1`, in `d3.cross` order. */
  function LayerLinks(ls: seq<Layer>, i: nat): (r: seq<Link>)
    requires i + 1 < |ls|
    ensures |r| == ls[i].neurons * ls[i + 1].neurons
    ensures forall j :: 0 <= j < |r| ==>
              r[j].layer == i && r[j].src < ls[i].neurons && r[j].dst < ls[i + 1].neurons
              && r[j].x1 == ls[i].x && r[j].y1 == NeuronY(ls[i].neurons, r[j].src)
              && r[j].x2 == ls[i + 1].x && r[j].y2 == NeuronY(ls[i + 1].neurons, r[j].dst)
  {
    var pairs := Cross(ls[i].neurons, ls[i + 1].neurons);
    seq(|pairs|, j requires 0 <= j < |pairs| =>
      Link(i, pairs[j].0, pairs[j].1,
           ls[i].x, NeuronY(ls[i].neurons, pairs[j].0),
           ls[i + 1].x, NeuronY(ls[i + 1].neurons, pairs[j].1)))
  }

  /** Every source/target index pair has its connection, at its row-major position. */
  lemma LinkAt(ls: seq<Layer>, i: nat, s: nat, d: nat)
    requires i + 1 < |ls| && s < ls[i].neurons && d < ls[i + 1].neurons
    ensures s * ls[i + 1].neurons + d < |LayerLinks(ls, i)|
    ensures LayerLinks(ls, i)[s * ls[i + 1].neurons + d].src == s
    ensures LayerLinks(ls, i)[s * ls[i + 1].neurons + d].dst == d
  {
    CrossAt(ls[i].neurons, ls[i + 1].neurons, s, d);
  }

  /** How many layers have outgoing connections: `layers.length - 1`, none for no layers. */
  function LinkLayerCount(n: nat): nat {
    if n == 0 then 0 else n - 1
  }

  /** The drawing loop over `i < layers.length - 1`: one block of connections per layer pair. */
  method DrawConnections(ls: seq<Layer>) returns (links: seq<seq<Link>>)
    ensures |links| == LinkLayerCount(|ls|)
    ensures forall i :: 0 <= i < |links| ==> links[i] == LayerLinks(ls, i)
  {
    links := [];
    var i := 0;
    while i < |ls| - 1
      invariant 0 <= i <= LinkLayerCount(|ls|)
      invariant |links| == i
      invariant forall k :: 0 <= k < i ==> links[k] == LayerLinks(ls, k)
    {
      links := links + [LayerLinks(ls, i)];
      i := i + 1;
    }
  }

  // ---------------------------------------------------------------------------
  // Visual emphasis

  /**
   * Plain: the default look (fill #69b3a2 / stroke #999). Lit: the forward-pass
   * orange. Adjusted: the backward-pass red stroke.
   */
  datatype Emphasis = Plain | Lit | Adjusted

  datatype Point = Point(x: real, y: real)

  /** Emphasis per neuron and per connection (indexed as `LayerLinks`), and the weight-adjustment markers. */
  datatype Scene = Scene(neurons: seq<seq<Emphasis>>, links: seq<seq<Emphasis>>, markers: seq<Point>)

  /** The scene has one entry per drawn neuron and per drawn connection. */
  predicate Shaped(ls: seq<Layer>, sc: Scene) {
    && |sc.neurons| == |ls|
    && (forall l :: 0 <= l < |ls| ==> |sc.neurons[l]| == ls[l].neurons)
    && |sc.links| == LinkLayerCount(|ls|)
    && (forall l :: 0 <= l < |sc.links| ==> |sc.links[l]| == ls[l].neurons * ls[l + 1].neurons)
  }

  function AllPlain(n: nat): (r: seq<Emphasis>)
    ensures |r| == n && forall i :: 0 <= i < n ==> r[i] == Plain
  {
    seq(n, _ => Plain)
  }

  /** The freshly drawn network: everything plain, no markers. */
  function DefaultScene(ls: seq<Layer>): (sc: Scene)
    ensures Shaped(ls, sc) && sc.markers == []
    ensures forall l, i :: 0 <= l < |sc.neurons| && 0 <= i < |sc.neurons[l]| ==> sc.neurons[l][i] == Plain
    ensures forall l, j :: 0 <= l < |sc.links| && 0 <= j < |sc.links[l]| ==> sc.links[l][j] == Plain
  {
    Scene(seq(|ls|, l requires 0 <= l < |ls| => AllPlain(ls[l].neurons)),
          seq(LinkLayerCount(|ls|), l requires 0 <= l < LinkLayerCount(|ls|) =>
                AllPlain(ls[l].neurons * ls[l + 1].neurons)),
          [])
  }

  /** `resetNetwork`: every neuron and connection back to the default look, markers removed. */
  function ResetNetwork(sc: Scene): (r: Scene)
    ensures r.markers == []
    ensures |r.neurons| == |sc.neurons| && |r.links| == |sc.links|
    ensures forall l :: 0 <= l < |sc.neurons| ==> r.neurons[l] == AllPlain(|sc.neurons[l]|)
    ensures forall l :: 0 <= l < |sc.links| ==> r.links[l] == AllPlain(|sc.links[l]|)
  {
    Scene(seq(|sc.neurons|, l requires 0 <= l < |sc.neurons| => AllPlain(|sc.neurons[l]|)),
          seq(|sc.links|, l requires 0 <= l < |sc.links| => AllPlain(|sc.links[l]|)),
          [])
  }

  /** On any drawn network, resetting yields exactly the freshly drawn one. */
  lemma ResetRestoresDefault(ls: seq<Layer>, sc: Scene)
    requires Shaped(ls, sc)
    ensures ResetNetwork(sc) == DefaultScene(ls)
  {
    var r, d := ResetNetwork(sc), DefaultScene(ls);
    assert r.neurons == d.neurons;
    assert r.links == d.links;
  }

  /**
   * `activateNeurons(k, A)`: the layer-k neurons whose index is in A, and the layer-k
   * connections whose source index is in A, are lit; nothing else changes, and the
   * last layer has no connections to light.
   */
  function ActivateNeurons(ls: seq<Layer>, sc: Scene, k: nat, active: seq<nat>): (r: Scene)
    requires Shaped(ls, sc)
    ensures Shaped(ls, r) && r.markers == sc.markers
    ensures |r.links| == |sc.links| && forall l :: 0 <= l < |r.links| ==> |r.links[l]| == |sc.links[l]|
    ensures forall l, i :: 0 <= l < |ls| && 0 <= i < ls[l].neurons ==>
              r.neurons[l][i] == if l == k && i in active then Lit else sc.neurons[l][i]
    ensures forall l, j :: 0 <= l < |r.links| && 0 <= j < |r.links[l]| ==>
              r.links[l][j] == if l == k && LayerLinks(ls, l)[j].src in active then Lit else sc.links[l][j]
    ensures k + 1 >= |ls| ==> r.links == sc.links
  {
    if k >= |ls| then sc
    else
      var lit := seq(ls[k].neurons, i requires 0 <= i < ls[k].neurons =>
                       if i in active then Lit else sc.neurons[k][i]);
      var links :=
        if k + 1 < |ls| then
          var row := LayerLinks(ls, k);
          sc.links[k := seq(|row|, j requires 0 <= j < |row| =>
                              if row[j].src in active then Lit else sc.links[k][j])]
        else sc.links;
      Scene(sc.neurons[k := lit], links, sc.markers)
  }

  function Midpoint(c: Link): Point {
    Point((c.x1 + c.x2) / 2.0, (c.y1 + c.y2) / 2.0)
  }

  /**
   * `animateBackprop(k)`: a marker at the midpoint of every layer-k connection, in
   * connection order, and those connections take the backward-pass look. Neurons do
   * not change, and the last layer has no connections, so there it changes nothing.
   */
  function AnimateBackprop(ls: seq<Layer>, sc: Scene, k: nat): (r: Scene)
    requires Shaped(ls, sc)
    ensures Shaped(ls, r) && r.neurons == sc.neurons
    ensures |r.links| == |sc.links| && forall l :: 0 <= l < |r.links| ==> |r.links[l]| == |sc.links[l]|
    ensures k + 1 >= |ls| ==> r == sc
    ensures k + 1 < |ls| ==>
              |r.markers| == |sc.markers| + |LayerLinks(ls, k)| && r.markers[..|sc.markers|] == sc.markers
              && (forall j :: 0 <= j < |LayerLinks(ls, k)| ==>
                    r.markers[|sc.markers| + j] == Midpoint(LayerLinks(ls, k)[j]))
    ensures forall l, j :: 0 <= l < |r.links| && 0 <= j < |r.links[l]| ==>
              r.links[l][j] == if l == k then Adjusted else sc.links[l][j]
  {
    if k + 1 >= |ls| then sc
    else
      var row := LayerLinks(ls, k);
      var marks := seq(|row|, j requires 0 <= j < |row| => Midpoint(row[j]));
      Scene(sc.neurons, sc.links[k := seq(|row|, _ => Adjusted)], sc.markers + marks)
  }

  /** A marker lies halfway along its connection, strictly between distinct endpoints. */
  lemma MidpointHalfway(c: Link)
    ensures Midpoint(c).x - c.x1 == c.x2 - Midpoint(c).x
    ensures Midpoint(c).y - c.y1 == c.y2 - Midpoint(c).y
    ensures c.x1 < c.x2 ==> c.x1 < Midpoint(c).x < c.x2
  {
  }

  // ---------------------------------------------------------------------------
  // Schedules

  datatype AnimationState = Idle | Forward | Backward

  /** What a scheduled callback does. */
  datatype Action =
    | Reset
    | Activate(layer: nat, active: seq<nat>)
    | Backprop(layer: nat)
    | SetIdle

  /** A `setTimeout(action, delay)`, the delay in milliseconds from the start of the pass. */
  datatype Timed = Timed(delay: nat, action: Action)

  /** The forward pass's timers, in the order they are set. */
  function ForwardSchedule(): seq<Timed> {
    [ Timed(500, Activate(0, [0, 2])),
      Timed(1500, Activate(1, [1, 3])),
      Timed(2500, Activate(2, [0, 2])),
      Timed(3500, Activate(3, [0])),
      Timed(4500, Reset),
      Timed(4500, SetIdle) ]
  }

  /**
   * The backward pass's timers: layer `L-1-j` at `j·1000` ms for j = 0..L-1, then the
   * reset and the return to idle, both at `L·1000` ms.
   */
  function BackwardSchedule(n: nat): (r: seq<Timed>)
    ensures |r| == n + 2
  {
    seq(n, j requires 0 <= j < n => Timed(j * 1000, Backprop(n - 1 - j)))
      + [Timed(n * 1000, Reset), Timed(n * 1000, SetIdle)]
  }

  /** `backpropagate()` followed by the idle timer: the loop from the last layer down to 0. */
  method ScheduleBackward(ls: seq<Layer>) returns (timers: seq<Timed>)
    ensures timers == BackwardSchedule(|ls|)
  {
    timers := [];
    var i := |ls| - 1;
    while i >= 0
      invariant -1 <= i <= |ls| - 1
      invariant |timers| == |ls| - 1 - i
      invariant forall j :: 0 <= j < |timers| ==> timers[j] == Timed(j * 1000, Backprop(|ls| - 1 - j))
    {
      timers := timers + [Timed((|ls| - 1 - i) * 1000, Backprop(i))];
      i := i - 1;
    }
    timers := timers + [Timed(|ls| * 1000, Reset)];
    timers := timers + [Timed(|ls| * 1000, SetIdle)];
  }

  /** Delays never decrease along the list, so the list order is the firing order. */
  predicate InFiringOrder(s: seq<Timed>) {
    forall i, j :: 0 <= i < j < |s| ==> s[i].delay <= s[j].delay
  }

  /** Only the last timer returns to idle, and it is the one with the largest delay. */
  predicate EndsWithIdle(s: seq<Timed>) {
    && s != []
    && s[|s| - 1].action == SetIdle
    && (forall i :: 0 <= i < |s| - 1 ==> s[i].action != SetIdle)
  }

  /**
   * The forward pass activates layers 0..3 from left to right at 500 + 1000k ms,
   * each with indices below that layer's neuron count, then resets and returns to
   * idle at 4500 ms, after the last activation.
   */
  lemma ForwardScheduleShape()
    ensures InFiringOrder(ForwardSchedule()) && EndsWithIdle(ForwardSchedule())
    ensures forall k :: 0 <= k < 4 ==>
              ForwardSchedule()[k].delay == 500 + 1000 * k
              && ForwardSchedule()[k].action.Activate?
              && ForwardSchedule()[k].action.layer == k
              && forall a :: a in ForwardSchedule()[k].action.active ==> a < Layers()[k].neurons
    ensures ForwardSchedule()[4] == Timed(4500, Reset)
    ensures forall k :: 0 <= k < 4 ==> ForwardSchedule()[k].delay < 4500
  {
    var f := ForwardSchedule();
    assert f[0].action.active == [0, 2] && f[1].action.active == [1, 3];
    assert f[2].action.active == [0, 2] && f[3].action.active == [0];
  }

  /**
   * The backward pass visits the layers from last to first at strictly increasing
   * times, and resets and returns to idle after all of them.
   */
  lemma BackwardScheduleShape(n: nat)
    ensures InFiringOrder(BackwardSchedule(n)) && EndsWithIdle(BackwardSchedule(n))
    ensures forall j :: 0 <= j < n ==>
              BackwardSchedule(n)[j].action == Backprop(n - 1 - j)
              && BackwardSchedule(n)[j].delay == (n - 1 - (n - 1 - j)) * 1000
    ensures forall i, j :: 0 <= i < j < n ==> BackwardSchedule(n)[i].delay < BackwardSchedule(n)[j].delay
    ensures forall j :: 0 <= j < n ==> BackwardSchedule(n)[j].delay < BackwardSchedule(n)[n].delay
    ensures BackwardSchedule(n)[n] == Timed(n * 1000, Reset)
  {
    var s := BackwardSchedule(n);
    forall i, j | 0 <= i < j < |s| ensures s[i].delay <= s[j].delay {
      if j < n {
        assert s[i].delay == i * 1000 && s[j].delay == j * 1000;
      }
    }
  }

  /** The backward pass's first step, on the last layer, touches no connection. */
  lemma BackwardFirstStepTouchesNothing(ls: seq<Layer>, sc: Scene)
    requires Shaped(ls, sc) && ls != []
    ensures BackwardSchedule(|ls|)[0].action == Backprop(|ls| - 1)
    ensures AnimateBackprop(ls, sc, |ls| - 1) == sc
  {
  }

  // ---------------------------------------------------------------------------
  // Running a pass

  datatype ViewState = ViewState(anim: AnimationState, scene: Scene)

  /**
   * One timer firing. The idle timer fires only during a pass, so returning to idle
   * changes `animationState`, which re-runs the drawing effect: the canvas is cleared
   * and the network drawn afresh.
   */
  function Fire(ls: seq<Layer>, v: ViewState, a: Action): (r: ViewState)
    requires Shaped(ls, v.scene)
    ensures Shaped(ls, r.scene)
    ensures r.anim == if a == SetIdle then Idle else v.anim
  {
    match a
    case Reset => ResetRestoresDefault(ls, v.scene); ViewState(v.anim, ResetNetwork(v.scene))
    case Activate(k, active) => ViewState(v.anim, ActivateNeurons(ls, v.scene, k, active))
    case Backprop(k) => ViewState(v.anim, AnimateBackprop(ls, v.scene, k))
    case SetIdle => ViewState(Idle, DefaultScene(ls))
  }

  function RunTimers(ls: seq<Layer>, v: ViewState, s: seq<Timed>): (r: ViewState)
    requires Shaped(ls, v.scene)
    ensures Shaped(ls, r.scene)
    decreases s
  {
    if s == [] then v else RunTimers(ls, Fire(ls, v, s[0].action), s[1..])
  }

  /** A schedule whose last two timers reset and return to idle leaves an idle, freshly drawn network. */
  lemma {:induction false} RunEndsIdle(ls: seq<Layer>, v: ViewState, s: seq<Timed>)
    requires Shaped(ls, v.scene) && |s| >= 2
    requires s[|s| - 2].action == Reset && s[|s| - 1].action == SetIdle
    ensures RunTimers(ls, v, s[..|s| - 1]).scene == DefaultScene(ls)
    ensures RunTimers(ls, v, s) == ViewState(Idle, DefaultScene(ls))
    decreases s
  {
    if |s| == 2 {
      var w := Fire(ls, v, Reset);
      ResetRestoresDefault(ls, v.scene);
      assert s[..1][1..] == [];
      assert s[1..] == [s[1]];
      assert RunTimers(ls, w, s[1..]) == Fire(ls, w, SetIdle);
    } else {
      assert s[1..][..|s| - 2] == s[..|s| - 1][1..];
      RunEndsIdle(ls, Fire(ls, v, s[0].action), s[1..]);
    }
  }

  /**
   * The forward schedule run in the `forward` state, and the backward schedule run in
   * the `backward` state, both leave the view idle with every neuron and connection in
   * its default look.
   */
  lemma PassesEndIdleAndPlain(sc: Scene)
    requires Shaped(Layers(), sc)
    ensures RunTimers(Layers(), ViewState(Forward, sc), ForwardSchedule()) == ViewState(Idle, DefaultScene(Layers()))
    ensures RunTimers(Layers(), ViewState(Backward, sc), BackwardSchedule(|Layers()|))
            == ViewState(Idle, DefaultScene(Layers()))
  {
    RunEndsIdle(Layers(), ViewState(Forward, sc), ForwardSchedule());
    var b := BackwardSchedule(|Layers()|);
    assert b[|b| - 2].action == Reset && b[|b| - 1].action == SetIdle;
    RunEndsIdle(Layers(), ViewState(Backward, sc), b);
  }

  // ---------------------------------------------------------------------------
  // The component: its state, its canvas and its outstanding timers.

  predicate IsSuffix(p: seq<Timed>, s: seq<Timed>) {
    |p| <= |s| && s[|s| - |p|..] == p
  }

  class NetworkView {
    const layers: seq<Layer>
    var animationState: AnimationState
    var scene: Scene
    /** The timers set by the current pass that have not fired yet, earliest first. */
    var pending: seq<Timed>

    function State(): ViewState
      reads this
    {
      ViewState(animationState, scene)
    }

    /**
     * Idle exactly when no timer is outstanding; during a pass the outstanding timers
     * are the unfired tail of that pass's schedule.
     */
    ghost predicate Valid()
      reads this
    {
      && layers == Layers()
      && Shaped(layers, scene)
      && (animationState == Idle <==> pending == [])
      && (animationState == Forward ==> IsSuffix(pending, ForwardSchedule()))
      && (animationState == Backward ==> IsSuffix(pending, BackwardSchedule(|layers|)))
    }

    /** Mounting: the network is drawn, the view is idle. */
    constructor ()
      ensures Valid()
      ensures State() == ViewState(Idle, DefaultScene(Layers())) && pending == []
    {
      layers := Layers();
      animationState := Idle;
      scene := DefaultScene(Layers());
      pending := [];
    }

    /**
     * The "Forward Pass" button, enabled only when idle. Entering `forward` redraws the
     * network, resets it and sets the forward pass's timers.
     */
    method ClickForward()
      requires Valid()
      modifies this
      ensures Valid()
      ensures old(animationState) == Idle ==>
                State() == ViewState(Forward, DefaultScene(layers)) && pending == ForwardSchedule()
      ensures old(animationState) != Idle ==> State() == old(State()) && pending == old(pending)
    {
      if animationState == Idle {
        animationState := Forward;
        scene := ResetNetwork(DefaultScene(layers));
        ResetRestoresDefault(layers, DefaultScene(layers));
        pending := ForwardSchedule();
      }
    }

    /**
     * The "Backpropagation" button, enabled only when idle. Entering `backward` redraws
     * the network, resets it and sets one timer per layer plus the reset and idle timers.
     */
    method ClickBackward()
      requires Valid()
      modifies this
      ensures Valid()
      ensures old(animationState) == Idle ==>
                State() == ViewState(Backward, DefaultScene(layers)) && pending == BackwardSchedule(|layers|)
      ensures old(animationState) != Idle ==> State() == old(State()) && pending == old(pending)
    {
      if animationState == Idle {
        animationState := Backward;
        scene := ResetNetwork(DefaultScene(layers));
        ResetRestoresDefault(layers, DefaultScene(layers));
        pending := ScheduleBackward(layers);
      }
    }

    /** The earliest outstanding timer fires; with none outstanding nothing happens. */
    method FireNext()
      requires Valid()
      modifies this
      ensures Valid()
      ensures old(pending) == [] ==> State() == old(State()) && pending == []
      ensures old(pending) != [] ==>
                State() == Fire(layers, old(State()), old(pending)[0].action) && pending == old(pending)[1..]
    {
      if pending != [] {
        var t := pending[0];
        ghost var sched := if animationState == Forward then ForwardSchedule() else BackwardSchedule(|layers|);
        assert EndsWithIdle(sched) by {
          ForwardScheduleShape();
          BackwardScheduleShape(|layers|);
        }
        assert t == sched[|sched| - |pending|];
        var next := Fire(layers, State(), t.action);
        animationState, scene := next.anim, next.scene;
        pending := pending[1..];
      }
    }
  }
}
