/**
 * The Transformer walkthrough (animations/src/components/Transformers.jsx): two
 * lists of six explanation entries, one per view, a view toggle, a step counter
 * moved by Previous/Next buttons, and a column of blocks whose "active" and
 * "highlight" flags follow the step.
 */
module Transformers {

  datatype View = Architecture | Training

  /** One explanation entry; the explanation and example prose are not reproduced. */
  datatype Entry = Entry(title: string)

  function ArchitectureEntries(): seq<Entry> {
    [ Entry("Input Embeddings + Positional Encoding"),
      Entry("Multi-Head Self-Attention"),
      Entry("Query, Key, Value Vectors"),
      Entry("Feed Forward Network"),
      Entry("Layer Normalization"),
      Entry("Output Projection") ]
  }

  function TrainingEntries(): seq<Entry> {
    [ Entry("Pre-training: Data Collection"),
      Entry("Pre-training: Self-Supervised Learning"),
      Entry("Pre-training: Initial Model"),
      Entry("Fine-tuning: Task-Specific Data"),
      Entry("Fine-tuning: Training"),
      Entry("Fine-tuning: Final Model") ]
  }

  function Entries(v: View): seq<Entry> {
    if v == Architecture then ArchitectureEntries() else TrainingEntries()
  }

  /** `maxSteps`: the active list's length minus one, which is 5 for either view. */
  function MaxSteps(v: View): (r: int)
    ensures r == |Entries(v)| - 1 && r == 5
  {
    |Entries(v)| - 1
  }

  /** The component's two pieces of state. */
  datatype NavState = NavState(view: View, step: int)

  /** The reachable states: the step indexes an entry of the active list. */
  predicate Valid(s: NavState) {
    0 <= s.step <= MaxSteps(s.view)
  }

  /** `useState("architecture")`, `useState(0)`. */
  function Initial(): (s: NavState)
    ensures Valid(s) && s.view == Architecture && s.step == 0
  {
    NavState(Architecture, 0)
  }

  /** `getExplanation()`: the active list's entry at index `step`. */
  function GetExplanation(s: NavState): (e: Entry)
    requires Valid(s)
    ensures e in Entries(s.view) && e == Entries(s.view)[s.step]
  {
    if s.view == Architecture then ArchitectureEntries()[s.step] else TrainingEntries()[s.step]
  }

  /** Either view button: set that view and reset the step, even if the view was already active. */
  function SelectView(s: NavState, v: View): (t: NavState)
    ensures Valid(t) && t.view == v && t.step == 0
  {
    NavState(v, 0)
  }

  /** Previous is enabled unless `step === 0`. */
  predicate PreviousEnabled(s: NavState) {
    s.step != 0
  }

  /** Next is enabled unless `step === maxSteps`. */
  predicate NextEnabled(s: NavState) {
    s.step != MaxSteps(s.view)
  }

  /** A click on Previous: `setStep(step - 1)` when enabled, nothing when disabled. */
  function Previous(s: NavState): (t: NavState)
    ensures Valid(s) ==> Valid(t)
    ensures t.view == s.view
    ensures PreviousEnabled(s) ==> t.step == s.step - 1
    ensures !PreviousEnabled(s) ==> t == s
  {
    if PreviousEnabled(s) then NavState(s.view, s.step - 1) else s
  }

  /** A click on Next: `setStep(step + 1)` when enabled, nothing when disabled. */
  function Next(s: NavState): (t: NavState)
    ensures Valid(s) ==> Valid(t)
    ensures t.view == s.view
    ensures NextEnabled(s) ==> t.step == s.step + 1
    ensures !NextEnabled(s) ==> t == s
  {
    if NextEnabled(s) then NavState(s.view, s.step + 1) else s
  }

  /** On reachable states the buttons' `disabled` tests agree with their styling tests. */
  lemma EnabledMeansInRange(s: NavState)
    requires Valid(s)
    ensures PreviousEnabled(s) <==> s.step > 0
    ensures NextEnabled(s) <==> s.step < MaxSteps(s.view)
  {
  }

  /** Next followed by Previous is the identity whenever Next was enabled. */
  lemma NextThenPrevious(s: NavState)
    requires Valid(s) && NextEnabled(s)
    ensures Previous(Next(s)) == s
  {
  }

  /** Previous followed by Next is the identity whenever Previous was enabled. */
  lemma PreviousThenNext(s: NavState)
    requires Valid(s) && PreviousEnabled(s)
    ensures Next(Previous(s)) == s
  {
  }

  /** A button click of the navigator. */
  datatype Click = ClickArchitecture | ClickTraining | ClickPrevious | ClickNext

  function Apply(s: NavState, c: Click): NavState {
    match c
    case ClickArchitecture => SelectView(s, Architecture)
    case ClickTraining => SelectView(s, Training)
    case ClickPrevious => Previous(s)
    case ClickNext => Next(s)
  }

  function Run(s: NavState, clicks: seq<Click>): NavState
    decreases clicks
  {
    if clicks == [] then s else Run(Apply(s, clicks[0]), clicks[1..])
  }

  /** Whatever the clicks, the step stays within `0..maxSteps` of the active view. */
  lemma {:induction false} RunKeepsValid(s: NavState, clicks: seq<Click>)
    requires Valid(s)
    ensures Valid(Run(s, clicks))
    decreases clicks
  {
    if clicks != [] {
      RunKeepsValid(Apply(s, clicks[0]), clicks[1..]);
    }
  }

  // ---------------------------------------------------------------------------
  // The blocks drawn under the explanation.

  datatype Block =
    | Embeddings | SelfAttention | Query | Key | Value | FeedForward | LayerNorm | OutputProjection
    | DataCollection | SelfSupervised | InitialModel | TaskData | FineTuning | FinalModel

  /** The blocks each view lays out, top to bottom (left to right in the training view). */
  function Blocks(v: View): seq<Block> {
    if v == Architecture then
      [Embeddings, SelfAttention, Query, Key, Value, FeedForward, LayerNorm, OutputProjection]
    else
      [DataCollection, SelfSupervised, InitialModel, TaskData, FineTuning, FinalModel]
  }

  /** The step at which a block becomes active; Q, K and V share stage 2. */
  function Stage(b: Block): nat {
    match b
    case Embeddings => 0
    case SelfAttention => 1
    case Query => 2
    case Key => 2
    case Value => 2
    case FeedForward => 3
    case LayerNorm => 4
    case OutputProjection => 5
    case DataCollection => 0
    case SelfSupervised => 1
    case InitialModel => 2
    case TaskData => 3
    case FineTuning => 4
    case FinalModel => 5
  }

  /** The step from which a block is rendered at all: the `{step >= k && …}` guards. */
  function ShownFrom(b: Block): nat {
    match b
    case Embeddings => 0
    case SelfAttention => 1
    case Query => 1
    case Key => 1
    case Value => 1
    case FeedForward => 3
    case LayerNorm => 4
    case OutputProjection => 5
    case _ => 0
  }

  /** `active={step >= k}`. */
  predicate Active(b: Block, step: int) {
    step >= Stage(b)
  }

  /** `highlight={step === k}`. */
  predicate Highlighted(b: Block, step: int) {
    step == Stage(b)
  }

  predicate Rendered(b: Block, step: int) {
    step >= ShownFrom(b)
  }

  /** The stages of the rendered blocks of view `v` that are highlighted at `step`. */
  function HighlightedStages(v: View, step: int): set<nat> {
    set b | b in Blocks(v) && Rendered(b, step) && Highlighted(b, step) :: Stage(b)
  }

  /** At every reachable step exactly one stage is highlighted: the stage numbered `step`. */
  lemma OneStageHighlighted(s: NavState)
    requires Valid(s)
    ensures HighlightedStages(s.view, s.step) == {s.step}
  {
    var bs := Blocks(s.view);
    var i := if s.view == Architecture && s.step >= 3 then s.step + 2 else s.step;
    assert bs[i] in bs && Stage(bs[i]) == s.step && Rendered(bs[i], s.step);
  }

  /** A highlighted block is active, and an active block is rendered. */
  lemma ActiveBlocksRendered(b: Block, step: int)
    ensures Highlighted(b, step) ==> Active(b, step)
    ensures Active(b, step) ==> Rendered(b, step)
  {
  }

  /** Q, K and V appear at step 1 but become active only at step 2, where they are the highlighted blocks. */
  lemma QueryKeyValueShownBeforeActive()
    ensures forall b :: b in {Query, Key, Value} ==> Rendered(b, 1) && !Active(b, 1) && Active(b, 2)
    ensures (set b | b in Blocks(Architecture) && Highlighted(b, 2)) == {Query, Key, Value}
  {
  }

  /** In the training view all six blocks are always rendered. */
  lemma TrainingBlocksAlwaysRendered(step: int)
    requires step >= 0
    ensures forall b :: b in Blocks(Training) ==> Rendered(b, step)
  {
  }

  // ---------------------------------------------------------------------------
  // The component as an object whose button handlers update its state.

  class Walkthrough {
    var activeView: View
    var step: int

    function State(): NavState
      reads this
    {
      NavState(activeView, step)
    }

    constructor ()
      ensures State() == Initial()
    {
      activeView, step := Architecture, 0;
    }

    method ClickView(v: View)
      modifies this
      ensures State() == SelectView(old(State()), v)
    {
      activeView := v;
      step := 0;
    }

    method ClickPrevious()
      modifies this
      ensures State() == Previous(old(State()))
    {
      if step != 0 {
        step := step - 1;
      }
    }

    method ClickNext()
      modifies this
      ensures State() == Next(old(State()))
    {
      if step != MaxSteps(activeView) {
        step := step + 1;
      }
    }

    /** The entry the page shows for the current state. */
    function Explanation(): (e: Entry)
      reads this
      requires Valid(State())
      ensures e == Entries(activeView)[step]
    {
      GetExplanation(State())
    }
  }
}
