/** The stage slideshow of `components/StagesSlideshow.tsx`: the slide list, wrap-around paging,
    the dots, the wheel and the drag gesture. The component's state is the current index and the
    animation direction; event values (wheel deltas, drag offset and velocity) are integers here. */
module Slideshow {
  import opened Base

  datatype Slide = Slide(title: string, description: string, image: Option<string>)

  /** The overview slide followed by the stages. */
  function AllSlides(stages: seq<Slide>, overviewImage: string): (r: seq<Slide>)
    ensures |r| == |stages| + 1
    ensures r[0] == Slide("Overview", "", Some(overviewImage))
    ensures forall i :: 0 <= i < |stages| ==> r[i + 1] == stages[i]
  {
    [Slide("Overview", "", Some(overviewImage))] + stages
  }

  datatype State = State(index: int, direction: int)

  const INITIAL := State(0, 0)

  /** `paginate(d)` over `n` slides: step by `d`, going round at either end. */
  function Paginate(st: State, n: nat, d: int): (r: State)
    requires n > 0
    ensures r.direction == d
    // whatever the step, the index lands on a slide
    ensures 0 <= r.index < n
  {
    var next := st.index + d;
    var next := if next < 0 then n - 1 else next;
    var next := if next >= n then 0 else next;
    State(next, d)
  }

  /** The wrap-around ends: next from the last slide is the first, previous from the first is the
      last. */
  lemma WrapsAtBothEnds(n: nat, d: int)
    requires n > 0
    ensures Paginate(State(n - 1, d), n, 1).index == 0
    ensures Paginate(State(0, d), n, -1).index == n - 1
  {
  }

  /** Forward then back, or back then forward, returns to the slide it started from. */
  lemma StepsUndoEachOther(st: State, n: nat)
    requires n > 0 && 0 <= st.index < n
    ensures Paginate(Paginate(st, n, 1), n, -1).index == st.index
    ensures Paginate(Paginate(st, n, -1), n, 1).index == st.index
  {
  }

  /** `k` presses of the next button. */
  function Forward(st: State, n: nat, k: nat): State
    requires n > 0
    decreases k
  {
    if k == 0 then st else Paginate(Forward(st, n, k - 1), n, 1)
  }

  /** Within one lap, paging forward `k` times moves `k` slides on, going round once past the
      last slide. */
  lemma {:induction false} ForwardWithinOneLap(st: State, n: nat, k: nat)
    requires n > 0 && 0 <= st.index < n && k <= n
    ensures Forward(st, n, k).index == if st.index + k < n then st.index + k else st.index + k - n
    decreases k
  {
    if k > 0 {
      ForwardWithinOneLap(st, n, k - 1);
    }
  }

  /** So `n` presses of the next button come back to the starting slide. */
  lemma FullCycle(st: State, n: nat)
    requires n > 0 && 0 <= st.index < n
    ensures Forward(st, n, n).index == st.index
  {
    ForwardWithinOneLap(st, n, n);
  }

  /** A dot jumps straight to its slide; the animation runs forward when the dot is to the right
      of the current slide and backward otherwise (including the current slide's own dot). */
  function Jump(st: State, target: int): (r: State)
    ensures r.index == target
    ensures r.direction == 1 <==> target > st.index
    ensures r.direction == -1 <==> target <= st.index
  {
    State(target, if target > st.index then 1 else -1)
  }

  function Abs(x: int): nat {
    if x < 0 then -x else x
  }

  /** A wheel event pages only when it is more horizontal than vertical, forward iff it moves
      right. */
  function Wheel(st: State, n: nat, dx: int, dy: int): (r: State)
    requires n > 0
    ensures Abs(dx) <= Abs(dy) ==> r == st
    ensures Abs(dx) > Abs(dy) ==> r == Paginate(st, n, if dx > 0 then 1 else -1)
  {
    if Abs(dx) > Abs(dy) then Paginate(st, n, if dx > 0 then 1 else -1) else st
  }

  const SWIPE_THRESHOLD := 10000

  /** The end of a drag: a swipe (the offset's size times the velocity) past the threshold to the
      left pages forward, past it to the right pages back, anything weaker stays. */
  function DragEnd(st: State, n: nat, offset: int, velocity: int): (r: State)
    requires n > 0
    ensures Abs(offset) * velocity < -SWIPE_THRESHOLD ==> r == Paginate(st, n, 1)
    ensures Abs(offset) * velocity > SWIPE_THRESHOLD ==> r == Paginate(st, n, -1)
    ensures -SWIPE_THRESHOLD <= Abs(offset) * velocity <= SWIPE_THRESHOLD ==> r == st
  {
    var swipe := Abs(offset) * velocity;
    if swipe < -SWIPE_THRESHOLD then Paginate(st, n, 1)
    else if swipe > SWIPE_THRESHOLD then Paginate(st, n, -1)
    else st
  }

  /** The user's inputs: the two buttons, a dot, a wheel event and the end of a drag. */
  datatype Event = Prev | Next | Dot(target: nat) | WheelEvent(dx: int, dy: int) | Drag(offset: int, velocity: int)

  /** One input; there is a dot for each slide and no other. */
  function Step(st: State, n: nat, e: Event): State
    requires n > 0
  {
    match e
    case Prev => Paginate(st, n, -1)
    case Next => Paginate(st, n, 1)
    case Dot(t) => if t < n then Jump(st, t) else st
    case WheelEvent(dx, dy) => Wheel(st, n, dx, dy)
    case Drag(o, v) => DragEnd(st, n, o, v)
  }

  /** The state after a sequence of inputs, from the first slide. */
  function Run(n: nat, events: seq<Event>): State
    requires n > 0
    decreases |events|
  {
    if events == [] then INITIAL else Step(Run(n, events[..|events| - 1]), n, events[|events| - 1])
  }

  /** Whatever the events, the slide shown exists. */
  lemma {:induction false} IndexAlwaysOnASlide(n: nat, events: seq<Event>)
    requires n > 0
    ensures 0 <= Run(n, events).index < n
    decreases |events|
  {
    if events != [] {
      IndexAlwaysOnASlide(n, events[..|events| - 1]);
    }
  }
}
