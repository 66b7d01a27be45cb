/**
 The fuselage frame-sequence builder.

 The builder walks a list of compartment kinds paired index by index with
 their sizing descriptors and emits the cross-section frames through which
 the fuselage is lofted. It keeps three pieces of state: whether the first
 container is still to come, whether the apex (the station of maximum
 cross-section) has been reached, and where frames are placed on their box
 (`Start` until the first doubled frame, `End` afterwards).

 The run is modelled as a pure function over a `Builder` state. It records
 each emitted frame as a `Slot` (the box and its placement, or the motor)
 so that placement stays observable; `Frames` turns slots into frames.
 */
module Fuselage {
  import opened BoundingBox

  datatype Kind = Nose | Container | Motor

  /** What sizes a compartment: nothing (a nose), the bounding box of its
      payload (fused when it holds several parts), or a motor. */
  datatype Sizing =
    | Absent
    | Payload(box: BBox)
    | Engine(diameter: real, position: Point)

  datatype Frame =
    | Section(params: FrameParams)
    | MotorFrame(diameter: real, position: Point)

  datatype Slot =
    | Cut(box: BBox, at: Placement)
    | Tail(diameter: real, position: Point)

  datatype BuildError =
    | LengthMismatch            // the two input lists differ in length
    | NoShape(at: nat)          // a container slot whose descriptor has no shape
    | NoMotor(at: nat)          // a trailing motor slot whose descriptor is not a motor
    | MultipleApex(at: nat)     // a second non-growing container-to-container step

  datatype Result<T> = Ok(value: T) | Err(error: BuildError)

  datatype Builder = Builder(plan: seq<Slot>, firstContainer: bool, apexReached: bool, loc: Placement)

  const Fresh: Builder := Builder([], true, false, Start)

  function Realize(s: Slot): Frame {
    match s
    case Cut(b, at) => Section(BboxToFrame(b, at))
    case Tail(d, p) => MotorFrame(d, p)
  }

  function Frames(plan: seq<Slot>): (frames: seq<Frame>)
    ensures |frames| == |plan|
    ensures forall k :: 0 <= k < |plan| ==> frames[k] == Realize(plan[k])
  {
    seq(|plan|, k requires 0 <= k < |plan| => Realize(plan[k]))
  }

  /** Frames are made slot by slot: extending a plan extends its frames by the new slots' frames. */
  lemma FramesAppend(a: seq<Slot>, b: seq<Slot>)
    ensures Frames(a + b) == Frames(a) + Frames(b)
  {
  }

  /** Every cut is placed at Start or End, and no Start cut follows an End cut. */
  predicate PlacementMonotone(plan: seq<Slot>) {
    && (forall k :: 0 <= k < |plan| && plan[k].Cut? ==> plan[k].at != Elsewhere)
    && (forall j, k :: 0 <= j < k < |plan| && plan[j].Cut? && plan[j].at == End && plan[k].Cut? ==>
          plan[k].at == End)
  }

  /** The placement invariant of a builder state: its plan is monotone, it begins with a
      Start cut, and while the mode is still Start no End cut has been emitted. */
  predicate Coherent(st: Builder) {
    && st.loc != Elsewhere
    && PlacementMonotone(st.plan)
    && (|st.plan| == 0 ==> st.loc == Start)
    && (|st.plan| > 0 && st.plan[0].Cut? ==> st.plan[0].at == Start)
    && (st.loc == Start ==> forall k :: 0 <= k < |st.plan| && st.plan[k].Cut? ==> st.plan[k].at == Start)
  }

  /** `b` is the box of some container compartment other than the last compartment. */
  predicate FromContainer(kinds: seq<Kind>, parts: seq<Sizing>, b: BBox) {
    exists c :: 0 <= c && c + 1 < |kinds| && c < |parts| && kinds[c] == Container && parts[c] == Payload(b)
  }

  /** Every cut of the plan is the box of a container compartment. */
  predicate Sourced(kinds: seq<Kind>, parts: seq<Sizing>, plan: seq<Slot>) {
    forall k :: 0 <= k < |plan| && plan[k].Cut? ==> FromContainer(kinds, parts, plan[k].box)
  }

  /** The bounding box of a container's descriptor. */
  function ShapeOf(parts: seq<Sizing>, i: nat): (r: Result<BBox>)
    requires i < |parts|
    ensures r.Ok? <==> parts[i].Payload?
    ensures r.Ok? ==> parts[i] == Payload(r.value)
    ensures r.Err? ==> r.error == NoShape(i)
  {
    match parts[i]
    case Payload(b) => Ok(b)
    case _ => Err(NoShape(i))
  }

  /** The frames one container contributes, given the compartment after it. */
  function ContainerStep(kinds: seq<Kind>, parts: seq<Sizing>, i: nat, st: Builder): (r: Result<Builder>)
    requires |kinds| == |parts| && i + 1 < |kinds| && kinds[i] == Container
    ensures r.Ok? ==> parts[i].Payload? && !r.value.firstContainer
    ensures r.Ok? ==> |st.plan| < |r.value.plan| <= |st.plan| + 2 && r.value.plan[..|st.plan|] == st.plan
    ensures r.Ok? ==> forall k :: |st.plan| <= k < |r.value.plan| ==> r.value.plan[k].Cut? && r.value.plan[k].box == parts[i].box
    ensures r.Ok? && st.loc == End ==> r.value.loc == End
    ensures r.Ok? && st.apexReached ==> r.value.apexReached
    ensures r.Err? ==>
      || (r.error == NoShape(i) && !parts[i].Payload?)
      || (r.error == NoShape(i + 1) && kinds[i + 1] == Container && !parts[i + 1].Payload?)
      || (&& r.error == MultipleApex(i) && st.apexReached && !st.firstContainer && kinds[i + 1] == Container
          && parts[i].Payload? && parts[i + 1].Payload? && !Outgrows(parts[i + 1].box, parts[i].box))
  {
    if st.firstContainer then
      match ShapeOf(parts, i)
      case Err(e) => Err(e)
      case Ok(b) => Ok(st.(plan := st.plan + [Cut(b, st.loc)], firstContainer := false))
    else if kinds[i + 1] == Container then
      match ShapeOf(parts, i)
      case Err(e) => Err(e)
      case Ok(b) =>
        match ShapeOf(parts, i + 1)
        case Err(e) => Err(e)
        case Ok(nb) =>
          var cur := BboxToFrame(b, st.loc);
          var following := BboxToFrame(nb, st.loc);
          if cur.width < following.width && cur.height < following.height then
            Ok(st.(plan := st.plan + [Cut(b, st.loc)]))
          else if !st.apexReached then
            Ok(st.(plan := st.plan + [Cut(b, st.loc), Cut(b, End)], loc := End, apexReached := true))
          else
            Err(MultipleApex(i))
    else
      match ShapeOf(parts, i)
      case Err(e) => Err(e)
      case Ok(b) => Ok(st.(plan := st.plan + [Cut(b, st.loc), Cut(b, End)], loc := End))
  }

  /** The motor frame added on the last pass when the last compartment is a motor. */
  function TailStep(kinds: seq<Kind>, parts: seq<Sizing>, i: nat, st: Builder): (r: Result<Builder>)
    requires |kinds| == |parts| && i + 1 < |kinds|
    ensures r.Ok? ==> r.value.(plan := st.plan) == st
    ensures r.Ok? ==>
      || r.value.plan == st.plan
      || (&& i + 2 == |kinds| && kinds[i + 1] == Motor && parts[i + 1].Engine?
          && r.value.plan == st.plan + [Tail(parts[i + 1].diameter, parts[i + 1].position)])
    ensures r.Ok? && i + 2 == |kinds| && kinds[i + 1] == Motor ==> |r.value.plan| == |st.plan| + 1
    ensures r.Err? ==> r.error == NoMotor(i + 1) && i + 2 == |kinds| && kinds[i + 1] == Motor && !parts[i + 1].Engine?
  {
    if i + 2 == |kinds| && kinds[i + 1] == Motor then
      match parts[i + 1]
      case Engine(d, p) => Ok(st.(plan := st.plan + [Tail(d, p)]))
      case _ => Err(NoMotor(i + 1))
    else
      Ok(st)
  }

  /** One pass of the loop, at compartment `i` (never the last one). */
  function Step(kinds: seq<Kind>, parts: seq<Sizing>, i: nat, st: Builder): (r: Result<Builder>)
    requires |kinds| == |parts| && i + 1 < |kinds|
    ensures r.Ok? ==> st.plan <= r.value.plan
    ensures r.Ok? && st.loc == End ==> r.value.loc == End
    ensures r.Ok? && st.apexReached ==> r.value.apexReached
    ensures r.Err? ==> !r.error.LengthMismatch?
  {
    var mid := if kinds[i] == Container then ContainerStep(kinds, parts, i, st) else Ok(st);
    match mid
    case Err(e) => Err(e)
    case Ok(s) => TailStep(kinds, parts, i, s)
  }

  /** The loop from compartment `i` on; compartment |kinds| - 1 is never a current element. */
  function Run(kinds: seq<Kind>, parts: seq<Sizing>, i: nat, st: Builder): (r: Result<Builder>)
    requires |kinds| == |parts| && i <= |kinds|
    ensures r.Ok? ==> st.plan <= r.value.plan
    ensures r.Ok? && st.loc == End ==> r.value.loc == End
    ensures r.Ok? && st.apexReached ==> r.value.apexReached
    ensures r.Err? ==> !r.error.LengthMismatch?
    decreases |kinds| - i
  {
    if i + 1 >= |kinds| then
      Ok(st)
    else
      match Step(kinds, parts, i, st)
      case Err(e) => Err(e)
      case Ok(next) => Run(kinds, parts, i + 1, next)
  }

  /** Appending one cut at the current placement keeps the placement invariant. */
  lemma AppendSingleCoherent(st: Builder, b: BBox)
    requires Coherent(st)
    ensures Coherent(st.(plan := st.plan + [Cut(b, st.loc)]))
  {
    var plan := st.plan + [Cut(b, st.loc)];
    assert forall k :: 0 <= k < |st.plan| ==> plan[k] == st.plan[k];
  }

  /** Appending a cut at the current placement and one at End, then switching to End, keeps the
      placement invariant whatever the flags become. */
  lemma AppendPairCoherent(st: Builder, b: BBox, first: bool, apex: bool)
    requires Coherent(st)
    ensures Coherent(Builder(st.plan + [Cut(b, st.loc), Cut(b, End)], first, apex, End))
  {
    var plan := st.plan + [Cut(b, st.loc), Cut(b, End)];
    assert forall k :: 0 <= k < |st.plan| ==> plan[k] == st.plan[k];
  }

  /** A container pass keeps the placement invariant. */
  lemma ContainerStepCoherent(kinds: seq<Kind>, parts: seq<Sizing>, i: nat, st: Builder)
    requires |kinds| == |parts| && i + 1 < |kinds| && kinds[i] == Container
    requires Coherent(st) && ContainerStep(kinds, parts, i, st).Ok?
    ensures Coherent(ContainerStep(kinds, parts, i, st).value)
  {
    var b := parts[i].box;
    var r := ContainerStep(kinds, parts, i, st).value;
    if r.plan == st.plan + [Cut(b, st.loc)] {
      AppendSingleCoherent(st, b);
      assert r == st.(plan := st.plan + [Cut(b, st.loc)], firstContainer := false);
    } else {
      AppendPairCoherent(st, b, r.firstContainer, r.apexReached);
    }
  }

  /** A container pass adds only cuts of this container's box. */
  lemma ContainerStepSourced(kinds: seq<Kind>, parts: seq<Sizing>, i: nat, st: Builder)
    requires |kinds| == |parts| && i + 1 < |kinds| && kinds[i] == Container
    requires Sourced(kinds, parts, st.plan) && ContainerStep(kinds, parts, i, st).Ok?
    ensures Sourced(kinds, parts, ContainerStep(kinds, parts, i, st).value.plan)
  {
    var s := ContainerStep(kinds, parts, i, st).value;
    forall k | 0 <= k < |s.plan| && s.plan[k].Cut?
      ensures FromContainer(kinds, parts, s.plan[k].box)
    {
      if k < |st.plan| {
        assert s.plan[k] == st.plan[k];
      } else {
        assert parts[i] == Payload(s.plan[k].box);
      }
    }
  }

  /** A loop pass keeps the placement invariant and adds only cuts of container boxes. */
  lemma StepInvariants(kinds: seq<Kind>, parts: seq<Sizing>, i: nat, st: Builder)
    requires |kinds| == |parts| && i + 1 < |kinds|
    requires Coherent(st) && Sourced(kinds, parts, st.plan) && Step(kinds, parts, i, st).Ok?
    ensures Coherent(Step(kinds, parts, i, st).value)
    ensures Sourced(kinds, parts, Step(kinds, parts, i, st).value.plan)
  {
    var mid := if kinds[i] == Container then ContainerStep(kinds, parts, i, st) else Ok(st);
    if kinds[i] == Container {
      ContainerStepCoherent(kinds, parts, i, st);
      ContainerStepSourced(kinds, parts, i, st);
    }
    var m := mid.value;
    assert Step(kinds, parts, i, st) == TailStep(kinds, parts, i, m);
    if i + 2 == |kinds| && kinds[i + 1] == Motor && parts[i + 1].Engine? {
      AppendTailKeeps(kinds, parts, m, parts[i + 1].diameter, parts[i + 1].position);
    }
  }

  /** Appending the motor frame keeps the placement invariant and the sourcing of cuts. */
  lemma AppendTailKeeps(kinds: seq<Kind>, parts: seq<Sizing>, st: Builder, d: real, p: Point)
    requires Coherent(st) && Sourced(kinds, parts, st.plan)
    ensures Coherent(st.(plan := st.plan + [Tail(d, p)]))
    ensures Sourced(kinds, parts, st.plan + [Tail(d, p)])
  {
    var plan := st.plan + [Tail(d, p)];
    assert forall k :: 0 <= k < |st.plan| ==> plan[k] == st.plan[k];
  }

  /** The whole loop keeps the placement invariant and adds only cuts of container boxes. */
  lemma {:induction false} RunInvariants(kinds: seq<Kind>, parts: seq<Sizing>, i: nat, st: Builder)
    requires |kinds| == |parts| && i <= |kinds|
    requires Coherent(st) && Sourced(kinds, parts, st.plan) && Run(kinds, parts, i, st).Ok?
    ensures Coherent(Run(kinds, parts, i, st).value)
    ensures Sourced(kinds, parts, Run(kinds, parts, i, st).value.plan)
    decreases |kinds| - i
  {
    if i + 1 < |kinds| {
      StepInvariants(kinds, parts, i, st);
      RunInvariants(kinds, parts, i + 1, Step(kinds, parts, i, st).value);
    }
  }

  /** The sequence of slots the builder emits, or the error it stops with. */
  function BuildPlan(kinds: seq<Kind>, parts: seq<Sizing>): (r: Result<seq<Slot>>)
    ensures r == Err(LengthMismatch) <==> |kinds| != |parts|
    ensures r.Ok? ==> PlacementMonotone(r.value)
    ensures r.Ok? && |r.value| > 0 && r.value[0].Cut? ==> r.value[0].at == Start
    ensures r.Ok? ==> Sourced(kinds, parts, r.value)
  {
    if |kinds| != |parts| then
      Err(LengthMismatch)
    else
      match Run(kinds, parts, 0, Fresh)
      case Err(e) => Err(e)
      case Ok(st) =>
        RunInvariants(kinds, parts, 0, Fresh);
        Ok(st.plan)
  }

  /** The frames of the fuselage, or the error the builder raises. */
  function FrameBuilder(kinds: seq<Kind>, parts: seq<Sizing>): (r: Result<seq<Frame>>)
    ensures r == Err(LengthMismatch) <==> |kinds| != |parts|
    ensures r.Ok? <==> BuildPlan(kinds, parts).Ok?
    ensures r.Ok? ==> r.value == Frames(BuildPlan(kinds, parts).value)
  {
    match BuildPlan(kinds, parts)
    case Err(e) => Err(e)
    case Ok(plan) => Ok(Frames(plan))
  }

  /** The builder loop written out with mutable state, as the source does it. */
  method BuildFrames(kinds: seq<Kind>, parts: seq<Sizing>) returns (r: Result<seq<Frame>>)
    ensures r == FrameBuilder(kinds, parts)
  {
    if |kinds| != |parts| {
      return Err(LengthMismatch);
    }
    var plan: seq<Slot> := [];
    var firstContainer := true;
    var apexReached := false;
    var loc := Start;
    var i := 0;
    while i + 1 < |kinds|
      invariant i <= |kinds|
      invariant Run(kinds, parts, i, Builder(plan, firstContainer, apexReached, loc)) == Run(kinds, parts, 0, Fresh)
      decreases |kinds| - i
    {
      ghost var before := Builder(plan, firstContainer, apexReached, loc);
      var kind := kinds[i];
      var next := kinds[i + 1];
      if kind == Container {
        if firstContainer {
          if !parts[i].Payload? {
            return Err(NoShape(i));
          }
          plan := plan + [Cut(parts[i].box, loc)];
          firstContainer := false;
        } else if next == Container {
          if !parts[i].Payload? {
            return Err(NoShape(i));
          }
          if !parts[i + 1].Payload? {
            return Err(NoShape(i + 1));
          }
          var cur := BboxToFrame(parts[i].box, loc);
          var following := BboxToFrame(parts[i + 1].box, loc);
          if cur.width < following.width && cur.height < following.height {
            plan := plan + [Cut(parts[i].box, loc)];
          } else if !apexReached {
            plan := plan + [Cut(parts[i].box, loc), Cut(parts[i].box, End)];
            loc := End;
            apexReached := true;
          } else {
            return Err(MultipleApex(i));
          }
        } else {
          if !parts[i].Payload? {
            return Err(NoShape(i));
          }
          plan := plan + [Cut(parts[i].box, loc), Cut(parts[i].box, End)];
          loc := End;
        }
      }
      ghost var mid := Builder(plan, firstContainer, apexReached, loc);
      assert (if kind == Container then ContainerStep(kinds, parts, i, before) else Ok(before)) == Ok(mid);
      if i + 2 == |kinds| && next == Motor {
        if !parts[i + 1].Engine? {
          return Err(NoMotor(i + 1));
        }
        plan := plan + [Tail(parts[i + 1].diameter, parts[i + 1].position)];
      }
      assert TailStep(kinds, parts, i, mid) == Ok(Builder(plan, firstContainer, apexReached, loc));
      assert Step(kinds, parts, i, before) == Ok(Builder(plan, firstContainer, apexReached, loc));
      i := i + 1;
    }
    return Ok(Frames(plan));
  }
}
