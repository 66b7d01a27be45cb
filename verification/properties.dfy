/**
 Properties of the frame builder: what one pass of the loop does for each
 kind of compartment, and what the whole run guarantees about the motor
 frame and the validity of the emitted cross-sections.
 */
module FuselageProperties {
  import opened BoundingBox
  import opened Fuselage

  /** The first container gets exactly one frame at the current placement. Its successor is
      never looked at: nothing is assumed about `kinds[i + 1]` or `parts[i + 1]`. */
  lemma FirstContainerOneFrame(kinds: seq<Kind>, parts: seq<Sizing>, i: nat, st: Builder)
    requires |kinds| == |parts| && i + 1 < |kinds| && kinds[i] == Container && parts[i].Payload?
    requires st.firstContainer
    ensures ContainerStep(kinds, parts, i, st)
         == Ok(Builder(st.plan + [Cut(parts[i].box, st.loc)], false, st.apexReached, st.loc))
  {
  }

  /** A later container followed by a strictly wider and taller one gets exactly one frame;
      placement mode and apex flag are unchanged. */
  lemma GrowingContainerOneFrame(kinds: seq<Kind>, parts: seq<Sizing>, i: nat, st: Builder)
    requires |kinds| == |parts| && i + 1 < |kinds| && kinds[i] == Container && kinds[i + 1] == Container
    requires parts[i].Payload? && parts[i + 1].Payload? && Outgrows(parts[i + 1].box, parts[i].box)
    requires !st.firstContainer
    ensures ContainerStep(kinds, parts, i, st)
         == Ok(Builder(st.plan + [Cut(parts[i].box, st.loc)], false, st.apexReached, st.loc))
  {
  }

  /** The first non-growing container-to-container step is the apex: the box gets a frame at
      the current placement and one at End, the mode becomes End and the apex flag is set. */
  lemma FirstApexDoubled(kinds: seq<Kind>, parts: seq<Sizing>, i: nat, st: Builder)
    requires |kinds| == |parts| && i + 1 < |kinds| && kinds[i] == Container && kinds[i + 1] == Container
    requires parts[i].Payload? && parts[i + 1].Payload? && !Outgrows(parts[i + 1].box, parts[i].box)
    requires !st.firstContainer && !st.apexReached
    ensures ContainerStep(kinds, parts, i, st)
         == Ok(Builder(st.plan + [Cut(parts[i].box, st.loc), Cut(parts[i].box, End)], false, true, End))
  {
  }

  /** A second non-growing container-to-container step stops the build with the one-apex error. */
  lemma SecondApexRejected(kinds: seq<Kind>, parts: seq<Sizing>, i: nat, st: Builder)
    requires |kinds| == |parts| && i + 1 < |kinds| && kinds[i] == Container && kinds[i + 1] == Container
    requires parts[i].Payload? && parts[i + 1].Payload? && !Outgrows(parts[i + 1].box, parts[i].box)
    requires !st.firstContainer && st.apexReached
    ensures ContainerStep(kinds, parts, i, st) == Err(MultipleApex(i))
    ensures Step(kinds, parts, i, st) == Err(MultipleApex(i))
  {
  }

  /** A later container followed by a non-container gets a frame at the current placement and
      one at End; the mode becomes End and the apex flag is left as it was. */
  lemma LastContainerDoubled(kinds: seq<Kind>, parts: seq<Sizing>, i: nat, st: Builder)
    requires |kinds| == |parts| && i + 1 < |kinds| && kinds[i] == Container && kinds[i + 1] != Container
    requires parts[i].Payload?
    requires !st.firstContainer
    ensures ContainerStep(kinds, parts, i, st)
         == Ok(Builder(st.plan + [Cut(parts[i].box, st.loc), Cut(parts[i].box, End)], false, st.apexReached, End))
  {
  }

  /** A nose or a motor as the current compartment adds no frame and changes no state
      (only the last pass may add the motor frame of the compartment after it). */
  lemma NonContainerAddsNothing(kinds: seq<Kind>, parts: seq<Sizing>, i: nat, st: Builder)
    requires |kinds| == |parts| && i + 1 < |kinds| && kinds[i] != Container
    requires !(i + 2 == |kinds| && kinds[i + 1] == Motor)
    ensures Step(kinds, parts, i, st) == Ok(st)
  {
  }

  /** With fewer than two compartments the loop never runs and no frame is built. */
  lemma ShortInputsBuildNothing(kinds: seq<Kind>, parts: seq<Sizing>)
    requires |kinds| == |parts| <= 1
    ensures FrameBuilder(kinds, parts) == Ok([])
  {
  }

  /** The last compartment is never the current element of the loop, so a container there gets
      no frame of its own, even when it is the first container or the widest one. */
  lemma LastCompartmentGetsNoFrame(b0: BBox, b1: BBox)
    ensures BuildPlan([Nose, Container], [Absent, Payload(b1)]) == Ok([])
    ensures BuildPlan([Container, Container], [Payload(b0), Payload(b1)]) == Ok([Cut(b0, Start)])
  {
  }

  predicate NoTail(plan: seq<Slot>) {
    forall k :: 0 <= k < |plan| ==> plan[k].Cut?
  }

  /** A run from a plan without motor frames ends with exactly one motor frame, the last, when the
      last compartment is a motor, and with none otherwise. */
  lemma {:induction false} RunTail(kinds: seq<Kind>, parts: seq<Sizing>, i: nat, st: Builder)
    requires |kinds| == |parts| && i + 1 < |kinds| && NoTail(st.plan)
    requires Run(kinds, parts, i, st).Ok?
    ensures var p := Run(kinds, parts, i, st).value.plan;
      if kinds[|kinds| - 1] == Motor then
        && |p| > 0 && parts[|kinds| - 1].Engine?
        && p[|p| - 1] == Tail(parts[|kinds| - 1].diameter, parts[|kinds| - 1].position)
        && NoTail(p[..|p| - 1])
      else
        NoTail(p)
    decreases |kinds| - i
  {
    var mid := if kinds[i] == Container then ContainerStep(kinds, parts, i, st) else Ok(st);
    assert mid.Ok?;
    assert NoTail(mid.value.plan) by {
      if kinds[i] == Container {
        forall k | 0 <= k < |mid.value.plan|
          ensures mid.value.plan[k].Cut?
        {
          if k < |st.plan| {
            assert mid.value.plan[k] == st.plan[k];
          }
        }
      }
    }
    var next := Step(kinds, parts, i, st).value;
    assert next == TailStep(kinds, parts, i, mid.value).value;
    if i + 2 == |kinds| {
      if kinds[i + 1] == Motor {
        assert next.plan[..|next.plan| - 1] == mid.value.plan;
      }
    } else {
      RunTail(kinds, parts, i + 1, next);
    }
  }

  /** The slot-level form of `MotorFrameLast`. */
  lemma PlanTail(kinds: seq<Kind>, parts: seq<Sizing>)
    requires BuildPlan(kinds, parts).Ok?
    ensures var p := BuildPlan(kinds, parts).value;
      if |kinds| >= 2 && kinds[|kinds| - 1] == Motor then
        && |p| > 0 && parts[|kinds| - 1].Engine?
        && p[|p| - 1] == Tail(parts[|kinds| - 1].diameter, parts[|kinds| - 1].position)
        && NoTail(p[..|p| - 1])
      else
        NoTail(p)
  {
    if |kinds| >= 2 {
      RunTail(kinds, parts, 0, Fresh);
    }
  }

  /** If the last of at least two compartments is a motor, the last frame is exactly one motor
      frame with that motor's diameter and position and every other frame is a cross-section;
      otherwise every frame is a cross-section. */
  lemma MotorFrameLast(kinds: seq<Kind>, parts: seq<Sizing>)
    requires FrameBuilder(kinds, parts).Ok?
    ensures var frames := FrameBuilder(kinds, parts).value;
      if |kinds| >= 2 && kinds[|kinds| - 1] == Motor then
        && |frames| > 0 && parts[|kinds| - 1].Engine?
        && frames[|frames| - 1] == MotorFrame(parts[|kinds| - 1].diameter, parts[|kinds| - 1].position)
        && forall k :: 0 <= k < |frames| - 1 ==> frames[k].Section?
      else
        forall k :: 0 <= k < |frames| ==> frames[k].Section?
  {
    PlanTail(kinds, parts);
    var plan := BuildPlan(kinds, parts).value;
    var frames := FrameBuilder(kinds, parts).value;
    assert frames == Frames(plan);
    if |kinds| >= 2 && kinds[|kinds| - 1] == Motor {
      assert frames[|frames| - 1] == Realize(plan[|plan| - 1]);
      forall k | 0 <= k < |frames| - 1
        ensures frames[k].Section?
      {
        assert plan[..|plan| - 1][k] == plan[k];
      }
    }
  }

  /** The validator of a fuselage frame: width and height must be positive. */
  predicate AcceptedByFFrame(f: FrameParams) {
    f.width > 0.0 && f.height > 0.0
  }

  /** When every container's box has positive width and height, every cross-section the builder
      emits passes the frame validator. */
  lemma EmittedFramesAcceptable(kinds: seq<Kind>, parts: seq<Sizing>)
    requires forall c :: 0 <= c < |kinds| && c < |parts| && kinds[c] == Container && parts[c].Payload? ==>
      Width(parts[c].box) > 0.0 && Height(parts[c].box) > 0.0
    requires FrameBuilder(kinds, parts).Ok?
    ensures forall f :: f in FrameBuilder(kinds, parts).value && f.Section? ==> AcceptedByFFrame(f.params)
  {
    var plan := BuildPlan(kinds, parts).value;
    var frames := FrameBuilder(kinds, parts).value;
    forall f | f in frames && f.Section?
      ensures AcceptedByFFrame(f.params)
    {
      var k :| 0 <= k < |frames| && frames[k] == f;
      assert frames[k] == Realize(plan[k]);
      assert FromContainer(kinds, parts, plan[k].box);
    }
  }
}
