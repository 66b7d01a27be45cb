/**
 A stateless description of what the frame builder produces, and the
 theorems connecting it with the stateful run.

 For well-formed input (every container slot holds a payload box and a
 trailing motor slot holds a motor) the output is determined compartment by
 compartment, without threading state:
 - a container that is not the last compartment gets one frame, or two
   ("doubled") when it is not the first container and is followed either by
   a non-container or by a container that does not outgrow it (an "apex");
 - a frame's placement is End exactly when some earlier container was
   doubled, Start otherwise; the second frame of a doubled container is End;
 - a trailing motor adds one motor frame.
 The build fails precisely when two apexes occur.
 */
module FrameReference {
  import opened BoundingBox
  import opened Fuselage
  import opened FuselageProperties

  ghost predicate WellFormed(kinds: seq<Kind>, parts: seq<Sizing>) {
    && |kinds| == |parts|
    && (forall c :: 0 <= c < |kinds| && kinds[c] == Container ==> parts[c].Payload?)
    && (|kinds| >= 2 && kinds[|kinds| - 1] == Motor ==> parts[|kinds| - 1].Engine?)
  }

  ghost predicate ContainerBefore(kinds: seq<Kind>, i: nat) {
    exists c :: 0 <= c < i && c < |kinds| && kinds[c] == Container
  }

  /** Compartment `i` is a later container whose successor is a container that does not
      outgrow it. */
  ghost predicate IsApex(kinds: seq<Kind>, parts: seq<Sizing>, i: nat) {
    && i + 1 < |kinds| && i + 1 < |parts|
    && kinds[i] == Container && kinds[i + 1] == Container
    && ContainerBefore(kinds, i)
    && parts[i].Payload? && parts[i + 1].Payload?
    && !Outgrows(parts[i + 1].box, parts[i].box)
  }

  /** Compartment `i` is a later container that gets two frames. */
  ghost predicate Doubled(kinds: seq<Kind>, parts: seq<Sizing>, i: nat) {
    && i + 1 < |kinds|
    && kinds[i] == Container
    && ContainerBefore(kinds, i)
    && (kinds[i + 1] != Container || IsApex(kinds, parts, i))
  }

  ghost predicate ApexBefore(kinds: seq<Kind>, parts: seq<Sizing>, i: nat) {
    exists a :: 0 <= a < i && IsApex(kinds, parts, a)
  }

  ghost predicate DoubledBefore(kinds: seq<Kind>, parts: seq<Sizing>, i: nat) {
    exists d :: 0 <= d < i && Doubled(kinds, parts, d)
  }

  ghost predicate TwoApexes(kinds: seq<Kind>, parts: seq<Sizing>) {
    exists a, b :: 0 <= a < b && IsApex(kinds, parts, a) && IsApex(kinds, parts, b)
  }

  /** The placement in force when compartment `i` is reached. */
  ghost function LocBefore(kinds: seq<Kind>, parts: seq<Sizing>, i: nat): Placement {
    if DoubledBefore(kinds, parts, i) then End else Start
  }

  /** The cuts compartment `i` contributes. */
  ghost function Contribution(kinds: seq<Kind>, parts: seq<Sizing>, i: nat): seq<Slot>
    requires WellFormed(kinds, parts) && i < |kinds|
  {
    if i + 1 < |kinds| && kinds[i] == Container then
      var b := parts[i].box;
      if Doubled(kinds, parts, i) then [Cut(b, LocBefore(kinds, parts, i)), Cut(b, End)]
      else [Cut(b, LocBefore(kinds, parts, i))]
    else
      []
  }

  /** The cuts of compartments 0 .. hi - 1, in order. */
  ghost function Sections(kinds: seq<Kind>, parts: seq<Sizing>, hi: nat): seq<Slot>
    requires WellFormed(kinds, parts) && hi <= |kinds|
  {
    if hi == 0 then [] else Sections(kinds, parts, hi - 1) + Contribution(kinds, parts, hi - 1)
  }

  ghost function TailSlot(kinds: seq<Kind>, parts: seq<Sizing>): seq<Slot>
    requires WellFormed(kinds, parts)
  {
    if |kinds| >= 2 && kinds[|kinds| - 1] == Motor then
      [Tail(parts[|kinds| - 1].diameter, parts[|kinds| - 1].position)]
    else
      []
  }

  ghost function ExpectedPlan(kinds: seq<Kind>, parts: seq<Sizing>): seq<Slot>
    requires WellFormed(kinds, parts)
  {
    Sections(kinds, parts, |kinds|) + TailSlot(kinds, parts)
  }

  /** The builder's three flags agree with the stateless description at compartment `i`. */
  ghost predicate Tracks(kinds: seq<Kind>, parts: seq<Sizing>, i: nat, st: Builder) {
    && st.firstContainer == !ContainerBefore(kinds, i)
    && st.apexReached == ApexBefore(kinds, parts, i)
    && st.loc == LocBefore(kinds, parts, i)
  }

  lemma BeforeNext(kinds: seq<Kind>, parts: seq<Sizing>, i: nat)
    requires i < |kinds|
    ensures ContainerBefore(kinds, i + 1) <==> ContainerBefore(kinds, i) || kinds[i] == Container
    ensures ApexBefore(kinds, parts, i + 1) <==> ApexBefore(kinds, parts, i) || IsApex(kinds, parts, i)
    ensures DoubledBefore(kinds, parts, i + 1) <==> DoubledBefore(kinds, parts, i) || Doubled(kinds, parts, i)
  {
    if ContainerBefore(kinds, i + 1) && !ContainerBefore(kinds, i) {
      var c :| 0 <= c < i + 1 && c < |kinds| && kinds[c] == Container;
      assert c == i;
    }
    if ApexBefore(kinds, parts, i + 1) && !ApexBefore(kinds, parts, i) {
      var a :| 0 <= a < i + 1 && IsApex(kinds, parts, a);
      assert a == i;
    }
    if DoubledBefore(kinds, parts, i + 1) && !DoubledBefore(kinds, parts, i) {
      var d :| 0 <= d < i + 1 && Doubled(kinds, parts, d);
      assert d == i;
    }
  }

  /** One pass of the loop, from a state that agrees with the description, emits exactly the
      contribution of compartment `i` (and the motor frame on the last pass), and agrees with
      the description at `i + 1` — unless it meets a second apex. */
  lemma StepTracks(kinds: seq<Kind>, parts: seq<Sizing>, i: nat, st: Builder)
    requires WellFormed(kinds, parts) && i + 1 < |kinds|
    requires Tracks(kinds, parts, i, st)
    requires !(IsApex(kinds, parts, i) && ApexBefore(kinds, parts, i))
    ensures Step(kinds, parts, i, st).Ok?
    ensures Tracks(kinds, parts, i + 1, Step(kinds, parts, i, st).value)
    ensures Step(kinds, parts, i, st).value.plan
         == st.plan + Contribution(kinds, parts, i) + (if i + 2 == |kinds| then TailSlot(kinds, parts) else [])
  {
    BeforeNext(kinds, parts, i);
    if kinds[i] == Container && kinds[i + 1] == Container {
      PlacementKeepsShape(parts[i].box, st.loc, Start);
    }
  }

  /** One pass with at most one apex in the input: the plan grows from the reference sections
      before `i` to those before `i + 1` (plus the motor frame on the last pass). */
  lemma StepFollowsReference(kinds: seq<Kind>, parts: seq<Sizing>, i: nat, st: Builder)
    requires WellFormed(kinds, parts) && !TwoApexes(kinds, parts)
    requires i + 1 < |kinds| && Tracks(kinds, parts, i, st) && st.plan == Sections(kinds, parts, i)
    ensures Step(kinds, parts, i, st).Ok?
    ensures Tracks(kinds, parts, i + 1, Step(kinds, parts, i, st).value)
    ensures Step(kinds, parts, i, st).value.plan
         == Sections(kinds, parts, i + 1) + (if i + 2 == |kinds| then TailSlot(kinds, parts) else [])
    ensures Run(kinds, parts, i, st) == Run(kinds, parts, i + 1, Step(kinds, parts, i, st).value)
  {
    assert !(IsApex(kinds, parts, i) && ApexBefore(kinds, parts, i));
    StepTracks(kinds, parts, i, st);
  }

  /** The last compartment contributes no cut. */
  lemma LastAddsNoSection(kinds: seq<Kind>, parts: seq<Sizing>)
    requires WellFormed(kinds, parts) && |kinds| > 0
    ensures Sections(kinds, parts, |kinds|) == Sections(kinds, parts, |kinds| - 1)
  {
    assert Contribution(kinds, parts, |kinds| - 1) == [];
  }

  /** The last pass completes the reference plan. */
  lemma LastPassFollowsReference(kinds: seq<Kind>, parts: seq<Sizing>, st: Builder)
    requires WellFormed(kinds, parts) && !TwoApexes(kinds, parts) && |kinds| >= 2
    requires Tracks(kinds, parts, |kinds| - 2, st) && st.plan == Sections(kinds, parts, |kinds| - 2)
    ensures Run(kinds, parts, |kinds| - 2, st).Ok?
    ensures Run(kinds, parts, |kinds| - 2, st).value.plan == ExpectedPlan(kinds, parts)
  {
    var i := |kinds| - 2;
    StepFollowsReference(kinds, parts, i, st);
    assert Run(kinds, parts, i + 1, Step(kinds, parts, i, st).value) == Ok(Step(kinds, parts, i, st).value);
    LastAddsNoSection(kinds, parts);
  }

  /** With at most one apex in the input, the run from a state that agrees with the description
      emits exactly the reference plan. */
  lemma {:induction false} RunFollowsReference(kinds: seq<Kind>, parts: seq<Sizing>, i: nat, st: Builder)
    requires WellFormed(kinds, parts) && !TwoApexes(kinds, parts)
    requires i + 1 < |kinds| && Tracks(kinds, parts, i, st) && st.plan == Sections(kinds, parts, i)
    ensures Run(kinds, parts, i, st).Ok?
    ensures Run(kinds, parts, i, st).value.plan == ExpectedPlan(kinds, parts)
    decreases |kinds| - i
  {
    if i + 2 == |kinds| {
      LastPassFollowsReference(kinds, parts, st);
    } else {
      StepFollowsReference(kinds, parts, i, st);
      RunFollowsReference(kinds, parts, i + 1, Step(kinds, parts, i, st).value);
    }
  }

  /** If an apex preceded by another apex lies ahead, the run fails with the one-apex error. */
  lemma {:induction false} RunHitsSecondApex(kinds: seq<Kind>, parts: seq<Sizing>, i: nat, st: Builder, j: nat)
    requires WellFormed(kinds, parts) && i + 1 < |kinds|
    requires Tracks(kinds, parts, i, st)
    requires i <= j && IsApex(kinds, parts, j) && ApexBefore(kinds, parts, j)
    ensures Run(kinds, parts, i, st).Err? && Run(kinds, parts, i, st).error.MultipleApex?
    decreases j - i
  {
    if IsApex(kinds, parts, i) && ApexBefore(kinds, parts, i) {
      SecondApexRejected(kinds, parts, i, st);
    } else {
      StepTracks(kinds, parts, i, st);
      RunHitsSecondApex(kinds, parts, i + 1, Step(kinds, parts, i, st).value, j);
    }
  }

  /** For well-formed input the build succeeds exactly when there is at most one apex; it then
      emits the reference plan, and otherwise fails with the one-apex error. */
  lemma SingleApexIff(kinds: seq<Kind>, parts: seq<Sizing>)
    requires WellFormed(kinds, parts)
    ensures BuildPlan(kinds, parts).Ok? <==> !TwoApexes(kinds, parts)
    ensures BuildPlan(kinds, parts).Ok? ==> BuildPlan(kinds, parts).value == ExpectedPlan(kinds, parts)
    ensures BuildPlan(kinds, parts).Err? ==> BuildPlan(kinds, parts).error.MultipleApex?
  {
    if |kinds| <= 1 {
      assert !TwoApexes(kinds, parts);
      if |kinds| == 1 {
        assert Sections(kinds, parts, 1) == Sections(kinds, parts, 0) + Contribution(kinds, parts, 0);
      }
    } else if TwoApexes(kinds, parts) {
      var a, b :| 0 <= a < b && IsApex(kinds, parts, a) && IsApex(kinds, parts, b);
      assert ApexBefore(kinds, parts, b);
      RunHitsSecondApex(kinds, parts, 0, Fresh, b);
    } else {
      RunFollowsReference(kinds, parts, 0, Fresh);
    }
  }

  /** Why a build failed: each error names a compartment that shows it. */
  ghost predicate Explained(kinds: seq<Kind>, parts: seq<Sizing>, e: BuildError) {
    match e
    case LengthMismatch => |kinds| != |parts|
    case NoShape(at) => at < |kinds| && at < |parts| && kinds[at] == Container && !parts[at].Payload?
    case NoMotor(at) => at + 1 == |kinds| && at < |parts| && kinds[at] == Motor && !parts[at].Engine?
    case MultipleApex(at) => IsApex(kinds, parts, at) && ApexBefore(kinds, parts, at)
  }

  /** What the flags of a state can be relied on for, without well-formedness. */
  ghost predicate Sound(kinds: seq<Kind>, parts: seq<Sizing>, i: nat, st: Builder) {
    && (!st.firstContainer ==> ContainerBefore(kinds, i))
    && (st.apexReached ==> ApexBefore(kinds, parts, i))
  }

  /** A pass sets its flags only for containers and apexes actually seen, and any error it raises
      is explained by the input. */
  lemma StepSound(kinds: seq<Kind>, parts: seq<Sizing>, i: nat, st: Builder)
    requires |kinds| == |parts| && i + 1 < |kinds| && Sound(kinds, parts, i, st)
    ensures Step(kinds, parts, i, st).Ok? ==> Sound(kinds, parts, i + 1, Step(kinds, parts, i, st).value)
    ensures Step(kinds, parts, i, st).Err? ==> Explained(kinds, parts, Step(kinds, parts, i, st).error)
  {
    BeforeNext(kinds, parts, i);
    if kinds[i] == Container && kinds[i + 1] == Container && parts[i].Payload? {
      PlacementKeepsShape(parts[i].box, st.loc, Start);
    }
  }

  /** Every error of the loop from a sound state is explained by the input. */
  lemma {:induction false} RunSound(kinds: seq<Kind>, parts: seq<Sizing>, i: nat, st: Builder)
    requires |kinds| == |parts| && i <= |kinds| && Sound(kinds, parts, i, st)
    ensures Run(kinds, parts, i, st).Err? ==> Explained(kinds, parts, Run(kinds, parts, i, st).error)
    decreases |kinds| - i
  {
    if i + 1 < |kinds| {
      StepSound(kinds, parts, i, st);
      if Step(kinds, parts, i, st).Ok? {
        RunSound(kinds, parts, i + 1, Step(kinds, parts, i, st).value);
      }
    }
  }

  /** Every failure of the builder is explained by the input: mismatched lengths, a container
      without a shape, a trailing motor slot without a motor, or a second apex (an apex with an
      earlier one). */
  lemma FailuresExplained(kinds: seq<Kind>, parts: seq<Sizing>)
    ensures FrameBuilder(kinds, parts).Err? ==> Explained(kinds, parts, FrameBuilder(kinds, parts).error)
  {
    if |kinds| == |parts| {
      RunSound(kinds, parts, 0, Fresh);
    }
  }

  /** A box of the given width and height, half a unit long, starting at `x`. */
  function SampleBox(x: real, width: real, height: real): BBox {
    BBox(Point(x, 0.0, 0.0), Point(x + 0.5, width, height))
  }

  /** A fuselage that tapers over two successive steps after its widest container is rejected
      with the one-apex error, although its cross-section is largest at one station only. */
  lemma TaperedTailRejected()
    ensures FrameBuilder(
              [Container, Container, Container, Container, Motor],
              [Payload(SampleBox(0.0, 1.0, 1.0)), Payload(SampleBox(1.0, 3.0, 3.0)),
               Payload(SampleBox(2.0, 2.0, 2.0)), Payload(SampleBox(3.0, 1.0, 1.0)),
               Engine(0.2, Point(4.0, 0.0, 0.0))])
         == Err(MultipleApex(2))
  {
    var kinds := [Container, Container, Container, Container, Motor];
    var parts := [Payload(SampleBox(0.0, 1.0, 1.0)), Payload(SampleBox(1.0, 3.0, 3.0)),
                  Payload(SampleBox(2.0, 2.0, 2.0)), Payload(SampleBox(3.0, 1.0, 1.0)),
                  Engine(0.2, Point(4.0, 0.0, 0.0))];
    FirstContainerOneFrame(kinds, parts, 0, Fresh);
    var s1 := Step(kinds, parts, 0, Fresh).value;
    FirstApexDoubled(kinds, parts, 1, s1);
    var s2 := Step(kinds, parts, 1, s1).value;
    SecondApexRejected(kinds, parts, 2, s2);
    assert Run(kinds, parts, 2, s2) == Err(MultipleApex(2));
    assert Run(kinds, parts, 1, s1) == Err(MultipleApex(2));
  }
}
