/** The scene controller: the input mode (sign and magnitude of the next
    charge), the charge store and the dipole's placement, moment and angle,
    and how mouse and key events change them.

    `Scene` is the state as a value and `OnEvent` its transition function;
    `SceneState` is the same state held in fields that its methods update in
    place, each method proved to perform exactly the corresponding transition.
    Decoding the windowing library's events into `Event` values is not modelled. */
module Controller {
  import opened Charges
  import opened Field
  import opened Dipole

  /** The keys the controller reacts to; every other key is `OtherKey`. */
  datatype Key = Up | Down | Right | Left | KeyW | KeyS | KeyA | KeyD | OtherKey

  datatype Event =
    | Quit
    | MouseDown(pos: Point, shift: bool)
    | KeyPress(key: Key)
    | OtherEvent

  datatype Scene = Scene(
    charges: seq<Charge>,
    sign: int,
    value: int,
    dipole: Option<Point>,
    moment: int,
    angle: int)

  /** Degrees the dipole turns per key press. */
  const ANGLE_STEP: int := 5

  /** The state at start-up: no charges, positive unit charge selected, no dipole,
      unit moment, angle 0. */
  const Initial: Scene := Scene([], 1, 1, None, 1, 0)

  /** What the controller keeps true: the sign is +1 or -1, the charge value and
      the dipole moment are at least 1, and every placed charge is non-zero and
      coloured by its sign. */
  predicate Invariant(s: Scene) {
    && (s.sign == 1 || s.sign == -1)
    && s.value >= 1
    && s.moment >= 1
    && forall i :: 0 <= i < |s.charges| ==> WellFormed(s.charges[i])
  }

  function Max(a: int, b: int): int {
    if a < b then b else a
  }

  /** The charge a plain click at `pos` places. */
  function PlacedCharge(s: Scene, pos: Point): (c: Charge)
    ensures c.x == pos.x && c.y == pos.y && c.q == s.sign * s.value
    ensures c.color == POSITIVE_CHARGE_COLOR <==> s.sign > 0
    ensures Invariant(s) ==> WellFormed(c)
  {
    Charge(pos.x, pos.y, s.sign * s.value, ColorFor(s.sign))
  }

  /** A mouse click: with shift held it places the dipole, otherwise it appends
      one charge at the end of the store. */
  function OnClick(s: Scene, pos: Point, shift: bool): (r: Scene)
    ensures shift ==> r.dipole == Some(pos) && r.(dipole := s.dipole) == s
    ensures !shift ==>
      && |r.charges| == |s.charges| + 1
      && r.charges[..|s.charges|] == s.charges
      && r.charges[|s.charges|] == PlacedCharge(s, pos)
      && r.(charges := s.charges) == s
    ensures Invariant(s) ==> Invariant(r)
  {
    if shift then s.(dipole := Some(pos))
    else s.(charges := s.charges + [PlacedCharge(s, pos)])
  }

  /** How many of sign, value, moment and angle differ between `s` and `r`. */
  function Changes(s: Scene, r: Scene): nat {
    (if s.sign != r.sign then 1 else 0) + (if s.value != r.value then 1 else 0)
    + (if s.moment != r.moment then 1 else 0) + (if s.angle != r.angle then 1 else 0)
  }

  /** A key press: at most one setting changes; keys never touch the store or
      the dipole's position; only UP and DOWN set the sign, only RIGHT and LEFT
      the value (LEFT only above 1), only W and S the moment (S only above 1),
      and only A and D the angle, by exactly -5 and +5. */
  function OnKey(s: Scene, k: Key): (r: Scene)
    ensures r.charges == s.charges && r.dipole == s.dipole
    ensures Changes(s, r) <= 1
    ensures r.sign != s.sign ==> k == Up || k == Down
    ensures (k == Up ==> r.sign == 1) && (k == Down ==> r.sign == -1)
    ensures r.value > s.value <==> k == Right
    ensures r.value < s.value <==> k == Left && s.value > 1
    ensures r.moment > s.moment <==> k == KeyW
    ensures r.moment < s.moment <==> k == KeyS && s.moment > 1
    ensures r.angle == s.angle - ANGLE_STEP <==> k == KeyA
    ensures r.angle == s.angle + ANGLE_STEP <==> k == KeyD
    ensures r.value != s.value ==> r.value - s.value in {-1, 1}
    ensures r.moment != s.moment ==> r.moment - s.moment in {-1, 1}
    ensures r.angle != s.angle ==> k == KeyA || k == KeyD
    ensures Invariant(s) ==> Invariant(r)
  {
    match k
    case Up => s.(sign := 1)
    case Down => s.(sign := -1)
    case Right => s.(value := s.value + 1)
    case Left => if s.value > 1 then s.(value := s.value - 1) else s
    case KeyW => s.(moment := s.moment + 1)
    case KeyS => if s.moment > 1 then s.(moment := s.moment - 1) else s
    case KeyA => s.(angle := s.angle - ANGLE_STEP)
    case KeyD => s.(angle := s.angle + ANGLE_STEP)
    case OtherKey => s
  }

  /** One event. A quit request or any other event leaves the scene as it is. */
  function OnEvent(s: Scene, e: Event): (r: Scene)
    ensures e.Quit? || e.OtherEvent? ==> r == s
    ensures s.charges <= r.charges
    ensures Invariant(s) ==> Invariant(r)
  {
    match e
    case Quit => s
    case MouseDown(pos, shift) => OnClick(s, pos, shift)
    case KeyPress(k) => OnKey(s, k)
    case OtherEvent => s
  }

  /** The events of one or more frames, in order. Every scene reachable from a
      valid one satisfies the invariant. */
  function OnEvents(s: Scene, es: seq<Event>): (r: Scene)
    ensures Invariant(s) ==> Invariant(r)
  {
    if es == [] then s
    else OnEvent(OnEvents(s, es[..|es| - 1]), es[|es| - 1])
  }

  /** The number of occurrences of `e` in `es`. */
  function Count(es: seq<Event>, e: Event): nat {
    if es == [] then 0
    else Count(es[..|es| - 1], e) + (if es[|es| - 1] == e then 1 else 0)
  }

  /** The number of plain (unshifted) clicks in `es`. */
  function Placements(es: seq<Event>): nat {
    if es == [] then 0
    else Placements(es[..|es| - 1]) + (if es[|es| - 1].MouseDown? && !es[|es| - 1].shift then 1 else 0)
  }

  /** `n` presses of `k` in a row. */
  function Presses(k: Key, n: nat): (es: seq<Event>)
    ensures |es| == n
  {
    if n == 0 then [] else Presses(k, n - 1) + [KeyPress(k)]
  }

  /** Every scene the program can reach from start-up satisfies the invariant:
      the charge value and the moment never drop below 1 and the sign is +1 or -1. */
  lemma ReachableScenesKeepInvariant(es: seq<Event>)
    ensures Invariant(OnEvents(Initial, es))
  {
  }

  /** The angle is the starting angle plus 5 degrees per D press minus 5 per A press. */
  lemma {:induction false} AngleCountsTurns(s: Scene, es: seq<Event>)
    ensures OnEvents(s, es).angle == s.angle + ANGLE_STEP * (Count(es, KeyPress(KeyD)) - Count(es, KeyPress(KeyA)))
  {
    if es != [] {
      AngleCountsTurns(s, es[..|es| - 1]);
    }
  }

  /** The store only grows: earlier charges stay in place and exactly one charge
      is appended per plain click. */
  lemma {:induction false} StoreIsAppendOnly(s: Scene, es: seq<Event>)
    ensures |OnEvents(s, es).charges| == |s.charges| + Placements(es)
    ensures s.charges <= OnEvents(s, es).charges
  {
    if es != [] {
      var prefix := es[..|es| - 1];
      StoreIsAppendOnly(s, prefix);
    }
  }

  /** RIGHT presses raise the value by one each and change nothing else. */
  lemma {:induction false} RightPressesAdd(s: Scene, n: nat)
    ensures OnEvents(s, Presses(Right, n)) == s.(value := s.value + n)
  {
    if n > 0 {
      RightPressesAdd(s, n - 1);
      assert Presses(Right, n)[..n - 1] == Presses(Right, n - 1);
    }
  }

  /** LEFT presses lower the value by one each but never below 1, and change
      nothing else. */
  lemma {:induction false} LeftPressesFloorAtOne(s: Scene, n: nat)
    requires s.value >= 1
    ensures OnEvents(s, Presses(Left, n)) == s.(value := Max(1, s.value - n))
  {
    if n > 0 {
      LeftPressesFloorAtOne(s, n - 1);
      assert Presses(Left, n)[..n - 1] == Presses(Left, n - 1);
    }
  }

  /** D presses turn the dipole by 5 degrees each and change nothing else. */
  lemma {:induction false} TurnsAddUp(s: Scene, n: nat)
    ensures OnEvents(s, Presses(KeyD, n)) == s.(angle := s.angle + ANGLE_STEP * n)
  {
    if n > 0 {
      TurnsAddUp(s, n - 1);
      assert Presses(KeyD, n)[..n - 1] == Presses(KeyD, n - 1);
    }
  }

  /** Events processed in two batches give the same scene as processed in one. */
  lemma {:induction false} OnEventsConcat(s: Scene, a: seq<Event>, b: seq<Event>)
    ensures OnEvents(s, a + b) == OnEvents(OnEvents(s, a), b)
  {
    if b == [] {
      assert a + b == a;
    } else {
      assert (a + b)[..|a + b| - 1] == a + b[..|b| - 1];
      OnEventsConcat(s, a, b[..|b| - 1]);
    }
  }

  /** From start-up, five RIGHT presses give value 6, one LEFT press then gives 5,
      and any number of further LEFT presses leaves it at least 1. */
  lemma ChargeValueScenario(n: nat)
    ensures OnEvents(Initial, Presses(Right, 5)).value == 6
    ensures OnEvents(Initial, Presses(Right, 5) + Presses(Left, 1)).value == 5
    ensures OnEvents(Initial, Presses(Right, 5) + Presses(Left, 1) + Presses(Left, n)).value == Max(1, 5 - n)
  {
    RightPressesAdd(Initial, 5);
    var six := OnEvents(Initial, Presses(Right, 5));
    OnEventsConcat(Initial, Presses(Right, 5), Presses(Left, 1));
    LeftPressesFloorAtOne(six, 1);
    var five := OnEvents(six, Presses(Left, 1));
    OnEventsConcat(Initial, Presses(Right, 5) + Presses(Left, 1), Presses(Left, n));
    LeftPressesFloorAtOne(five, n);
  }

  /** The force and torque readout, shown only once a dipole has been placed. */
  function DipoleReadout(s: Scene, dist: (int, int) -> real, norm: (real, real) -> real, sinDeg: int -> real): (r: Option<Reading>)
    ensures r.Some? <==> s.dipole.Some?
    ensures r.Some? ==> r.value.field == FieldAt(s.charges, s.dipole.value.x, s.dipole.value.y, dist)
  {
    match s.dipole
    case None => None
    case Some(pos) => Some(ForceAndMoment(s.charges, dist, norm, sinDeg, pos, s.moment, s.angle))
  }

  /** A dipole placed at angle 0 exerts no torque (sin 0 = 0); after eighteen D
      presses it stands at 90 degrees and its torque equals its force
      (sin 90 = 1). */
  lemma QuarterTurnScenario(s: Scene, dist: (int, int) -> real, norm: (real, real) -> real, sinDeg: int -> real)
    requires s.dipole.Some? && s.angle == 0
    requires sinDeg(0) == 0.0 && sinDeg(90) == 1.0
    ensures DipoleReadout(s, dist, norm, sinDeg).value.torque == 0.0
    ensures var t := OnEvents(s, Presses(KeyD, 18));
      && t.angle == 90 && t.dipole.Some?
      && DipoleReadout(t, dist, norm, sinDeg).value.torque == DipoleReadout(t, dist, norm, sinDeg).value.force
  {
    TurnsAddUp(s, 18);
  }

  /** The scene state as the running program holds it: fields that the event
      handlers update in place. */
  class SceneState {
    var charges: seq<Charge>
    var sign: int
    var value: int
    var dipole: Option<Point>
    var moment: int
    var angle: int

    function Snapshot(): Scene
      reads this
    {
      Scene(charges, sign, value, dipole, moment, angle)
    }

    ghost predicate Valid()
      reads this
    {
      Invariant(Snapshot())
    }

    constructor ()
      ensures Valid() && Snapshot() == Initial
    {
      charges := [];
      sign := 1;
      value := 1;
      dipole := None;
      moment := 1;
      angle := 0;
    }

    /** A mouse click at `pos`, with or without shift held. */
    method Click(pos: Point, shift: bool)
      requires Valid()
      modifies this
      ensures Valid()
      ensures Snapshot() == OnClick(old(Snapshot()), pos, shift)
    {
      if shift {
        dipole := Some(pos);
      } else {
        var color := if sign > 0 then POSITIVE_CHARGE_COLOR else NEGATIVE_CHARGE_COLOR;
        charges := charges + [Charge(pos.x, pos.y, sign * value, color)];
      }
    }

    /** A key press, handled by the first matching branch of the key chain. */
    method KeyDown(key: Key)
      requires Valid()
      modifies this
      ensures Valid()
      ensures Snapshot() == OnKey(old(Snapshot()), key)
    {
      if key == Up {
        sign := 1;
      } else if key == Down {
        sign := -1;
      } else if key == Right {
        value := value + 1;
      } else if key == Left && value > 1 {
        value := value - 1;
      } else if key == KeyW {
        moment := moment + 1;
      } else if key == KeyS && moment > 1 {
        moment := moment - 1;
      } else if key == KeyA {
        angle := angle - ANGLE_STEP;
      } else if key == KeyD {
        angle := angle + ANGLE_STEP;
      }
    }

    /** One event from the input queue. */
    method Handle(e: Event)
      requires Valid()
      modifies this
      ensures Valid()
      ensures Snapshot() == OnEvent(old(Snapshot()), e)
    {
      match e
      case Quit =>
      case MouseDown(pos, shift) => Click(pos, shift);
      case KeyPress(k) => KeyDown(k);
      case OtherEvent =>
    }

    /** The events of a frame, drained in order. */
    method HandleAll(es: seq<Event>)
      requires Valid()
      modifies this
      ensures Valid()
      ensures Snapshot() == OnEvents(old(Snapshot()), es)
    {
      for i := 0 to |es|
        invariant Valid()
        invariant Snapshot() == OnEvents(old(Snapshot()), es[..i])
      {
        Handle(es[i]);
        assert es[..i + 1][..i] == es[..i];
      }
      assert es[..|es|] == es;
    }
  }
}
