/**
 * The pointer interaction of the scene: hovering highlights an unselected
 * cube and shows its label, clicking selects it in the colour of the player
 * whose turn it is. Cubes are identified by their position in the group.
 */
module Interaction {
  import opened Wrappers

  /** Colour of a cube nobody has selected or hovered (`0xaaaaaa`). */
  const IdleColor: int := 0xaaaaaa
  /** Colour of the hovered cube (`0x888888`). */
  const HoverColor: int := 0x888888
  /** Colour of a cube selected on player one's turn (`0x4444ff`). */
  const PlayerOneColor: int := 0x4444ff
  /** Colour of a cube selected on player two's turn (`0xff4444`). */
  const PlayerTwoColor: int := 0xff4444

  /** The uniform scale of a cube: 1, or 1.1 while hovered. */
  datatype Scale = Unit | Enlarged

  /**
   * What the handlers read and write of one cube: `userData.selected`, the
   * material colour, the scale and the opacity of its label planes (0 or 1).
   */
  datatype Look = Look(selected: bool, color: int, scale: Scale, labelOpacity: int)

  /** The globals `hoveredCube` and `isPlayerOneTurn` together with every cube's look. */
  datatype State = State(looks: seq<Look>, hovered: Option<nat>, isPlayerOneTurn: bool)

  /** A cube as `createCubes` builds it. */
  const Idle: Look := Look(false, IdleColor, Unit, 0)
  /** An unselected cube under `applyHoverEffect`. */
  const Highlighted: Look := Look(false, HoverColor, Enlarged, 1)

  function PlayerColor(isPlayerOneTurn: bool): int {
    if isPlayerOneTurn then PlayerOneColor else PlayerTwoColor
  }

  /** `applyHoverEffect`: darker colour, scale 1.1, label shown. */
  function Hover(l: Look): Look {
    l.(color := HoverColor, scale := Enlarged, labelOpacity := 1)
  }

  /** `resetHoverEffect`: idle colour, scale 1, label hidden. */
  function Reset(l: Look): Look {
    l.(color := IdleColor, scale := Unit, labelOpacity := 0)
  }

  /** The body of a successful click on one cube; the scale is left as it was. */
  function Mark(l: Look, isPlayerOneTurn: bool): Look {
    l.(selected := true, color := PlayerColor(isPlayerOneTurn), labelOpacity := 1)
  }

  /** `hoveredCube` names one of the cubes. */
  predicate WellFormed(s: State) {
    s.hovered.Some? ==> s.hovered.value < |s.looks|
  }

  /** A raycast hit names one of the cubes, or nothing. */
  predicate HitIn(s: State, hit: Option<nat>) {
    hit.Some? ==> hit.value < |s.looks|
  }

  /** The scene after `init`: `n` idle cubes, nothing hovered, player one to move. */
  function Init(n: nat): State {
    State(seq(n, _ => Idle), None, true)
  }

  /** The looks after `resetHoverEffect(hoveredCube)` when `hoveredCube` is set. */
  function ResetHovered(s: State): seq<Look>
    requires WellFormed(s)
  {
    if s.hovered.Some? then s.looks[s.hovered.value := Reset(s.looks[s.hovered.value])] else s.looks
  }

  /** `onMouseMove`, given the first cube the ray hits (labels are filtered out by the caller). */
  function MouseMove(s: State, hit: Option<nat>): (r: State)
    requires WellFormed(s) && HitIn(s, hit)
    ensures |r.looks| == |s.looks| && WellFormed(r)
  {
    match hit
    case Some(i) =>
      if hit == s.hovered then s
      else if !s.looks[i].selected then
        var looks := ResetHovered(s);
        State(looks[i := Hover(looks[i])], hit, s.isPlayerOneTurn)
      else
        // The previous cube loses its highlight but stays in `hoveredCube`.
        State(ResetHovered(s), s.hovered, s.isPlayerOneTurn)
    case None =>
      State(ResetHovered(s), None, s.isPlayerOneTurn)
  }

  /** `onMouseClick`, given the first cube the ray hits. */
  function MouseClick(s: State, hit: Option<nat>): (r: State)
    requires WellFormed(s) && HitIn(s, hit)
    ensures |r.looks| == |s.looks| && WellFormed(r)
  {
    match hit
    case None => s
    case Some(i) =>
      if s.looks[i].selected then s
      else
        State(s.looks[i := Mark(s.looks[i], s.isPlayerOneTurn)],
              if s.hovered == hit then None else s.hovered,
              !s.isPlayerOneTurn)
  }

  /** Whether a look counts as a cube of the given player. */
  function Owns(l: Look, color: int): nat {
    if l.selected && l.color == color then 1 else 0
  }

  /** Number of selected cubes of the given colour. */
  function Owned(looks: seq<Look>, color: int): nat {
    if looks == [] then 0 else Owned(looks[..|looks| - 1], color) + Owns(looks[|looks| - 1], color)
  }

  /** The look of cube `i` is one the handlers can produce for it. */
  predicate LookOk(s: State, i: nat)
    requires i < |s.looks|
  {
    var l := s.looks[i];
    if l.selected then
      (l.color == PlayerOneColor || l.color == PlayerTwoColor) && l.labelOpacity == 1
    else if s.hovered == Some(i) then
      l == Idle || l == Highlighted
    else
      l == Idle
  }

  /**
   * The invariant of the interaction: `hoveredCube` is unset or an unselected
   * cube; selected cubes show a player colour and their label; unselected cubes
   * are idle, except the hovered one, which may be highlighted; and player one
   * owns as many cubes as player two, or one more when it is player two's turn.
   */
  predicate Consistent(s: State) {
    && WellFormed(s)
    && (s.hovered.Some? ==> !s.looks[s.hovered.value].selected)
    && (forall i: nat :: i < |s.looks| ==> LookOk(s, i))
    && Owned(s.looks, PlayerOneColor) == Owned(s.looks, PlayerTwoColor) + if s.isPlayerOneTurn then 0 else 1
  }

  /** Counting after one cube's look changes. */
  lemma {:induction false} OwnedUpdate(looks: seq<Look>, i: nat, l: Look, color: int)
    requires i < |looks|
    ensures Owned(looks[i := l], color) == Owned(looks, color) - Owns(looks[i], color) + Owns(l, color)
    decreases |looks|
  {
    var last := |looks| - 1;
    assert looks[i := l][..last] == if i == last then looks[..last] else looks[..last][i := l];
    if i < last {
      OwnedUpdate(looks[..last], i, l, color);
    }
  }

  /** Nobody owns a cube of a freshly built scene. */
  lemma {:induction false} OwnedIdle(n: nat, color: int)
    ensures Owned(seq(n, _ => Idle), color) == 0
  {
    if n > 0 {
      assert seq(n, _ => Idle)[..n - 1] == seq(n - 1, _ => Idle);
      OwnedIdle(n - 1, color);
    }
  }

  lemma InitConsistent(n: nat)
    ensures Consistent(Init(n))
  {
    OwnedIdle(n, PlayerOneColor);
    OwnedIdle(n, PlayerTwoColor);
  }

  /** Resetting the hovered cube changes no count of selected cubes. */
  lemma ResetHoveredOwned(s: State, color: int)
    requires Consistent(s)
    ensures Owned(ResetHovered(s), color) == Owned(s.looks, color)
  {
    if s.hovered.Some? {
      var h := s.hovered.value;
      OwnedUpdate(s.looks, h, Reset(s.looks[h]), color);
    }
  }

  lemma MouseMoveConsistent(s: State, hit: Option<nat>)
    requires Consistent(s) && HitIn(s, hit)
    ensures Consistent(MouseMove(s, hit))
  {
    var r := MouseMove(s, hit);
    ResetHoveredOwned(s, PlayerOneColor);
    ResetHoveredOwned(s, PlayerTwoColor);
    if hit.Some? && hit != s.hovered && !s.looks[hit.value].selected {
      var i := hit.value;
      var looks := ResetHovered(s);
      OwnedUpdate(looks, i, Hover(looks[i]), PlayerOneColor);
      OwnedUpdate(looks, i, Hover(looks[i]), PlayerTwoColor);
    }
    forall j: nat | j < |r.looks|
      ensures LookOk(r, j)
    {
      assert LookOk(s, j);
    }
  }

  lemma MouseClickConsistent(s: State, hit: Option<nat>)
    requires Consistent(s) && HitIn(s, hit)
    ensures Consistent(MouseClick(s, hit))
  {
    var r := MouseClick(s, hit);
    if hit.Some? && !s.looks[hit.value].selected {
      var i := hit.value;
      OwnedUpdate(s.looks, i, Mark(s.looks[i], s.isPlayerOneTurn), PlayerOneColor);
      OwnedUpdate(s.looks, i, Mark(s.looks[i], s.isPlayerOneTurn), PlayerTwoColor);
      forall j: nat | j < |r.looks|
        ensures LookOk(r, j)
      {
        assert LookOk(s, j);
      }
    }
  }

  /**
   * A click on an unselected cube paints it in the colour of the player to
   * move, selects it, shows its label, keeps its scale, passes the turn and
   * forgets it as the hovered cube; no other cube changes.
   */
  lemma ClickUnselected(s: State, i: nat)
    requires WellFormed(s) && i < |s.looks| && !s.looks[i].selected
    ensures var r := MouseClick(s, Some(i));
      && r.looks[i].selected
      && r.looks[i].color == PlayerColor(s.isPlayerOneTurn)
      && r.looks[i].labelOpacity == 1
      && r.looks[i].scale == s.looks[i].scale
      && r.isPlayerOneTurn == !s.isPlayerOneTurn
      && r.hovered == (if s.hovered == Some(i) then None else s.hovered)
      && forall j :: 0 <= j < |s.looks| && j != i ==> r.looks[j] == s.looks[j]
  {
  }

  /** A click that hits nothing, or hits a selected cube, changes nothing. */
  lemma ClickIgnored(s: State, hit: Option<nat>)
    requires WellFormed(s) && HitIn(s, hit)
    requires hit.None? || s.looks[hit.value].selected
    ensures MouseClick(s, hit) == s
  {
  }

  /** Clicking the same cube twice has the effect of clicking it once. */
  lemma ClickTwice(s: State, hit: Option<nat>)
    requires WellFormed(s) && HitIn(s, hit)
    ensures MouseClick(MouseClick(s, hit), hit) == MouseClick(s, hit)
  {
  }

  /** Two successful clicks in a row give the two cubes the two players' colours and hand the turn back. */
  lemma ClicksAlternate(s: State, i: nat, j: nat)
    requires WellFormed(s) && i < |s.looks| && j < |s.looks| && i != j
    requires !s.looks[i].selected && !s.looks[j].selected
    ensures var r := MouseClick(MouseClick(s, Some(i)), Some(j));
      && {r.looks[i].color, r.looks[j].color} == {PlayerOneColor, PlayerTwoColor}
      && r.isPlayerOneTurn == s.isPlayerOneTurn
  {
  }

  /** Moving onto the cube already hovered changes nothing. */
  lemma MoveSame(s: State, hit: Option<nat>)
    requires WellFormed(s) && HitIn(s, hit) && hit.Some? && hit == s.hovered
    ensures MouseMove(s, hit) == s
  {
  }

  /**
   * Moving onto an unselected cube other than the hovered one makes it the
   * hovered cube and the only highlighted one: every other unselected cube is
   * idle, and selected cubes keep their look.
   */
  lemma MoveOntoUnselected(s: State, i: nat)
    requires Consistent(s) && i < |s.looks| && !s.looks[i].selected && s.hovered != Some(i)
    ensures var r := MouseMove(s, Some(i));
      && r.hovered == Some(i)
      && r.looks[i] == Highlighted
      && r.isPlayerOneTurn == s.isPlayerOneTurn
      && forall j :: 0 <= j < |s.looks| && j != i ==>
           r.looks[j] == if s.looks[j].selected then s.looks[j] else Idle
  {
    forall j | 0 <= j < |s.looks| && j != i
      ensures MouseMove(s, Some(i)).looks[j] == if s.looks[j].selected then s.looks[j] else Idle
    {
      assert LookOk(s, j);
    }
  }

  /** Moving onto empty space resets the hovered cube and unsets `hoveredCube`: no cube is highlighted. */
  lemma MoveOntoNothing(s: State)
    requires Consistent(s)
    ensures var r := MouseMove(s, None);
      && r.hovered.None?
      && r.isPlayerOneTurn == s.isPlayerOneTurn
      && forall j :: 0 <= j < |s.looks| ==> r.looks[j] == if s.looks[j].selected then s.looks[j] else Idle
  {
    forall j | 0 <= j < |s.looks|
      ensures MouseMove(s, None).looks[j] == if s.looks[j].selected then s.looks[j] else Idle
    {
      assert LookOk(s, j);
    }
  }

  /** With nothing hovered, hovering an unselected cube and then leaving the cube group restores the scene. */
  lemma HoverThenLeave(s: State, i: nat)
    requires Consistent(s) && s.hovered.None? && i < |s.looks| && !s.looks[i].selected
    ensures MouseMove(MouseMove(s, Some(i)), None) == s
  {
    assert LookOk(s, i);
    assert MouseMove(MouseMove(s, Some(i)), None).looks == s.looks;
  }

  /**
   * Moving from the hovered cube onto a selected one resets the hovered cube
   * but leaves it in `hoveredCube`; moving back onto it is then taken for a
   * move onto the same cube, so it stays idle under the pointer.
   */
  lemma StaleHover(s: State, i: nat, j: nat)
    requires Consistent(s) && s.hovered == Some(i) && j < |s.looks| && s.looks[j].selected
    ensures var r := MouseMove(s, Some(j));
      && r.hovered == Some(i)
      && r.looks[i] == Idle
      && MouseMove(r, Some(i)) == r
  {
  }

  /** Neither handler changes a selected cube or unselects it. */
  lemma SelectedFrozen(s: State, hit: Option<nat>, i: nat)
    requires Consistent(s) && HitIn(s, hit) && i < |s.looks| && s.looks[i].selected
    ensures MouseMove(s, hit).looks[i] == s.looks[i]
    ensures MouseClick(s, hit).looks[i] == s.looks[i]
  {
  }

  /** One input event, with the cube the ray hits at that moment. */
  datatype Event = Move(hit: Option<nat>) | Click(hit: Option<nat>)

  function Step(s: State, e: Event): (r: State)
    requires WellFormed(s) && HitIn(s, e.hit)
    ensures |r.looks| == |s.looks| && WellFormed(r)
  {
    match e
    case Move(hit) => MouseMove(s, hit)
    case Click(hit) => MouseClick(s, hit)
  }

  /** Every event hits one of `n` cubes or nothing. */
  predicate EventsIn(events: seq<Event>, n: nat) {
    forall k :: 0 <= k < |events| ==> events[k].hit.Some? ==> events[k].hit.value < n
  }

  /** The scene after handling `events` in order. */
  function Run(s: State, events: seq<Event>): (r: State)
    requires WellFormed(s) && EventsIn(events, |s.looks|)
    ensures |r.looks| == |s.looks| && WellFormed(r)
    decreases |events|
  {
    if events == [] then s else Run(Step(s, events[0]), events[1..])
  }

  /** Any sequence of events keeps the interaction consistent. */
  lemma {:induction false} RunConsistent(s: State, events: seq<Event>)
    requires Consistent(s) && EventsIn(events, |s.looks|)
    ensures Consistent(Run(s, events))
    decreases |events|
  {
    if events != [] {
      match events[0] {
        case Move(hit) => MouseMoveConsistent(s, hit);
        case Click(hit) => MouseClickConsistent(s, hit);
      }
      RunConsistent(Step(s, events[0]), events[1..]);
    }
  }

  /**
   * From the initial scene, whatever the events: `hoveredCube` is unset or an
   * unselected cube, and the players' colours alternate, so player one owns as
   * many cubes as player two or exactly one more.
   */
  lemma Alternation(n: nat, events: seq<Event>)
    requires EventsIn(events, n)
    ensures var r := Run(Init(n), events);
      && (r.hovered.Some? ==> !r.looks[r.hovered.value].selected)
      && Owned(r.looks, PlayerOneColor) == Owned(r.looks, PlayerTwoColor) + if r.isPlayerOneTurn then 0 else 1
  {
    InitConsistent(n);
    RunConsistent(Init(n), events);
  }

  /** A selected cube keeps its look, and stays selected, through any events. */
  lemma {:induction false} RunSelectedFrozen(s: State, events: seq<Event>, i: nat)
    requires Consistent(s) && EventsIn(events, |s.looks|) && i < |s.looks| && s.looks[i].selected
    ensures Run(s, events).looks[i] == s.looks[i]
    decreases |events|
  {
    if events != [] {
      var e := events[0];
      SelectedFrozen(s, e.hit, i);
      match e {
        case Move(hit) => MouseMoveConsistent(s, hit);
        case Click(hit) => MouseClickConsistent(s, hit);
      }
      RunSelectedFrozen(Step(s, e), events[1..], i);
    }
  }

  /** The scene's interaction globals and the cubes of its group, updated in place by the handlers. */
  class Scene {
    var looks: seq<Look>
    var hovered: Option<nat>
    var isPlayerOneTurn: bool

    function Snapshot(): State
      reads this
    {
      State(looks, hovered, isPlayerOneTurn)
    }

    ghost predicate Valid()
      reads this
    {
      Consistent(Snapshot())
    }

    /** The globals and the `n` cubes as `init` leaves them. */
    constructor (n: nat)
      ensures Snapshot() == Init(n) && Valid()
    {
      looks := seq(n, _ => Idle);
      hovered := None;
      isPlayerOneTurn := true;
      InitConsistent(n);
    }

    method ApplyHoverEffect(i: nat)
      requires i < |looks|
      modifies this
      ensures looks == old(looks)[i := Hover(old(looks)[i])]
      ensures hovered == old(hovered) && isPlayerOneTurn == old(isPlayerOneTurn)
    {
      looks := looks[i := looks[i].(color := HoverColor)];
      looks := looks[i := looks[i].(scale := Enlarged)];
      looks := looks[i := looks[i].(labelOpacity := 1)];
    }

    method ResetHoverEffect(i: nat)
      requires i < |looks|
      modifies this
      ensures looks == old(looks)[i := Reset(old(looks)[i])]
      ensures hovered == old(hovered) && isPlayerOneTurn == old(isPlayerOneTurn)
    {
      looks := looks[i := looks[i].(color := IdleColor)];
      looks := looks[i := looks[i].(scale := Unit)];
      looks := looks[i := looks[i].(labelOpacity := 0)];
    }

    /** `onMouseMove`, with `hit` the first non-label object the ray meets. */
    method OnMouseMove(hit: Option<nat>)
      requires WellFormed(Snapshot()) && HitIn(Snapshot(), hit)
      modifies this
      ensures Snapshot() == MouseMove(old(Snapshot()), hit)
      ensures old(Valid()) ==> Valid()
    {
      ghost var s := Snapshot();
      match hit {
        case Some(i) =>
          if hit != hovered {
            if hovered.Some? {
              ResetHoverEffect(hovered.value);
            }
            if !looks[i].selected {
              hovered := hit;
              ApplyHoverEffect(i);
            }
          }
        case None =>
          if hovered.Some? {
            ResetHoverEffect(hovered.value);
            hovered := None;
          }
      }
      if Consistent(s) {
        MouseMoveConsistent(s, hit);
      }
    }

    /** `onMouseClick`, with `hit` the first non-label object the ray meets. */
    method OnMouseClick(hit: Option<nat>)
      requires WellFormed(Snapshot()) && HitIn(Snapshot(), hit)
      modifies this
      ensures Snapshot() == MouseClick(old(Snapshot()), hit)
      ensures old(Valid()) ==> Valid()
    {
      ghost var s := Snapshot();
      if hit.Some? {
        var i := hit.value;
        if !looks[i].selected {
          var newColor := if isPlayerOneTurn then PlayerOneColor else PlayerTwoColor;
          looks := looks[i := looks[i].(color := newColor)];
          looks := looks[i := looks[i].(selected := true)];
          isPlayerOneTurn := !isPlayerOneTurn;
          looks := looks[i := looks[i].(labelOpacity := 1)];
          if hovered == hit {
            hovered := None;
          }
        }
      }
      if Consistent(s) {
        MouseClickConsistent(s, hit);
      }
    }
  }
}
