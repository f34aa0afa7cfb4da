/** Keyboard input: the five held-key flags, the start of play from the
    intro screen, and the dodge-cooldown gauge. */
module Controls {
  import opened Common
  import opened Game

  datatype Flag = Left | Right | Jump | Attack | Dodge

  /** A snapshot of the held-key flags, as the frame loop reads them. */
  datatype KeyFlags = KeyFlags(left: bool, right: bool, jump: bool, attack: bool, dodge: bool)
  {
    function Get(f: Flag): bool {
      match f
      case Left => left
      case Right => right
      case Jump => jump
      case Attack => attack
      case Dodge => dodge
    }

    /** The snapshot with flag `f` set to `b` and every other flag kept. */
    function With(f: Flag, b: bool): (r: KeyFlags)
      ensures r.Get(f) == b
      ensures forall g :: g != f ==> r.Get(g) == Get(g)
    {
      match f
      case Left => this.(left := b)
      case Right => this.(right := b)
      case Jump => this.(jump := b)
      case Attack => this.(attack := b)
      case Dodge => this.(dodge := b)
    }
  }

  /** The flag a key drives during play, if any. */
  function KeyFlag(key: string): Option<Flag> {
    if key == "ArrowLeft" || key == "a" then Some(Left)
    else if key == "ArrowRight" || key == "d" then Some(Right)
    else if key == "ArrowUp" || key == "w" || key == " " then Some(Jump)
    else if key == "f" || key == "e" then Some(Attack)
    else if key == "Shift" then Some(Dodge)
    else None
  }

  /** Every flag is driven by some key. */
  lemma KeyFlagCoversEveryFlag(f: Flag)
    ensures exists key :: KeyFlag(key) == Some(f)
  {
    match f
    case Left => assert KeyFlag("a") == Some(Left);
    case Right => assert KeyFlag("d") == Some(Right);
    case Jump => assert KeyFlag("w") == Some(Jump);
    case Attack => assert KeyFlag("e") == Some(Attack);
    case Dodge => assert KeyFlag("Shift") == Some(Dodge);
  }

  /** The `keys` record of `setupControls`. */
  class Keys {
    var left: bool
    var right: bool
    var jump: bool
    var attack: bool
    var dodge: bool

    constructor ()
      ensures Flags() == KeyFlags(false, false, false, false, false)
    {
      left, right, jump, attack, dodge := false, false, false, false, false;
    }

    function Flags(): KeyFlags
      reads this
    {
      KeyFlags(left, right, jump, attack, dodge)
    }

    method Set(f: Flag, b: bool)
      modifies this
      ensures Flags() == old(Flags()).With(f, b)
    {
      match f
      case Left => left := b;
      case Right => right := b;
      case Jump => jump := b;
      case Attack => attack := b;
      case Dodge => dodge := b;
    }

    /** The keydown handler. In the intro, Enter starts play with the hero
        locked while the villain speaks, and every other key is ignored;
        during play a key sets its own flag and nothing else. */
    method KeyDown(gs: GameState, key: string)
      modifies this, gs`gamePhase, gs`movementLocked
      ensures old(gs.gamePhase) == Intro && key == "Enter" ==>
                gs.gamePhase == Gameplay && gs.movementLocked && Flags() == old(Flags())
      ensures old(gs.gamePhase) == Intro && key != "Enter" ==> unchanged(this) && unchanged(gs)
      ensures old(gs.gamePhase) == Gameplay ==>
                gs.gamePhase == Gameplay && gs.movementLocked == old(gs.movementLocked)
                && Flags() == (if KeyFlag(key).Some? then old(Flags()).With(KeyFlag(key).value, true) else old(Flags()))
      ensures old(gs.gamePhase) == Gameplay ==> gs.gamePhase == Gameplay
    {
      if gs.gamePhase == Intro && key == "Enter" {
        gs.gamePhase := Gameplay;
        gs.movementLocked := true;
      } else if gs.gamePhase == Gameplay {
        var f := KeyFlag(key);
        if f.Some? {
          Set(f.value, true);
        }
      }
    }

    /** The keyup handler: during play a key clears its own flag; in the
        intro nothing happens. */
    method KeyUp(gs: GameState, key: string)
      modifies this
      ensures old(gs.gamePhase) == Intro ==> unchanged(this)
      ensures gs.gamePhase == Gameplay ==>
                Flags() == (if KeyFlag(key).Some? then old(Flags()).With(KeyFlag(key).value, false) else old(Flags()))
    {
      if gs.gamePhase == Gameplay {
        var f := KeyFlag(key);
        if f.Some? {
          Set(f.value, false);
        }
      }
    }
  }

  /** The `villain.fadeOut` completion callback scheduled when play starts:
      the hero may move. */
  method VillainFadeComplete(gs: GameState)
    modifies gs`movementLocked
    ensures !gs.movementLocked
  {
    gs.movementLocked := false;
  }

  const Orange: int := 0xffaa00

  /** The dodge gauge: how full it is, in percent, and the colour it is
      given (None would leave the previous colour). */
  datatype Gauge = Gauge(percent: real, colour: Option<int>)

  /** The rule of `updateDodgeIndicator` for `elapsed` milliseconds since the
      last dodge. The gauge fills in proportion to the elapsed time, is red
      for the first half of the cooldown, orange for the rest, and full and
      cyan once a dodge is available; a colour is always chosen. */
  function DodgeGauge(elapsed: int, cooldown: int): (g: Gauge)
    requires cooldown > 0
    ensures g.percent <= 100.0 && (g.percent == 100.0 <==> elapsed >= cooldown)
    ensures 0 <= elapsed ==> 0.0 <= g.percent
    ensures elapsed < cooldown ==> g.percent * cooldown as real == elapsed as real * 100.0
    ensures g.colour.Some?
    ensures g.colour == Some(Red) <==> 2 * elapsed < cooldown
    ensures g.colour == Some(Orange) <==> cooldown <= 2 * elapsed && elapsed < cooldown
    ensures g.colour == Some(Cyan) <==> elapsed >= cooldown
  {
    if elapsed < cooldown then
      var percentage := elapsed as real / cooldown as real * 100.0;
      PercentageBands(elapsed, cooldown);
      var colour := if percentage < 50.0 then Some(Red) else if percentage < 100.0 then Some(Orange) else None;
      Gauge(percentage, colour)
    else
      Gauge(100.0, Some(Cyan))
  }

  /** Multiplying by a positive factor keeps order. */
  lemma ScaleKeepsOrder(a: real, b: real, c: real)
    requires c > 0.0
    ensures a < b <==> a * c < b * c
    ensures a <= b <==> a * c <= b * c
  {
    assert b * c - a * c == (b - a) * c;
    if a < b {
      assert (b - a) * c > 0.0;
    } else {
      assert (a - b) * c >= 0.0;
    }
  }

  lemma PercentTimesCooldown(e: real, c: real)
    requires c > 0.0
    ensures (e / c * 100.0) * c == e * 100.0
  {
    var q := e / c;
    assert q * c == e;
    assert (q * 100.0) * c == (q * c) * 100.0;
  }

  /** Values whose products with a positive factor are ordered are ordered. */
  lemma OrderOfScaled(a: real, b: real, c: real, x: real, y: real)
    requires c > 0.0 && a * c == x && b * c == y && x <= y
    ensures a <= b
  {
    ScaleKeepsOrder(a, b, c);
  }

  /** The bands of a percentage `p` of `c`, given only `p * c == e * 100`. */
  lemma Bands(p: real, e: real, c: real)
    requires c > 0.0 && p * c == e * 100.0
    ensures p < 50.0 <==> 2.0 * e < c
    ensures p < 100.0 <==> e < c
    ensures 0.0 <= e ==> 0.0 <= p
  {
    ScaleKeepsOrder(p, 50.0, c);
    ScaleKeepsOrder(p, 100.0, c);
    ScaleKeepsOrder(0.0, p, c);
  }

  /** Where the percentage of `updateDodgeIndicator` falls, in integer terms. */
  lemma PercentageBands(elapsed: int, cooldown: int)
    requires cooldown > 0
    ensures var p := elapsed as real / cooldown as real * 100.0;
            && p * cooldown as real == elapsed as real * 100.0
            && (p < 50.0 <==> 2 * elapsed < cooldown)
            && (p < 100.0 <==> elapsed < cooldown)
            && (0 <= elapsed ==> 0.0 <= p)
  {
    var c := cooldown as real;
    var e := elapsed as real;
    PercentTimesCooldown(e, c);
    Bands(e / c * 100.0, e, c);
  }

  /** The gauge never empties as time passes. */
  lemma DodgeGaugeMonotone(e1: int, e2: int, cooldown: int)
    requires cooldown > 0 && e1 <= e2
    ensures DodgeGauge(e1, cooldown).percent <= DodgeGauge(e2, cooldown).percent
  {
    if e2 < cooldown {
      var c := cooldown as real;
      var p1 := DodgeGauge(e1, cooldown).percent;
      var p2 := DodgeGauge(e2, cooldown).percent;
      assert p1 * c == e1 as real * 100.0;
      assert p2 * c == e2 as real * 100.0;
      assert e1 as real * 100.0 <= e2 as real * 100.0;
      OrderOfScaled(p1, p2, c, e1 as real * 100.0, e2 as real * 100.0);
    }
  }
}
