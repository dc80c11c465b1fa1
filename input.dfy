/**
 * Button state: per logical button `{ time, pressed }`, the initial record of
 * `PlayerInput`, and the `keydown`/`keyup` listener bodies of
 * `KeyboardPlayerInput`, which map a key code to a button through a `switch`
 * (first matching case wins, no default) and press or release that button.
 * `window.performance.now()` is the parameter `now`.
 */
module Input {
  import opened Wrappers

  datatype Button = Up | Down | Left | Right | Fire

  datatype ButtonState = ButtonState(time: real, pressed: bool)

  /** The `buttons` record, keyed by logical button. */
  type Buttons = map<Button, ButtonState>

  const RELEASED: ButtonState := ButtonState(0.0, false)

  const FIVE_BUTTONS: set<Button> := {Up, Down, Left, Right, Fire}

  /** `PlayerInput.buttons` as initialised. */
  function InitialButtons(): (bs: Buttons)
    ensures bs.Keys == FIVE_BUTTONS
    ensures forall b :: b in bs ==> !bs[b].pressed && bs[b].time == 0.0
  {
    map[Up := RELEASED, Down := RELEASED, Left := RELEASED, Right := RELEASED, Fire := RELEASED]
  }

  /** A button that is not held carries time 0. */
  predicate ReleasedAtZero(bs: Buttons)
  {
    forall b :: b in bs && !bs[b].pressed ==> bs[b].time == 0.0
  }

  /** The initial record satisfies ReleasedAtZero. */
  lemma InitialReleasedAtZero()
    ensures ReleasedAtZero(InitialButtons())
  {
  }

  /** Pressing or releasing one button keeps ReleasedAtZero and changes no other button. */
  lemma PressReleaseKeep(bs: Buttons, b: Button, now: real)
    requires ReleasedAtZero(bs)
    ensures ReleasedAtZero(bs[b := ButtonState(now, true)])
    ensures ReleasedAtZero(bs[b := RELEASED])
    ensures forall c :: c in bs && c != b ==> bs[b := ButtonState(now, true)][c] == bs[c] && bs[b := RELEASED][c] == bs[c]
  {
  }

  /** Case `i` is the first whose code is `code`. */
  predicate FirstMatch(cases: seq<(string, Button)>, code: string, i: int)
  {
    0 <= i < |cases| && cases[i].0 == code && forall j :: 0 <= j < i ==> cases[j].0 != code
  }

  /** The `switch (event.code)` over `(code, button)` cases in order, without a default. */
  function Lookup(cases: seq<(string, Button)>, code: string): (r: Option<Button>)
    ensures r.None? <==> forall i :: 0 <= i < |cases| ==> cases[i].0 != code
    ensures r.Some? ==> exists i :: FirstMatch(cases, code, i) && cases[i].1 == r.value
  {
    if cases == [] then None
    else if cases[0].0 == code then Some(cases[0].1)
    else
      var r := Lookup(cases[1..], code);
      if r.Some? then
        var i :| FirstMatch(cases[1..], code, i) && cases[1..][i].1 == r.value;
        assert FirstMatch(cases, code, i + 1);
        r
      else r
  }

  /** When several cases share a code, the first of them is the one taken. */
  lemma {:induction false} LookupFirst(cases: seq<(string, Button)>, code: string, i: int)
    requires FirstMatch(cases, code, i)
    ensures Lookup(cases, code) == Some(cases[i].1)
  {
    if i > 0 {
      assert cases[0].0 != code;
      assert cases[1..][i - 1] == cases[i];
      LookupFirst(cases[1..], code, i - 1);
    }
  }

  /** The five configured key codes. */
  datatype KeyCodes = KeyCodes(up: string, down: string, left: string, right: string, fire: string)

  /** The listeners' case order: up, down, left, right, fire. */
  function Cases(k: KeyCodes): seq<(string, Button)>
  {
    [(k.up, Up), (k.down, Down), (k.left, Left), (k.right, Right), (k.fire, Fire)]
  }

  /** Looking a code up in the five cases is the listeners' `if`-chain in case order. */
  lemma CasesInOrder(k: KeyCodes, code: string)
    ensures Lookup(Cases(k), code) ==
      if code == k.up then Some(Up)
      else if code == k.down then Some(Down)
      else if code == k.left then Some(Left)
      else if code == k.right then Some(Right)
      else if code == k.fire then Some(Fire)
      else None
  {
    var cs := Cases(k);
    if code == k.up { LookupFirst(cs, code, 0); }
    else if code == k.down { LookupFirst(cs, code, 1); }
    else if code == k.left { LookupFirst(cs, code, 2); }
    else if code == k.right { LookupFirst(cs, code, 3); }
    else if code == k.fire { LookupFirst(cs, code, 4); }
  }

  /**
   * Two buttons `i < j` bound to one code, for any of the ten pairs: the code
   * never drives the later button `j`, and when `i` is the first case with
   * that code, it drives button `i`.
   */
  lemma SharedCodeTakesEarlier(k: KeyCodes, i: int, j: int)
    requires 0 <= i < j < |Cases(k)| && Cases(k)[i].0 == Cases(k)[j].0
    ensures Lookup(Cases(k), Cases(k)[j].0) != Some(Cases(k)[j].1)
    ensures FirstMatch(Cases(k), Cases(k)[i].0, i) ==> Lookup(Cases(k), Cases(k)[j].0) == Some(Cases(k)[i].1)
  {
    var cs, code := Cases(k), Cases(k)[j].0;
    assert cs[j].0 == code && cs[i].0 == code;
    var m :| FirstMatch(cs, code, m) && cs[m].1 == Lookup(cs, code).value;
    assert FirstMatch(cs, code, m);
    assert m <= i;
    if FirstMatch(cs, code, i) {
      LookupFirst(cs, code, i);
    }
  }

  /** With five distinct codes every code drives its own button. */
  lemma DistinctCodesOwnButtons(k: KeyCodes)
    requires |{k.up, k.down, k.left, k.right, k.fire}| == 5
    ensures Lookup(Cases(k), k.up) == Some(Up) && Lookup(Cases(k), k.down) == Some(Down)
    ensures Lookup(Cases(k), k.left) == Some(Left) && Lookup(Cases(k), k.right) == Some(Right)
    ensures Lookup(Cases(k), k.fire) == Some(Fire)
  {
    var cs := Cases(k);
    assert k.up != k.down && k.up != k.left && k.up != k.right && k.up != k.fire;
    assert k.down != k.left && k.down != k.right && k.down != k.fire;
    assert k.left != k.right && k.left != k.fire && k.right != k.fire;
    LookupFirst(cs, k.up, 0);
    LookupFirst(cs, k.down, 1);
    LookupFirst(cs, k.left, 2);
    LookupFirst(cs, k.right, 3);
    LookupFirst(cs, k.fire, 4);
  }

  class KeyboardPlayerInput {
    const keyUp: string
    const keyDown: string
    const keyLeft: string
    const keyRight: string
    const keyFire: string
    var buttons: Buttons

    ghost predicate Valid()
      reads this
    {
      buttons.Keys == FIVE_BUTTONS && ReleasedAtZero(buttons)
    }

    function Keys(): KeyCodes
    {
      KeyCodes(keyUp, keyDown, keyLeft, keyRight, keyFire)
    }

    /** Stores the five key codes; the buttons start as `PlayerInput` initialises them. */
    constructor (keyUp: string, keyDown: string, keyLeft: string, keyRight: string, keyFire: string)
      ensures Valid() && buttons == InitialButtons()
      ensures Keys() == KeyCodes(keyUp, keyDown, keyLeft, keyRight, keyFire)
    {
      this.keyUp, this.keyDown, this.keyLeft, this.keyRight, this.keyFire := keyUp, keyDown, keyLeft, keyRight, keyFire;
      buttons := InitialButtons();
    }

    /** The `keydown` listener: the first case matching `code` sets `pressed = true`, `time = now`. */
    method KeyDown(code: string, now: real)
      requires Valid()
      modifies this
      ensures Valid()
      ensures match Lookup(Cases(Keys()), code)
        case None => buttons == old(buttons)
        case Some(b) => buttons == old(buttons)[b := ButtonState(now, true)]
    {
      CasesInOrder(Keys(), code);
      PressReleaseKeep(buttons, Up, now);
      PressReleaseKeep(buttons, Down, now);
      PressReleaseKeep(buttons, Left, now);
      PressReleaseKeep(buttons, Right, now);
      PressReleaseKeep(buttons, Fire, now);
      if code == keyUp {
        buttons := buttons[Up := ButtonState(now, true)];
      } else if code == keyDown {
        buttons := buttons[Down := ButtonState(now, true)];
      } else if code == keyLeft {
        buttons := buttons[Left := ButtonState(now, true)];
      } else if code == keyRight {
        buttons := buttons[Right := ButtonState(now, true)];
      } else if code == keyFire {
        buttons := buttons[Fire := ButtonState(now, true)];
      }
    }

    /** The `keyup` listener: the first case matching `code` sets `pressed = false`, `time = 0`. */
    method KeyUp(code: string)
      requires Valid()
      modifies this
      ensures Valid()
      ensures match Lookup(Cases(Keys()), code)
        case None => buttons == old(buttons)
        case Some(b) => buttons == old(buttons)[b := RELEASED]
    {
      CasesInOrder(Keys(), code);
      PressReleaseKeep(buttons, Up, 0.0);
      PressReleaseKeep(buttons, Down, 0.0);
      PressReleaseKeep(buttons, Left, 0.0);
      PressReleaseKeep(buttons, Right, 0.0);
      PressReleaseKeep(buttons, Fire, 0.0);
      if code == keyUp {
        buttons := buttons[Up := RELEASED];
      } else if code == keyDown {
        buttons := buttons[Down := RELEASED];
      } else if code == keyLeft {
        buttons := buttons[Left := RELEASED];
      } else if code == keyRight {
        buttons := buttons[Right := RELEASED];
      } else if code == keyFire {
        buttons := buttons[Fire := RELEASED];
      }
    }
  }
}
