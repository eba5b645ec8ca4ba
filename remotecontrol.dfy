/** The Android key codes the remote control sends, and the touch record. */
module RemoteControl {
  import opened Wrappers

  /** The members of the `KeyCode` enumeration. */
  datatype KeyCode =
    | Home | Back | Menu | Power
    | VolumeUp | VolumeDown | VolumeMute
    | DpadUp | DpadDown | DpadLeft | DpadRight | DpadCenter
    | PlayPause | Stop | Next | Previous
    | Enter | Delete | Space

  /** The numeric Android key code of each member. */
  function Value(k: KeyCode): (v: nat)
    ensures 3 <= v <= 164
  {
    match k
    case Home => 3
    case Back => 4
    case Menu => 82
    case Power => 26
    case VolumeUp => 24
    case VolumeDown => 25
    case VolumeMute => 164
    case DpadUp => 19
    case DpadDown => 20
    case DpadLeft => 21
    case DpadRight => 22
    case DpadCenter => 23
    case PlayPause => 85
    case Stop => 86
    case Next => 87
    case Previous => 88
    case Enter => 66
    case Delete => 67
    case Space => 62
  }

  /** `KeyCode(n)`: the member with value `n`, if any. */
  function FromValue(n: int): (r: Option<KeyCode>)
    ensures r.Some? ==> Value(r.value) == n
  {
    match n
    case 3 => Some(Home)
    case 4 => Some(Back)
    case 82 => Some(Menu)
    case 26 => Some(Power)
    case 24 => Some(VolumeUp)
    case 25 => Some(VolumeDown)
    case 164 => Some(VolumeMute)
    case 19 => Some(DpadUp)
    case 20 => Some(DpadDown)
    case 21 => Some(DpadLeft)
    case 22 => Some(DpadRight)
    case 23 => Some(DpadCenter)
    case 85 => Some(PlayPause)
    case 86 => Some(Stop)
    case 87 => Some(Next)
    case 88 => Some(Previous)
    case 66 => Some(Enter)
    case 67 => Some(Delete)
    case 62 => Some(Space)
    case _ => None
  }

  /** Every member is found again from its value, so no two members share a value (the enumeration has no aliases). */
  lemma {:induction false} FromValueOfValue(k: KeyCode)
    ensures FromValue(Value(k)) == Some(k)
  {
  }

  lemma {:induction false} ValueInjective(j: KeyCode, k: KeyCode)
    requires Value(j) == Value(k)
    ensures j == k
  {
    FromValueOfValue(j);
    FromValueOfValue(k);
  }

  /** The D-pad keys occupy the contiguous codes 19 to 23, in the order up, down, left, right, center. */
  lemma {:induction false} DpadRange(k: KeyCode)
    ensures 19 <= Value(k) <= 23 <==> k in {DpadUp, DpadDown, DpadLeft, DpadRight, DpadCenter}
    ensures Value(DpadDown) == Value(DpadUp) + 1 && Value(DpadLeft) == Value(DpadUp) + 2
    ensures Value(DpadRight) == Value(DpadUp) + 3 && Value(DpadCenter) == Value(DpadUp) + 4
  {
  }

  /** A touch at (`x`, `y`); `action` is "tap", "swipe_start" or "swipe_end". */
  datatype TouchEvent = TouchEvent(x: int, y: int, action: string)
}
