/**
 * Remote input: the `input` command lines for taps, swipes, text and key
 * events, the `wm size` reading, and the screenshot sequence.
 */
module RemoteManager {
  import opened Wrappers
  import opened Text
  import opened Shell
  import opened RemoteControl

  /** One `device.shell(cmd)` whose output is not read: true unless the device is missing or the call raises. */
  function Send(dev: Option<Device>, cmd: string): (ok: bool)
    ensures ok <==> dev.Some? && dev.value.shell(cmd).Output?
  {
    ShellWith(dev, cmd).Some?
  }

  // --------------------------------------------------------- tap and swipe

  /** `input tap <x> <y>`. */
  function TapCommand(x: int, y: int): string {
    JoinSpace(["input", "tap", IntToString(x), IntToString(y)])
  }

  /** `send_tap`. */
  function SendTap(dev: Option<Device>, x: int, y: int): (ok: bool)
    ensures ok <==> dev.Some? && dev.value.shell(TapCommand(x, y)).Output?
  {
    Send(dev, TapCommand(x, y))
  }

  /** The tap command is the words `input tap <x> <y>`, and the coordinates read back from it. */
  lemma {:induction false} TapCommandWords(x: int, y: int)
    ensures var w := Words(TapCommand(x, y));
      w == ["input", "tap", IntToString(x), IntToString(y)] &&
      ParseInt(w[2]) == Some(x) && ParseInt(w[3]) == Some(y)
  {
    var ws := ["input", "tap", IntToString(x), IntToString(y)];
    assert "input" != [] && NoSpace("input") && "tap" != [] && NoSpace("tap");
    WordsJoinSpace(ws);
    assert Words(TapCommand(x, y)) == ws;
    ParseIntToString(x);
    ParseIntToString(y);
  }

  /** The swipe duration, in milliseconds, when the caller gives none. */
  const DefaultSwipeDuration: int := 300

  /** `input swipe <x1> <y1> <x2> <y2> <duration>`. */
  function SwipeCommand(x1: int, y1: int, x2: int, y2: int, duration: int): string {
    JoinSpace(["input", "swipe", IntToString(x1), IntToString(y1), IntToString(x2), IntToString(y2), IntToString(duration)])
  }

  /** `send_swipe`. */
  function SendSwipe(dev: Option<Device>, x1: int, y1: int, x2: int, y2: int, duration: int): (ok: bool)
    ensures ok <==> dev.Some? && dev.value.shell(SwipeCommand(x1, y1, x2, y2, duration)).Output?
  {
    Send(dev, SwipeCommand(x1, y1, x2, y2, duration))
  }

  /** The swipe command is the seven words `input swipe x1 y1 x2 y2 duration`. */
  lemma {:induction false} SwipeCommandWords(x1: int, y1: int, x2: int, y2: int, duration: int)
    ensures Words(SwipeCommand(x1, y1, x2, y2, duration)) ==
      ["input", "swipe", IntToString(x1), IntToString(y1), IntToString(x2), IntToString(y2), IntToString(duration)]
  {
    var ws := ["input", "swipe", IntToString(x1), IntToString(y1), IntToString(x2), IntToString(y2), IntToString(duration)];
    assert "input" != [] && NoSpace("input") && "swipe" != [] && NoSpace("swipe");
    WordsJoinSpace(ws);
  }

  // ------------------------------------------------------------ key events

  /** `input keyevent <code>`. */
  function KeyeventCommand(k: KeyCode): string {
    JoinSpace(["input", "keyevent", NatToString(Value(k))])
  }

  /** `send_keyevent`. */
  function SendKeyevent(dev: Option<Device>, k: KeyCode): (ok: bool)
    ensures ok <==> dev.Some? && dev.value.shell(KeyeventCommand(k)).Output?
  {
    Send(dev, KeyeventCommand(k))
  }

  /** `input keyevent <n>` splits into its three words, the last of which parses back to `n`. */
  lemma {:induction false} KeyeventWords(n: nat)
    ensures var w := Words(JoinSpace(["input", "keyevent", NatToString(n)]));
      |w| == 3 && w[..2] == ["input", "keyevent"] && ParseInt(w[2]) == Some(n)
  {
    WordsJoinSpace(["input", "keyevent", NatToString(n)]);
    ParseNatToString(n);
  }

  /** The key event command carries the key's numeric code, from which the key is found again. */
  lemma {:induction false} KeyeventCommandKey(k: KeyCode)
    ensures var w := Words(KeyeventCommand(k));
      |w| == 3 && w[..2] == ["input", "keyevent"] &&
      ParseInt(w[2]) == Some(Value(k) as int) && FromValue(Value(k)) == Some(k)
  {
    KeyeventWords(Value(k));
    FromValueOfValue(k);
  }

  // ------------------------------------------------------------------ text

  /** `text.replace(' ', '%s').replace('&', '\\&')`. */
  function EscapeText(text: string): string {
    Replace(Replace(text, " ", "%s"), "&", "\\&")
  }

  /** The escape of one character, as a reference for `EscapeText`. */
  function EscapeChar(c: char): string {
    if c == ' ' then "%s" else if c == '&' then "\\&" else [c]
  }

  function EscapeChars(s: string): (r: string)
    decreases |s|
  {
    if s == [] then [] else EscapeChar(s[0]) + EscapeChars(s[1..])
  }

  /** The two replacements escape every character on its own: no replacement produces text the other one rewrites. */
  lemma {:induction false} EscapeTextIsPerChar(text: string)
    ensures EscapeText(text) == EscapeChars(text)
  {
    ReplaceCharIsSubst(text, ' ', "%s");
    ReplaceCharIsSubst(SubstChar(text, ' ', "%s"), '&', "\\&");
    SubstTwice(text);
  }

  lemma {:induction false} SubstTwice(s: string)
    ensures SubstChar(SubstChar(s, ' ', "%s"), '&', "\\&") == EscapeChars(s)
    decreases |s|
  {
    if s != [] {
      var head := if s[0] == ' ' then "%s" else [s[0]];
      assert SubstChar(s, ' ', "%s") == head + SubstChar(s[1..], ' ', "%s");
      SubstCharAppend(head, SubstChar(s[1..], ' ', "%s"), '&', "\\&");
      if s[0] == ' ' {
        SubstCharAbsent("%s", '&', "\\&");
      } else if s[0] == '&' {
        assert SubstChar([s[0]], '&', "\\&") == "\\&" + SubstChar([], '&', "\\&");
      } else {
        SubstCharAbsent([s[0]], '&', "\\&");
      }
      SubstTwice(s[1..]);
    }
  }

  /** The escaped text holds no space. */
  lemma {:induction false} EscapeNoSpace(s: string)
    ensures ' ' !in EscapeChars(s)
    decreases |s|
  {
    if s != [] {
      EscapeNoSpace(s[1..]);
    }
  }

  /** The reading the device gives the escapes: `%s` is a space and `\&` an ampersand. */
  function Unescape(s: string): string
    decreases |s|
  {
    if StartsWith(s, "%s") then " " + Unescape(s[2..])
    else if StartsWith(s, "\\&") then "&" + Unescape(s[2..])
    else if s == [] then []
    else [s[0]] + Unescape(s[1..])
  }

  /** Text without `%` or backslash comes back unchanged from its escape. */
  lemma {:induction false} UnescapeEscape(s: string)
    requires '%' !in s && '\\' !in s
    ensures Unescape(EscapeChars(s)) == s
    decreases |s|
  {
    if s != [] {
      var c := s[0];
      var rest := EscapeChars(s[1..]);
      var e := EscapeChars(s);
      assert e == EscapeChar(c) + rest;
      UnescapeEscape(s[1..]);
      if c == ' ' {
        assert e[2..] == rest && StartsWith(e, "%s");
        assert Unescape(e) == [c] + Unescape(rest);
      } else if c == '&' {
        assert e[2..] == rest && !StartsWith(e, "%s") && StartsWith(e, "\\&");
        assert Unescape(e) == [c] + Unescape(rest);
      } else {
        assert c != '%' && c != '\\' by { assert s[0] in s; }
        assert e[1..] == rest && !StartsWith(e, "%s") && !StartsWith(e, "\\&");
        assert Unescape(e) == [c] + Unescape(rest);
      }
      assert s == [c] + s[1..];
    }
  }

  function TextCommand(text: string): string {
    "input text '" + EscapeText(text) + "'"
  }

  /** `send_text`. */
  function SendText(dev: Option<Device>, text: string): (ok: bool)
    ensures ok <==> dev.Some? && dev.value.shell(TextCommand(text)).Output?
  {
    Send(dev, TextCommand(text))
  }

  /** The text command quotes the escaped text, which is a single word. */
  lemma {:induction false} TextCommandShape(text: string)
    ensures var e := EscapeText(text);
      TextCommand(text) == "input text " + Quoted(e) && ' ' !in e && e == EscapeChars(text)
  {
    EscapeTextIsPerChar(text);
    EscapeNoSpace(text);
  }

  // ------------------------------------------------------------ screen size

  const SizeLabel: string := "Physical size:"

  /** What `get_screen_size` returns when it cannot read the size. */
  const DefaultSize: (int, int) := (1080, 1920)

  /**
   * The size read from `wm size` output: the text between the label and
   * its next occurrence, stripped, must split on `x` into exactly two
   * integers. None stands for the fallback.
   */
  function ParseSize(out: string): (r: Option<(int, int)>)
    ensures r.Some? ==> Contains(out, SizeLabel)
  {
    if !Contains(out, SizeLabel) then None
    else
      SplitSecond(out, SizeLabel);
      SizeOf(Split(out, SizeLabel)[1])
  }

  /** `map(int, text.strip().split('x'))` unpacked into two: None when there are not exactly two integers. */
  function SizeOf(text: string): (r: Option<(int, int)>)
    ensures r.Some? ==> |Split(Strip(text), "x")| == 2
  {
    var parts := Split(Strip(text), "x");
    if |parts| != 2 then None
    else PairOf(parts[0], parts[1])
  }

  /** `map(int, (a, b))`: both must parse. */
  function PairOf(a: string, b: string): (r: Option<(int, int)>)
    ensures r.Some? <==> ParseInt(a).Some? && ParseInt(b).Some?
    ensures r.Some? ==> r.value == (ParseInt(a).value, ParseInt(b).value)
  {
    match (ParseInt(a), ParseInt(b))
    case (Some(w), Some(h)) => Some((w, h))
    case _ => None
  }

  /** `get_screen_size`: the size read from `wm size`, or the default when the device is missing, the call raises or the output does not parse. */
  function GetScreenSize(dev: Option<Device>): (r: (int, int))
    ensures ShellWith(dev, "wm size").None? ==> r == DefaultSize
    ensures (ShellWith(dev, "wm size").Some? ==>
      var p := ParseSize(ShellWith(dev, "wm size").value);
      r == (if p.Some? then p.value else DefaultSize))
  {
    match ShellWith(dev, "wm size")
    case None => DefaultSize
    case Some(out) => ParseSize(out).GetOr(DefaultSize)
  }

  /** The text of `WxH` for two natural numbers. */
  function SizeText(w: nat, h: nat): string {
    NatToString(w) + "x" + NatToString(h)
  }

  /** A printed number holds no letter of the label or of `x`. */
  lemma {:induction false} DigitsNoLetter(n: nat)
    ensures 'x' !in NatToString(n) && 'P' !in NatToString(n) && '\n' !in NatToString(n)
    ensures !IsSpace(NatToString(n)[0]) && !IsSpace(NatToString(n)[|NatToString(n)| - 1])
  {
    var s := NatToString(n);
    assert forall i :: 0 <= i < |s| ==> IsDigit(s[i]);
  }

  /** `WxH` splits on `x` into the two printed numbers. */
  lemma {:induction false} SizeTextSplit(w: nat, h: nat)
    ensures Split(SizeText(w, h), "x") == [NatToString(w), NatToString(h)]
  {
    DigitsNoLetter(w);
    DigitsNoLetter(h);
    ContainsChar(NatToString(h), 'x');
    SplitSecondOf(NatToString(w), "x", NatToString(h));
    SplitHeadPrefix(NatToString(w), "x", NatToString(h));
  }

  predicate AllSpaceText(s: string) {
    forall i :: 0 <= i < |s| ==> IsSpace(s[i])
  }

  /** `WxH` with whitespace around it reads back as the pair. */
  lemma {:induction false} SizeOfText(pre: string, w: nat, h: nat, post: string)
    requires AllSpaceText(pre) && AllSpaceText(post)
    ensures SizeOf(pre + SizeText(w, h) + post) == Some((w, h))
  {
    DigitsNoLetter(w);
    DigitsNoLetter(h);
    StripPadded(pre, SizeText(w, h), post);
    SizeTextSplit(w, h);
    ParseIntToString(w);
    ParseIntToString(h);
  }

  /** When the label begins the output and does not recur, the size is read from all the text after it. */
  lemma {:induction false} ParseSizeAfterLabel(body: string)
    requires 'P' !in body
    ensures ParseSize(SizeLabel + body) == SizeOf(body)
  {
    if Contains(body, SizeLabel) {
      ContainsFirst(body, SizeLabel);
    }
    SplitSecondOf([], SizeLabel, body);
    assert [] + SizeLabel + body == SizeLabel + body;
  }

  /** With only the physical size printed, the size is read, whatever whitespace follows. */
  lemma {:induction false} ParseSizePhysical(w: nat, h: nat, trail: string)
    requires AllSpaceText(trail)
    ensures ParseSize(SizeLabel + (" " + SizeText(w, h) + trail)) == Some((w, h))
  {
    DigitsNoLetter(w);
    DigitsNoLetter(h);
    assert 'P' !in " " + SizeText(w, h) + trail;
    ParseSizeAfterLabel(" " + SizeText(w, h) + trail);
    SizeOfText(" ", w, h, trail);
  }

  /** The line `wm size` adds when a size override is set. */
  function OverrideLine(w2: nat, h2: nat): string {
    "\nOverride size: " + SizeText(w2, h2)
  }

  /** The override line holds an `x`, and no letter of the label. */
  lemma {:induction false} OverrideLetters(w2: nat, h2: nat)
    ensures Contains(OverrideLine(w2, h2), "x") && 'P' !in OverrideLine(w2, h2)
    ensures !IsSpace(OverrideLine(w2, h2)[|OverrideLine(w2, h2)| - 1])
  {
    var o := OverrideLine(w2, h2);
    var k := 16 + |NatToString(w2)|;
    assert o[k..k + 1] == "x";
    ContainsAt(o, "x", k);
    DigitsNoLetter(w2);
    DigitsNoLetter(h2);
    assert o[|o| - 1] == NatToString(h2)[|NatToString(h2)| - 1];
  }

  /** Text with two `x`s does not split on `x` into two pieces. */
  lemma {:induction false} TwoXs(a: string, rest: string)
    requires 'x' !in a && Contains(rest, "x")
    ensures |Split(a + "x" + rest, "x")| != 2
  {
    SplitHeadPrefix(a, "x", rest);
    assert After(a + "x" + rest, "x") == rest;
    SplitTwo(a + "x" + rest, "x");
  }

  /** Padded text with two `x`s is not a size. */
  lemma {:induction false} SizeOfTwoXs(pre: string, a: string, rest: string)
    requires AllSpaceText(pre) && a != [] && !IsSpace(a[0]) && 'x' !in a
    requires Contains(rest, "x") && !IsSpace(rest[|rest| - 1])
    ensures SizeOf(pre + (a + "x" + rest)) == None
  {
    var size := a + "x" + rest;
    StripPadded(pre, size, []);
    assert pre + size + [] == pre + size;
    TwoXs(a, rest);
  }

  /** `WxH` followed by an override line holds a second `x` and is not a size. */
  lemma {:induction false} SizeOfOverride(w: nat, h: nat, w2: nat, h2: nat)
    ensures SizeOf(" " + SizeText(w, h) + OverrideLine(w2, h2)) == None
  {
    var o := OverrideLine(w2, h2);
    var rest := NatToString(h) + o;
    DigitsNoLetter(w);
    OverrideLetters(w2, h2);
    ContainsSuffix(NatToString(h), o, "x");
    assert rest[|rest| - 1] == o[|o| - 1];
    SizeOfTwoXs(" ", NatToString(w), rest);
    assert " " + (NatToString(w) + "x" + rest) == " " + SizeText(w, h) + o;
  }

  /**
   * With an override line after the physical size, the text after the label
   * holds a second `x`, so the split has three pieces and the default is
   * returned in place of the physical size.
   */
  lemma {:induction false} ParseSizeOverride(w: nat, h: nat, w2: nat, h2: nat)
    ensures ParseSize(SizeLabel + (" " + SizeText(w, h) + OverrideLine(w2, h2))) == None
  {
    DigitsNoLetter(w);
    DigitsNoLetter(h);
    OverrideLetters(w2, h2);
    assert 'P' !in " " + SizeText(w, h) + OverrideLine(w2, h2);
    ParseSizeAfterLabel(" " + SizeText(w, h) + OverrideLine(w2, h2));
    SizeOfOverride(w, h, w2, h2);
  }

  /** The size read from the first line after the label only: what lines 132-136 evidently intend. */
  function ParseSizeFirstLine(out: string): (r: Option<(int, int)>)
    ensures r.Some? ==> Contains(out, SizeLabel)
  {
    if !Contains(out, SizeLabel) then None
    else SizeOf(Split(After(out, SizeLabel), "\n")[0])
  }

  /** The first line of `line + rest`, when `rest` is empty or starts a new line. */
  lemma {:induction false} FirstLine(line: string, rest: string)
    requires '\n' !in line && (rest == [] || rest[0] == '\n')
    ensures Split(line + rest, "\n")[0] == line
  {
    if rest == [] {
      ContainsChar(line, '\n');
      assert line + rest == line;
    } else {
      assert line + rest == line + "\n" + rest[1..];
      SplitHeadPrefix(line, "\n", rest[1..]);
    }
  }

  /** Reading only the first line gives the physical size whatever lines follow it. */
  lemma {:induction false} ParseSizeFirstLinePhysical(w: nat, h: nat, rest: string)
    requires rest == [] || rest[0] == '\n'
    ensures ParseSizeFirstLine(SizeLabel + (" " + SizeText(w, h) + rest)) == Some((w, h))
  {
    var line := " " + SizeText(w, h);
    var body := line + rest;
    SplitHeadPrefix([], SizeLabel, body);
    assert [] + SizeLabel + body == SizeLabel + body;
    assert After(SizeLabel + body, SizeLabel) == body;
    DigitsNoLetter(w);
    DigitsNoLetter(h);
    assert '\n' !in line;
    FirstLine(line, rest);
    SizeOfText(" ", w, h, []);
    assert " " + SizeText(w, h) + [] == line;
  }

  /** On the output with an override line, the code falls back to the default while the first-line reading gets the physical size. */
  lemma {:induction false} ParseSizeFirstLineOverride(w: nat, h: nat, w2: nat, h2: nat)
    ensures ParseSizeFirstLine(SizeLabel + (" " + SizeText(w, h) + OverrideLine(w2, h2))) == Some((w, h))
    ensures ParseSize(SizeLabel + (" " + SizeText(w, h) + OverrideLine(w2, h2))) == None
  {
    ParseSizeFirstLinePhysical(w, h, OverrideLine(w2, h2));
    ParseSizeOverride(w, h, w2, h2);
  }

  // ------------------------------------------------------------ screenshot

  const CapturePath: string := "/sdcard/screenshot.png"

  /** The three device operations of a screenshot, in the order they are issued. */
  datatype Step = Capture | PullTo(local: string) | Remove

  function StepsFor(local: string): seq<Step> {
    [Capture, PullTo(local), Remove]
  }

  /** Whether one step returns without raising. */
  function StepOk(d: Device, s: Step): bool {
    match s
    case Capture => d.shell("screencap -p " + CapturePath).Output?
    case PullTo(local) => d.pull(CapturePath, local)
    case Remove => d.shell("rm " + CapturePath).Output?
  }

  /** The outcome of `take_screenshot` and the steps it issued. */
  datatype Shot = Shot(ok: bool, issued: seq<Step>)

  /** `take_screenshot`: the steps run in order until one raises; true only when all three return. */
  function TakeScreenshot(dev: Option<Device>, local: string): (r: Shot)
    ensures dev.None? ==> r == Shot(false, [])
    ensures (dev.Some? ==>
      1 <= |r.issued| <= 3 && r.issued == StepsFor(local)[..|r.issued|] &&
      (forall i :: 0 <= i < |r.issued| - 1 ==> StepOk(dev.value, r.issued[i])) &&
      (r.ok <==> |r.issued| == 3 && StepOk(dev.value, Remove)) &&
      (!r.ok ==> !StepOk(dev.value, r.issued[|r.issued| - 1])))
  {
    match dev
    case None => Shot(false, [])
    case Some(d) =>
      if !StepOk(d, Capture) then Shot(false, [Capture])
      else if !StepOk(d, PullTo(local)) then Shot(false, [Capture, PullTo(local)])
      else Shot(StepOk(d, Remove), StepsFor(local))
  }
}
