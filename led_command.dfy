/**
 * The LED command language of the `/led` resource: classification of a
 * command by its leading token (`APP_ProcessLedCmd`), the decimal scan
 * `NWKU_atoi` truncated to `uint8_t`, the field loop of the `rgb` command,
 * and the commands built by the `APP_SendLed*` functions.
 */
module LedCommand {
  import opened AppTypes

  predicate HasPrefix(s: Text, token: Text) {
    |token| <= |s| && s[..|token|] == token
  }

  /* ---------------------------------------------------------------------- */
  /* Classification                                                         */
  /* ---------------------------------------------------------------------- */

  datatype LedCmd = CmdOn | CmdOff | CmdToggle | CmdFlash | CmdRgb | CmdColorWheel | CmdUnknown

  /** The token that selects a command. */
  function TokenOf(c: LedCmd): Text
    requires c != CmdUnknown
  {
    match c
    case CmdOn => "on"
    case CmdOff => "off"
    case CmdToggle => "toggle"
    case CmdFlash => "flash"
    case CmdRgb => "rgb"
    case CmdColorWheel => "color wheel"
  }

  /** Position of a command in the order the tokens are tried; unknown comes last. */
  function Rank(c: LedCmd): nat {
    match c
    case CmdOn => 0
    case CmdOff => 1
    case CmdToggle => 2
    case CmdFlash => 3
    case CmdRgb => 4
    case CmdColorWheel => 5
    case CmdUnknown => 6
  }

  /**
   * The command a payload selects: the first token, in the order
   * on, off, toggle, flash, rgb, color wheel, that the payload starts with.
   */
  function LedCommandOf(cmd: Text): (r: LedCmd)
    ensures r != CmdUnknown ==> HasPrefix(cmd, TokenOf(r))
    ensures forall c :: c != CmdUnknown && HasPrefix(cmd, TokenOf(c)) ==> Rank(r) <= Rank(c)
  {
    if HasPrefix(cmd, "on") then CmdOn
    else if HasPrefix(cmd, "off") then CmdOff
    else if HasPrefix(cmd, "toggle") then CmdToggle
    else if HasPrefix(cmd, "flash") then CmdFlash
    else if HasPrefix(cmd, "rgb") then CmdRgb
    else if HasPrefix(cmd, "color wheel") then CmdColorWheel
    else CmdUnknown
  }

  /* ---------------------------------------------------------------------- */
  /* Decimal scan (NWKU_atoi stored in a uint8_t)                           */
  /* ---------------------------------------------------------------------- */

  predicate IsDigit(ch: char) {
    '0' <= ch <= '9'
  }

  function DigitValue(ch: char): nat
    requires IsDigit(ch)
  {
    ch as int - '0' as int
  }

  function DigitChar(d: nat): (ch: char)
    requires d < 10
    ensures IsDigit(ch) && DigitValue(ch) == d
  {
    ('0' as int + d) as char
  }

  /**
   * The value of the run of decimal digits starting at `p`, accumulated onto
   * `acc`. The scan stops at the first non-digit or at the end of the payload.
   */
  function ScanDecimal(s: Text, p: nat, acc: nat): nat
    decreases |s| - p
  {
    if p < |s| && IsDigit(s[p]) then ScanDecimal(s, p + 1, acc * 10 + DigitValue(s[p])) else acc
  }

  /**
   * `NWKU_atoi(p)` assigned to a `uint8_t`: the scanned value modulo 256.
   * The scan ends at the end of the payload; what follows it is not modelled.
   */
  function Atoi8(s: Text, p: nat): (v: Byte)
    ensures (p >= |s| || !IsDigit(s[p])) ==> v == 0
  {
    ScanDecimal(s, p, 0) % 0x100
  }

  /** `NWKU_PrintDec(v, buf, 3, TRUE)`: three decimal digits with leading zeros. */
  function Dec3(v: nat): (r: Text)
    requires v < 1000
    ensures |r| == 3 && IsDigit(r[0]) && IsDigit(r[1]) && IsDigit(r[2])
  {
    [DigitChar(v / 100), DigitChar(v / 10 % 10), DigitChar(v % 10)]
  }

  lemma Dec3Value(v: nat)
    requires v < 1000
    ensures (DigitValue(Dec3(v)[0]) * 10 + DigitValue(Dec3(v)[1])) * 10 + DigitValue(Dec3(v)[2]) == v
  {
    var d0, d1, d2 := v / 100, v / 10 % 10, v % 10;
    assert v == 10 * (v / 10) + d2;
    assert v / 10 == 10 * d0 + d1 by {
      assert v / 10 / 10 == v / 100;
    }
  }

  /** Three digits written by `Dec3` and followed by a non-digit scan back to their value. */
  lemma {:induction false} ScanDec3(s: Text, p: nat, v: nat)
    requires v < 1000 && p + 3 <= |s| && s[p..p + 3] == Dec3(v)
    requires p + 3 == |s| || !IsDigit(s[p + 3])
    ensures ScanDecimal(s, p, 0) == v
  {
    var d := Dec3(v);
    assert s[p] == d[0] && s[p + 1] == d[1] && s[p + 2] == d[2];
    Dec3Value(v);
    calc {
      ScanDecimal(s, p, 0);
      ScanDecimal(s, p + 1, DigitValue(d[0]));
      ScanDecimal(s, p + 2, DigitValue(d[0]) * 10 + DigitValue(d[1]));
      ScanDecimal(s, p + 3, (DigitValue(d[0]) * 10 + DigitValue(d[1])) * 10 + DigitValue(d[2]));
    }
  }

  /* ---------------------------------------------------------------------- */
  /* The rgb field loop                                                     */
  /* ---------------------------------------------------------------------- */

  predicate IsMarker(ch: char) {
    ch == 'r' || ch == 'g' || ch == 'b'
  }

  /** The component a marker names, set to `v`. */
  function SetField(c: Rgb, m: char, v: Byte): Rgb {
    if m == 'r' then c.(red := v) else if m == 'g' then c.(green := v) else c.(blue := v)
  }

  /** The loop variables: cursor `p`, bytes left `n`, and the colour so far. */
  datatype Cursor = Cursor(p: nat, n: nat, c: Rgb)

  /** The cursor stays inside the `dataLen` bytes of the command. */
  predicate InWindow(s: Text, k: Cursor) {
    k.p + k.n <= |s|
  }

  /** One marker test: when bytes are left and the cursor byte is `m`, consume it and read the decimal after it. */
  function Consume(s: Text, k: Cursor, m: char): (k': Cursor)
    requires InWindow(s, k)
    ensures k'.p + k'.n == k.p + k.n && k'.n <= k.n
  {
    if k.n != 0 && s[k.p] == m then Cursor(k.p + 1, k.n - 1, SetField(k.c, m, Atoi8(s, k.p + 1))) else k
  }

  /** The trailing `dataLen--; p++;` of a pass, when a byte is left. */
  function Skip(k: Cursor): (k': Cursor)
    ensures k'.p + k'.n == k.p + k.n
  {
    if k.n != 0 then Cursor(k.p + 1, k.n - 1, k.c) else k
  }

  /**
   * One pass of the field loop: a marker 'r', then 'g', then 'b' at the
   * cursor is consumed with the decimal after it read into that component;
   * then one more byte is skipped. The marker tests read only inside the
   * window; the decimal after a marker is scanned on to the end of the
   * payload, past the counted bytes when the digits run on.
   */
  function RgbPass(s: Text, k: Cursor): (k': Cursor)
    requires InWindow(s, k) && 0 < k.n
    ensures k'.p + k'.n == k.p + k.n && k'.n < k.n
  {
    Skip(Consume(s, Consume(s, Consume(s, k, 'r'), 'g'), 'b'))
  }

  /** The colour the field loop ends with. */
  function RgbLoop(s: Text, k: Cursor): Rgb
    requires InWindow(s, k)
    decreases k.n
  {
    if k.n == 0 then k.c else RgbLoop(s, RgbPass(s, k))
  }

  /**
   * The bytes the field loop counts after the token: `dataLen -= strlen("rgb")`
   * on a `uint8_t`, which wraps when `dataLen` is below 3. A count that would
   * run past the payload is cut at its end; a payload whose length is counted
   * modulo 256 never needs the cut (`PayloadCountFits`).
   */
  function RgbWindow(s: Text, dataLen: Byte): (n: nat)
    requires 3 <= |s|
    ensures 3 + n <= |s|
    ensures n <= (dataLen - 3) % 0x100
  {
    var n := (dataLen - 3) % 0x100;
    if 3 + n <= |s| then n else |s| - 3
  }

  /** When `dataLen` is the payload length truncated to a `uint8_t`, the wrapped count stays inside the payload. */
  lemma PayloadCountFits(s: Text)
    requires 3 <= |s|
    ensures RgbWindow(s, |s| % 0x100) == (|s| % 0x100 - 3) % 0x100
  {
    var d := |s| % 0x100;
    var q := |s| / 0x100;
    assert |s| == q * 0x100 + d;
    if d >= 3 {
      assert (d - 3) % 0x100 == d - 3;
    } else {
      assert 1 <= q;
      assert (d - 3) % 0x100 == d + 253;
    }
  }

  /**
   * The (r, g, b) an `rgb` command of `dataLen` bytes sets: the fields in the
   * counted bytes after the three-byte token, each component 0 unless its
   * marker is present (`MissingFieldStaysZero`).
   */
  function ParseRgbSpec(s: Text, dataLen: Byte): Rgb
    requires dataLen <= |s|
  {
    if |s| < 3 then NoColour else RgbLoop(s, Cursor(3, RgbWindow(s, dataLen), NoColour))
  }

  /** The field loop of `APP_ProcessLedCmd`, with the cursor `p` and the byte count `n`. */
  method ParseRgb(cmd: Text, dataLen: Byte) returns (red: Byte, green: Byte, blue: Byte)
    requires dataLen <= |cmd|
    ensures Rgb(red, green, blue) == ParseRgbSpec(cmd, dataLen)
  {
    red, green, blue := 0, 0, 0;
    if |cmd| < 3 {
      return;
    }
    var p: nat := 3;
    var n: nat := (dataLen - 3) % 0x100;
    if |cmd| < 3 + n {
      n := |cmd| - 3;
    }
    while n != 0
      invariant p + n <= |cmd|
      invariant RgbLoop(cmd, Cursor(p, n, Rgb(red, green, blue))) == ParseRgbSpec(cmd, dataLen)
    {
      ghost var k0 := Cursor(p, n, Rgb(red, green, blue));
      p, n, red, green, blue := RgbLoopBody(cmd, p, n, red, green, blue);
      assert RgbLoop(cmd, k0) == RgbLoop(cmd, Cursor(p, n, Rgb(red, green, blue)));
    }
  }

  /** The body of the field loop: the three marker tests, then the step to the next byte. */
  method RgbLoopBody(cmd: Text, p: nat, n: nat, red: Byte, green: Byte, blue: Byte)
    returns (p': nat, n': nat, red': Byte, green': Byte, blue': Byte)
    requires p + n <= |cmd| && n != 0
    ensures Cursor(p', n', Rgb(red', green', blue')) == RgbPass(cmd, Cursor(p, n, Rgb(red, green, blue)))
  {
    p', n', red', green', blue' := p, n, red, green, blue;
    if cmd[p'] == 'r' {
      p', n' := p' + 1, n' - 1;
      red' := Atoi8(cmd, p');
    }
    if n' != 0 && cmd[p'] == 'g' {
      p', n' := p' + 1, n' - 1;
      green' := Atoi8(cmd, p');
    }
    if n' != 0 && cmd[p'] == 'b' {
      p', n' := p' + 1, n' - 1;
      blue' := Atoi8(cmd, p');
    }
    if n' != 0 {
      n', p' := n' - 1, p' + 1;
    }
  }

  /** A byte that is not a marker is skipped by one pass, to `k'`. */
  lemma PlainByte(s: Text, k: Cursor, k': Cursor)
    requires InWindow(s, k) && 0 < k.n && !IsMarker(s[k.p]) && k' == Cursor(k.p + 1, k.n - 1, k.c)
    ensures RgbPass(s, k) == k'
  {
  }

  /** When one pass takes `k` to `k'`, the loop from `k` ends as the loop from `k'`. */
  lemma PassStep(s: Text, k: Cursor, k': Cursor)
    requires InWindow(s, k) && 0 < k.n && RgbPass(s, k) == k'
    ensures RgbLoop(s, k) == RgbLoop(s, k')
  {
  }

  /** Two bytes that are not markers are skipped by two passes, to `k'`. */
  lemma TwoPlainBytes(s: Text, k: Cursor, k': Cursor)
    requires InWindow(s, k) && 2 <= k.n && !IsMarker(s[k.p]) && !IsMarker(s[k.p + 1])
    requires k' == Cursor(k.p + 2, k.n - 2, k.c)
    ensures RgbLoop(s, k) == RgbLoop(s, k')
  {
    var k1 := Cursor(k.p + 1, k.n - 1, k.c);
    PlainByte(s, k, k1);
    PassStep(s, k, k1);
    PlainByte(s, k1, k');
    PassStep(s, k1, k');
  }

  /** Bytes that are not markers are skipped one per pass: `j` of them bring the loop to `k'`. */
  lemma {:induction false} SkipPlain(s: Text, k: Cursor, j: nat, k': Cursor)
    requires InWindow(s, k) && j <= k.n && k' == Cursor(k.p + j, k.n - j, k.c)
    requires forall i :: k.p <= i < k.p + j ==> !IsMarker(s[i])
    ensures RgbLoop(s, k) == RgbLoop(s, k')
    decreases j
  {
    if j != 0 {
      var k1 := Cursor(k.p + 1, k.n - 1, k.c);
      PlainByte(s, k, k1);
      PassStep(s, k, k1);
      SkipPlain(s, k1, j - 1, k');
    }
  }

  /** A marker followed by a byte that is not a marker sets one component and moves two bytes on, to `k'`. */
  lemma MarkerField(s: Text, k: Cursor, k': Cursor)
    requires InWindow(s, k) && 2 <= k.n && IsMarker(s[k.p]) && !IsMarker(s[k.p + 1])
    requires k' == Cursor(k.p + 2, k.n - 2, SetField(k.c, s[k.p], Atoi8(s, k.p + 1)))
    ensures RgbPass(s, k) == k'
  {
    var m := s[k.p];
    var k1 := Cursor(k.p + 1, k.n - 1, SetField(k.c, m, Atoi8(s, k.p + 1)));
    if m == 'r' {
      assert Consume(s, k, 'r') == k1;
      assert Consume(s, k1, 'g') == k1 && Consume(s, k1, 'b') == k1;
    } else if m == 'g' {
      assert Consume(s, k, 'r') == k;
      assert Consume(s, k, 'g') == k1 && Consume(s, k1, 'b') == k1;
    } else {
      assert Consume(s, k, 'r') == k && Consume(s, k, 'g') == k;
      assert Consume(s, k, 'b') == k1;
    }
    assert RgbPass(s, k) == k';
  }

  /** The component a marker names. */
  function Component(c: Rgb, m: char): Byte {
    if m == 'r' then c.red else if m == 'g' then c.green else c.blue
  }

  /** A marker test leaves the component of a marker absent from the window as it was. */
  lemma ConsumeKeeps(s: Text, k: Cursor, t: char, m: char)
    requires InWindow(s, k) && IsMarker(t) && IsMarker(m)
    requires forall i :: k.p <= i < k.p + k.n ==> s[i] != m
    ensures Component(Consume(s, k, t).c, m) == Component(k.c, m)
  {
    if k.n != 0 && s[k.p] == t {
      assert s[k.p] != m;
    }
  }

  /** The loop leaves the component of a marker absent from the window as it was. */
  lemma {:induction false} LoopKeeps(s: Text, k: Cursor, m: char)
    requires InWindow(s, k) && IsMarker(m)
    requires forall i :: k.p <= i < k.p + k.n ==> s[i] != m
    ensures Component(RgbLoop(s, k), m) == Component(k.c, m)
    decreases k.n
  {
    if k.n != 0 {
      var k1 := Consume(s, k, 'r');
      ConsumeKeeps(s, k, 'r', m);
      var k2 := Consume(s, k1, 'g');
      ConsumeKeeps(s, k1, 'g', m);
      var k3 := Consume(s, k2, 'b');
      ConsumeKeeps(s, k2, 'b', m);
      var k' := RgbPass(s, k);
      assert k'.c == k3.c;
      LoopKeeps(s, k', m);
    }
  }

  /** A component whose marker does not occur in the counted bytes is 0. */
  lemma MissingFieldStaysZero(s: Text, dataLen: Byte, m: char)
    requires dataLen <= |s| && IsMarker(m)
    requires 3 <= |s| ==> forall i :: 3 <= i < 3 + RgbWindow(s, dataLen) ==> s[i] != m
    ensures Component(ParseRgbSpec(s, dataLen), m) == 0
  {
    if 3 <= |s| {
      LoopKeeps(s, Cursor(3, RgbWindow(s, dataLen), NoColour), m);
    }
  }

  /* ---------------------------------------------------------------------- */
  /* Commands built by APP_SendLedRgbOn / Off, APP_SendLedFlash / ColorWheel */
  /* ---------------------------------------------------------------------- */

  /**
   * `"rgb r000 g000 b000"` with the three fields printed at offsets 5, 10
   * and 15, followed by the terminating NUL that `sizeof` counts.
   */
  function RgbCommand(c: Rgb): (cmd: Text)
    ensures |cmd| == 19
  {
    "rgb r" + Dec3(c.red) + " g" + Dec3(c.green) + " b" + Dec3(c.blue) + "\0"
  }

  const FlashCommand: Text := "flash\0"
  const ColorWheelCommand: Text := "color wheel\0"

  /** A space, then a marker followed by a byte that is not a marker: three bytes on, to `k'`. */
  lemma SpaceThenMarker(s: Text, k: Cursor, k': Cursor)
    requires InWindow(s, k) && 3 <= k.n && s[k.p] == ' ' && IsMarker(s[k.p + 1]) && !IsMarker(s[k.p + 2])
    requires k' == Cursor(k.p + 3, k.n - 3, SetField(k.c, s[k.p + 1], Atoi8(s, k.p + 2)))
    ensures RgbLoop(s, k) == RgbLoop(s, k')
  {
    var k1 := Cursor(k.p + 1, k.n - 1, k.c);
    PlainByte(s, k, k1);
    PassStep(s, k, k1);
    MarkerField(s, k1, k');
    PassStep(s, k1, k');
  }

  /** A space, a marker and three bytes that are not markers (the digits of a field) set that marker's component and move five bytes on, to `k'`. */
  lemma SpacedField(s: Text, k: Cursor, k': Cursor)
    requires InWindow(s, k) && 5 <= k.n && s[k.p] == ' ' && IsMarker(s[k.p + 1])
    requires !IsMarker(s[k.p + 2]) && !IsMarker(s[k.p + 3]) && !IsMarker(s[k.p + 4])
    requires k' == Cursor(k.p + 5, k.n - 5, SetField(k.c, s[k.p + 1], Atoi8(s, k.p + 2)))
    ensures RgbLoop(s, k) == RgbLoop(s, k')
  {
    var k3 := Cursor(k.p + 3, k.n - 3, k'.c);
    SpaceThenMarker(s, k, k3);
    TwoPlainBytes(s, k3, k');
  }

  /** Three digits written by `Dec3` and followed by a non-digit are read back by `Atoi8`. */
  lemma Atoi8Dec3(s: Text, p: nat, v: Byte)
    requires p + 3 <= |s| && s[p..p + 3] == Dec3(v)
    requires p + 3 == |s| || !IsDigit(s[p + 3])
    ensures IsDigit(s[p]) && IsDigit(s[p + 1]) && IsDigit(s[p + 2])
    ensures Atoi8(s, p) == v
  {
    assert s[p] == Dec3(v)[0] && s[p + 1] == Dec3(v)[1] && s[p + 2] == Dec3(v)[2];
    ScanDec3(s, p, v);
  }

  /** The bytes of a built `rgb` command, position by position. */
  lemma RgbCommandLayout(c: Rgb)
    ensures LaidOut(RgbCommand(c), c)
  {
  }

  /** The layout of a built `rgb` command: token, three spaced fields, NUL. */
  predicate LaidOut(s: Text, c: Rgb) {
    |s| == 19 && s[..3] == "rgb"
    && s[3] == ' ' && s[4] == 'r' && s[5..8] == Dec3(c.red)
    && s[8] == ' ' && s[9] == 'g' && s[10..13] == Dec3(c.green)
    && s[13] == ' ' && s[14] == 'b' && s[15..18] == Dec3(c.blue)
    && s[18] == '\0'
  }

  /** A field of an `rgb` command: its marker and the value read after it. */
  datatype Field = Field(marker: char, value: Byte)

  /** The spaced field at `p`, if there is one: a space, a marker, three digits. */
  function FieldAt(s: Text, p: nat): Option<Field> {
    if p + 5 <= |s| && s[p] == ' ' && IsMarker(s[p + 1]) && IsDigit(s[p + 2]) && IsDigit(s[p + 3]) && IsDigit(s[p + 4])
    then Some(Field(s[p + 1], Atoi8(s, p + 2)))
    else None
  }

  /** What the parse needs of a laid-out command. */
  lemma LaidOutFieldsAt(s: Text, c: Rgb)
    requires LaidOut(s, c)
    ensures FieldAt(s, 3) == Some(Field('r', c.red))
    ensures FieldAt(s, 8) == Some(Field('g', c.green))
    ensures FieldAt(s, 13) == Some(Field('b', c.blue))
  {
    Atoi8Dec3(s, 5, c.red);
    Atoi8Dec3(s, 10, c.green);
    Atoi8Dec3(s, 15, c.blue);
  }

  /** One spaced field read from a cursor at its space. */
  lemma FieldStep(s: Text, p: nat, n: nat, c: Rgb, f: Field, p': nat, n': nat, c': Rgb)
    requires FieldAt(s, p) == Some(f) && p + n <= |s|
    requires p' == p + 5 && n == n' + 5 && c' == SetField(c, f.marker, f.value)
    ensures RgbLoop(s, Cursor(p, n, c)) == RgbLoop(s, Cursor(p', n', c'))
  {
    SpacedField(s, Cursor(p, n, c), Cursor(p', n', c'));
  }

  /** The three fields, read with or without the terminator in the count. */
  lemma ThreeFields(s: Text, c: Rgb, extra: nat)
    requires FieldAt(s, 3) == Some(Field('r', c.red))
    requires FieldAt(s, 8) == Some(Field('g', c.green))
    requires FieldAt(s, 13) == Some(Field('b', c.blue))
    requires 18 + extra <= |s|
    ensures RgbLoop(s, Cursor(3, 15 + extra, NoColour)) == RgbLoop(s, Cursor(18, extra, c))
  {
    var c1 := NoColour.(red := c.red);
    var c2 := c1.(green := c.green);
    FieldStep(s, 3, 15 + extra, NoColour, Field('r', c.red), 8, 10 + extra, c1);
    FieldStep(s, 8, 10 + extra, c1, Field('g', c.green), 13, 5 + extra, c2);
    FieldStep(s, 13, 5 + extra, c2, Field('b', c.blue), 18, extra, c);
  }

  /** The command built with colour `c` parses back to `c`. */
  lemma RgbCommandRoundTrip(c: Rgb)
    ensures LedCommandOf(RgbCommand(c)) == CmdRgb
    ensures ParseRgbSpec(RgbCommand(c), 19) == c
  {
    var s := RgbCommand(c);
    RgbCommandLayout(c);
    assert s[0] == 'r';
    LaidOutFieldsAt(s, c);
    ThreeFields(s, c, 1);
    PlainByte(s, Cursor(18, 1, c), Cursor(19, 0, c));
    PassStep(s, Cursor(18, 1, c), Cursor(19, 0, c));
  }

  /** Each fixed command selects the command it is named after. */
  lemma FixedCommandsClassify()
    ensures LedCommandOf(FlashCommand) == CmdFlash
    ensures LedCommandOf(ColorWheelCommand) == CmdColorWheel
  {
    assert FlashCommand[0] == 'f' && FlashCommand[..5] == "flash";
    assert ColorWheelCommand[0] == 'c' && ColorWheelCommand[..11] == "color wheel";
  }

  /**
   * The count may stop before the terminator: the three fields alone give the
   * same colour. A bare `rgb` has no fields and gives no colour.
   */
  lemma RgbFieldsWithoutTerminator(c: Rgb)
    ensures ParseRgbSpec(RgbCommand(c), 18) == c
    ensures ParseRgbSpec("rgb", 3) == NoColour
  {
    RgbCommandLayout(c);
    LaidOutFieldsAt(RgbCommand(c), c);
    ThreeFields(RgbCommand(c), c, 0);
  }

  /* ---------------------------------------------------------------------- */
  /* The loop as written: a uint8_t counter that can step past zero          */
  /* ---------------------------------------------------------------------- */

  datatype ParseOutcome = Parsed(rgb: Rgb) | ReadsPastPayload

  /** `uint8_t` decrement. */
  function Dec8(n: Byte): Byte {
    if n == 0 then 0xFF else n - 1
  }

  /** The loop variables as the source has them: the counter is a `uint8_t`. */
  datatype RawCursor = RawCursor(p: nat, n: Byte, c: Rgb)

  /** One marker test as written: no check of the counter before reading or decrementing it. */
  function ConsumeAsWritten(s: Text, k: RawCursor, m: char): (k': RawCursor)
    requires k.p < |s|
    ensures k'.p <= k.p + 1
  {
    if s[k.p] == m then RawCursor(k.p + 1, Dec8(k.n), SetField(k.c, m, Atoi8(s, k.p + 1))) else k
  }

  /**
   * One pass as written: the three marker tests, each reading the cursor
   * byte, then the trailing `dataLen--; p++;`. Each consumed byte decrements
   * the `uint8_t` counter, which wraps from 0 to 255. `None` when a test
   * would read at or past the end of the payload.
   */
  function PassAsWritten(s: Text, k: RawCursor): (r: Option<RawCursor>)
    ensures r.Some? ==> k.p < r.value.p
  {
    if k.p >= |s| then None
    else
      var k1 := ConsumeAsWritten(s, k, 'r');
      if k1.p >= |s| then None
      else
        var k2 := ConsumeAsWritten(s, k1, 'g');
        if k2.p >= |s| then None
        else
          var k3 := ConsumeAsWritten(s, k2, 'b');
          Some(RawCursor(k3.p + 1, Dec8(k3.n), k3.c))
  }

  /** The loop exactly as the source writes it: passes until the counter is 0. */
  function RgbLoopAsWritten(s: Text, k: RawCursor): ParseOutcome
    decreases |s| - k.p
  {
    if k.n == 0 then Parsed(k.c)
    else
      match PassAsWritten(s, k)
      case None => ReadsPastPayload
      case Some(k') => RgbLoopAsWritten(s, k')
  }

  /** `dataLen -= strlen("rgb")` on a `uint8_t`, then the loop. */
  function ParseRgbAsWritten(s: Text, dataLen: Byte): ParseOutcome {
    RgbLoopAsWritten(s, RawCursor(3, (dataLen - 3) % 0x100, NoColour))
  }

  /** The last byte of a non-empty window is not a marker. */
  predicate PlainEnd(s: Text, k: Cursor)
    requires InWindow(s, k)
  {
    k.n > 0 ==> !IsMarker(s[k.p + k.n - 1])
  }

  /** With a plain last byte, a marker test as written matches the guarded one and leaves a byte to count. */
  lemma ConsumeAgrees(s: Text, k: Cursor, m: char)
    requires InWindow(s, k) && 0 < k.n < 0x100 && PlainEnd(s, k) && IsMarker(m)
    ensures ConsumeAsWritten(s, RawCursor(k.p, k.n, k.c), m) == RawCursor(Consume(s, k, m).p, Consume(s, k, m).n, Consume(s, k, m).c)
    ensures 0 < Consume(s, k, m).n && PlainEnd(s, Consume(s, k, m))
  {
  }

  /** With a plain last byte, one pass as written matches `RgbPass` and keeps the last byte plain. */
  lemma PassAgrees(s: Text, k: Cursor, k': Cursor)
    requires InWindow(s, k) && 0 < k.n < 0x100 && PlainEnd(s, k) && k' == RgbPass(s, k)
    ensures PassAsWritten(s, RawCursor(k.p, k.n, k.c)) == Some(RawCursor(k'.p, k'.n, k'.c))
    ensures PlainEnd(s, k')
  {
    var k1 := Consume(s, k, 'r');
    ConsumeAgrees(s, k, 'r');
    var k2 := Consume(s, k1, 'g');
    ConsumeAgrees(s, k1, 'g');
    var k3 := Consume(s, k2, 'b');
    ConsumeAgrees(s, k2, 'b');
    assert k' == Cursor(k3.p + 1, k3.n - 1, k3.c);
  }

  /** While the window's last byte is not a marker, the counter never wraps. */
  lemma {:induction false} AsWrittenAgreesOnWindow(s: Text, k: Cursor)
    requires InWindow(s, k) && k.n < 0x100 && PlainEnd(s, k)
    ensures RgbLoopAsWritten(s, RawCursor(k.p, k.n, k.c)) == Parsed(RgbLoop(s, k))
    decreases k.n
  {
    if k.n > 0 {
      var k' := RgbPass(s, k);
      PassAgrees(s, k, k');
      AsWrittenAgreesOnWindow(s, k');
    }
  }

  /** A payload whose last counted byte is not a marker parses the same either way. */
  lemma AsWrittenAgreesWhenLastByteIsPlain(s: Text, dataLen: Byte, n: nat)
    requires dataLen <= |s| && n == (dataLen - 3) % 0x100 && 3 + n <= |s|
    requires n == 0 || !IsMarker(s[2 + n])
    ensures ParseRgbAsWritten(s, dataLen) == Parsed(ParseRgbSpec(s, dataLen))
  {
    var k := Cursor(3, n, NoColour);
    assert RgbWindow(s, dataLen) == n;
    AsWrittenAgreesOnWindow(s, k);
  }

  /**
   * A `/led` payload of 257 bytes, `rgb r1` and 251 spaces, arrives with the
   * `uint8_t` length 1. The count after the token wraps to 254, which covers
   * exactly the rest of the payload, so both loops set red to 1.
   */
  lemma WrappedCountParses(s: Text)
    requires |s| == 257 && s[..3] == "rgb" && s[3] == ' ' && s[4] == 'r' && s[5] == '1'
    requires forall i :: 6 <= i < 257 ==> s[i] == ' '
    ensures |s| % 0x100 == 1
    ensures ParseRgbSpec(s, 1) == Rgb(1, 0, 0) && ParseRgbAsWritten(s, 1) == Parsed(Rgb(1, 0, 0))
  {
    assert Atoi8(s, 5) == 1 by {
      assert ScanDecimal(s, 6, 1) == 1;
    }
    var k := Cursor(3, 254, NoColour);
    var k' := Cursor(6, 251, Rgb(1, 0, 0));
    assert RgbWindow(s, 1) == 254;
    SpaceThenMarker(s, k, k');
    SkipPlain(s, k', 251, Cursor(257, 0, Rgb(1, 0, 0)));
    AsWrittenAgreesWhenLastByteIsPlain(s, 1, 254);
  }

  /** The commands the builders send end in NUL, so the loop as written is safe on them. */
  lemma BuiltRgbCommandIsSafe(c: Rgb)
    ensures ParseRgbAsWritten(RgbCommand(c), 19) == Parsed(c)
  {
    RgbCommandLayout(c);
    LaidOutAgrees(RgbCommand(c), c);
    RgbCommandRoundTrip(c);
  }

  /** A laid-out command ends in NUL, so both loops agree on its 19 bytes. */
  lemma LaidOutAgrees(s: Text, c: Rgb)
    requires LaidOut(s, c)
    ensures ParseRgbAsWritten(s, 19) == Parsed(ParseRgbSpec(s, 19))
  {
    AsWrittenAgreesWhenLastByteIsPlain(s, 19, 16);
  }

  /**
   * A payload `"rgb r"`: the marker is the last byte, so the counter reaches
   * zero inside the pass, the trailing decrement wraps it to 255, and the
   * loop goes on reading past the payload. The corrected loop stops there.
   */
  lemma AsWrittenReadsPastTrailingMarker()
    ensures ParseRgbAsWritten("rgb r", 5) == ReadsPastPayload
    ensures ParseRgbSpec("rgb r", 5) == NoColour
  {
    var s: Text := "rgb r";
    assert PassAsWritten(s, RawCursor(3, 2, NoColour)) == Some(RawCursor(4, 1, NoColour));
    assert PassAsWritten(s, RawCursor(4, 1, NoColour)) == None;
    assert RgbPass(s, Cursor(3, 2, NoColour)) == Cursor(4, 1, NoColour);
    assert RgbPass(s, Cursor(4, 1, NoColour)) == Cursor(5, 0, NoColour);
  }

  /* ---------------------------------------------------------------------- */
  /* What a command does to the device                                      */
  /* ---------------------------------------------------------------------- */

  /**
   * The state a command moves the device to, or `None` when it names no
   * command. With the RGB LED built in an `rgb` command selects `AppLedRgb`;
   * without it, `AppLedOn` when some component is non-zero and `AppLedOff`
   * otherwise. `color wheel` falls back to `AppLedFlash` without the RGB LED.
   */
  function LedTargetState(cmd: Text, dataLen: Byte, rgbEnabled: bool): (r: Option<DeviceState>)
    requires dataLen <= |cmd|
    ensures r.None? <==> LedCommandOf(cmd) == CmdUnknown
  {
    match LedCommandOf(cmd)
    case CmdOn => Some(AppLedOn)
    case CmdOff => Some(AppLedOff)
    case CmdToggle => Some(AppLedToggle)
    case CmdFlash => Some(AppLedFlash)
    case CmdRgb =>
      if rgbEnabled then Some(AppLedRgb)
      else if ParseRgbSpec(cmd, dataLen) != NoColour then Some(AppLedOn)
      else Some(AppLedOff)
    case CmdColorWheel => Some(if rgbEnabled then AppLedColorWheel else AppLedFlash)
    case CmdUnknown => None
  }

  /** The LED driver calls a command makes: an RGB update first, for `rgb` with the RGB LED, then one render. */
  function LedCommandOps(cmd: Text, dataLen: Byte, rgbEnabled: bool): (r: seq<LedOp>)
    requires dataLen <= |cmd|
    ensures r == [] <==> LedCommandOf(cmd) == CmdUnknown
    ensures r != [] ==> |r| <= 2 && r[|r| - 1] == Render(Application, LedTargetState(cmd, dataLen, rgbEnabled).value)
    ensures |r| == 2 <==> LedCommandOf(cmd) == CmdRgb && rgbEnabled
  {
    match LedTargetState(cmd, dataLen, rgbEnabled)
    case None => []
    case Some(st) =>
      (if LedCommandOf(cmd) == CmdRgb && rgbEnabled then [SetRgb(ParseRgbSpec(cmd, dataLen))] else [])
      + [Render(Application, st)]
  }

  /** Without the RGB LED an `rgb` command lights the LED exactly when some component is non-zero. */
  lemma RgbWithoutRgbLed(cmd: Text, dataLen: Byte)
    requires dataLen <= |cmd| && HasPrefix(cmd, "rgb")
    ensures LedTargetState(cmd, dataLen, false) == Some(AppLedOn)
            <==> ParseRgbSpec(cmd, dataLen).red != 0 || ParseRgbSpec(cmd, dataLen).green != 0
                 || ParseRgbSpec(cmd, dataLen).blue != 0
    ensures LedTargetState(cmd, dataLen, false) == Some(AppLedOff)
            <==> ParseRgbSpec(cmd, dataLen) == NoColour
  {
    assert cmd[0] == 'r' by {
      assert cmd[..3] == "rgb";
    }
  }
}
