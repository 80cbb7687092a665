/**
  The option and state logic of the Parallax.js scene: its helpers `clamp`,
  `camelCase` and `deserialize`, the precedence of the constructor's option
  merge, and the `Parallax` object's flags (enabled, calibration, portrait),
  readings, listeners and per-axis settings.

  JavaScript numbers are modelled as `real` (exact, no rounding). The window
  size, the device readings and the support flags are parameters.
 */
module ParallaxLib {
  import opened JsRuntime

  // ---------------------------------------------------------------------------
  // helpers
  // ---------------------------------------------------------------------------

  /**
    `helpers.clamp(value, min, max)`: the value held between the two bounds,
    with the bounds swapped when they are given in decreasing order.
   */
  function Clamp(value: real, min: real, max: real): (r: real)
    ensures min < max ==> min <= r <= max
    ensures !(min < max) ==> max <= r <= min
    ensures (min <= value <= max || max <= value <= min) ==> r == value
  {
    if min < max then (if value < min then min else if value > max then max else value)
    else (if value < max then max else if value > min then min else value)
  }

  function Min(a: real, b: real): real { if a <= b then a else b }
  function Max(a: real, b: real): real { if a <= b then b else a }

  /** An independent definition: the median of the value and the two bounds. */
  lemma ClampIsMedian(value: real, min: real, max: real)
    ensures Clamp(value, min, max) == Max(Min(min, max), Min(Max(min, max), value))
  {
  }

  /** Clamping twice is clamping once. */
  lemma ClampIdempotent(value: real, min: real, max: real)
    ensures Clamp(Clamp(value, min, max), min, max) == Clamp(value, min, max)
  {
  }

  /** `String.prototype.toUpperCase` on one character, for ASCII and the basic Cyrillic block. */
  function ToUpper(c: char): (u: char)
    ensures c != '-' ==> u != '-'
  {
    if 'a' <= c <= 'z' then (c as int - 32) as char
    else if '\U{0430}' <= c <= '\U{044F}' then (c as int - 32) as char
    else if '\U{0450}' <= c <= '\U{045F}' then (c as int - 80) as char
    else c
  }

  /** s without its leading hyphens. */
  function DropHyphens(s: string): (r: string)
    ensures |r| <= |s| && r == s[|s| - |r|..]
    ensures r == [] || r[0] != '-'
    ensures forall i :: 0 <= i < |s| - |r| ==> s[i] == '-'
    decreases |s|
  {
    if s != [] && s[0] == '-' then DropHyphens(s[1..]) else s
  }

  /**
    `value.replace(/-+(.)?/g, ...)`: each run of hyphens is deleted together
    with the character after it, which is put back upper-cased; a run at the
    end, or before a line terminator (which `.` does not match), is just
    deleted.
   */
  function CamelCase(s: string): (r: string)
    ensures |r| <= |s|
    decreases |s|
  {
    if s == [] then []
    else if s[0] != '-' then [s[0]] + CamelCase(s[1..])
    else
      var rest := DropHyphens(s);
      if rest == [] then []
      else if IsLineTerminator(rest[0]) then CamelCase(rest)
      else [ToUpper(rest[0])] + CamelCase(rest[1..])
  }

  /** No hyphen survives. */
  lemma {:induction false} CamelCaseHasNoHyphen(s: string)
    ensures '-' !in CamelCase(s)
    decreases |s|
  {
    if s != [] {
      if s[0] != '-' {
        CamelCaseHasNoHyphen(s[1..]);
      } else {
        var rest := DropHyphens(s);
        if rest != [] {
          if IsLineTerminator(rest[0]) {
            CamelCaseHasNoHyphen(rest);
          } else {
            CamelCaseHasNoHyphen(rest[1..]);
          }
        }
      }
    }
  }

  /** A name without hyphens is left as it is. */
  lemma {:induction false} CamelCaseWithoutHyphen(s: string)
    requires '-' !in s
    ensures CamelCase(s) == s
    decreases |s|
  {
    if s != [] {
      assert s[0] != '-';
      assert '-' !in s[1..];
      CamelCaseWithoutHyphen(s[1..]);
      assert s == [s[0]] + s[1..];
    }
  }

  /** Converting a second time changes nothing. */
  lemma CamelCaseIdempotent(s: string)
    ensures CamelCase(CamelCase(s)) == CamelCase(s)
  {
    CamelCaseHasNoHyphen(s);
    CamelCaseWithoutHyphen(CamelCase(s));
  }

  /** A prefix without hyphens passes through unchanged. */
  lemma {:induction false} CamelCasePrefix(p: string, t: string)
    requires '-' !in p
    ensures CamelCase(p + t) == p + CamelCase(t)
    decreases |p|
  {
    if p == [] {
      assert p + t == t;
    } else {
      var s := p + t;
      assert s[0] == p[0] && s[0] != '-' && s[1..] == p[1..] + t;
      assert '-' !in p[1..];
      CamelCasePrefix(p[1..], t);
      calc {
        CamelCase(s);
        [p[0]] + CamelCase(p[1..] + t);
        [p[0]] + (p[1..] + CamelCase(t));
        ([p[0]] + p[1..]) + CamelCase(t);
        { assert [p[0]] + p[1..] == p; }
        p + CamelCase(t);
      }
    }
  }

  /** Dropping the leading hyphens of a run of hyphens followed by anything else leaves the rest. */
  lemma {:induction false} DropHyphensRun(h: string, u: string)
    requires forall i :: 0 <= i < |h| ==> h[i] == '-'
    requires u == [] || u[0] != '-'
    ensures DropHyphens(h + u) == u
    decreases |h|
  {
    if h == [] {
      assert h + u == u;
    } else {
      assert (h + u)[0] == '-' && (h + u)[1..] == h[1..] + u;
      DropHyphensRun(h[1..], u);
    }
  }

  /**
    A run of hyphens of any length goes as one: with the character after it
    upper-cased, or, for a line terminator, left as it is.
   */
  lemma CamelCaseHyphenRun(h: string, c: char, t: string)
    requires h != [] && forall i :: 0 <= i < |h| ==> h[i] == '-'
    requires c != '-'
    ensures !IsLineTerminator(c) ==> CamelCase(h + [c] + t) == [ToUpper(c)] + CamelCase(t)
    ensures IsLineTerminator(c) ==> CamelCase(h + [c] + t) == [c] + CamelCase(t)
  {
    var u := [c] + t;
    assert h + [c] + t == h + u;
    DropHyphensRun(h, u);
    assert (h + u)[0] == '-';
    assert u[0] == c && u[1..] == t;
  }

  /** A name made of hyphens only becomes empty. */
  lemma CamelCaseAllHyphens(h: string)
    requires forall i :: 0 <= i < |h| ==> h[i] == '-'
    ensures CamelCase(h) == []
  {
    if h != [] {
      DropHyphensRun(h, []);
      assert h + [] == h;
    }
  }

  /** One hyphen between two hyphen-free words: removed, and the next character upper-cased. */
  lemma CamelCaseOneHyphen(a: string, b: string)
    requires '-' !in a && '-' !in b
    requires b != [] && !IsLineTerminator(b[0])
    ensures CamelCase(a + "-" + b) == a + [ToUpper(b[0])] + b[1..]
  {
    var tail := "-" + b;
    assert tail[0] == '-' && tail[1..] == b;
    assert DropHyphens(b) == b;
    assert DropHyphens(tail) == b;
    assert '-' !in b[1..];
    CamelCaseWithoutHyphen(b[1..]);
    assert CamelCase(tail) == [ToUpper(b[0])] + b[1..];
    CamelCasePrefix(a, tail);
    assert a + "-" + b == a + tail;
  }

  /** The vendor-prefixed property name the library converts. */
  lemma CamelCaseExample()
    ensures CamelCase("webkit-transform") == "webkitTransform"
  {
    var a, b := "webkit", "transform";
    assert '-' !in a && '-' !in b && b[0] == 't' && !IsLineTerminator('t');
    CamelCaseOneHyphen(a, b);
    assert ToUpper('t') == 'T';
    assert a + "-" + b == "webkit-transform";
    assert a + [ToUpper(b[0])] + b[1..] == "webkitTransform";
  }

  /** A run of hyphens goes as one, and a trailing run is just removed. */
  lemma CamelCaseRunExamples()
    ensures CamelCase("a--b") == "aB"
    ensures CamelCase("x-") == "x"
  {
    assert DropHyphens("b") == "b";
    assert DropHyphens("-b") == "b";
    assert DropHyphens("--b") == "b";
    assert ToUpper('b') == 'B';
    assert CamelCase("--b") == "B";
    CamelCasePrefix("a", "--b");
    assert "a" + "--b" == "a--b";
    assert DropHyphens("-") == "";
    CamelCasePrefix("x", "-");
    assert "x" + "-" == "x-";
  }

  /** What `helpers.deserialize` can return. */
  datatype Value = Bool(b: bool) | Null | Number(text: string) | Text(s: string)

  /**
    `helpers.deserialize(getAttribute(...))`: an absent attribute (null) and
    "null" give null, "true" and "false" the booleans, a numeric text a
    number, anything else the text itself. `isNumeric` stands for
    `!isNaN(parseFloat(value)) && isFinite(value)`.
   */
  function Deserialize(value: Option<string>, isNumeric: string -> bool): (r: Value)
    ensures r == Bool(true) <==> value == Some("true")
    ensures r == Bool(false) <==> value == Some("false")
    ensures r == Null <==> value == None || value == Some("null")
    ensures r.Number? ==> value == Some(r.text) && isNumeric(r.text)
    ensures value.Some? && value.value != "true" && value.value != "false" && value.value != "null" ==>
      (if isNumeric(value.value) then r == Number(value.value) else r == Text(value.value))
  {
    match value
      case None => Null
      case Some(v) =>
        if v == "true" then Bool(true)
        else if v == "false" then Bool(false)
        else if v == "null" then Null
        else if isNumeric(v) then Number(v)
        else Text(v)
  }

  /**
    `objectAssign(this, DEFAULTS, data, options)` after the null data
    attributes were deleted (None is null): options win over data, data over
    the defaults.
   */
  function Merge<T>(defaults: map<string, T>, data: map<string, Option<T>>, options: map<string, T>): (r: map<string, T>)
    ensures forall k :: k in r <==> k in defaults || (k in data && data[k].Some?) || k in options
    ensures forall k :: k in options ==> r[k] == options[k]
    ensures forall k :: k !in options && k in data && data[k].Some? ==> r[k] == data[k].value
    ensures forall k :: k !in options && !(k in data && data[k].Some?) && k in defaults ==> r[k] == defaults[k]
  {
    var present := map k | k in data && data[k].Some? :: data[k].value;
    defaults + present + options
  }

  /** An axis setter's argument: `x === undefined ? this.x : x`. */
  function KeepOrReplace<T>(current: T, arg: Option<T>): (r: T)
    ensures arg.None? ==> r == current
    ensures arg.Some? ==> r == arg.value
  {
    if arg.None? then current else arg.value
  }

  // ---------------------------------------------------------------------------
  // the Parallax object
  // ---------------------------------------------------------------------------

  /** `limitX`/`limitY`: `false` or a bound. */
  datatype Limit = NoLimit | Bound(value: real)

  /** The per-axis options after the merge. */
  datatype Settings = Settings(
    calibrateX: bool, calibrateY: bool,
    invertX: bool, invertY: bool,
    limitX: Limit, limitY: Limit,
    scalarX: real, scalarY: real,
    frictionX: real, frictionY: real,
    originX: real, originY: real)

  /** DEFAULTS. */
  const Defaults: Settings := Settings(false, true, true, true, NoLimit, NoLimit, 10.0, 10.0, 0.1, 0.1, 0.5, 0.5)

  /** `MAGIC_NUMBER`, the degrees of tilt per unit of input. */
  const MagicNumber: real := 30.0

  /** The window listeners the object holds. */
  datatype Listener = DeviceOrientation | DeviceMotion | MouseMove | Resize

  /** The input listener `enable` chooses: orientation, else motion, else the mouse. */
  function InputListener(orientationSupport: bool, motionSupport: bool): (l: Listener)
    ensures l != Resize
    ensures l == DeviceOrientation <==> orientationSupport
    ensures l == MouseMove <==> !orientationSupport && !motionSupport
  {
    if orientationSupport then DeviceOrientation else if motionSupport then DeviceMotion else MouseMove
  }

  class Parallax {
    var element: nat
    var inputElement: nat
    var settings: Settings
    var enabled: bool
    var calibrationFlag: bool
    var portrait: bool
    var calibrationX: real
    var calibrationY: real
    var inputX: real
    var inputY: real
    var windowWidth: int
    var windowHeight: int
    var orientationSupport: bool
    var motionSupport: bool
    var orientationStatus: int
    var motionStatus: int
    var listeners: set<Listener>

    /** An enabled object listens for its input and for resizes; a disabled one for nothing. */
    predicate Valid()
      reads this
    {
      listeners == (if enabled then {InputListener(orientationSupport, motionSupport), Resize} else {})
    }

    /**
      The constructor with the merged settings and the merged `inputElement`
      (None when it was null), the window size, and whether the device
      reports orientation and motion; `initialise` ends by enabling it.
     */
    constructor (element: nat, inputElement: Option<nat>, settings: Settings,
                 windowWidth: int, windowHeight: int, orientationSupport: bool, motionSupport: bool)
      ensures this.element == element
      ensures this.inputElement == (if inputElement.Some? then inputElement.value else element)
      ensures this.settings == settings
      ensures Valid() && enabled && calibrationFlag && !portrait
      ensures calibrationX == 0.0 && calibrationY == 0.0 && inputX == 0.0 && inputY == 0.0
      ensures this.windowWidth == windowWidth && this.windowHeight == windowHeight
      ensures this.orientationSupport == orientationSupport && this.motionSupport == motionSupport
      ensures orientationStatus == 0 && motionStatus == 0
    {
      this.element := element;
      this.inputElement := if inputElement.Some? then inputElement.value else element;
      this.settings := settings;
      calibrationFlag := true;
      enabled := false;
      calibrationX := 0.0;
      calibrationY := 0.0;
      inputX := 0.0;
      inputY := 0.0;
      portrait := false;
      this.windowWidth := windowWidth;
      this.windowHeight := windowHeight;
      this.orientationSupport := orientationSupport;
      this.motionSupport := motionSupport;
      orientationStatus := 0;
      motionStatus := 0;
      listeners := {};
      new;
      Enable();
    }

    /** `enable`: nothing when already enabled; otherwise start listening for the chosen input and for resizes. */
    method Enable()
      modifies this`enabled, this`listeners, this`portrait, this`calibrationX, this`calibrationY
      ensures old(enabled) ==> (enabled == old(enabled) && listeners == old(listeners) && portrait == old(portrait)
        && calibrationX == old(calibrationX) && calibrationY == old(calibrationY))
      ensures !old(enabled) ==> (enabled && !portrait
        && listeners == old(listeners) + {InputListener(orientationSupport, motionSupport), Resize}
        && (if orientationSupport || motionSupport
            then calibrationX == old(calibrationX) && calibrationY == old(calibrationY)
            else calibrationX == 0.0 && calibrationY == 0.0))
      ensures old(Valid()) ==> Valid()
    {
      if enabled {
        return;
      }
      enabled := true;
      if orientationSupport {
        portrait := false;
        listeners := listeners + {DeviceOrientation};
      } else if motionSupport {
        portrait := false;
        listeners := listeners + {DeviceMotion};
      } else {
        calibrationX := 0.0;
        calibrationY := 0.0;
        portrait := false;
        listeners := listeners + {MouseMove};
      }
      listeners := listeners + {Resize};
    }

    /** `disable`: nothing when already disabled; otherwise stop listening. */
    method Disable()
      modifies this`enabled, this`listeners
      ensures old(enabled) ==> !enabled && listeners == old(listeners) - {InputListener(orientationSupport, motionSupport), Resize}
      ensures !old(enabled) ==> !enabled && listeners == old(listeners)
      ensures old(Valid()) ==> Valid()
    {
      if !enabled {
        return;
      }
      enabled := false;
      if orientationSupport {
        listeners := listeners - {DeviceOrientation};
      } else if motionSupport {
        listeners := listeners - {DeviceMotion};
      } else {
        listeners := listeners - {MouseMove};
      }
      listeners := listeners - {Resize};
    }

    method Calibrate(x: Option<bool>, y: Option<bool>)
      modifies this`settings
      ensures settings == old(settings).(calibrateX := KeepOrReplace(old(settings).calibrateX, x),
                                         calibrateY := KeepOrReplace(old(settings).calibrateY, y))
    {
      settings := settings.(calibrateX := KeepOrReplace(settings.calibrateX, x), calibrateY := KeepOrReplace(settings.calibrateY, y));
    }

    method Invert(x: Option<bool>, y: Option<bool>)
      modifies this`settings
      ensures settings == old(settings).(invertX := KeepOrReplace(old(settings).invertX, x),
                                         invertY := KeepOrReplace(old(settings).invertY, y))
    {
      settings := settings.(invertX := KeepOrReplace(settings.invertX, x), invertY := KeepOrReplace(settings.invertY, y));
    }

    method Friction(x: Option<real>, y: Option<real>)
      modifies this`settings
      ensures settings == old(settings).(frictionX := KeepOrReplace(old(settings).frictionX, x),
                                         frictionY := KeepOrReplace(old(settings).frictionY, y))
    {
      settings := settings.(frictionX := KeepOrReplace(settings.frictionX, x), frictionY := KeepOrReplace(settings.frictionY, y));
    }

    method Scalar(x: Option<real>, y: Option<real>)
      modifies this`settings
      ensures settings == old(settings).(scalarX := KeepOrReplace(old(settings).scalarX, x),
                                         scalarY := KeepOrReplace(old(settings).scalarY, y))
    {
      settings := settings.(scalarX := KeepOrReplace(settings.scalarX, x), scalarY := KeepOrReplace(settings.scalarY, y));
    }

    method SetLimit(x: Option<Limit>, y: Option<Limit>)
      modifies this`settings
      ensures settings == old(settings).(limitX := KeepOrReplace(old(settings).limitX, x),
                                         limitY := KeepOrReplace(old(settings).limitY, y))
    {
      settings := settings.(limitX := KeepOrReplace(settings.limitX, x), limitY := KeepOrReplace(settings.limitY, y));
    }

    method Origin(x: Option<real>, y: Option<real>)
      modifies this`settings
      ensures settings == old(settings).(originX := KeepOrReplace(old(settings).originX, x),
                                         originY := KeepOrReplace(old(settings).originY, y))
    {
      settings := settings.(originX := KeepOrReplace(settings.originX, x), originY := KeepOrReplace(settings.originY, y));
    }

    /**
      `rotate(beta, gamma)`: a change of portrait status raises the
      calibration flag; a raised flag takes this reading as the calibration
      and is lowered; the reading always becomes the input.
     */
    method Rotate(beta: real, gamma: real)
      modifies this`portrait, this`calibrationFlag, this`calibrationX, this`calibrationY, this`inputX, this`inputY
      ensures portrait == (windowHeight > windowWidth)
      ensures inputX == beta / MagicNumber && inputY == gamma / MagicNumber
      ensures !calibrationFlag
      ensures (old(calibrationFlag) || old(portrait) != portrait) ==> calibrationX == inputX && calibrationY == inputY
      ensures !(old(calibrationFlag) || old(portrait) != portrait) ==>
        calibrationX == old(calibrationX) && calibrationY == old(calibrationY)
    {
      var x := beta / MagicNumber;
      var y := gamma / MagicNumber;
      var nowPortrait := windowHeight > windowWidth;
      if portrait != nowPortrait {
        portrait := nowPortrait;
        calibrationFlag := true;
      }
      if calibrationFlag {
        calibrationFlag := false;
        calibrationX := x;
        calibrationY := y;
      }
      inputX := x;
      inputY := y;
    }

    /** `onCalibrationTimer`: the next reading will be taken as the calibration. */
    method OnCalibrationTimer()
      modifies this`calibrationFlag
      ensures calibrationFlag
    {
      calibrationFlag := true;
    }

    /** `onDeviceOrientation`: a reading with both angles counts as support and is applied. */
    method OnDeviceOrientation(beta: Option<real>, gamma: Option<real>)
      modifies this`orientationStatus, this`portrait, this`calibrationFlag, this`calibrationX, this`calibrationY, this`inputX, this`inputY
      ensures beta.Some? && gamma.Some? ==> (orientationStatus == 1 && inputX == beta.value / MagicNumber && inputY == gamma.value / MagicNumber
        && portrait == (windowHeight > windowWidth) && !calibrationFlag)
      ensures beta.Some? && gamma.Some? && (old(calibrationFlag) || old(portrait) != portrait) ==>
        calibrationX == inputX && calibrationY == inputY
      ensures beta.Some? && gamma.Some? && !(old(calibrationFlag) || old(portrait) != portrait) ==>
        calibrationX == old(calibrationX) && calibrationY == old(calibrationY)
      ensures !(beta.Some? && gamma.Some?) ==> (orientationStatus == old(orientationStatus) && portrait == old(portrait)
        && calibrationFlag == old(calibrationFlag) && calibrationX == old(calibrationX) && calibrationY == old(calibrationY)
        && inputX == old(inputX) && inputY == old(inputY))
    {
      if beta.Some? && gamma.Some? {
        orientationStatus := 1;
        Rotate(beta.value, gamma.value);
      }
    }

    /** `onDeviceMotion`: the same for a motion event's rotation rate. */
    method OnDeviceMotion(beta: Option<real>, gamma: Option<real>)
      modifies this`motionStatus, this`portrait, this`calibrationFlag, this`calibrationX, this`calibrationY, this`inputX, this`inputY
      ensures beta.Some? && gamma.Some? ==> (motionStatus == 1 && inputX == beta.value / MagicNumber && inputY == gamma.value / MagicNumber
        && portrait == (windowHeight > windowWidth) && !calibrationFlag)
      ensures beta.Some? && gamma.Some? && (old(calibrationFlag) || old(portrait) != portrait) ==>
        calibrationX == inputX && calibrationY == inputY
      ensures beta.Some? && gamma.Some? && !(old(calibrationFlag) || old(portrait) != portrait) ==>
        calibrationX == old(calibrationX) && calibrationY == old(calibrationY)
      ensures !(beta.Some? && gamma.Some?) ==> (motionStatus == old(motionStatus) && portrait == old(portrait)
        && calibrationFlag == old(calibrationFlag) && calibrationX == old(calibrationX) && calibrationY == old(calibrationY)
        && inputX == old(inputX) && inputY == old(inputY))
    {
      if beta.Some? && gamma.Some? {
        motionStatus := 1;
        Rotate(beta.value, gamma.value);
      }
    }

    /**
      `onOrientationTimer`: with orientation support but no reading yet, drop
      orientation and enable again (falling back to motion or the mouse, and
      enabling the object even if it had been disabled).
     */
    method OnOrientationTimer()
      modifies this`enabled, this`listeners, this`portrait, this`calibrationX, this`calibrationY, this`orientationSupport
      requires Valid()
      ensures Valid()
      ensures old(orientationSupport) && old(orientationStatus) == 0 ==>
        !orientationSupport && enabled && !portrait && listeners == {InputListener(false, motionSupport), Resize}
        && calibrationX == (if motionSupport then old(calibrationX) else 0.0)
        && calibrationY == (if motionSupport then old(calibrationY) else 0.0)
      ensures !(old(orientationSupport) && old(orientationStatus) == 0) ==>
        orientationSupport == old(orientationSupport) && enabled == old(enabled) && listeners == old(listeners)
        && portrait == old(portrait) && calibrationX == old(calibrationX) && calibrationY == old(calibrationY)
    {
      if orientationSupport && orientationStatus == 0 {
        Disable();
        orientationSupport := false;
        Enable();
      }
    }

    /** `onMotionTimer`: the same for motion, falling back to the mouse. */
    method OnMotionTimer()
      modifies this`enabled, this`listeners, this`portrait, this`calibrationX, this`calibrationY, this`motionSupport
      requires Valid()
      ensures Valid()
      ensures old(motionSupport) && old(motionStatus) == 0 ==>
        !motionSupport && enabled && !portrait && listeners == {InputListener(orientationSupport, false), Resize}
        && calibrationX == (if orientationSupport then old(calibrationX) else 0.0)
        && calibrationY == (if orientationSupport then old(calibrationY) else 0.0)
      ensures !(old(motionSupport) && old(motionStatus) == 0) ==>
        motionSupport == old(motionSupport) && enabled == old(enabled) && listeners == old(listeners)
        && portrait == old(portrait) && calibrationX == old(calibrationX) && calibrationY == old(calibrationY)
    {
      if motionSupport && motionStatus == 0 {
        Disable();
        motionSupport := false;
        Enable();
      }
    }

    /** `onWindowResize`: the new window size (used by the next `rotate`). */
    method OnWindowResize(width: int, height: int)
      modifies this`windowWidth, this`windowHeight
      ensures windowWidth == width && windowHeight == height
    {
      windowWidth := width;
      windowHeight := height;
    }
  }
}
