/** The output page (output.js): the render state that `applyConfiguration`
    overlays configs onto, the three ways a config reaches it (socket,
    BroadcastChannel, localStorage polling and the initial fetch), and the
    drag/resize gesture with its clamps. DOM style values are not built as
    text: each style field records the value the page writes into it. */
module Output {
  import opened Values
  import opened Protocol
  import opened AppConfig
  import opened Transport

  // ---------------------------------------------------------------------
  // Look state

  /** `outputText.style.fontFamily`: a family from the config, or
      `'<name>', sans-serif` for an uploaded font. */
  datatype Family = Named(family: Value) | Custom(name: Value)

  /** A pixel length: `<value> + 'px'` for a value taken from a config, or
      the rounded number a resize computed (NaN included). */
  datatype Size = Px(v: Value) | PxNumber(n: Number)

  datatype Display = Shown | Hidden

  /** One `@font-face` rule appended to the document head. */
  datatype FontFace = FontFace(name: Value, data: Value)

  /** `style.left` / `style.top` of a dragged element. */
  datatype Pos = Pos(left: real, top: real)

  datatype Cursor = Grab | Grabbing

  /** The logo image: its `src`, its `style.width` and its element's
      `style.display`. */
  datatype LogoView = LogoView(src: Option<Value>, width: Option<Size>, display: Option<Display>)

  /** Everything a config can change: what the page shows, plus the two base
      sizes the next resize starts from. `None` is the value the stylesheet
      gives before the page first writes the field. */
  datatype Look = Look(
    text: Option<Value>,
    family: Option<Family>,
    fontSize: Option<Size>,
    color: Option<Value>,
    stroke: Option<Stroke>,
    background: Option<Value>,
    logo: LogoView,
    fontFaces: seq<FontFace>,
    startFontSize: Number,
    startLogoWidth: Number)

  /** The page as loaded: base sizes 48 and 100. */
  function InitialLook(): Look {
    Look(None, None, None, None, None, None, LogoView(None, None, None), [], Finite(48), Finite(100))
  }

  /** The stroke is drawn only when `useStroke`, `strokeColor` and
      `strokeWidth` are all truthy. */
  predicate StrokeRequested(config: Value) {
    Truthy(Get(config, "useStroke")) && Truthy(Get(config, "strokeColor"))
    && Truthy(Get(config, "strokeWidth"))
  }

  /** The logo is shown only when `logo` and `logo.data` are truthy. */
  predicate LogoRequested(config: Value) {
    Truthy(Get(config, "logo")) && Truthy(Get(Get(config, "logo"), "data"))
  }

  predicate FontRequested(config: Value) {
    Truthy(Get(config, "customFont"))
  }

  /** The `@font-face` rule a config with a custom font appends. */
  function FaceOf(config: Value): FontFace {
    FontFace(Get(Get(config, "customFont"), "name"), Get(Get(config, "customFont"), "data"))
  }

  // The sections of `applyConfiguration`, in the order the page runs them.

  function TextSection(s: Look, config: Value): Look {
    var v := Get(config, "text");
    if Truthy(v) then s.(text := Some(v)) else s
  }

  function FamilySection(s: Look, config: Value): Look {
    var v := Get(config, "fontFamily");
    if Truthy(v) then s.(family := Some(Named(v))) else s
  }

  function FontSection(s: Look, config: Value): Look {
    var font := Get(config, "customFont");
    if Truthy(font) then s.(fontFaces := s.fontFaces + [FaceOf(config)], family := Some(Custom(Get(font, "name"))))
    else s
  }

  function SizeSection(s: Look, config: Value): Look {
    var v := Get(config, "fontSize");
    if Truthy(v) then s.(fontSize := Some(Px(v)), startFontSize := ParseInt(v)) else s
  }

  function ColorSection(s: Look, config: Value): Look {
    var v := Get(config, "color");
    if Truthy(v) then s.(color := Some(v)) else s
  }

  function StrokeSection(s: Look, config: Value): Look {
    s.(stroke := Some(if StrokeRequested(config)
                      then Stroked(Get(config, "strokeWidth"), Get(config, "strokeColor"))
                      else Unset))
  }

  function BackgroundSection(s: Look, config: Value): Look {
    var v := Get(config, "backgroundImage");
    if Truthy(v) then s.(background := Some(v)) else s
  }

  function LogoSection(s: Look, config: Value): Look {
    var logo := Get(config, "logo");
    if LogoRequested(config) then
      s.(logo := LogoView(Some(Get(logo, "data")), Some(Px(Get(logo, "size"))), Some(Shown)),
         startLogoWidth := ParseInt(Get(logo, "size")))
    else s.(logo := s.logo.(display := Some(Hidden)))
  }

  /** `applyConfiguration(config)` as a function of the look. */
  function Apply(s: Look, config: Value): (r: Look)
    // a falsy config changes nothing
    ensures !Truthy(config) ==> r == s
    // font rules accumulate: one more per application with a custom font
    ensures s.fontFaces <= r.fontFaces
    ensures |r.fontFaces| == |s.fontFaces| + (if Truthy(config) && FontRequested(config) then 1 else 0)
  {
    if !Truthy(config) then s
    else
      var s1 := FontSection(FamilySection(TextSection(s, config), config), config);
      LogoSection(BackgroundSection(StrokeSection(ColorSection(SizeSection(s1, config), config), config), config), config)
  }

  /** Field by field, a truthy config overlays its truthy text, family,
      size, colour and background on what was shown, an uploaded font wins
      over a named family, and stroke and logo are set or reset. */
  lemma {:induction false} ApplyFieldwise(s: Look, config: Value)
    requires Truthy(config)
    ensures var r := Apply(s, config);
      var text := Get(config, "text");
      var named := Get(config, "fontFamily");
      var size := Get(config, "fontSize");
      var color := Get(config, "color");
      var background := Get(config, "backgroundImage");
      var logo := Get(config, "logo");
      && r.text == (if Truthy(text) then Some(text) else s.text)
      && r.family == (if FontRequested(config) then Some(Custom(FaceOf(config).name))
                      else if Truthy(named) then Some(Named(named)) else s.family)
      && r.fontFaces == (if FontRequested(config) then s.fontFaces + [FaceOf(config)] else s.fontFaces)
      && r.fontSize == (if Truthy(size) then Some(Px(size)) else s.fontSize)
      && r.startFontSize == (if Truthy(size) then ParseInt(size) else s.startFontSize)
      && r.color == (if Truthy(color) then Some(color) else s.color)
      && r.stroke == Some(if StrokeRequested(config)
                          then Stroked(Get(config, "strokeWidth"), Get(config, "strokeColor")) else Unset)
      && r.background == (if Truthy(background) then Some(background) else s.background)
      && r.logo == (if LogoRequested(config)
                    then LogoView(Some(Get(logo, "data")), Some(Px(Get(logo, "size"))), Some(Shown))
                    else s.logo.(display := Some(Hidden)))
      && r.startLogoWidth == (if LogoRequested(config) then ParseInt(Get(logo, "size")) else s.startLogoWidth)
  {
    var s1 := TextSection(s, config);
    var s2 := FamilySection(s1, config);
    var s3 := FontSection(s2, config);
    var s4 := SizeSection(s3, config);
    var s5 := ColorSection(s4, config);
    var s6 := StrokeSection(s5, config);
    var s7 := BackgroundSection(s6, config);
    var s8 := LogoSection(s7, config);
    assert Apply(s, config) == s8;
  }

  /** Every truthy config sets or resets the stroke and the logo, and a
      config without a logo keeps the logo's source, width and base width. */
  lemma ApplySetsOrResets(s: Look, config: Value)
    ensures var r := Apply(s, config);
      && (Truthy(config) ==> r.stroke.Some? && (r.stroke.value.Stroked? <==> StrokeRequested(config)))
      && (Truthy(config) ==> r.logo.display.Some? && (r.logo.display.value == Shown <==> LogoRequested(config)))
      && (!LogoRequested(config) ==>
            r.logo.src == s.logo.src && r.logo.width == s.logo.width && r.startLogoWidth == s.startLogoWidth)
  {
    if Truthy(config) {
      ApplyFieldwise(s, config);
    }
  }

  /** The render state without the accumulated font rules: what two
      applications are compared on. */
  function Visible(s: Look): Look {
    s.(fontFaces := [])
  }

  /** A config that sets every overlaid field, as the setup page's configs
      with a logo do. */
  predicate Complete(config: Value) {
    Truthy(config) && Truthy(Get(config, "text")) && Truthy(Get(config, "fontFamily"))
    && Truthy(Get(config, "fontSize")) && Truthy(Get(config, "color"))
    && Truthy(Get(config, "backgroundImage")) && LogoRequested(config)
  }

  /** Applying the same config again changes nothing visible; the only trace
      of the repetition is one more font rule when the config has a custom font. */
  lemma ApplyTwice(s: Look, config: Value)
    ensures Visible(Apply(Apply(s, config), config)) == Visible(Apply(s, config))
    ensures Apply(Apply(s, config), config).fontFaces ==
      Apply(s, config).fontFaces
      + (if Truthy(config) && FontRequested(config)
         then [FaceOf(config)] else [])
  {
    if Truthy(config) {
      ApplyFieldwise(s, config);
      ApplyFieldwise(Apply(s, config), config);
    }
  }

  /** A complete config determines everything a config can set, whatever was
      shown before. */
  lemma CompleteConfigDecides(s1: Look, s2: Look, config: Value)
    requires Complete(config)
    ensures Visible(Apply(s1, config)) == Visible(Apply(s2, config))
  {
    ApplyFieldwise(s1, config);
    ApplyFieldwise(s2, config);
  }

  /** A config that leaves a field falsy does not replace what an earlier
      config put there: the page can show a mixture of two configs. */
  lemma OverlayMixesConfigs()
    ensures var first := Obj(map["text" := Str("A"), "color" := Str("#ffffff")]);
      var second := Obj(map["color" := Str("#000000")]);
      var r := Apply(Apply(InitialLook(), first), second);
      r.text == Some(Str("A")) && r.color == Some(Str("#000000"))
  {
    var first := Obj(map["text" := Str("A"), "color" := Str("#ffffff")]);
    var second := Obj(map["color" := Str("#000000")]);
    assert Get(second, "text") == Undefined;
    ApplyFieldwise(InitialLook(), first);
    ApplyFieldwise(Apply(InitialLook(), first), second);
  }

  /** `n` applications of one config, as `n` polling ticks over an unchanged
      localStorage item make them. */
  function ApplyRepeatedly(s: Look, config: Value, n: nat): Look {
    if n == 0 then s else Apply(ApplyRepeatedly(s, config, n - 1), config)
  }

  /** The polling tick does not compare with what it applied before: every
      tick re-applies the stored config, which shows the same thing as once
      but appends one more font rule per tick when the config has a custom
      font. */
  lemma {:induction false} RepeatedTicks(s: Look, config: Value, n: nat)
    requires n >= 1
    ensures Visible(ApplyRepeatedly(s, config, n)) == Visible(Apply(s, config))
    ensures |ApplyRepeatedly(s, config, n).fontFaces| ==
      |s.fontFaces| + (if Truthy(config) && FontRequested(config) then n else 0)
  {
    if n > 1 {
      RepeatedTicks(s, config, n - 1);
      var prev := ApplyRepeatedly(s, config, n - 1);
      ApplyTwice(s, config);
      assert Visible(Apply(prev, config)) == Visible(Apply(Apply(s, config), config)) by {
        VisibleApply(prev, Apply(s, config), config);
      }
    }
  }

  /** Only what is visible of a state matters to what an application shows. */
  lemma VisibleApply(a: Look, b: Look, config: Value)
    requires Visible(a) == Visible(b)
    ensures Visible(Apply(a, config)) == Visible(Apply(b, config))
  {
    if Truthy(config) {
      assert a.text == b.text && a.family == b.family && a.fontSize == b.fontSize;
      assert a.color == b.color && a.background == b.background;
      assert a.logo == b.logo && a.startFontSize == b.startFontSize && a.startLogoWidth == b.startLogoWidth;
      ApplyFieldwise(a, config);
      ApplyFieldwise(b, config);
    }
  }

  // ---------------------------------------------------------------------
  // How configs arrive

  /** `ws.onmessage`: a frame is applied only when it parses, its `type` is
      'update' and its `config` is truthy; anything else is dropped (a parse
      error or a null frame is caught and logged). */
  function SocketUpdate(parsed: Option<Value>): (c: Option<Value>)
    ensures c.Some? <==> parsed.Some? && IsUpdate(parsed.value) && Truthy(Get(parsed.value, "config"))
    ensures c.Some? ==> c.value == Get(parsed.value, "config") && Truthy(c.value)
  {
    if parsed.Some? && IsUpdate(parsed.value) && Truthy(Get(parsed.value, "config"))
    then Some(Get(parsed.value, "config"))
    else None
  }

  /** The relay's frame reaches `applyConfiguration` exactly when its config
      is truthy, and then unchanged. */
  lemma RelayFrameAccepted(config: Value)
    ensures SocketUpdate(Some(UpdateFrame(config))) == (if Truthy(config) then Some(config) else None)
  {
  }

  /** `channel.onmessage`: the config of an 'update' message is handed to
      `applyConfiguration` without a truthiness test; a null message throws
      before anything happens. */
  function ChannelUpdate(data: Value): (c: Option<Value>)
    ensures c.Some? <==> IsUpdate(data)
    ensures c.Some? ==> c.value == Get(data, "config")
  {
    if IsUpdate(data) then Some(Get(data, "config")) else None
  }

  /** The channel path lacks the socket path's truthiness test, but since
      `applyConfiguration` ignores falsy configs, the two paths show the same
      thing for the same message. */
  lemma ChannelAgreesWithSocket(s: Look, data: Value)
    ensures (match ChannelUpdate(data) case None => s case Some(c) => Apply(s, c))
         == (match SocketUpdate(Some(data)) case None => s case Some(c) => Apply(s, c))
  {
  }

  /** The polling tick (and `loadConfiguration`, which runs the same code
      without the socket test): the stored config is applied only while the
      fallback is on, the socket is missing or not OPEN, and the item parses. */
  function PollUpdate(socket: Option<ReadyState>, stored: Stored): (c: Option<Value>)
    ensures c.Some? <==> UseLocalStorageFallback && socket != Some(Open) && stored.Parsed?
    ensures c.Some? ==> c.value == stored.value
  {
    if UseLocalStorageFallback && socket != Some(Open) && stored.Parsed? then Some(stored.value) else None
  }

  /** An OPEN socket silences the polling tick, whatever is stored. */
  lemma OpenSocketSilencesPolling(stored: Stored)
    ensures PollUpdate(Some(Open), stored) == None
  {
  }

  /** `fetchInitialConfig`: `ok` is `response.ok`; `data` is the parsed body,
      `None` when the request or `response.json()` throws. */
  function InitialConfig(ok: bool, data: Option<Value>): (c: Option<Value>)
    ensures c.Some? <==> ok && data.Some? && !Nullish(data.value) && Truthy(Get(data.value, "config"))
    ensures c.Some? ==> c.value == Get(data.value, "config")
  {
    if ok && data.Some? && Field(data.value, "config").Some? && Truthy(Get(data.value, "config"))
    then Some(Get(data.value, "config"))
    else None
  }

  // ---------------------------------------------------------------------
  // Gesture arithmetic

  /** `Math.max(0, Math.min(v, max))`: a position kept inside the container. */
  function ClampPosition(v: real, max: real): (r: real)
    ensures r >= 0.0
    ensures max >= 0.0 ==> r <= max
    ensures 0.0 <= v <= max ==> r == v
    ensures max < 0.0 ==> r == 0.0
    ensures v < 0.0 ==> r == 0.0
    ensures v > max >= 0.0 ==> r == max
  {
    MaxReal(0.0, MinReal(v, max))
  }

  /** The class of the grabbed handle: one of the four corners, or none of
      them (the scale factor then stays 1). */
  datatype Corner = SE | SW | NE | NW | NoCorner

  /** The direction in which dragging a corner handle moves it away from
      the opposite corner. */
  function Outward(corner: Corner, dx: real, dy: real): real {
    match corner
    case SE => dx + dy
    case SW => -dx + dy
    case NE => dx - dy
    case NW => -dx - dy
    case NoCorner => 0.0
  }

  /** The raw scale factor of `drag`: 1 plus the outward movement over 400. */
  function ScaleFactor(corner: Corner, dx: real, dy: real): (f: real)
    ensures corner == NoCorner ==> f == 1.0
    ensures f > 1.0 <==> Outward(corner, dx, dy) > 0.0
    ensures f < 1.0 <==> Outward(corner, dx, dy) < 0.0
  {
    match corner
    case SE => 1.0 + (dx + dy) / 400.0
    case SW => 1.0 + (-dx + dy) / 400.0
    case NE => 1.0 + (dx - dy) / 400.0
    case NW => 1.0 + (-dx - dy) / 400.0
    case NoCorner => 1.0
  }

  /** `Math.max(0.2, Math.min(5, f))` */
  function ClampScale(f: real): (r: real)
    ensures 0.2 <= r <= 5.0
    ensures 0.2 <= f <= 5.0 ==> r == f
    ensures f < 0.2 ==> r == 0.2
    ensures f > 5.0 ==> r == 5.0
  {
    MaxReal(0.2, MinReal(5.0, f))
  }

  /** `Math.round`: to the nearest integer, halves upward. */
  function Round(x: real): (n: int)
    ensures x - 0.5 < n as real <= x + 0.5
  {
    (x + 0.5).Floor
  }

  /** `Math.round(base * factor)`, NaN staying NaN. */
  function Resized(base: Number, factor: real): Number {
    match base
    case NaN => NaN
    case Finite(i) => Finite(Round(i as real * factor))
  }

  lemma RoundMonotone(x: real, y: real)
    requires x <= y
    ensures Round(x) <= Round(y)
  {
  }

  /** A resize keeps a non-negative base size within a fifth of it and five
      times it, rounded. */
  lemma ResizeBounds(base: int, corner: Corner, dx: real, dy: real)
    requires base >= 0
    ensures var r := Resized(Finite(base), ClampScale(ScaleFactor(corner, dx, dy)));
      r.Finite? && Round(base as real * 0.2) <= r.i <= 5 * base
  {
    ResizedBetween(base, ClampScale(ScaleFactor(corner, dx, dy)));
  }

  lemma ResizedBetween(base: int, f: real)
    requires base >= 0 && 0.2 <= f <= 5.0
    ensures Round(base as real * 0.2) <= Round(base as real * f) <= 5 * base
  {
    var b := base as real;
    ScaledBetween(b, f);
    RoundMonotone(b * 0.2, b * f);
    RoundMonotone(b * f, b * 5.0);
    assert b * 5.0 == (5 * base) as real;
  }

  lemma ScaledBetween(b: real, f: real)
    requires b >= 0.0 && 0.2 <= f <= 5.0
    ensures b * 0.2 <= b * f <= b * 5.0
  {
    assert b * (f - 0.2) >= 0.0;
    assert b * (5.0 - f) >= 0.0;
  }

  // ---------------------------------------------------------------------
  // The page

  datatype Element = TextBox | LogoBox

  /** What the gestures and the instructions button change: `style.left`
      and `style.top`, the cursors, and whether the instructions show. */
  datatype Layout = Layout(textPos: Option<Pos>, logoPos: Option<Pos>,
                           textCursor: Cursor, logoCursor: Cursor, instructionsShown: bool)

  class OutputPage {
    /** The page's socket and reconnect counter. */
    const link: WsLink

    /** The DOM fields a config writes, and `startFontSize`/`startLogoWidth`. */
    var shown: Look
    /** The DOM fields only gestures and the instructions button write. */
    var layout: Layout

    // the module-level gesture variables
    var isDragging: bool
    var isResizing: bool
    var current: Option<Element>
    var handle: Option<Corner>
    var startX: real
    var startY: real
    var startLeft: real
    var startTop: real

    /** A drag always has an element, an element is held only during a
        gesture, and a resize is under way exactly when a handle is held. */
    ghost predicate Valid()
      reads this, link
    {
      && link.Valid()
      && (isDragging ==> current.Some?)
      && (current.Some? ==> isDragging || isResizing)
      && (isResizing <==> handle.Some?)
    }

    constructor ()
      ensures Valid() && fresh(link)
      ensures shown == InitialLook() && layout == Layout(None, None, Grab, Grab, true)
      ensures !isDragging && !isResizing && current == None && handle == None
      ensures link.socket == None && link.attempts == 0
    {
      link := new WsLink();
      shown := InitialLook();
      layout := Layout(None, None, Grab, Grab, true);
      isDragging, isResizing, current, handle := false, false, None, None;
      startX, startY, startLeft, startTop := 0.0, 0.0, 0.0, 0.0;
    }

    /** `applyConfiguration`: nothing for a falsy config, else its sections
        in order. */
    method ApplyConfiguration(config: Value)
      modifies this`shown
      ensures shown == Apply(old(shown), config)
    {
      if !Truthy(config) {
        return;
      }
      ApplyText(config);
      ApplyFamily(config);
      ApplyCustomFont(config);
      ApplyFontSize(config);
      ApplyColor(config);
      ApplyStroke(config);
      ApplyBackground(config);
      ApplyLogo(config);
    }

    method ApplyText(config: Value)
      modifies this`shown
      ensures shown == TextSection(old(shown), config)
    {
      var text := Get(config, "text");
      if Truthy(text) {
        shown := shown.(text := Some(text));
      }
    }

    method ApplyFamily(config: Value)
      modifies this`shown
      ensures shown == FamilySection(old(shown), config)
    {
      var family := Get(config, "fontFamily");
      if Truthy(family) {
        shown := shown.(family := Some(Named(family)));
      }
    }

    /** Appends an `@font-face` rule to the head and switches to its family. */
    method ApplyCustomFont(config: Value)
      modifies this`shown
      ensures shown == FontSection(old(shown), config)
    {
      var font := Get(config, "customFont");
      if Truthy(font) {
        shown := shown.(fontFaces := shown.fontFaces + [FontFace(Get(font, "name"), Get(font, "data"))]);
        shown := shown.(family := Some(Custom(Get(font, "name"))));
      }
    }

    method ApplyFontSize(config: Value)
      modifies this`shown
      ensures shown == SizeSection(old(shown), config)
    {
      var size := Get(config, "fontSize");
      if Truthy(size) {
        shown := shown.(fontSize := Some(Px(size)));
        shown := shown.(startFontSize := ParseInt(size));
      }
    }

    method ApplyColor(config: Value)
      modifies this`shown
      ensures shown == ColorSection(old(shown), config)
    {
      var color := Get(config, "color");
      if Truthy(color) {
        shown := shown.(color := Some(color));
      }
    }

    /** Sets `webkitTextStroke` and `textStroke` alike: both are the one
        `stroke` field here. */
    method ApplyStroke(config: Value)
      modifies this`shown
      ensures shown == StrokeSection(old(shown), config)
    {
      if Truthy(Get(config, "useStroke")) && Truthy(Get(config, "strokeColor")) && Truthy(Get(config, "strokeWidth")) {
        shown := shown.(stroke := Some(Stroked(Get(config, "strokeWidth"), Get(config, "strokeColor"))));
      } else {
        shown := shown.(stroke := Some(Unset));
      }
    }

    method ApplyBackground(config: Value)
      modifies this`shown
      ensures shown == BackgroundSection(old(shown), config)
    {
      var background := Get(config, "backgroundImage");
      if Truthy(background) {
        shown := shown.(background := Some(background));
      }
    }

    method ApplyLogo(config: Value)
      modifies this`shown
      ensures shown == LogoSection(old(shown), config)
    {
      var logo := Get(config, "logo");
      if Truthy(logo) && Truthy(Get(logo, "data")) {
        shown := shown.(logo := shown.logo.(src := Some(Get(logo, "data"))));
        shown := shown.(logo := shown.logo.(width := Some(Px(Get(logo, "size")))));
        shown := shown.(logo := shown.logo.(display := Some(Shown)));
        shown := shown.(startLogoWidth := ParseInt(Get(logo, "size")));
      } else {
        shown := shown.(logo := shown.logo.(display := Some(Hidden)));
      }
    }

    /** `ws.onmessage` with the frame as `JSON.parse` returned it. */
    method OnSocketMessage(parsed: Option<Value>)
      modifies this`shown
      ensures shown == match SocketUpdate(parsed)
                       case None => old(shown)
                       case Some(c) => Apply(old(shown), c)
    {
      if parsed.Some? && Field(parsed.value, "type") == Some(Str("update")) && Truthy(Get(parsed.value, "config")) {
        ApplyConfiguration(Get(parsed.value, "config"));
      }
    }

    /** `channel.onmessage` */
    method OnChannelMessage(data: Value)
      modifies this`shown
      ensures shown == match ChannelUpdate(data)
                       case None => old(shown)
                       case Some(c) => Apply(old(shown), c)
    {
      var t := Field(data, "type");
      if t.None? {
        return;  // reading `type` of null throws out of the handler
      }
      if t == Some(Str("update")) {
        ApplyConfiguration(Get(data, "config"));
      }
    }

    /** One run of the one-second `setInterval` callback. */
    method PollTick(stored: Stored)
      modifies this`shown
      ensures shown == match PollUpdate(link.socket, stored)
                       case None => old(shown)
                       case Some(c) => Apply(old(shown), c)
    {
      if UseLocalStorageFallback {
        if !link.IsOpen() {
          if stored.Parsed? {
            ApplyConfiguration(stored.value);
          }
        }
      }
    }

    /** `loadConfiguration`, run once at start-up. */
    method LoadConfiguration(stored: Stored)
      modifies this`shown
      ensures shown == if stored.Parsed? then Apply(old(shown), stored.value) else old(shown)
    {
      if stored.Parsed? {
        ApplyConfiguration(stored.value);
      }
    }

    /** `fetchInitialConfig` once its response has arrived. */
    method FetchInitialConfig(ok: bool, data: Option<Value>)
      modifies this`shown
      ensures shown == match InitialConfig(ok, data)
                       case None => old(shown)
                       case Some(c) => Apply(old(shown), c)
    {
      if ok && data.Some? {
        var config := Field(data.value, "config");
        if config.Some? && Truthy(config.value) {
          ApplyConfiguration(config.value);
        }
      }
    }

    /** The hide-instructions button. */
    method HideInstructions()
      modifies this`layout
      ensures layout == old(layout).(instructionsShown := false)
    {
      layout := layout.(instructionsShown := false);
    }

    /** `startDrag` on `element`, at pointer (`x`, `y`), with the element's
        bounding rectangle at (`rectLeft`, `rectTop`). `onHandle` is a press
        on one of the element's resize handles, which is left to `startResize`. */
    method StartDrag(onHandle: bool, element: Element, x: real, y: real, rectLeft: real, rectTop: real)
      requires Valid()
      modifies this`isDragging, this`current, this`layout, this`startX, this`startY, this`startLeft, this`startTop
      ensures Valid()
      ensures onHandle ==> isDragging == old(isDragging) && current == old(current) && layout == old(layout)
                           && startX == old(startX) && startY == old(startY)
                           && startLeft == old(startLeft) && startTop == old(startTop)
      ensures !onHandle ==> isDragging && current == Some(element)
                            && startX == x && startY == y && startLeft == rectLeft && startTop == rectTop
      ensures !onHandle ==>
        layout == if element == TextBox then old(layout).(textCursor := Grabbing)
                  else old(layout).(logoCursor := Grabbing)
    {
      if onHandle {
        return;
      }
      isDragging := true;
      current := Some(element);
      if element == TextBox {
        layout := layout.(textCursor := Grabbing);
      } else {
        layout := layout.(logoCursor := Grabbing);
      }
      startX, startY := x, y;
      startLeft, startTop := rectLeft, rectTop;
    }

    /** `drag` at pointer (`x`, `y`); the container's and the current
        element's bounding sizes are inputs. A drag moves the element,
        clamped inside the container; a resize scales the base size of the
        element by the clamped factor of the held corner. */
    method Drag(x: real, y: real, containerWidth: real, containerHeight: real,
                elementWidth: real, elementHeight: real)
      requires Valid()
      modifies this`shown, this`layout
      ensures var pos := Pos(ClampPosition(startLeft + (x - startX), containerWidth - elementWidth),
                             ClampPosition(startTop + (y - startY), containerHeight - elementHeight));
        layout == if isDragging && current == Some(TextBox) then old(layout).(textPos := Some(pos))
                  else if isDragging && current == Some(LogoBox) then old(layout).(logoPos := Some(pos))
                  else old(layout)
      ensures var factor := if handle.Some? then ClampScale(ScaleFactor(handle.value, x - startX, y - startY)) else 1.0;
        shown == if !isDragging && isResizing && current == Some(TextBox) then
                   old(shown).(fontSize := Some(PxNumber(Resized(shown.startFontSize, factor))))
                 else if !isDragging && isResizing && current == Some(LogoBox) then
                   old(shown).(logo := old(shown).logo.(width := Some(PxNumber(Resized(shown.startLogoWidth, factor)))))
                 else old(shown)
    {
      if !isDragging && !isResizing {
        return;
      }
      if isDragging && current.Some? {
        var newLeft := startLeft + (x - startX);
        var newTop := startTop + (y - startY);
        var maxLeft := containerWidth - elementWidth;
        var maxTop := containerHeight - elementHeight;
        var pos := Pos(ClampPosition(newLeft, maxLeft), ClampPosition(newTop, maxTop));
        match current.value {
          case TextBox => layout := layout.(textPos := Some(pos));
          case LogoBox => layout := layout.(logoPos := Some(pos));
        }
      } else if isResizing && current.Some? {
        var scale := ClampScale(ScaleFactor(handle.value, x - startX, y - startY));
        match current.value {
          case TextBox =>
            shown := shown.(fontSize := Some(PxNumber(Resized(shown.startFontSize, scale))));
          case LogoBox =>
            shown := shown.(logo := shown.logo.(width := Some(PxNumber(Resized(shown.startLogoWidth, scale)))));
        }
      }
    }

    /** `stopDrag` (mouseup). The computed font size of the text and the
        computed width of the logo, as `getComputedStyle` reports them, are
        inputs. Both gestures end; a resize makes the computed size the base
        of the next one. */
    method StopDrag(computedFontSize: string, computedLogoWidth: string)
      requires Valid()
      modifies this`shown, this`layout, this`isDragging, this`isResizing, this`current, this`handle
      ensures Valid()
      ensures !isDragging && !isResizing && current == None && handle == None
      ensures layout == old(layout).(
        textCursor := if old(isDragging) && old(current) == Some(TextBox) then Grab else old(layout).textCursor,
        logoCursor := if old(isDragging) && old(current) == Some(LogoBox) then Grab else old(layout).logoCursor)
      // the element whose resize ends: none when a drag was also under way
      ensures var resized := if old(isResizing) && !old(isDragging) then old(current) else None;
        shown == old(shown).(
          startFontSize := if resized == Some(TextBox) then ParseIntString(computedFontSize) else old(shown).startFontSize,
          startLogoWidth := if resized == Some(LogoBox) then ParseIntString(computedLogoWidth) else old(shown).startLogoWidth)
    {
      if isDragging && current.Some? {
        isDragging := false;
        match current.value {
          case TextBox => layout := layout.(textCursor := Grab);
          case LogoBox => layout := layout.(logoCursor := Grab);
        }
        current := None;
      }
      if isResizing {
        isResizing := false;
        if current == Some(TextBox) {
          shown := shown.(startFontSize := ParseIntString(computedFontSize));
        } else if current == Some(LogoBox) {
          shown := shown.(startLogoWidth := ParseIntString(computedLogoWidth));
        }
        handle := None;
        current := None;
      }
    }

    /** `startResize` on a handle of class `corner` whose parent is `owner`
        (`None` for a handle of neither element, which leaves the current
        element as it was). */
    method StartResize(corner: Corner, owner: Option<Element>, x: real, y: real,
                       computedFontSize: string, computedLogoWidth: string)
      requires Valid()
      modifies this`shown, this`isResizing, this`handle, this`current, this`startX, this`startY
      ensures Valid()
      ensures isResizing && handle == Some(corner) && startX == x && startY == y
      ensures current == if owner.Some? then owner else old(current)
      ensures shown == old(shown).(
        startFontSize := if owner == Some(TextBox) then ParseIntString(computedFontSize) else old(shown).startFontSize,
        startLogoWidth := if owner == Some(LogoBox) then ParseIntString(computedLogoWidth) else old(shown).startLogoWidth)
    {
      isResizing := true;
      handle := Some(corner);
      match owner {
        case Some(TextBox) =>
          current := owner;
          shown := shown.(startFontSize := ParseIntString(computedFontSize));
        case Some(LogoBox) =>
          current := owner;
          shown := shown.(startLogoWidth := ParseIntString(computedLogoWidth));
        case None =>
      }
      startX, startY := x, y;
    }
  }
}
