/** The producer page of setup.js: the form, the module-level state the
    file handlers fill in, the configuration `sendToOutput` builds from
    them and the delivery paths it takes, the defaults `loadSavedSettings`
    restores, the guards in front of the two server requests, and the
    preview. Everything the page does to the outside world is recorded as an
    `Effect`. */
module Setup {
  import opened Values
  import opened Protocol
  import opened AppConfig
  import opened Transport

  /** The form controls a configuration is built from, as the values their
      `value` (or `checked`) properties hold. */
  datatype Form = Form(
    text: Value,         // textContent
    fontFamily: Value,   // fontFamily <select>
    fontSize: Value,     // fontSize range
    color: Value,        // textColor
    useStroke: bool,     // textStroke checkbox
    strokeColor: Value,
    strokeWidth: Value,
    logoSize: Value)     // logoSize range

  /** What the page does to the world, in the order it does it. */
  datatype Effect =
    | StoreItem(key: string, item: Value)   // localStorage.setItem (of JSON text for configs)
    | WsSend(frame: Value)                   // ws.send
    | Post(path: string, body: Value)        // fetch(SERVER_URL + path, {method: 'POST', body})
    | ChannelPost(message: Value)            // BroadcastChannel.postMessage

  // ---------------------------------------------------------------------
  // sendToOutput

  /** The object literal `sendToOutput` builds. */
  function BuildConfig(form: Form, customFont: Value, imageUrl: Value, storedImage: Value, logo: Value): (c: Value)
    ensures Truthy(c)
    ensures Get(c, "text") == (if Truthy(form.text) then form.text else Str("Sample Text"))
  {
    Obj(map[
      "text" := Or(form.text, Str("Sample Text")),
      "fontFamily" := form.fontFamily,
      "fontSize" := form.fontSize,
      "color" := form.color,
      "useStroke" := Bool(form.useStroke),
      "strokeColor" := form.strokeColor,
      "strokeWidth" := form.strokeWidth,
      "customFont" := customFont,
      "backgroundImage" := Or(imageUrl, storedImage),
      "logo" := logo])
  }

  /** The text style of the built config is the form's, as it is. */
  lemma BuildConfigStyle(form: Form, customFont: Value, imageUrl: Value, storedImage: Value, logo: Value)
    ensures var c := BuildConfig(form, customFont, imageUrl, storedImage, logo);
      && Get(c, "fontFamily") == form.fontFamily && Get(c, "fontSize") == form.fontSize
      && Get(c, "color") == form.color
  {
  }

  /** The stroke of the built config: the checkbox as a boolean, and the
      form's colour and width. */
  lemma BuildConfigStroke(form: Form, customFont: Value, imageUrl: Value, storedImage: Value, logo: Value)
    ensures var c := BuildConfig(form, customFont, imageUrl, storedImage, logo);
      && Get(c, "useStroke") == Bool(form.useStroke)
      && Get(c, "strokeColor") == form.strokeColor && Get(c, "strokeWidth") == form.strokeWidth
  {
  }

  /** The images of the built config: the generated image or else the
      stored one, and the uploaded font and logo. */
  lemma BuildConfigAssets(form: Form, customFont: Value, imageUrl: Value, storedImage: Value, logo: Value)
    ensures var c := BuildConfig(form, customFont, imageUrl, storedImage, logo);
      && Get(c, "backgroundImage") == (if Truthy(imageUrl) then imageUrl else storedImage)
      && Get(c, "customFont") == customFont && Get(c, "logo") == logo
  {
  }

  /** The config a delivery carries: the stored item, the frame's `config`,
      the REST body. */
  function Payload(e: Effect): Value {
    match e
    case StoreItem(_, item) => item
    case WsSend(frame) => Get(frame, "config")
    case Post(_, body) => body
    case ChannelPost(message) => Get(message, "config")
  }

  /** A delivery that leaves the browser for the relay. */
  predicate ToRelay(e: Effect) {
    e.WsSend? || (e.Post? && e.path == "/api/update")
  }

  /** Whether `sendToOutput` gets past its `localStorage.setItem`: it does
      unless the fallback is on and the write throws (`stored` is false, as
      when the quota is exceeded). Nothing catches that throw. */
  predicate GetsPastStore(stored: bool) {
    !UseLocalStorageFallback || stored
  }

  /** The deliveries `sendToOutput` makes for `config` when the socket is in
      `socket` (`None`: no socket was ever created) and `stored` tells
      whether `localStorage.setItem` succeeds. */
  function Route(socket: Option<ReadyState>, config: Value, stored: bool): (es: seq<Effect>)
    ensures !GetsPastStore(stored) ==> es == []
    ensures GetsPastStore(stored) ==> |es| == if UseLocalStorageFallback then 3 else 2
    ensures GetsPastStore(stored) && UseLocalStorageFallback ==> es[0] == StoreItem("outputConfig", config)
    ensures GetsPastStore(stored) ==> es[|es| - 1] == ChannelPost(UpdateFrame(config))
    ensures forall e | e in es :: Payload(e) == config
  {
    if !GetsPastStore(stored) then []
    else
      var saved := if UseLocalStorageFallback then [StoreItem("outputConfig", config)] else [];
      var relay := if socket == Some(Open) then WsSend(UpdateFrame(config)) else Post("/api/update", config);
      saved + [relay, ChannelPost(UpdateFrame(config))]
  }

  /** The number of deliveries to the relay in `es`. */
  function RelayDeliveries(es: seq<Effect>): nat {
    if es == [] then 0 else (if ToRelay(es[0]) then 1 else 0) + RelayDeliveries(es[1..])
  }

  lemma {:induction false} RelayDeliveriesAppend(a: seq<Effect>, b: seq<Effect>)
    ensures RelayDeliveries(a + b) == RelayDeliveries(a) + RelayDeliveries(b)
    decreases |a|
  {
    if a == [] {
      assert a + b == b;
    } else {
      assert (a + b)[1..] == a[1..] + b;
      RelayDeliveriesAppend(a[1..], b);
    }
  }

  /** Once past the store, exactly one of the WebSocket and the REST
      fallback carries the configuration to the relay, and it is the socket
      exactly when the socket is OPEN; the local channel is used whatever the
      socket state. A store that throws delivers nothing at all. */
  lemma ExactlyOneRelayPath(socket: Option<ReadyState>, config: Value, stored: bool)
    ensures RelayDeliveries(Route(socket, config, stored)) == if GetsPastStore(stored) then 1 else 0
    ensures (exists e | e in Route(socket, config, stored) :: e.WsSend?) <==> GetsPastStore(stored) && socket == Some(Open)
    ensures (exists e | e in Route(socket, config, stored) :: e.Post?) <==> GetsPastStore(stored) && socket != Some(Open)
    ensures ChannelPost(UpdateFrame(config)) in Route(socket, config, stored) <==> GetsPastStore(stored)
  {
    if !GetsPastStore(stored) {
      return;
    }
    var es := Route(socket, config, stored);
    var relay := es[|es| - 2];
    assert es == es[..|es| - 2] + [relay] + [es[|es| - 1]];
    RelayDeliveriesAppend(es[..|es| - 2] + [relay], [es[|es| - 1]]);
    RelayDeliveriesAppend(es[..|es| - 2], [relay]);
    assert [relay][1..] == [];
    assert [es[|es| - 1]][1..] == [];
    if UseLocalStorageFallback {
      assert es[..|es| - 2] == [es[0]];
      assert [es[0]][1..] == [];
    }
    if socket == Some(Open) {
      assert relay.WsSend?;
    } else {
      assert relay.Post?;
    }
  }

  // ---------------------------------------------------------------------
  // loadSavedSettings

  /** The state `loadSavedSettings` writes. */
  datatype Saved = Saved(form: Form, imageUrl: Value, logo: Value)

  /** Whether the saved item gets as far as being read: it exists, parses,
      and is not null (reading `.text` of null throws before anything is
      assigned). */
  predicate Loads(stored: Stored) {
    stored.Parsed? && !Nullish(stored.value)
  }

  /** `loadSavedSettings` on the state `f`, `url`, `logo`. */
  function Restore(f: Form, url: Value, logo: Value, stored: Stored): (r: Saved)
    ensures !Loads(stored) ==> r == Saved(f, url, logo)
    ensures r.form.fontFamily == f.fontFamily
    ensures Loads(stored) ==>
      && Truthy(r.form.fontSize) && Truthy(r.form.color)
      && Truthy(r.form.strokeColor) && Truthy(r.form.strokeWidth)
      && (r.form.useStroke <==> Truthy(Get(stored.value, "useStroke")))
    ensures r.imageUrl == url || Truthy(r.imageUrl)
    ensures r.logo == logo || Truthy(r.logo)
    ensures r.form.logoSize != f.logoSize ==> Truthy(r.logo) && Truthy(r.form.logoSize)
  {
    if !Loads(stored) then Saved(f, url, logo)
    else
      var c := stored.value;
      var form := f.(
        text := Or(Get(c, "text"), Str("")),
        fontSize := Or(Get(c, "fontSize"), Num(48)),
        color := Or(Get(c, "color"), Str("#ffffff")),
        useStroke := Truthy(Or(Get(c, "useStroke"), Bool(false))),
        strokeColor := Or(Get(c, "strokeColor"), Str("#000000")),
        strokeWidth := Or(Get(c, "strokeWidth"), Num(2)));
      var bg := Get(c, "backgroundImage");
      var l := Get(c, "logo");
      Saved(
        if Truthy(l) then form.(logoSize := Or(Get(l, "size"), Num(100))) else form,
        if Truthy(bg) then bg else url,
        if Truthy(l) then l else logo)
  }

  /** Field by field, a saved object restores what it holds, and each field
      it lacks (or holds falsy) falls back to its default: '', 48, '#ffffff',
      unchecked, '#000000', 2, and a logo size of 100; a missing image or logo
      leaves the page's own. */
  lemma RestoreDefaults(f: Form, url: Value, logo: Value, c: Value)
    requires !Nullish(c)
    ensures var r := Restore(f, url, logo, Parsed(c));
      && (!Truthy(Get(c, "text")) ==> r.form.text == Str(""))
      && (!Truthy(Get(c, "fontSize")) ==> r.form.fontSize == Num(48))
      && (!Truthy(Get(c, "color")) ==> r.form.color == Str("#ffffff"))
      && (!Truthy(Get(c, "useStroke")) ==> !r.form.useStroke)
      && (!Truthy(Get(c, "strokeColor")) ==> r.form.strokeColor == Str("#000000"))
      && (!Truthy(Get(c, "strokeWidth")) ==> r.form.strokeWidth == Num(2))
    ensures var r := Restore(f, url, logo, Parsed(c));
      && (Truthy(Get(c, "text")) ==> r.form.text == Get(c, "text"))
      && (Truthy(Get(c, "fontSize")) ==> r.form.fontSize == Get(c, "fontSize"))
      && (Truthy(Get(c, "color")) ==> r.form.color == Get(c, "color"))
      && (Truthy(Get(c, "strokeColor")) ==> r.form.strokeColor == Get(c, "strokeColor"))
      && (Truthy(Get(c, "strokeWidth")) ==> r.form.strokeWidth == Get(c, "strokeWidth"))
    ensures var r := Restore(f, url, logo, Parsed(c));
      var l := Get(c, "logo");
      && (Truthy(l) ==> r.logo == l && r.form.logoSize == (if Truthy(Get(l, "size")) then Get(l, "size") else Num(100)))
      && (!Truthy(l) ==> r.logo == logo && r.form.logoSize == f.logoSize)
      && r.imageUrl == (if Truthy(Get(c, "backgroundImage")) then Get(c, "backgroundImage") else url)
  {
  }

  /** Saving and restoring: a configuration built from a form whose fields
      are all filled in restores that form, except the font family, which is
      not restored, and the logo size, which comes from the logo object; an
      empty text comes back as 'Sample Text'. */
  lemma SaveRestore(form: Form, customFont: Value, imageUrl: Value, storedImage: Value, logo: Value,
                    f0: Form, url0: Value, logo0: Value)
    requires Truthy(form.fontSize) && Truthy(form.color) && Truthy(form.strokeColor) && Truthy(form.strokeWidth)
    ensures var c := BuildConfig(form, customFont, imageUrl, storedImage, logo);
      var r := Restore(f0, url0, logo0, Parsed(c));
      && r.form == form.(
           text := if Truthy(form.text) then form.text else Str("Sample Text"),
           fontFamily := f0.fontFamily,
           logoSize := if Truthy(logo) then Or(Get(logo, "size"), Num(100)) else f0.logoSize)
      && r.imageUrl == (if Truthy(imageUrl) then imageUrl else if Truthy(storedImage) then storedImage else url0)
      && r.logo == (if Truthy(logo) then logo else logo0)
  {
    BuildConfigStyle(form, customFont, imageUrl, storedImage, logo);
    BuildConfigStroke(form, customFont, imageUrl, storedImage, logo);
    BuildConfigAssets(form, customFont, imageUrl, storedImage, logo);
  }

  // ---------------------------------------------------------------------
  // The two server requests and their guards

  /** The request `saveApiKey` makes for what was typed, if any: none when
      the trimmed input is empty, and otherwise the trimmed key. */
  function KeyRequest(input: string): (e: Option<Effect>)
    ensures e.None? <==> forall i | 0 <= i < |input| :: IsSpace(input[i])
    ensures e.Some? ==> e.value.Post? && e.value.path == "/api/set-api-key" && Get(e.value.body, "apiKey").Str?
    ensures e.Some? ==> e.value == Post("/api/set-api-key", Object1("apiKey", Str(Trim(input))))
    ensures e.Some? ==>
      var k := Get(e.value.body, "apiKey").s;
      k != [] && !IsSpace(k[0]) && !IsSpace(k[|k| - 1])
  {
    TrimProperties(input);
    var key := Trim(input);
    if key == "" then None else Some(Post("/api/set-api-key", Object1("apiKey", Str(key))))
  }

  /** The request `generateImage` makes, if any: none when the trimmed
      prompt is empty, and otherwise the trimmed prompt. */
  function PromptRequest(input: string): (e: Option<Effect>)
    ensures e.None? <==> forall i | 0 <= i < |input| :: IsSpace(input[i])
    ensures e.Some? ==> e.value.Post? && e.value.path == "/api/generate-image" && Get(e.value.body, "prompt").Str?
    ensures e.Some? ==> e.value == Post("/api/generate-image", Object1("prompt", Str(Trim(input))))
    ensures e.Some? ==>
      var p := Get(e.value.body, "prompt").s;
      p != [] && !IsSpace(p[0]) && !IsSpace(p[|p| - 1])
  {
    TrimProperties(input);
    var prompt := Trim(input);
    if prompt == "" then None else Some(Post("/api/generate-image", Object1("prompt", Str(prompt))))
  }

  /** The key `checkApiKey` shows in the placeholder, when the answer says
      one is stored; `None` leaves the placeholder as it was (also when the
      body is null and reading `hasKey` throws). */
  function KeyShown(data: Option<Value>): (p: Option<Value>)
    ensures p.Some? <==> data.Some? && Truthy(Get(data.value, "hasKey"))
    ensures p.Some? ==> p.value == Get(data.value, "keyPrefix")
  {
    if data.Some? && Field(data.value, "hasKey").Some? && Truthy(Get(data.value, "hasKey"))
    then Some(Get(data.value, "keyPrefix"))
    else None
  }

  // ---------------------------------------------------------------------
  // updatePreview

  /** The preview box: text, font, size (`<v>px`), colour, stroke, and the
      background image and logo width, which are written only when there
      is an image or a logo. */
  datatype Preview = Preview(
    text: Value, family: Value, fontSize: Value, color: Value, stroke: Stroke,
    background: Option<Value>, logoWidth: Option<Value>)

  /** The preview stroke follows the checkbox alone. */
  function PreviewStroke(form: Form): (s: Stroke)
    ensures s.Stroked? <==> form.useStroke
    ensures s.Stroked? ==> s.width == form.strokeWidth && s.color == form.strokeColor
  {
    if form.useStroke then Stroked(form.strokeWidth, form.strokeColor) else Unset
  }

  /** `updatePreview` over the preview `p`. */
  function PreviewAfter(p: Preview, form: Form, imageUrl: Value, logo: Value): (q: Preview)
    ensures Truthy(q.text) && (Truthy(form.text) ==> q.text == form.text)
    ensures q.stroke == PreviewStroke(form)
    ensures q.background == if Truthy(imageUrl) then Some(imageUrl) else p.background
    ensures q.logoWidth == if Truthy(logo) then Some(form.logoSize) else p.logoWidth
    ensures q.family == form.fontFamily && q.fontSize == form.fontSize && q.color == form.color
  {
    Preview(Or(form.text, Str("Sample Text")), form.fontFamily, form.fontSize, form.color,
            PreviewStroke(form),
            if Truthy(imageUrl) then Some(imageUrl) else p.background,
            if Truthy(logo) then Some(form.logoSize) else p.logoWidth)
  }

  /** The preview shows the text the built configuration carries. */
  lemma PreviewTextIsSentText(p: Preview, form: Form, customFont: Value, imageUrl: Value, storedImage: Value, logo: Value)
    ensures PreviewAfter(p, form, imageUrl, logo).text == Get(BuildConfig(form, customFont, imageUrl, storedImage, logo), "text")
  {
  }

  /** The uploaded logo object, which records the logo size at upload time. */
  function LogoObject(data: Value, filename: Value, size: Value): (l: Value)
    ensures Truthy(l) && Get(l, "data") == data && Get(l, "size") == size
  {
    Obj(map["data" := data, "filename" := filename, "size" := size])
  }

  /** Moving the logo-size slider after the upload changes the preview's
      logo width but not the size the next configuration carries, which
      stays the one recorded at upload. */
  lemma LogoSizeFixedAtUpload(p: Preview, atUpload: Form, later: Form, data: Value, filename: Value,
                              customFont: Value, imageUrl: Value, storedImage: Value)
    ensures var logo := LogoObject(data, filename, atUpload.logoSize);
      && PreviewAfter(p, later, imageUrl, logo).logoWidth == Some(later.logoSize)
      && Get(Get(BuildConfig(later, customFont, imageUrl, storedImage, logo), "logo"), "size") == atUpload.logoSize
  {
    BuildConfigAssets(later, customFont, imageUrl, storedImage, LogoObject(data, filename, atUpload.logoSize));
  }

  /** The uploaded font object; its family is selected in the form. */
  function FontObject(name: string, data: Value, filename: Value): (f: Value)
    ensures Truthy(f) && Get(f, "name") == Str(name) && Get(f, "data") == data
  {
    Obj(map["name" := Str(name), "data" := data, "filename" := filename])
  }

  /** The `<option>` value of an uploaded font, `'<name>', sans-serif`. */
  function FontOption(name: string): (v: Value)
    ensures v.Str? && StartsWith(v.s, "'" + name + "'")
    ensures |v.s| == |name| + 14 && v.s[|name| + 2..] == ", sans-serif"
  {
    Str("'" + name + "', sans-serif")
  }

  // ---------------------------------------------------------------------
  // The page

  class SetupPage {
    /** The page's socket and reconnect counter. */
    const link: WsLink

    var form: Form
    /** `customFontLoaded`, `generatedImageUrl`, `uploadedLogo` */
    var customFont: Value
    var imageUrl: Value
    var logo: Value
    var preview: Preview
    /** `apiKeyInput.placeholder` once a stored key was reported */
    var keyPlaceholder: Option<Value>
    /** `generateImageBtn.disabled` */
    var generating: bool
    /** Everything sent or stored so far, in order. */
    var effects: seq<Effect>

    ghost predicate Valid()
      reads this, link
    {
      link.Valid()
    }

    /** The module state before the start-up calls; `initial` is the form as
        the HTML sets it up. */
    constructor (initial: Form)
      ensures Valid() && fresh(link) && link.socket == None && link.attempts == 0
      ensures form == initial && customFont == Null && imageUrl == Null && logo == Null
      ensures preview == Preview(Undefined, Undefined, Undefined, Undefined, Unset, None, None)
      ensures keyPlaceholder == None && !generating && effects == []
    {
      link := new WsLink();
      form := initial;
      customFont, imageUrl, logo := Null, Null, Null;
      preview := Preview(Undefined, Undefined, Undefined, Undefined, Unset, None, None);
      keyPlaceholder := None;
      generating := false;
      effects := [];
    }

    /** `sendToOutput`; `storedImage` is `localStorage.getItem('generatedImage')`
        (null when there is none), and `stored` whether `setItem` succeeds. */
    method SendToOutput(storedImage: Value, stored: bool) returns (config: Value)
      modifies this`effects
      ensures config == BuildConfig(form, customFont, imageUrl, storedImage, logo)
      ensures effects == old(effects) + Route(link.socket, config, stored)
    {
      config := BuildConfig(form, customFont, imageUrl, storedImage, logo);
      ghost var saved := effects;
      if UseLocalStorageFallback {
        if !stored {
          return;  // `setItem` throws and the handler ends here
        }
        effects := effects + [StoreItem("outputConfig", config)];
        saved := saved + [StoreItem("outputConfig", config)];
      }
      var toRelay: Effect;
      if link.IsOpen() {
        toRelay := WsSend(UpdateFrame(config));
      } else {
        toRelay := Post("/api/update", config);
      }
      effects := effects + [toRelay];
      effects := effects + [ChannelPost(UpdateFrame(config))];
      assert effects == saved + [toRelay, ChannelPost(UpdateFrame(config))];
    }

    /** `loadSavedSettings` with the `outputConfig` item as read and parsed. */
    method LoadSavedSettings(stored: Stored)
      modifies this`form, this`imageUrl, this`logo
      ensures Saved(form, imageUrl, logo) == Restore(old(form), old(imageUrl), old(logo), stored)
    {
      if !stored.Parsed? {
        return;
      }
      var c := stored.value;
      if Nullish(c) {
        return;  // `config.text` throws before any assignment
      }
      form := form.(text := Or(Get(c, "text"), Str("")));
      form := form.(fontSize := Or(Get(c, "fontSize"), Num(48)));
      form := form.(color := Or(Get(c, "color"), Str("#ffffff")));
      form := form.(useStroke := Truthy(Or(Get(c, "useStroke"), Bool(false))));
      form := form.(strokeColor := Or(Get(c, "strokeColor"), Str("#000000")));
      form := form.(strokeWidth := Or(Get(c, "strokeWidth"), Num(2)));
      if Truthy(Get(c, "backgroundImage")) {
        imageUrl := Get(c, "backgroundImage");
      }
      var l := Get(c, "logo");
      if Truthy(l) {
        logo := l;
        form := form.(logoSize := Or(Get(l, "size"), Num(100)));
      }
    }

    /** `updatePreview` */
    method UpdatePreview()
      modifies this`preview
      ensures preview == PreviewAfter(old(preview), form, imageUrl, logo)
    {
      var stroke := Unset;
      if form.useStroke {
        stroke := Stroked(form.strokeWidth, form.strokeColor);
      }
      var p := preview.(text := Or(form.text, Str("Sample Text")), family := form.fontFamily,
                        fontSize := form.fontSize, color := form.color, stroke := stroke);
      if Truthy(imageUrl) {
        p := p.(background := Some(imageUrl));
      }
      if Truthy(logo) {
        p := p.(logoWidth := Some(form.logoSize));
      }
      preview := p;
    }

    /** An `input` or `change` event on a form control: the control's new
        value, then `updatePreview`. */
    method Edit(f: Form)
      modifies this`form, this`preview
      ensures form == f && preview == PreviewAfter(old(preview), f, imageUrl, logo)
    {
      form := f;
      UpdatePreview();
    }

    /** The `FileReader` `onload` of `handleCustomFont`: `name` is the
        generated `CustomFont_<time>` family. */
    method OnCustomFontLoaded(name: string, data: Value, filename: Value)
      modifies this`customFont, this`form, this`preview
      ensures customFont == FontObject(name, data, filename)
      ensures form == old(form).(fontFamily := FontOption(name))
      ensures preview == PreviewAfter(old(preview), form, imageUrl, logo)
    {
      customFont := Obj(map["name" := Str(name), "data" := data, "filename" := filename]);
      form := form.(fontFamily := Str("'" + name + "', sans-serif"));
      UpdatePreview();
    }

    /** The `FileReader` `onload` of `handleLogoUpload`. */
    method OnLogoLoaded(data: Value, filename: Value)
      modifies this`logo, this`preview
      ensures logo == LogoObject(data, filename, form.logoSize)
      ensures preview == PreviewAfter(old(preview), form, imageUrl, logo)
      ensures preview.logoWidth == Some(form.logoSize)
    {
      logo := Obj(map["data" := data, "filename" := filename, "size" := form.logoSize]);
      UpdatePreview();
    }

    /** `saveApiKey` up to its request. */
    method SaveApiKey(input: string)
      modifies this`effects
      ensures effects == old(effects) + match KeyRequest(input) case Some(e) => [e] case None => []
    {
      var key := Trim(input);
      if key == "" {
        return;  // status message only
      }
      effects := effects + [Post("/api/set-api-key", Object1("apiKey", Str(key)))];
    }

    /** `checkApiKey` once the answer has arrived (`None` when it did not
        parse). */
    method OnKeyStatus(data: Option<Value>)
      modifies this`keyPlaceholder
      ensures keyPlaceholder == match KeyShown(data) case Some(p) => Some(p) case None => old(keyPlaceholder)
    {
      if data.Some? && !Nullish(data.value) && Truthy(Get(data.value, "hasKey")) {
        keyPlaceholder := Some(Get(data.value, "keyPrefix"));
      }
    }

    /** `generateImage` up to its request: the button is disabled while the
        request is out. */
    method GenerateImage(input: string)
      requires !generating  // a disabled button is not clicked
      modifies this`effects, this`generating
      ensures effects == old(effects) + match PromptRequest(input) case Some(e) => [e] case None => []
      ensures generating == PromptRequest(input).Some?
    {
      var prompt := Trim(input);
      if prompt == "" {
        return;
      }
      generating := true;
      effects := effects + [Post("/api/generate-image", Object1("prompt", Str(prompt)))];
    }

    /** The rest of `generateImage` once the answer has arrived (`data` is
        `None` when it did not parse): on success the image URL is kept and,
        when `setItem` succeeds (`stored`), saved for the output page; a
        throwing `setItem` is caught, and the URL stays kept. The button is
        enabled again in every case. The preview is not refreshed here. */
    method OnImageResponse(ok: bool, data: Option<Value>, stored: bool)
      modifies this`effects, this`generating, this`imageUrl
      ensures !generating
      ensures ok && data.Some? && !Nullish(data.value) ==>
        imageUrl == Get(data.value, "imageUrl")
        && effects == old(effects) + if stored then [StoreItem("generatedImage", imageUrl)] else []
      ensures !(ok && data.Some? && !Nullish(data.value)) ==>
        imageUrl == old(imageUrl) && effects == old(effects)
    {
      if ok && data.Some? && !Nullish(data.value) {
        imageUrl := Get(data.value, "imageUrl");
        if stored {
          effects := effects + [StoreItem("generatedImage", imageUrl)];
        }
      }
      generating := false;
    }
  }
}
