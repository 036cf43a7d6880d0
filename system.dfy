/** How the three programs fit together: what the producer page sends, the
    relay stores and replays, and the output page applies, path by path. The
    JSON text on the wire is not modelled; a value sent is the value the
    other side parses. */
module System {
  import opened Values
  import opened Protocol
  import R = Relay
  import O = Output
  import S = Setup

  /** How the relay receives a delivery of the producer that is addressed
      to it: a socket frame, or the body of `POST /api/update`. */
  function AsRelayUpdate(e: S.Effect): (u: R.Update)
    requires S.ToRelay(e)
    ensures e.WsSend? <==> u.FromSocket?
  {
    match e
    case WsSend(frame) => R.FromSocket(Some(frame))
    case Post(_, body) => R.FromRest(body)
  }

  /** Whatever the socket states on both pages, once the producer gets past
      its store, the configuration it builds reaches the relay, which stores
      it from whichever of the socket and the REST fallback carried it; the
      output page applies the frame the relay forwards and the channel
      message, and its polling tick applies the stored copy while its own
      socket is not OPEN. A store that throws delivers nothing. */
  lemma EveryPathDeliversTheConfig(socket: Option<ReadyState>, consumerSocket: Option<ReadyState>,
                                   form: S.Form, font: Value, url: Value, storedImage: Value, logo: Value,
                                   stored: bool)
    ensures var c := S.BuildConfig(form, font, url, storedImage, logo);
      && (forall e | e in S.Route(socket, c, stored) && S.ToRelay(e) :: R.Accepted(AsRelayUpdate(e)) == Some(c))
      && (S.GetsPastStore(stored) <==> exists e | e in S.Route(socket, c, stored) :: S.ToRelay(e))
      && O.SocketUpdate(Some(UpdateFrame(c))) == Some(c)
      && O.ChannelUpdate(UpdateFrame(c)) == Some(c)
      && O.PollUpdate(consumerSocket, Parsed(c)) == (if consumerSocket != Some(Open) then Some(c) else None)
  {
    var c := S.BuildConfig(form, font, url, storedImage, logo);
    var es := S.Route(socket, c, stored);
    forall e | e in es && S.ToRelay(e)
      ensures R.Accepted(AsRelayUpdate(e)) == Some(c)
    {
      assert S.Payload(e) == c;
    }
    if S.GetsPastStore(stored) {
      assert S.ToRelay(es[|es| - 2]);
    }
  }

  /** The output page shows the text the producer's preview shows. */
  lemma OutputTextMatchesPreview(s: O.Look, p: S.Preview, form: S.Form, font: Value, url: Value,
                                 storedImage: Value, logo: Value)
    ensures O.Apply(s, S.BuildConfig(form, font, url, storedImage, logo)).text
         == Some(S.PreviewAfter(p, form, url, logo).text)
  {
    O.ApplyFieldwise(s, S.BuildConfig(form, font, url, storedImage, logo));
  }

  /** Where the output page draws a stroke the preview draws the same one,
      but not the other way round: with the box checked and an empty colour
      or width, the preview is stroked and the output is reset to `unset`. */
  lemma StrokePreviewVersusOutput(s: O.Look, form: S.Form, font: Value, url: Value, storedImage: Value, logo: Value)
    ensures var r := O.Apply(s, S.BuildConfig(form, font, url, storedImage, logo));
      && r.stroke.Some?
      && (r.stroke.value.Stroked? ==> r.stroke.value == S.PreviewStroke(form))
      && (r.stroke.value.Stroked? <==>
            S.PreviewStroke(form).Stroked? && Truthy(form.strokeColor) && Truthy(form.strokeWidth))
  {
    S.BuildConfigStroke(form, font, url, storedImage, logo);
    O.ApplyFieldwise(s, S.BuildConfig(form, font, url, storedImage, logo));
  }

  /** An API key typed with surrounding blanks reaches the relay trimmed, and
      the relay stores it exactly when the trimmed key starts with "sk-". */
  lemma TypedKeyAgainstRelay(input: string)
    ensures var e := S.KeyRequest(input);
      e.Some? ==>
        && R.CheckKey(e.value.body).Accept? == StartsWith(Trim(input), "sk-")
        && (R.CheckKey(e.value.body).Accept? ==> R.CheckKey(e.value.body).key == Trim(input))
  {
  }

  /** A prompt that passes the page's guard also passes the relay's prompt
      check, so a relay with a key forwards it, trimmed, to the image API. */
  lemma TypedPromptAgainstRelay(input: string, relay: R.RelayServer)
    requires relay.Valid() && relay.apiKey.Some?
    ensures var e := S.PromptRequest(input);
      e.Some? ==> relay.GenerateImage(e.value.body) == R.Forward(relay.apiKey.value, Str(Trim(input)))
  {
  }

  /** The page shows a key prefix exactly when the relay holds a key. */
  lemma KeyShownIffRelayHasKey(relay: R.RelayServer)
    requires relay.Valid()
    ensures S.KeyShown(Some(relay.CheckApiKey().body)).Some? <==> relay.apiKey.Some?
  {
  }

  /** The output page's start-up fetch applies the relay's stored
      configuration exactly when one is stored (truthy). */
  lemma InitialFetchAppliesStoredConfig(relay: R.RelayServer)
    requires relay.Valid()
    ensures O.InitialConfig(true, Some(relay.GetConfig().body))
         == (if Truthy(relay.latestConfig) then Some(relay.latestConfig) else None)
  {
  }
}
