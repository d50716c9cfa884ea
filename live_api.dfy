/** The client object (class GeminiLiveAPI) without its socket: the session configuration
    it keeps, the setters that change it, and the frames it sends. Every frame handed to
    `sendMessage` is appended to `outbox`, in sending order. */
module LiveApi {
  import opened JsValues
  import opened Frames

  class GeminiLiveApi {
    var proxyUrl: string
    var projectId: string
    var model: string
    var modelUri: string
    var responseModalities: seq<string>
    var systemInstructions: string
    var apiHost: string
    var serviceUrl: string
    var accessToken: string
    var enableInputTranscript: bool
    var enableOutputTranscript: bool
    var voiceName: string
    var voiceLocale: string
    var enableSessionResumption: bool
    var resumptionHandle: string
    /** The frames sent so far, oldest first. */
    var outbox: seq<Json>

    /** The derived model URI agrees with the current project id and model. */
    predicate ModelUriIsCurrent()
      reads this
    {
      modelUri == ModelUri(projectId, model)
    }

    /** The configuration the next session setup frame carries. */
    function Config(): SessionConfig
      reads this
    {
      SessionConfig(modelUri, responseModalities, systemInstructions, voiceName, voiceLocale,
                    enableInputTranscript, enableOutputTranscript,
                    enableSessionResumption, resumptionHandle)
    }

    constructor (proxyUrl: string, projectId: string, model: string, apiHost: string)
      ensures this.proxyUrl == proxyUrl && this.projectId == projectId && this.model == model
      ensures ModelUriIsCurrent()
      ensures responseModalities == ["AUDIO"] && systemInstructions == ""
      ensures this.apiHost == apiHost && serviceUrl == ServiceUrl(apiHost)
      ensures accessToken == ""
      ensures !enableInputTranscript && !enableOutputTranscript
      ensures voiceName == "" && voiceLocale == ""
      ensures !enableSessionResumption && resumptionHandle == ""
      ensures outbox == []
    {
      this.proxyUrl := proxyUrl;
      this.projectId := projectId;
      this.model := model;
      modelUri := ModelUri(projectId, model);
      responseModalities := ["AUDIO"];
      systemInstructions := "";
      this.apiHost := apiHost;
      serviceUrl := ServiceUrl(apiHost);
      accessToken := "";
      enableInputTranscript := false;
      enableOutputTranscript := false;
      voiceName := "";
      voiceLocale := "";
      enableSessionResumption := false;
      resumptionHandle := "";
      outbox := [];
    }

    /** Sets the project id and re-derives the model URI from it and the current model. */
    method SetProjectId(projectId: string)
      modifies this`projectId, this`modelUri
      ensures this.projectId == projectId
      ensures modelUri == ModelUri(projectId, model)
      ensures ModelUriIsCurrent()
    {
      this.projectId := projectId;
      modelUri := ModelUri(this.projectId, model);
    }

    /** Sets the API host only: the service URL derived at construction is kept. */
    method SetApiHost(apiHost: string)
      modifies this`apiHost
      ensures this.apiHost == apiHost
      ensures serviceUrl == old(serviceUrl)
    {
      this.apiHost := apiHost;
    }

    method SetAccessToken(newAccessToken: string)
      modifies this`accessToken
      ensures accessToken == newAccessToken
    {
      accessToken := newAccessToken;
    }

    method SetTranscript(input: bool, output: bool)
      modifies this`enableInputTranscript, this`enableOutputTranscript
      ensures enableInputTranscript == input && enableOutputTranscript == output
    {
      enableInputTranscript := input;
      enableOutputTranscript := output;
    }

    method SetVoice(name: string, locale: string)
      modifies this`voiceName, this`voiceLocale
      ensures voiceName == name && voiceLocale == locale
    {
      voiceName := name;
      voiceLocale := locale;
    }

    method SetResumption(enable: bool, handle: string)
      modifies this`enableSessionResumption, this`resumptionHandle
      ensures enableSessionResumption == enable && resumptionHandle == handle
    {
      enableSessionResumption := enable;
      resumptionHandle := handle;
    }

    /** Hands one frame to the socket. */
    method SendMessage(message: Json)
      modifies this`outbox
      ensures outbox == old(outbox) + [message]
    {
      outbox := outbox + [message];
    }

    /** Sends the transport setup frame, then the session setup frame, whose conditional
        keys are added one by one after the fixed ones. */
    method SendInitialSetupMessages()
      modifies this`outbox
      ensures outbox == old(outbox) + [ServiceSetupFrame(accessToken, serviceUrl),
                                       SessionSetupFrame(Config())]
    {
      ghost var c := Config();
      SendMessage(ServiceSetupFrame(accessToken, serviceUrl));
      assert Config() == c;

      var setup := BaseSetup(Config());
      if enableInputTranscript {
        setup := Set(setup, InputTranscriptionKey, JObject([]));
      }
      if enableOutputTranscript {
        setup := Set(setup, OutputTranscriptionKey, JObject([]));
      }
      if enableSessionResumption {
        setup := Set(setup, SessionResumptionKey, JObject([Member("handle", JString(resumptionHandle))]));
      }
      assert setup == SessionSetup(c);
      SendMessage(JObject([Member("setup", JObject(setup))]));
    }

    method SendTextMessage(text: string)
      modifies this`outbox
      ensures outbox == old(outbox) + [TextFrame(text)]
    {
      SendMessage(TextFrame(text));
    }

    method SendRealtimeInputMessage(data: string, mimeType: string)
      modifies this`outbox
      ensures outbox == old(outbox) + [RealtimeInputFrame(data, mimeType)]
    {
      SendMessage(RealtimeInputFrame(data, mimeType));
    }

    method SendAudioMessage(base64Pcm: string)
      modifies this`outbox
      ensures outbox == old(outbox) + [RealtimeInputFrame(base64Pcm, "audio/pcm")]
    {
      SendRealtimeInputMessage(base64Pcm, "audio/pcm");
    }

    /** `mimeType` is `None` when the caller leaves the argument out or passes `undefined`. */
    method SendImageMessage(base64Image: string, mimeType: Option<string>)
      modifies this`outbox
      ensures outbox == old(outbox)
        + [RealtimeInputFrame(base64Image, if mimeType.Some? then mimeType.value else "image/jpeg")]
    {
      var mime := if mimeType.Some? then mimeType.value else "image/jpeg";
      SendRealtimeInputMessage(base64Image, mime);
    }
  }

  /** A client that changes the project id and the API host after construction, then
      opens a session: the session setup names the new project's model, the transport
      setup still targets the host given at construction, and no transcription or
      resumption key is requested. */
  method ReconfigureThenSetUp(proxyUrl: string, projectId: string, model: string, apiHost: string,
                              newProjectId: string, newApiHost: string, token: string)
    returns (service: Json, setup: Json)
    ensures ReadServiceSetup(service) == Some((token, ServiceUrl(apiHost)))
    ensures ReadSessionSetup(setup) == Some(SessionConfig(
      ModelUri(newProjectId, model), ["AUDIO"], "", "", "", false, false, false, ""))
  {
    var api := new GeminiLiveApi(proxyUrl, projectId, model, apiHost);
    api.SetProjectId(newProjectId);
    api.SetApiHost(newApiHost);
    api.SetAccessToken(token);
    ghost var c := api.Config();
    ghost var expected := SessionConfig(ModelUri(newProjectId, model), ["AUDIO"], "", "", "", false, false, false, "");
    assert c == expected;
    ghost var url := api.serviceUrl;
    assert url == ServiceUrl(apiHost);
    api.SendInitialSetupMessages();
    service, setup := api.outbox[0], api.outbox[1];
    assert service == ServiceSetupFrame(token, url);
    assert setup == SessionSetupFrame(expected);
    assert ReadSessionSetup(setup) == Some(expected) by {
      SessionSetupRoundTrip(expected);
      assert Sent(expected) == expected;
    }
  }

  /** A client that enables both transcriptions and resumption with a handle, then opens a
      session: the session setup requests all three and carries the handle. */
  method TranscribedSession(proxyUrl: string, projectId: string, model: string,
                            apiHost: string, handle: string)
    returns (setup: Json)
    ensures ReadSessionSetup(setup).Some?
    ensures var c := ReadSessionSetup(setup).value;
      c.enableInputTranscript && c.enableOutputTranscript
      && c.enableSessionResumption && c.resumptionHandle == handle
  {
    var api := new GeminiLiveApi(proxyUrl, projectId, model, apiHost);
    api.SetTranscript(true, true);
    api.SetResumption(true, handle);
    ghost var c := api.Config();
    assert c.enableInputTranscript && c.enableOutputTranscript;
    assert c.enableSessionResumption && c.resumptionHandle == handle;
    api.SendInitialSetupMessages();
    setup := api.outbox[1];
    assert setup == SessionSetupFrame(c);
    assert ReadSessionSetup(setup) == Some(Sent(c)) by {
      SessionSetupRoundTrip(c);
    }
  }
}
