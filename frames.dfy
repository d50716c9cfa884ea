/** The strings the client derives from its configuration, and the frames it sends:
    each builder comes with the reader a receiver would apply to that frame. */
module Frames {
  import opened JsValues

  // ----- Derived strings. -----

  const ModelUriPrefix := "projects/"
  const ModelsPath := "locations/us-central1/publishers/google/models/"
  const ServiceUrlPrefix := "wss://"
  const ServiceUrlPath := "/ws/google.cloud.aiplatform.v1beta1.LlmBidiService/BidiGenerateContent"

  /** The model resource name built from a project id and a model name. */
  function ModelUri(projectId: string, model: string): (r: string)
    ensures |r| == |ModelUriPrefix| + |projectId| + 1 + |ModelsPath| + |model|
    ensures r[..|ModelUriPrefix|] == ModelUriPrefix
    ensures r[|ModelUriPrefix|..|ModelUriPrefix| + |projectId|] == projectId
    ensures r[|r| - |model|..] == model
  {
    ModelUriPrefix + projectId + "/" + ModelsPath + model
  }

  /** The upstream endpoint for an API host. */
  function ServiceUrl(apiHost: string): (r: string)
    ensures |r| == |ServiceUrlPrefix| + |apiHost| + |ServiceUrlPath|
    ensures r[|ServiceUrlPrefix|..|r| - |ServiceUrlPath|] == apiHost
  {
    ServiceUrlPrefix + apiHost + ServiceUrlPath
  }

  /** A model URI determines its project id and model name, as long as the project id
      holds no `/`. */
  lemma ModelUriInjective(p1: string, m1: string, p2: string, m2: string)
    requires '/' !in p1 && '/' !in p2
    requires ModelUri(p1, m1) == ModelUri(p2, m2)
    ensures p1 == p2 && m1 == m2
  {
    var u := ModelUri(p1, m1);
    var n := |ModelUriPrefix|;
    assert u == ModelUriPrefix + p1 + "/" + ModelsPath + m1;
    assert u == ModelUriPrefix + p2 + "/" + ModelsPath + m2;
    assert forall i :: 0 <= i < |p1| ==> u[n + i] == p1[i];
    assert forall i :: 0 <= i < |p2| ==> u[n + i] == p2[i];
    assert u[n + |p1|] == '/' && u[n + |p2|] == '/';
    assert |p1| == |p2|;
    assert p1 == p2;
    var k := n + |p1| + 1 + |ModelsPath|;
    assert m1 == u[k..] == m2;
  }

  // ----- Reading values back. -----

  function ReadString(o: Option<Json>): Option<string> {
    match o
    case Some(JString(s)) => Some(s)
    case _ => None
  }

  function StringItems(ss: seq<string>): seq<Json> {
    if ss == [] then [] else [JString(ss[0])] + StringItems(ss[1..])
  }

  function ReadStrings(items: seq<Json>): Option<seq<string>> {
    if items == [] then Some([])
    else match items[0]
      case JString(s) =>
        var rest :- ReadStrings(items[1..]);
        Some([s] + rest)
      case _ => None
  }

  /** An array of strings reads back as the same strings. */
  lemma {:induction false} ReadStringsRoundTrip(ss: seq<string>)
    ensures ReadStrings(StringItems(ss)) == Some(ss)
  {
    if ss != [] {
      var items := StringItems(ss);
      assert items == [JString(ss[0])] + StringItems(ss[1..]);
      assert items[0] == JString(ss[0]);
      assert items[1..] == StringItems(ss[1..]);
      ReadStringsRoundTrip(ss[1..]);
      assert [ss[0]] + ss[1..] == ss;
    }
  }

  // ----- The transport setup frame. -----

  /** `{bearer_token, service_url}`, read back as the pair it carries. */
  function ReadServiceSetup(j: Json): Option<(string, string)> {
    var token :- ReadString(Lookup(j, "bearer_token"));
    var url :- ReadString(Lookup(j, "service_url"));
    Some((token, url))
  }

  function ServiceSetupFrame(accessToken: string, serviceUrl: string): (r: Json)
    ensures ReadServiceSetup(r) == Some((accessToken, serviceUrl))
  {
    var token, url := Member("bearer_token", JString(accessToken)), Member("service_url", JString(serviceUrl));
    GetPair(token, url);
    JObject([token, url])
  }

  // ----- The session setup frame. -----

  /** The configuration that goes into a session setup frame. */
  datatype SessionConfig = SessionConfig(
    modelUri: string,
    responseModalities: seq<string>,
    systemInstructions: string,
    voiceName: string,
    voiceLocale: string,
    enableInputTranscript: bool,
    enableOutputTranscript: bool,
    enableSessionResumption: bool,
    resumptionHandle: string)

  /** `generation_config`: the response modalities and the speech configuration. */
  function GenerationConfig(modalities: seq<string>, voiceName: string, locale: string): (r: Json)
    ensures ReadGenerationConfig(r) == Some((modalities, voiceName, locale))
  {
    var voice := Member("voice_config", JObject([
      Member("prebuilt_voice_config", JObject([Member("voice_name", JString(voiceName))]))]));
    var language := Member("language_code", JString(locale));
    var modalitiesMember := Member("response_modalities", JArray(StringItems(modalities)));
    var speech := Member("speech_config", JObject([voice, language]));
    GetPair(voice, language);
    GetPair(modalitiesMember, speech);
    ReadStringsRoundTrip(modalities);
    JObject([modalitiesMember, speech])
  }

  function ReadGenerationConfig(j: Json): Option<(seq<string>, string, string)> {
    var modalitiesJ :- Lookup(j, "response_modalities");
    var modalities :- if modalitiesJ.JArray? then ReadStrings(modalitiesJ.items) else None;
    var speech :- Lookup(j, "speech_config");
    var voice :- Lookup(speech, "voice_config");
    var prebuilt :- Lookup(voice, "prebuilt_voice_config");
    var voiceName :- ReadString(Lookup(prebuilt, "voice_name"));
    var locale :- ReadString(Lookup(speech, "language_code"));
    Some((modalities, voiceName, locale))
  }

  /** `system_instruction`: a parts array holding the one text part. */
  function SystemInstruction(text: string): (r: Json)
    ensures ReadSystemInstruction(r) == Some(text)
  {
    JObject([Member("parts", JArray([JObject([Member("text", JString(text))])]))])
  }

  function ReadSystemInstruction(j: Json): Option<string> {
    var parts :- Lookup(j, "parts");
    ReadSingleText(parts)
  }

  /** The keys `setup` always has, before the conditional ones are added. */
  function BaseSetup(c: SessionConfig): seq<Member> {
    [ Member("model", JString(c.modelUri)),
      Member("generation_config", GenerationConfig(c.responseModalities, c.voiceName, c.voiceLocale)),
      Member("system_instruction", SystemInstruction(c.systemInstructions)) ]
  }

  const InputTranscriptionKey := "input_audio_transcription"
  const OutputTranscriptionKey := "output_audio_transcription"
  const SessionResumptionKey := "session_resumption"

  /** `setup` after the three conditional assignments, in source order. */
  function SessionSetup(c: SessionConfig): seq<Member> {
    var s0 := BaseSetup(c);
    var s1 := if c.enableInputTranscript then Set(s0, InputTranscriptionKey, JObject([])) else s0;
    var s2 := if c.enableOutputTranscript then Set(s1, OutputTranscriptionKey, JObject([])) else s1;
    if c.enableSessionResumption
    then Set(s2, SessionResumptionKey, JObject([Member("handle", JString(c.resumptionHandle))]))
    else s2
  }

  function SessionSetupFrame(c: SessionConfig): Json {
    JObject([Member("setup", JObject(SessionSetup(c)))])
  }

  /** The keys of `setup`: the three fixed ones, then each conditional key exactly when its
      flag is set, in the order they are assigned. */
  lemma SessionSetupKeys(c: SessionConfig)
    ensures Keys(SessionSetup(c)) ==
      ["model", "generation_config", "system_instruction"]
      + (if c.enableInputTranscript then [InputTranscriptionKey] else [])
      + (if c.enableOutputTranscript then [OutputTranscriptionKey] else [])
      + (if c.enableSessionResumption then [SessionResumptionKey] else [])
  {
    var s0 := BaseSetup(c);
    GetTriple(s0[0], s0[1], s0[2]);
    assert s0 == [s0[0], s0[1], s0[2]];
  }

  /** The text of a `[{text}]` parts array holding exactly one part. */
  function ReadSingleText(j: Json): Option<string> {
    if j.JArray? && |j.items| == 1 then ReadString(Lookup(j.items[0], "text")) else None
  }

  /** What a receiver reads from the members of `setup`: every configured value, each
      flag as the presence of its key, and the handle when resumption is requested. */
  function ReadSetup(setup: seq<Member>): Option<SessionConfig> {
    var model :- ReadString(Get(setup, "model"));
    var generation :- Get(setup, "generation_config");
    var config :- ReadGenerationConfig(generation);
    var instruction :- Get(setup, "system_instruction");
    var text :- ReadSystemInstruction(instruction);
    var resumption := Get(setup, SessionResumptionKey);
    var handle :- if resumption.Some? then ReadString(Lookup(resumption.value, "handle")) else Some("");
    Some(SessionConfig(model, config.0, text, config.1, config.2,
                       Get(setup, InputTranscriptionKey).Some?,
                       Get(setup, OutputTranscriptionKey).Some?,
                       resumption.Some?, handle))
  }

  function ReadSessionSetup(j: Json): Option<SessionConfig> {
    var setup :- Lookup(j, "setup");
    if setup.JObject? then ReadSetup(setup.members) else None
  }

  /** The part of a configuration a session setup frame carries: the handle only when
      resumption is enabled. */
  function Sent(c: SessionConfig): SessionConfig {
    c.(resumptionHandle := if c.enableSessionResumption then c.resumptionHandle else "")
  }

  /** The fixed keys of `setup` and their values; none of the conditional keys is there. */
  lemma BaseSetupGet(c: SessionConfig)
    ensures Get(BaseSetup(c), "model") == Some(JString(c.modelUri))
    ensures Get(BaseSetup(c), "generation_config") == Some(GenerationConfig(c.responseModalities, c.voiceName, c.voiceLocale))
    ensures Get(BaseSetup(c), "system_instruction") == Some(SystemInstruction(c.systemInstructions))
    ensures Get(BaseSetup(c), InputTranscriptionKey) == None
    ensures Get(BaseSetup(c), OutputTranscriptionKey) == None
    ensures Get(BaseSetup(c), SessionResumptionKey) == None
  {
    var s0 := BaseSetup(c);
    GetTriple(s0[0], s0[1], s0[2]);
    assert s0 == [s0[0], s0[1], s0[2]];
  }

  /** Reading key `k` of `setup` after the three conditional assignments. */
  lemma SessionSetupGetKey(c: SessionConfig, k: string)
    ensures Get(SessionSetup(c), k) ==
      if k == SessionResumptionKey && c.enableSessionResumption
      then Some(JObject([Member("handle", JString(c.resumptionHandle))]))
      else if k == OutputTranscriptionKey && c.enableOutputTranscript then Some(JObject([]))
      else if k == InputTranscriptionKey && c.enableInputTranscript then Some(JObject([]))
      else Get(BaseSetup(c), k)
  {
    var s0 := BaseSetup(c);
    var s1 := if c.enableInputTranscript then Set(s0, InputTranscriptionKey, JObject([])) else s0;
    var s2 := if c.enableOutputTranscript then Set(s1, OutputTranscriptionKey, JObject([])) else s1;
    if c.enableInputTranscript { GetSet(s0, InputTranscriptionKey, JObject([]), k); }
    if c.enableOutputTranscript { GetSet(s1, OutputTranscriptionKey, JObject([]), k); }
    if c.enableSessionResumption {
      GetSet(s2, SessionResumptionKey, JObject([Member("handle", JString(c.resumptionHandle))]), k);
    }
  }

  /** Reading `setup`: the three fixed keys hold the configured values, and each
      conditional key is present exactly when its flag is set. */
  lemma SessionSetupGet(c: SessionConfig)
    ensures Get(SessionSetup(c), "model") == Some(JString(c.modelUri))
    ensures Get(SessionSetup(c), "generation_config") == Some(GenerationConfig(c.responseModalities, c.voiceName, c.voiceLocale))
    ensures Get(SessionSetup(c), "system_instruction") == Some(SystemInstruction(c.systemInstructions))
    ensures Get(SessionSetup(c), InputTranscriptionKey) ==
      if c.enableInputTranscript then Some(JObject([])) else None
    ensures Get(SessionSetup(c), OutputTranscriptionKey) ==
      if c.enableOutputTranscript then Some(JObject([])) else None
    ensures Get(SessionSetup(c), SessionResumptionKey) ==
      if c.enableSessionResumption
      then Some(JObject([Member("handle", JString(c.resumptionHandle))]))
      else None
  {
    BaseSetupGet(c);
    SessionSetupGetKey(c, "model");
    SessionSetupGetKey(c, "generation_config");
    SessionSetupGetKey(c, "system_instruction");
    SessionSetupGetKey(c, InputTranscriptionKey);
    SessionSetupGetKey(c, OutputTranscriptionKey);
    SessionSetupGetKey(c, SessionResumptionKey);
  }

  /** Any members that hold the values `SessionSetupGet` describes read back as `Sent(c)`. */
  lemma ReadSetupOfValues(setup: seq<Member>, c: SessionConfig)
    requires Get(setup, "model") == Some(JString(c.modelUri))
    requires Get(setup, "generation_config") == Some(GenerationConfig(c.responseModalities, c.voiceName, c.voiceLocale))
    requires Get(setup, "system_instruction") == Some(SystemInstruction(c.systemInstructions))
    requires Get(setup, InputTranscriptionKey).Some? == c.enableInputTranscript
    requires Get(setup, OutputTranscriptionKey).Some? == c.enableOutputTranscript
    requires Get(setup, SessionResumptionKey) ==
      if c.enableSessionResumption
      then Some(JObject([Member("handle", JString(c.resumptionHandle))]))
      else None
    ensures ReadSetup(setup) == Some(Sent(c))
  {
  }

  /** A session setup frame reads back as the configuration it was built from. */
  lemma SessionSetupRoundTrip(c: SessionConfig)
    ensures ReadSessionSetup(SessionSetupFrame(c)) == Some(Sent(c))
  {
    var setup := SessionSetup(c);
    assert Lookup(SessionSetupFrame(c), "setup") == Some(JObject(setup));
    SessionSetupGet(c);
    ReadSetupOfValues(setup, c);
  }

  // ----- The text input frame. -----

  /** The text of a `client_content` frame that holds exactly one user turn with exactly
      one text part and `turn_complete: true`. */
  function ReadTextInput(j: Json): Option<string> {
    var content :- Lookup(j, "client_content");
    var turns :- Lookup(content, "turns");
    var complete :- Lookup(content, "turn_complete");
    if turns.JArray? && |turns.items| == 1 && complete == JBool(true)
       && Lookup(turns.items[0], "role") == Some(JString("user"))
    then
      var parts :- Lookup(turns.items[0], "parts");
      ReadSingleText(parts)
    else None
  }

  function TextFrame(text: string): (r: Json)
    ensures ReadTextInput(r) == Some(text)
  {
    var role := Member("role", JString("user"));
    var parts := Member("parts", JArray([JObject([Member("text", JString(text))])]));
    var turns := Member("turns", JArray([JObject([role, parts])]));
    var complete := Member("turn_complete", JBool(true));
    GetPair(role, parts);
    GetPair(turns, complete);
    JObject([Member("client_content", JObject([turns, complete]))])
  }

  // ----- The realtime input frame. -----

  datatype MediaChunk = MediaChunk(mimeType: string, data: string)

  function ReadChunks(items: seq<Json>): Option<seq<MediaChunk>> {
    if items == [] then Some([])
    else
      var mimeType :- ReadString(Lookup(items[0], "mime_type"));
      var data :- ReadString(Lookup(items[0], "data"));
      var rest :- ReadChunks(items[1..]);
      Some([MediaChunk(mimeType, data)] + rest)
  }

  /** The media chunks of a `realtime_input` frame. */
  function ReadMediaChunks(j: Json): Option<seq<MediaChunk>> {
    var input :- Lookup(j, "realtime_input");
    var chunks :- Lookup(input, "media_chunks");
    if chunks.JArray? then ReadChunks(chunks.items) else None
  }

  function RealtimeInputFrame(data: string, mimeType: string): (r: Json)
    ensures ReadMediaChunks(r) == Some([MediaChunk(mimeType, data)])
  {
    var mime, payload := Member("mime_type", JString(mimeType)), Member("data", JString(data));
    GetPair(mime, payload);
    var chunk := JObject([mime, payload]);
    assert ReadChunks([chunk]) == Some([MediaChunk(mimeType, data)]) by {
      assert [chunk][1..] == [];
      assert ReadChunks([]) == Some([]);
      assert Lookup(chunk, "mime_type") == Some(JString(mimeType));
      assert Lookup(chunk, "data") == Some(JString(data));
      assert [MediaChunk(mimeType, data)] + [] == [MediaChunk(mimeType, data)];
    }
    JObject([Member("realtime_input", JObject([Member("media_chunks", JArray([chunk]))]))])
  }
}
