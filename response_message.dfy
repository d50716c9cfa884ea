/** The classification of one decoded server frame into a typed message
    (class GeminiLiveResponseMessage). */
module ResponseMessage {
  import opened JsValues

  // ----- The inbound frame. A nested object that is absent or null is `None`. -----

  datatype InlineData = InlineData(data: JsValue)

  datatype Part = Part(text: JsValue, inlineData: Option<InlineData>)

  datatype ModelTurn = ModelTurn(parts: Option<seq<Part>>)

  datatype Transcription = Transcription(text: JsValue, finished: JsValue)

  datatype ServerContent = ServerContent(
    turnComplete: JsValue,
    modelTurn: Option<ModelTurn>,
    inputTranscription: Option<Transcription>,
    outputTranscription: Option<Transcription>)

  datatype SessionResumptionUpdate = SessionResumptionUpdate(newHandle: JsValue)

  datatype ServerFrame = ServerFrame(
    setupComplete: JsValue,
    serverContent: Option<ServerContent>,
    sessionResumptionUpdate: Option<SessionResumptionUpdate>)

  // ----- The classified message. -----

  /** The rule that fired; `Unmatched` is the fall-through, which leaves the type empty. */
  datatype Kind =
    | SetupComplete
    | Text
    | Audio
    | Resumption
    | InputTranscription
    | OutputTranscription
    | Unmatched

  datatype Message = Message(kind: Kind, data: JsValue, endOfTurn: JsValue) {
    /** The `type` string the client exposes for this message: empty only for the
        fall-through. */
    function Type(): (r: string)
      ensures r == "" <==> kind == Unmatched
    {
      match kind
      case SetupComplete => "SETUP COMPLETE"
      case Text => "TEXT"
      case Audio => "AUDIO"
      case Resumption => "RESUMPTION"
      case InputTranscription => "INPUT_TRANSCRIPTION"
      case OutputTranscription => "OUTPUT_TRANSCRIPTION"
      case Unmatched => ""
    }
  }

  /** The `type` string names the rule that fired: two messages have the same type
      exactly when they have the same kind. */
  lemma TypeNamesKind(m: Message, n: Message)
    ensures m.Type() == n.Type() <==> m.kind == n.kind
  {
  }

  // ----- Optional-chaining reads of the frame. -----

  /** `data?.serverContent?.turnComplete` */
  function TurnComplete(f: ServerFrame): JsValue {
    if f.serverContent.Some? then f.serverContent.value.turnComplete else Undefined
  }

  /** `parts[0]` when `data?.serverContent?.modelTurn?.parts?.length` is truthy. */
  function FirstPart(f: ServerFrame): Option<Part> {
    if f.serverContent.Some? && f.serverContent.value.modelTurn.Some?
       && f.serverContent.value.modelTurn.value.parts.Some?
       && |f.serverContent.value.modelTurn.value.parts.value| > 0
    then Some(f.serverContent.value.modelTurn.value.parts.value[0])
    else None
  }

  /** `data?.serverContent?.inputTranscription` */
  function InputTranscriptionOf(f: ServerFrame): Option<Transcription> {
    if f.serverContent.Some? then f.serverContent.value.inputTranscription else None
  }

  /** `data?.serverContent?.outputTranscription` */
  function OutputTranscriptionOf(f: ServerFrame): Option<Transcription> {
    if f.serverContent.Some? then f.serverContent.value.outputTranscription else None
  }

  /** The fixed-priority decision list: the first rule whose guard holds sets the type
      and the data; `endOfTurn` is read regardless of which rule fires. */
  function Classify(f: ServerFrame): (m: Message)
    ensures m.endOfTurn == TurnComplete(f)
    ensures Truthy(f.setupComplete) ==> m.kind == SetupComplete
    ensures m.kind == SetupComplete || m.kind == Unmatched ==> m.data == Str("")
    ensures m.kind == Text ==> FirstPart(f).Some? && m.data == FirstPart(f).value.text
    ensures m.kind == Audio ==>
      FirstPart(f).Some? && FirstPart(f).value.inlineData.Some?
      && m.data == FirstPart(f).value.inlineData.value.data
    ensures m.kind == Resumption ==>
      f.sessionResumptionUpdate.Some? && m.data == f.sessionResumptionUpdate.value.newHandle
    ensures m.kind == InputTranscription ==>
      InputTranscriptionOf(f).Some? &&
      var t := InputTranscriptionOf(f).value;
      (Truthy(t.text) ==> m.data == t.text)
      && (!Truthy(t.text) && Truthy(t.finished) ==> m.data == t.finished)
      && (!Truthy(t.text) && !Truthy(t.finished) ==> m.data == Str(""))
    ensures m.kind == OutputTranscription ==>
      OutputTranscriptionOf(f).Some? &&
      var t := OutputTranscriptionOf(f).value;
      (Truthy(t.text) ==> m.data == t.text)
      && (!Truthy(t.text) && Truthy(t.finished) ==> m.data == Str("Finished: " + ToJsString(t.finished)))
      && (!Truthy(t.text) && !Truthy(t.finished) ==> m.data == Str(""))
  {
    var endOfTurn := TurnComplete(f);
    var part := FirstPart(f);
    if Truthy(f.setupComplete) then
      Message(SetupComplete, Str(""), endOfTurn)
    else if part.Some? && Truthy(part.value.text) then
      Message(Text, part.value.text, endOfTurn)
    else if part.Some? && part.value.inlineData.Some? then
      Message(Audio, part.value.inlineData.value.data, endOfTurn)
    else if f.sessionResumptionUpdate.Some? then
      Message(Resumption, f.sessionResumptionUpdate.value.newHandle, endOfTurn)
    else if InputTranscriptionOf(f).Some? then
      var t := InputTranscriptionOf(f).value;
      Message(InputTranscription,
              if Truthy(t.text) then t.text else if Truthy(t.finished) then t.finished else Str(""),
              endOfTurn)
    else if OutputTranscriptionOf(f).Some? then
      var t := OutputTranscriptionOf(f).value;
      Message(OutputTranscription,
              if Truthy(t.text) then t.text
              else if Truthy(t.finished) then Str("Finished: " + ToJsString(t.finished))
              else Str(""),
              endOfTurn)
    else
      Message(Unmatched, Str(""), endOfTurn)
  }

  // ----- The decision list stated rule by rule. -----

  /** The guard of each rule, read on its own. */
  predicate Matches(f: ServerFrame, k: Kind) {
    match k
    case SetupComplete => Truthy(f.setupComplete)
    case Text => FirstPart(f).Some? && Truthy(FirstPart(f).value.text)
    case Audio => FirstPart(f).Some? && FirstPart(f).value.inlineData.Some?
    case Resumption => f.sessionResumptionUpdate.Some?
    case InputTranscription => InputTranscriptionOf(f).Some?
    case OutputTranscription => OutputTranscriptionOf(f).Some?
    case Unmatched => true
  }

  /** The position of each rule in the list; the fall-through comes last. */
  function Rank(k: Kind): nat {
    match k
    case SetupComplete => 0
    case Text => 1
    case Audio => 2
    case Resumption => 3
    case InputTranscription => 4
    case OutputTranscription => 5
    case Unmatched => 6
  }

  /** A frame is given kind `k` exactly when rule `k` matches and no earlier rule does. */
  lemma ClassifyIsFirstMatch(f: ServerFrame, k: Kind)
    ensures Classify(f).kind == k <==>
      Matches(f, k) && forall j :: Rank(j) < Rank(k) ==> !Matches(f, j)
  {
    var c := Classify(f).kind;
    forall j | Rank(j) < Rank(c) ensures !Matches(f, j) {
      match j
      case SetupComplete =>
      case Text =>
      case Audio =>
      case Resumption =>
      case InputTranscription =>
      case OutputTranscription =>
      case Unmatched =>
    }
    if c != k {
      if Rank(k) < Rank(c) {
        assert !Matches(f, k);
      } else {
        assert Matches(f, c);
      }
    }
  }

  /** Only the first content part is inspected: the parts after it never change how a
      frame is classified. */
  lemma OnlyFirstPartMatters(setup: JsValue, sc: ServerContent, p: Part, rest1: seq<Part>,
                             rest2: seq<Part>, res: Option<SessionResumptionUpdate>)
    ensures
      var f1 := ServerFrame(setup, Some(sc.(modelTurn := Some(ModelTurn(Some([p] + rest1))))), res);
      var f2 := ServerFrame(setup, Some(sc.(modelTurn := Some(ModelTurn(Some([p] + rest2))))), res);
      Classify(f1) == Classify(f2)
  {
  }

  /** Concrete frames and how each is classified. */
  lemma Examples(sc: ServerContent)
    ensures
      var parts := [Part(Str("hi"), None), Part(Undefined, Some(InlineData(Str("x"))))];
      var f := ServerFrame(Undefined, Some(sc.(modelTurn := Some(ModelTurn(Some(parts))))), None);
      Classify(f) == Message(Text, Str("hi"), sc.turnComplete)
    ensures
      var parts := [Part(Undefined, Some(InlineData(Str("QUJD"))))];
      var f := ServerFrame(Undefined, Some(sc.(modelTurn := Some(ModelTurn(Some(parts))))), None);
      Classify(f) == Message(Audio, Str("QUJD"), sc.turnComplete)
    ensures
      var f := ServerFrame(Bool(false), None, Some(SessionResumptionUpdate(Str("h1"))));
      Classify(f) == Message(Resumption, Str("h1"), Undefined)
    ensures
      var out := Some(Transcription(Undefined, Str("x")));
      var f := ServerFrame(Undefined, Some(ServerContent(Bool(true), None, None, out)), None);
      Classify(f) == Message(OutputTranscription, Str("Finished: x"), Bool(true))
    ensures
      var t := Some(Transcription(Str("a"), Undefined));
      var f := ServerFrame(Undefined, Some(ServerContent(Undefined, None, t, t)), None);
      Classify(f).kind == InputTranscription
    ensures
      var f := ServerFrame(Obj, Some(sc), Some(SessionResumptionUpdate(Str("h1"))));
      Classify(f) == Message(SetupComplete, Str(""), sc.turnComplete)
  {
  }
}
