/** The gateway to the local model service: the `OllamaClient` class of
    `ollama_client.py`. The client's `host` and `client` fields only reach the
    service, so the service itself is a value here (`Service`): what listing
    replies, what each pull streams, and how generate and chat requests are
    answered. Every operation also returns the requests it made, in order,
    so that "fails before any request" can be stated. */
module Gateway {
  import opened Text
  import opened Errors
  import opened Files

  /** One entry of the listing (`ModelDescriptor`). */
  datatype ModelDescriptor = ModelDescriptor(name: string, size: nat, modifiedAt: string)

  /** The outcome of `client.list()`: an exception, or a reply that may lack
      the `models` entry. */
  datatype ListReply = ListRaised(reason: string) | Listed(models: Option<seq<ModelDescriptor>>)

  /** One step of iterating the stream `client.pull(model, stream=True)`:
      a progress update (with or without a `status` entry) or an exception. */
  datatype PullEvent = Progress(status: Option<string>) | PullRaised(reason: string)

  /** The outcome of `client.generate(...)`: an exception, or a reply that
      may lack the `response` entry. */
  datatype GenerateReply = GenerateRaised(reason: string) | Generated(response: Option<string>)

  datatype Role = SystemRole | UserRole

  datatype ChatMessage = ChatMessage(role: Role, content: string)

  /** The outcome of `client.chat(...)` followed by `response["message"]["content"]`:
      an exception (from the request or from a missing entry), or the content. */
  datatype ChatReply = ChatRaised(reason: string) | Replied(content: string)

  /** The model service as the client sees it. */
  datatype Service = Service(
    listing: ListReply,
    pull: string -> seq<PullEvent>,
    generate: (string, string, Blob) -> GenerateReply,
    chat: (string, seq<ChatMessage>) -> ChatReply)

  /** A request the client makes: to the service, or the image read that
      precedes an image request. */
  datatype Call =
    | ListCall
    | PullCall(model: string)
    | ReadCall(path: string)
    | GenerateCall(model: string, prompt: string, image: Blob)
    | ChatCall(model: string, messages: seq<ChatMessage>)

  /** What an operation returns, with the requests it made. */
  datatype Exchange = Exchange(result: Result<string>, calls: seq<Call>)

  /** `list_models`: the `models` entry of the reply, the empty list when the
      entry is absent, and the empty list instead of an exception. */
  function ListModels(svc: Service): (models: seq<ModelDescriptor>)
    ensures svc.listing.ListRaised? ==> models == []
    ensures svc.listing.Listed? && svc.listing.models.None? ==> models == []
    ensures svc.listing.Listed? && svc.listing.models.Some? ==> models == svc.listing.models.value
  {
    match svc.listing
    case ListRaised(_) => []
    case Listed(ms) => ms.GetOr([])
  }

  /** The name `model_exists` looks up: a name without a tag gets `:latest`. */
  function NormalizeName(model: string): (tagged: string)
    ensures ':' in tagged
    ensures ':' in model ==> tagged == model
    ensures ':' !in model ==> tagged == model + ":latest"
  {
    if ':' in model then model else assert (model + ":latest")[|model|] == ':'; model + ":latest"
  }

  /** Normalising twice is normalising once. */
  lemma NormalizeIdempotent(model: string)
    ensures NormalizeName(NormalizeName(model)) == NormalizeName(model)
  {
  }

  /** The `name` fields of a listing, in order. */
  function Names(models: seq<ModelDescriptor>): (names: seq<string>)
    ensures |names| == |models| && forall i :: 0 <= i < |models| ==> names[i] == models[i].name
  {
    seq(|models|, i requires 0 <= i < |models| => models[i].name)
  }

  lemma NamesListed(models: seq<ModelDescriptor>, n: string)
    ensures n in Names(models) <==> exists d :: d in models && d.name == n
  {
    var names := Names(models);
    if n in names {
      var i :| 0 <= i < |names| && names[i] == n;
      assert models[i] in models;
    } else {
      forall d | d in models
        ensures d.name != n
      {
        var i :| 0 <= i < |models| && models[i] == d;
        assert names[i] == d.name;
      }
    }
  }

  /** `model_exists`: the normalised name is among the listed names. */
  function ModelExists(svc: Service, model: string): (present: bool)
    ensures present <==> exists d :: d in ListModels(svc) && d.name == NormalizeName(model)
  {
    NamesListed(ListModels(svc), NormalizeName(model));
    NormalizeName(model) in Names(ListModels(svc))
  }

  /** `"llama3"` and `"llama3:latest"` get the same answer from any listing. */
  lemma BareNameIsLatest(svc: Service, base: string)
    requires ':' !in base
    ensures ModelExists(svc, base) == ModelExists(svc, base + ":latest")
  {
    assert (base + ":latest")[|base|] == ':';
  }

  /** Iterating the pull stream raises nothing. */
  predicate PullCompletes(stream: seq<PullEvent>) {
    forall i :: 0 <= i < |stream| ==> !stream[i].PullRaised?
  }

  /** The statuses shown while pulling: the `status` of each update that has
      one, up to the first exception. */
  function ReportedStatuses(stream: seq<PullEvent>): (shown: seq<string>)
    ensures |shown| <= |stream|
  {
    if stream == [] then []
    else match stream[0]
      case PullRaised(_) => []
      case Progress(None) => ReportedStatuses(stream[1..])
      case Progress(Some(s)) => [s] + ReportedStatuses(stream[1..])
  }

  /** `pull_model`: consumes the stream, reporting each status when
      `showProgress` is set; true iff the stream ends without an exception.
      It never raises. */
  method PullModel(svc: Service, model: string, showProgress: bool) returns (ok: bool, shown: seq<string>)
    ensures ok <==> PullCompletes(svc.pull(model))
    ensures shown == if showProgress then ReportedStatuses(svc.pull(model)) else []
  {
    var stream := svc.pull(model);
    shown := [];
    var i := 0;
    while i < |stream|
      invariant 0 <= i <= |stream|
      invariant forall k :: 0 <= k < i ==> !stream[k].PullRaised?
      invariant showProgress ==> shown + ReportedStatuses(stream[i..]) == ReportedStatuses(stream)
      invariant !showProgress ==> shown == []
    {
      var rest := stream[i..];
      assert rest[0] == stream[i] && rest[1..] == stream[i + 1..];
      if stream[i].PullRaised? {
        assert ReportedStatuses(rest) == [];
        assert shown + [] == shown;
        return false, shown;
      }
      if showProgress && stream[i].status.Some? {
        assert ReportedStatuses(rest) == [stream[i].status.value] + ReportedStatuses(stream[i + 1..]);
        shown := shown + [stream[i].status.value];
      } else {
        assert showProgress ==> ReportedStatuses(rest) == ReportedStatuses(stream[i + 1..]);
      }
      i := i + 1;
    }
    assert stream[i..] == [];
    assert shown + [] == shown;
    ok := true;
  }

  /** Whether `ensure_model` succeeds: the model is listed, or pulling it
      completes. */
  predicate Available(svc: Service, model: string) {
    ModelExists(svc, model) || PullCompletes(svc.pull(model))
  }

  /** The requests `ensure_model` makes: the listing, then a pull of the name
      as given only when the model is not listed. */
  function EnsureCalls(svc: Service, model: string): seq<Call> {
    [ListCall] + (if ModelExists(svc, model) then [] else [PullCall(model)])
  }

  /** `ensure_model`. */
  method EnsureModel(svc: Service, model: string) returns (ok: bool, calls: seq<Call>)
    ensures ok == Available(svc, model)
    ensures calls == EnsureCalls(svc, model)
    ensures ModelExists(svc, model) ==> ok && PullCall(model) !in calls
    ensures !ModelExists(svc, model) ==> calls[|calls| - 1] == PullCall(model)
  {
    calls := [ListCall];
    if ModelExists(svc, model) {
      return true, calls;
    }
    var shown;
    ok, shown := PullModel(svc, model, true);
    calls := calls + [PullCall(model)];
  }

  /** The message list `generate_text` sends: a system message first exactly
      when a system prompt is given, then one user message with the prompt. */
  function ChatMessages(system: string, prompt: string): (messages: seq<ChatMessage>)
    ensures |messages| == if system == "" then 1 else 2
    ensures messages[|messages| - 1] == ChatMessage(UserRole, prompt)
    ensures system != "" ==> messages[0] == ChatMessage(SystemRole, system)
    ensures forall i :: 0 <= i < |messages| && messages[i].role == SystemRole ==> i == 0 && system != ""
  {
    (if system == "" then [] else [ChatMessage(SystemRole, system)]) + [ChatMessage(UserRole, prompt)]
  }

  /** What `generate_text` does, as a value. */
  function TextExchange(svc: Service, prompt: string, model: string, system: string): (ex: Exchange)
    ensures |ex.calls| >= 1 && ex.calls[0] == ListCall
  {
    var ensured := EnsureCalls(svc, model);
    if !Available(svc, model) then Exchange(Err(ModelUnavailable(model)), ensured)
    else
      var messages := ChatMessages(system, prompt);
      var result := match svc.chat(model, messages)
        case ChatRaised(reason) => Err(TextGenerationFailed(model, reason))
        case Replied(content) => Ok(content);
      Exchange(result, ensured + [ChatCall(model, messages)])
  }

  /** `generate_text`: fails with a runtime error, and sends no chat request,
      when the model cannot be made available; otherwise sends one chat
      request and returns the reply's content, or fails with a runtime error
      wrapping the service's exception. */
  method GenerateText(svc: Service, prompt: string, model: string, system: string)
    returns (result: Result<string>, calls: seq<Call>)
    ensures Exchange(result, calls) == TextExchange(svc, prompt, model, system)
    ensures !Available(svc, model) ==>
      result == Err(ModelUnavailable(model)) && forall c :: c in calls ==> !c.ChatCall?
    ensures Available(svc, model) ==>
      calls[|calls| - 1] == ChatCall(model, ChatMessages(system, prompt)) &&
      (result.Ok? <==> svc.chat(model, ChatMessages(system, prompt)).Replied?)
  {
    var ok;
    ok, calls := EnsureModel(svc, model);
    if !ok {
      return Err(ModelUnavailable(model)), calls;
    }
    var messages := [];
    if system != "" {
      messages := messages + [ChatMessage(SystemRole, system)];
    }
    messages := messages + [ChatMessage(UserRole, prompt)];
    assert messages == ChatMessages(system, prompt);
    calls := calls + [ChatCall(model, messages)];
    match svc.chat(model, messages)
    case ChatRaised(reason) =>
      result := Err(TextGenerationFailed(model, reason));
    case Replied(content) =>
      result := Ok(content);
  }

  /** Once the model is available, the chat request goes last and its reply's
      content is returned unchanged. */
  lemma TextSent(svc: Service, prompt: string, model: string, system: string)
    requires Available(svc, model)
    ensures var ex := TextExchange(svc, prompt, model, system);
      var reply := svc.chat(model, ChatMessages(system, prompt));
      ex.calls[|ex.calls| - 1] == ChatCall(model, ChatMessages(system, prompt)) &&
      (ex.result.Ok? <==> reply.Replied?) &&
      (ex.result.Ok? ==> ex.result.value == reply.content)
  {
  }

  /** What the gateway's `analyze_image` does, as a value. */
  function ImageExchange(svc: Service, fs: FileSystem, imagePath: string, model: string, prompt: string): (ex: Exchange)
    ensures |ex.calls| >= 1 && ex.calls[0] == ListCall
  {
    var ensured := EnsureCalls(svc, model);
    if !Available(svc, model) then Exchange(Err(ModelUnavailable(model)), ensured)
    else if imagePath !in fs.files then
      Exchange(Err(if imagePath in fs.dirs then IsADirectory(imagePath) else NoSuchFile(imagePath)),
               ensured + [ReadCall(imagePath)])
    else
      var image := fs.files[imagePath];
      var result := match svc.generate(model, prompt, image)
        case GenerateRaised(reason) => Err(ImageGenerationFailed(model, reason))
        case Generated(response) => Ok(response.GetOr(""));
      Exchange(result, ensured + [ReadCall(imagePath), GenerateCall(model, prompt, image)])
  }

  /** With the model available and the image a file, the last request is the
      generate request carrying that image, and the reply is passed on. */
  lemma ImageSent(svc: Service, fs: FileSystem, imagePath: string, model: string, prompt: string)
    requires Available(svc, model) && imagePath in fs.files
    ensures var ex := ImageExchange(svc, fs, imagePath, model, prompt);
      var reply := svc.generate(model, prompt, fs.files[imagePath]);
      ex.calls[|ex.calls| - 1] == GenerateCall(model, prompt, fs.files[imagePath]) &&
      (ex.result.Ok? <==> reply.Generated?) &&
      (ex.result.Ok? ==> ex.result.value == reply.response.GetOr(""))
  {
  }

  /** The gateway's `analyze_image`: fails with a runtime error, reading no
      image and sending no request, when the model cannot be made available;
      otherwise reads the image and sends one generate request with it. */
  method AnalyzeImage(svc: Service, fs: FileSystem, imagePath: string, model: string, prompt: string)
    returns (result: Result<string>, calls: seq<Call>)
    ensures Exchange(result, calls) == ImageExchange(svc, fs, imagePath, model, prompt)
    ensures !Available(svc, model) ==>
      result == Err(ModelUnavailable(model)) &&
      forall c :: c in calls ==> !c.ReadCall? && !c.GenerateCall?
    ensures Available(svc, model) && imagePath in fs.files ==>
      calls[|calls| - 1] == GenerateCall(model, prompt, fs.files[imagePath]) &&
      (result.Ok? <==> svc.generate(model, prompt, fs.files[imagePath]).Generated?)
  {
    var ok;
    ok, calls := EnsureModel(svc, model);
    if !ok {
      return Err(ModelUnavailable(model)), calls;
    }
    calls := calls + [ReadCall(imagePath)];
    if imagePath !in fs.files {
      result := Err(if imagePath in fs.dirs then IsADirectory(imagePath) else NoSuchFile(imagePath));
      return;
    }
    var image := fs.files[imagePath];
    calls := calls + [GenerateCall(model, prompt, image)];
    match svc.generate(model, prompt, image)
    case GenerateRaised(reason) =>
      result := Err(ImageGenerationFailed(model, reason));
    case Generated(response) =>
      result := Ok(response.GetOr(""));
  }

  /** `get_recommended_models`: a vision model and a text model, both named
      in the tagged form, so they need no normalising. */
  function RecommendedModels(): (models: (string, string))
    ensures NormalizeName(models.0) == models.0 && NormalizeName(models.1) == models.1
  {
    var vision := "llava:latest";
    var llm := "llama3:latest";
    assert vision[5] == ':' && llm[6] == ':';
    (vision, llm)
  }
}
