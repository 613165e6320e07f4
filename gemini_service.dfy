/** The completion gateway (services/geminiService.ts): frames the outbound request,
    and turns the backend's response into the answer text and its cited sources.
    The backend call itself is not modelled: its outcome is an input. */
module GeminiService {
  import opened Wrappers
  import opened Types
  import opened Text

  /** One text part of a content entry. */
  datatype Part = Part(text: string)

  /** One entry of the request's `contents`: `{ role, parts }`. */
  datatype Content = Content(role: string, parts: seq<Part>)

  /** The configuration sent with every request: the system instruction, Google
      Search grounding, and a zero thinking budget. */
  datatype Config = Config(systemInstruction: string, googleSearch: bool, thinkingBudget: int)

  /** The request handed to `generateContent`. */
  datatype Request = Request(model: string, contents: seq<Content>, config: Config)

  /** The parts of the backend response the service reads; every level is optional. */
  datatype Web = Web(title: Option<string>, uri: Option<string>)
  datatype GroundingChunk = GroundingChunk(web: Option<Web>)
  datatype GroundingMetadata = GroundingMetadata(groundingChunks: Option<seq<GroundingChunk>>)
  datatype Candidate = Candidate(groundingMetadata: Option<GroundingMetadata>)
  datatype Response = Response(text: Option<string>, candidates: Option<seq<Candidate>>)

  /** A thrown JavaScript error, of which only `message` is ever read. */
  datatype Error = Error(message: Option<string>)

  /** What the awaited backend call did: resolved with a response, or threw. */
  datatype CallOutcome = Responded(response: Response) | Threw(thrown: Error)

  /** What `generateResponse` resolves with. */
  datatype Reply = Reply(text: string, sources: seq<GroundingSource>)

  /** One call of `generateResponse`: the request it handed to the backend, if it
      got that far, and what it resolved with or threw. */
  datatype Exchange = Exchange(request: Option<Request>, result: Result<Reply, Error>)

  const ModelName: string := "gemini-3-flash-preview"
  const MissingKeyMessage: string := "API_KEY environment variable is not defined."
  const FallbackText: string := "I'm sorry, I couldn't generate a response."
  const DefaultTitle: string := "Source"

  /** JavaScript truthiness of an optional string: present and non-empty. */
  predicate Truthy(s: Option<string>) {
    s.Some? && s.value != ""
  }

  /** `a || b` on an optional string. */
  function OrElse(s: Option<string>, default: string): (r: string)
    ensures Truthy(s) ==> r == s.value
    ensures !Truthy(s) ==> r == default
  {
    if Truthy(s) then s.value else default
  }

  /** The `contents` of the request: the history, then the new user entry. */
  function Contents(prompt: string, history: seq<Content>): (r: seq<Content>)
    ensures |r| == |history| + 1
    ensures r[..|history|] == history
    ensures r[|history|] == Content(RoleValue(User), [Part(prompt)])
  {
    history + [Content("user", [Part(prompt)])]
  }

  function BuildRequest(prompt: string, history: seq<Content>, systemInstruction: string): Request {
    Request(ModelName, Contents(prompt, history), Config(systemInstruction, true, 0))
  }

  /** `response.text || fallback`: the answer text is never empty. */
  function AnswerText(response: Response): (r: string)
    ensures r != ""
    ensures Truthy(response.text) ==> r == response.text.value
    ensures !Truthy(response.text) ==> r == FallbackText
  {
    OrElse(response.text, FallbackText)
  }

  /** `response.candidates?.[0]?.groundingMetadata?.groundingChunks || []`. */
  function ChunksOf(response: Response): (r: seq<GroundingChunk>)
    ensures r != [] ==>
      && response.candidates.Some? && |response.candidates.value| > 0
      && response.candidates.value[0].groundingMetadata.Some?
      && response.candidates.value[0].groundingMetadata.value.groundingChunks == Some(r)
    ensures && response.candidates.Some? && |response.candidates.value| > 0
            && response.candidates.value[0].groundingMetadata.Some?
            && response.candidates.value[0].groundingMetadata.value.groundingChunks.Some?
            ==> r == response.candidates.value[0].groundingMetadata.value.groundingChunks.value
  {
    match response.candidates
    case None => []
    case Some(cs) =>
      if |cs| == 0 then []
      else match cs[0].groundingMetadata
        case None => []
        case Some(gm) => gm.groundingChunks.GetOr([])
  }

  /** The `map` step: a chunk becomes a source with a default title and an
      empty uri when the chunk has none. */
  function ToSource(chunk: GroundingChunk): GroundingSource {
    match chunk.web
    case None => GroundingSource(Some(DefaultTitle), Some(""))
    case Some(w) => GroundingSource(Some(OrElse(w.title, DefaultTitle)), Some(OrElse(w.uri, "")))
  }

  /** A chunk that survives the `filter` step. */
  predicate HasUri(chunk: GroundingChunk) {
    chunk.web.Some? && Truthy(chunk.web.value.uri)
  }

  function MapToSources(chunks: seq<GroundingChunk>): (r: seq<GroundingSource>)
    ensures |r| == |chunks|
    ensures forall i :: 0 <= i < |chunks| ==> r[i] == ToSource(chunks[i])
  {
    seq(|chunks|, i requires 0 <= i < |chunks| => ToSource(chunks[i]))
  }

  /** The `filter(s => s.uri !== "")` step. */
  function KeepWithUri(sources: seq<GroundingSource>): seq<GroundingSource> {
    if sources == [] then []
    else if sources[0].uri != Some("") then [sources[0]] + KeepWithUri(sources[1..])
    else KeepWithUri(sources[1..])
  }

  /** The sources extracted from a response's chunks, map then filter. */
  function ExtractSources(chunks: seq<GroundingChunk>): seq<GroundingSource> {
    KeepWithUri(MapToSources(chunks))
  }

  /** What the service does with a completed backend call. */
  function HandleOutcome(outcome: CallOutcome): Result<Reply, Error> {
    match outcome
    case Threw(e) => Failure(e)
    case Responded(response) => Success(Reply(AnswerText(response), ExtractSources(ChunksOf(response))))
  }

  /** `generateResponse(prompt, history)`, with `process.env.API_KEY` as `apiKey`, the
      system instruction as a parameter, and `outcome` standing for whatever the
      backend call does with the request. */
  function GenerateResponse(apiKey: Option<string>, prompt: string, history: seq<Content>,
                            systemInstruction: string, outcome: CallOutcome): (r: Exchange)
    ensures r.request.None? <==> !Truthy(apiKey)
    ensures !Truthy(apiKey) ==> r.result == Failure(Error(Some(MissingKeyMessage)))
    ensures r.request.Some? ==>
      && r.request.value.contents == history + [Content("user", [Part(prompt)])]
      && r.request.value.model == ModelName
      && r.request.value.config == Config(systemInstruction, true, 0)
    ensures Truthy(apiKey) && outcome.Threw? ==> r.result == Failure(outcome.thrown)
    ensures Truthy(apiKey) && outcome.Responded? ==>
      r.result == Success(Reply(AnswerText(outcome.response), ExtractSources(ChunksOf(outcome.response))))
    ensures r.result.Success? ==> outcome.Responded? && r.result.value.text != ""
    ensures r.result.Success? ==> forall i :: 0 <= i < |r.result.value.sources| ==>
      Truthy(r.result.value.sources[i].uri)
  {
    if !Truthy(apiKey) then
      Exchange(None, Failure(Error(Some(MissingKeyMessage))))
    else
      var result := HandleOutcome(outcome);
      if result.Success? then
        SourcesHaveUri(ChunksOf(outcome.response));
        Exchange(Some(BuildRequest(prompt, history, systemInstruction)), result)
      else
        Exchange(Some(BuildRequest(prompt, history, systemInstruction)), result)
  }

  /** Every extracted source has a title and a non-empty uri. */
  lemma {:induction false} SourcesHaveUri(chunks: seq<GroundingChunk>)
    ensures forall i :: 0 <= i < |ExtractSources(chunks)| ==>
      Truthy(ExtractSources(chunks)[i].uri) && ExtractSources(chunks)[i].title.Some?
  {
    KeptHaveUri(MapToSources(chunks));
  }

  lemma {:induction false} KeptHaveUri(sources: seq<GroundingSource>)
    requires forall i :: 0 <= i < |sources| ==> sources[i].uri.Some? && sources[i].title.Some?
    ensures forall i :: 0 <= i < |KeepWithUri(sources)| ==>
      Truthy(KeepWithUri(sources)[i].uri) && KeepWithUri(sources)[i].title.Some?
  {
    if sources != [] {
      KeptHaveUri(sources[1..]);
    }
  }

  /** A chunk whose web title is missing or empty is titled "Source"; any other
      title is copied unchanged, and so is a non-empty uri. */
  lemma ToSourceFields(chunk: GroundingChunk)
    ensures ToSource(chunk).title == Some(
      if chunk.web.Some? && Truthy(chunk.web.value.title) then chunk.web.value.title.value
      else DefaultTitle)
    ensures HasUri(chunk) ==> ToSource(chunk).uri == chunk.web.value.uri
    ensures ToSource(chunk).uri != Some("") <==> HasUri(chunk)
  {
  }

  /** Extraction distributes over concatenation, so sources keep the relative order
      of their chunks. */
  lemma {:induction false} ExtractAppend(a: seq<GroundingChunk>, b: seq<GroundingChunk>)
    ensures ExtractSources(a + b) == ExtractSources(a) + ExtractSources(b)
  {
    assert MapToSources(a + b) == MapToSources(a) + MapToSources(b);
    KeepAppend(MapToSources(a), MapToSources(b));
  }

  lemma {:induction false} KeepAppend(a: seq<GroundingSource>, b: seq<GroundingSource>)
    ensures KeepWithUri(a + b) == KeepWithUri(a) + KeepWithUri(b)
  {
    if a != [] {
      assert (a + b)[1..] == a[1..] + b;
      KeepAppend(a[1..], b);
    } else {
      assert a + b == b;
    }
  }

  /** A single chunk yields its source when it has a uri, and nothing otherwise. */
  lemma ExtractOne(chunk: GroundingChunk)
    ensures ExtractSources([chunk]) == if HasUri(chunk) then [ToSource(chunk)] else []
  {
    var src := ToSource(chunk);
    assert MapToSources([chunk]) == [src];
    assert [src][1..] == [];
    ToSourceFields(chunk);
    assert KeepWithUri([src]) == (if src.uri != Some("") then [src] else []) + KeepWithUri([]);
  }

  /** Number of chunks that carry a non-empty uri. */
  function CountWithUri(chunks: seq<GroundingChunk>): nat {
    if chunks == [] then 0 else (if HasUri(chunks[0]) then 1 else 0) + CountWithUri(chunks[1..])
  }

  /** There is exactly one source per chunk with a uri, so never more sources than
      chunks, and repeated uris are all kept. */
  lemma {:induction false} ExtractCount(chunks: seq<GroundingChunk>)
    ensures |ExtractSources(chunks)| == CountWithUri(chunks) <= |chunks|
  {
    if chunks != [] {
      assert chunks == [chunks[0]] + chunks[1..];
      ExtractAppend([chunks[0]], chunks[1..]);
      ExtractOne(chunks[0]);
      ExtractCount(chunks[1..]);
    }
  }

  /** A source is extracted exactly when some chunk with a uri maps to it. */
  lemma {:induction false} ExtractMembership(chunks: seq<GroundingChunk>, s: GroundingSource)
    ensures s in ExtractSources(chunks) <==>
      exists i :: 0 <= i < |chunks| && HasUri(chunks[i]) && ToSource(chunks[i]) == s
  {
    if chunks != [] {
      assert chunks == [chunks[0]] + chunks[1..];
      ExtractAppend([chunks[0]], chunks[1..]);
      ExtractOne(chunks[0]);
      ExtractMembership(chunks[1..], s);
      if s in ExtractSources(chunks[1..]) {
        var i :| 0 <= i < |chunks[1..]| && HasUri(chunks[1..][i]) && ToSource(chunks[1..][i]) == s;
        assert chunks[i + 1] == chunks[1..][i];
      }
      if exists i :: 0 <= i < |chunks| && HasUri(chunks[i]) && ToSource(chunks[i]) == s {
        var i :| 0 <= i < |chunks| && HasUri(chunks[i]) && ToSource(chunks[i]) == s;
        if i > 0 { assert chunks[1..][i - 1] == chunks[i]; }
      }
    }
  }

  /** No de-duplication: a chunk repeated twice yields its source twice. */
  lemma RepeatedUriSurvives(chunk: GroundingChunk)
    requires HasUri(chunk)
    ensures ExtractSources([chunk, chunk]) == [ToSource(chunk), ToSource(chunk)]
  {
    assert [chunk, chunk] == [chunk] + [chunk];
    ExtractAppend([chunk], [chunk]);
    ExtractOne(chunk);
  }

  /** A response lacking candidates, a first candidate, grounding metadata or
      chunks yields no sources, and the call still succeeds. */
  lemma NoGroundingNoSources(apiKey: Option<string>, prompt: string, history: seq<Content>,
                             systemInstruction: string, response: Response)
    requires Truthy(apiKey)
    requires || response.candidates.None?
             || |response.candidates.value| == 0
             || response.candidates.value[0].groundingMetadata.None?
             || response.candidates.value[0].groundingMetadata.value.groundingChunks.None?
    ensures GenerateResponse(apiKey, prompt, history, systemInstruction, Responded(response)).result
            == Success(Reply(AnswerText(response), []))
  {
    assert ChunksOf(response) == [];
    assert MapToSources([]) == [];
  }

  /** Chunks `a`/`A`, `a`/`A2`, an empty uri, and `c` without a title: the empty uri
      is dropped, the title of `c` defaults, and both `a` entries are kept. */
  lemma CitationExample()
    ensures ExtractSources([
              GroundingChunk(Some(Web(Some("A"), Some("a")))),
              GroundingChunk(Some(Web(Some("A2"), Some("a")))),
              GroundingChunk(Some(Web(Some("B"), Some("")))),
              GroundingChunk(Some(Web(None, Some("c"))))])
            == [GroundingSource(Some("A"), Some("a")),
                GroundingSource(Some("A2"), Some("a")),
                GroundingSource(Some(DefaultTitle), Some("c"))]
  {
    var c1 := GroundingChunk(Some(Web(Some("A"), Some("a"))));
    var c2 := GroundingChunk(Some(Web(Some("A2"), Some("a"))));
    var c3 := GroundingChunk(Some(Web(Some("B"), Some(""))));
    var c4 := GroundingChunk(Some(Web(None, Some("c"))));
    assert [c1, c2, c3, c4] == [c1] + [c2] + [c3] + [c4];
    ExtractAppend([c1] + [c2] + [c3], [c4]);
    ExtractAppend([c1] + [c2], [c3]);
    ExtractAppend([c1], [c2]);
    ExtractOne(c1);
    ExtractOne(c2);
    ExtractOne(c3);
    ExtractOne(c4);
  }
}
