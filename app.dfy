/**
 * The request pipeline of app.py: fetch the audio of a video, transcribe it,
 * delete the scratch file, count tokens and summarise within the budget.
 *
 * The downloader, the speech-to-text service, the tokenizer and the chat
 * service are oracles (fields of `Services`). The scratch directory is a set
 * of paths and every call into a collaborator is appended to a trace, so the
 * order of the steps and the steps left out can be stated.
 */
module App {
  import opened Titles

  datatype Option<T> = None | Some(value: T)

  /** What the metadata lookup of app.py:47-49 gives: it raised, there was no title, or a title. */
  datatype Metadata = LookupFailed | Untitled | Titled(title: string)

  datatype Message = Message(role: string, content: string)

  /** A chat-completion request: the model name and the role-tagged messages. */
  datatype ChatRequest = ChatRequest(model: string, messages: seq<Message>)

  /** The collaborators the source calls into, as deterministic oracles. */
  datatype Services = Services(
    // metadata lookup without download
    lookup: string -> Metadata,
    // download and mp3 extraction of a URL under an output template; false when it raised
    download: (string, string) -> bool,
    // speech-to-text of the file at a path; None when the call raised or gave no text
    whisper: string -> Option<string>,
    // the token ids the configured encoding gives for a string; None when it raised
    encode: string -> Option<seq<nat>>,
    // content of the first completion; None when the call raised
    chat: ChatRequest -> Option<string>,
    // os.remove of a path; false when it raised
    remove: string -> bool)

  /** Process-wide settings read once at start-up (app.py:20-21). */
  datatype Config = Config(model: string, systemMessage: string)

  /** Transcriptions of more tokens than this are not summarised. */
  const TokenLimit := 7000

  const PromptPrefix := "Can you summarize the following text?\n\n"
  const NoTranscriptionSummary := "No transcription available to summarize."
  const SummaryFailed := "Could not summarize the transcription due to an error."
  const TooLong := "The transcription is too long to be summarized."
  const NoTranscriptionTokens := "No transcription available to check tokens."
  const CouldNotFetch := "Could not fetch the video title."

  /** One invocation of a collaborator, in the order the request makes them. */
  datatype Call =
    | Lookup(url: string)
    | Download(url: string, template: string)
    | Transcribe(path: string)
    | Remove(path: string)
    | CountTokens(text: string)
    | Chat(request: ChatRequest)

  /** `num_tokens` is either a count or a placeholder text. */
  datatype TokenField = Count(n: nat) | Note(text: string)

  /** The rendered page, or the server error an exception escaping `index` becomes. */
  datatype Response = Page(url: string, numTokens: TokenField, summary: string) | ServerError

  /** What a step yields, the calls it made and the scratch directory afterwards. */
  datatype Outcome<T> = Outcome(value: T, calls: seq<Call>, files: set<string>)

  /** Python truthiness of `str | None`. */
  predicate Truthy(t: Option<string>) {
    t.Some? && t.value != ""
  }

  /** The request sent to summarise a transcription (app.py:101-107). */
  function SummaryRequest(cfg: Config, transcription: string): ChatRequest {
    ChatRequest(cfg.model, [Message("system", cfg.systemMessage),
                            Message("user", PromptPrefix + transcription)])
  }

  /** `num_tokens_from_string` (app.py:124): the length of the encoding, or None when encoding raised. */
  function NumTokens(svc: Services, s: string): (n: Option<nat>)
    ensures n.Some? <==> svc.encode(s).Some?
    ensures n.Some? ==> n.value == |svc.encode(s).value|
  {
    match svc.encode(s)
    case Some(ids) => Some(|ids|)
    case None => None
  }

  /** `download_video` (app.py:47-70): the safe title, or None when an exception escapes. */
  function DownloadOutcome(svc: Services, url: string, files: set<string>): Outcome<Option<string>> {
    match svc.lookup(url)
    case LookupFailed => Outcome(None, [Lookup(url)], files)
    // iterating over a missing title raises at app.py:52
    case Untitled => Outcome(None, [Lookup(url)], files)
    case Titled(title) =>
      var safe := SafeTitle(title);
      var calls := [Lookup(url), Download(url, OutputTemplate(safe))];
      if svc.download(url, OutputTemplate(safe)) then Outcome(Some(safe), calls, files + {AudioPath(safe)})
      else Outcome(None, calls, files)
  }

  /** `transcribe_audio` (app.py:81-88): the text, or None when opening or the service failed. */
  function TranscribeOutcome(svc: Services, path: string, files: set<string>): Outcome<Option<string>> {
    Outcome(if path in files then svc.whisper(path) else None, [Transcribe(path)], files)
  }

  /** `delete_file` (app.py:32-36): the scratch directory after the removal; a failure changes nothing. */
  function RemoveOutcome(svc: Services, path: string, files: set<string>): set<string> {
    if svc.remove(path) then files - {path} else files
  }

  /** `summarize_transcription` (app.py:99-113). */
  function SummarizeOutcome(svc: Services, cfg: Config, transcription: Option<string>,
                            files: set<string>): Outcome<string>
  {
    if Truthy(transcription) then
      var request := SummaryRequest(cfg, transcription.value);
      var summary := match svc.chat(request)
        case Some(content) => content
        case None => SummaryFailed;
      Outcome(summary, [Chat(request)], files)
    else
      Outcome(NoTranscriptionSummary, [], files)
  }

  /** The POST branch of `index` (app.py:133-158). */
  function IndexOutcome(svc: Services, cfg: Config, url: string, files: set<string>): Outcome<Response> {
    var fetched := DownloadOutcome(svc, url, files);
    match fetched.value
    case None => Outcome(ServerError, fetched.calls, fetched.files)
    case Some(safe) =>
      if safe == "" then
        Outcome(Page(url, Note(CouldNotFetch), CouldNotFetch), fetched.calls, fetched.files)
      else
        var path := AudioPath(safe);
        var heard := TranscribeOutcome(svc, path, fetched.files);
        var calls := fetched.calls + heard.calls + [Remove(path)];
        var left := RemoveOutcome(svc, path, heard.files);
        if Truthy(heard.value) then
          var text := heard.value.value;
          var counted := calls + [CountTokens(text)];
          match NumTokens(svc, text)
          // the encoder's exception is not caught in `index`
          case None => Outcome(ServerError, counted, left)
          case Some(n) =>
            if n <= TokenLimit then
              var summed := SummarizeOutcome(svc, cfg, heard.value, left);
              Outcome(Page(url, Count(n), summed.value), counted + summed.calls, summed.files)
            else
              Outcome(Page(url, Count(n), TooLong), counted, left)
        else
          Outcome(Page(url, Note(NoTranscriptionTokens), NoTranscriptionSummary), calls, left)
  }

  /** The application: its collaborators, its scratch directory and the trace of calls. */
  class Server {
    const svc: Services
    const cfg: Config
    var files: set<string>
    ghost var calls: seq<Call>

    constructor (svc: Services, cfg: Config, files: set<string>)
      ensures this.svc == svc && this.cfg == cfg
      ensures this.files == files && calls == []
    {
      this.svc := svc;
      this.cfg := cfg;
      this.files := files;
      calls := [];
    }

    /** `delete_file` (app.py:32-36): removes the path; a failed removal is swallowed. */
    method DeleteFile(path: string)
      modifies this
      ensures files == RemoveOutcome(svc, path, old(files))
      ensures calls == old(calls) + [Remove(path)]
    {
      calls := calls + [Remove(path)];
      if svc.remove(path) {
        files := files - {path};
      }
    }

    method DownloadVideo(url: string) returns (safe: Option<string>)
      modifies this
      ensures var o := DownloadOutcome(svc, url, old(files));
        safe == o.value && files == o.files && calls == old(calls) + o.calls
    {
      calls := calls + [Lookup(url)];
      var info := svc.lookup(url);
      if !info.Titled? {
        return None;
      }
      var safeTitle := SafeTitle(info.title);
      var template := OutputTemplate(safeTitle);
      calls := calls + [Download(url, template)];
      if !svc.download(url, template) {
        return None;
      }
      files := files + {AudioPath(safeTitle)};
      safe := Some(safeTitle);
    }

    method TranscribeAudio(path: string) returns (transcription: Option<string>)
      modifies this
      ensures var o := TranscribeOutcome(svc, path, old(files));
        transcription == o.value && files == o.files && calls == old(calls) + o.calls
    {
      calls := calls + [Transcribe(path)];
      if path !in files {
        return None;
      }
      transcription := svc.whisper(path);
    }

    method SummarizeTranscription(transcription: Option<string>) returns (summary: string)
      modifies this
      ensures var o := SummarizeOutcome(svc, cfg, transcription, old(files));
        summary == o.value && files == o.files && calls == old(calls) + o.calls
    {
      if !Truthy(transcription) {
        return NoTranscriptionSummary;
      }
      var request := SummaryRequest(cfg, transcription.value);
      calls := calls + [Chat(request)];
      var completion := svc.chat(request);
      if completion.Some? {
        summary := completion.value;
      } else {
        summary := SummaryFailed;
      }
    }

    /** Handles one submitted URL. */
    method Index(url: string) returns (response: Response)
      modifies this
      ensures var o := IndexOutcome(svc, cfg, url, old(files));
        response == o.value && files == o.files && calls == old(calls) + o.calls
    {
      var fetched := DownloadVideo(url);
      if fetched.None? {
        return ServerError;
      }
      var safe := fetched.value;
      var numTokens: TokenField;
      var summary: string;
      if safe != "" {
        var path := AudioPath(safe);
        var transcription := TranscribeAudio(path);
        DeleteFile(path);
        if Truthy(transcription) {
          calls := calls + [CountTokens(transcription.value)];
          var counted := NumTokens(svc, transcription.value);
          if counted.None? {
            return ServerError;
          }
          var n := counted.value;
          numTokens := Count(n);
          if n <= TokenLimit {
            summary := SummarizeTranscription(transcription);
          } else {
            summary := TooLong;
          }
        } else {
          numTokens := Note(NoTranscriptionTokens);
          summary := NoTranscriptionSummary;
        }
      } else {
        numTokens := Note(CouldNotFetch);
        summary := CouldNotFetch;
      }
      response := Page(url, numTokens, summary);
    }
  }
}
