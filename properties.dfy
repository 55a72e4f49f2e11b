/**
 * What one request through `index` guarantees: the routing by title,
 * transcription and token count, the fixed texts, the 7000-token budget and
 * the deletion of the scratch file right after transcription.
 */
module Properties {
  import opened Titles
  import opened App

  /** The download of `index` fails: the lookup raised, gave no title, or the download raised. */
  predicate FetchFails(svc: Services, url: string) {
    || svc.lookup(url) == LookupFailed
    || svc.lookup(url) == Untitled
    || (svc.lookup(url).Titled? && !svc.download(url, OutputTemplate(SafeTitle(svc.lookup(url).title))))
  }

  /** The encoder raises on the non-empty transcription of the downloaded file. */
  predicate EncodingFails(svc: Services, url: string) {
    && svc.lookup(url).Titled?
    && var safe := SafeTitle(svc.lookup(url).title);
    && safe != ""
    && svc.download(url, OutputTemplate(safe))
    && Truthy(svc.whisper(AudioPath(safe)))
    && svc.encode(svc.whisper(AudioPath(safe)).value).None?
  }

  /**
   * An exception escapes `index` exactly when the fetch fails or the encoder
   * raises. A failed fetch leaves the scratch directory alone and transcribes
   * nothing; an encoder failure comes after the file was deleted.
   */
  lemma ServerErrorExactlyOnUncaughtFailure(svc: Services, cfg: Config, url: string, files: set<string>)
    ensures var o := IndexOutcome(svc, cfg, url, files);
      o.value == ServerError <==> FetchFails(svc, url) || EncodingFails(svc, url)
    ensures var o := IndexOutcome(svc, cfg, url, files);
      FetchFails(svc, url) ==> o.files == files && forall c | c in o.calls :: c.Lookup? || c.Download?
    ensures var o := IndexOutcome(svc, cfg, url, files);
      EncodingFails(svc, url) ==>
        && |o.calls| == 5
        && o.calls[3] == Remove(AudioPath(SafeTitle(svc.lookup(url).title)))
        && o.calls[4].CountTokens?
  {
  }

  /** A missing title raises: the request never reaches transcription. */
  lemma MissingTitleRaises(svc: Services, cfg: Config, url: string, files: set<string>)
    requires svc.lookup(url) == Untitled
    ensures IndexOutcome(svc, cfg, url, files) == Outcome(ServerError, [Lookup(url)], files)
  {
  }

  /**
   * "Could not fetch" is reported exactly for an empty title whose download
   * succeeded; nothing is transcribed or deleted, so the downloaded file stays.
   */
  lemma CouldNotFetchOnlyForEmptyTitle(svc: Services, cfg: Config, url: string, files: set<string>)
    ensures var o := IndexOutcome(svc, cfg, url, files);
      o.value == Page(url, Note(CouldNotFetch), CouldNotFetch) <==>
        svc.lookup(url) == Titled("") && svc.download(url, OutputTemplate(""))
    ensures var o := IndexOutcome(svc, cfg, url, files);
      o.value == Page(url, Note(CouldNotFetch), CouldNotFetch) ==>
        && o.calls == [Lookup(url), Download(url, OutputTemplate(""))]
        && o.files == files + {AudioPath("")}
  {
  }

  /**
   * For a non-empty title, the file that was downloaded is transcribed and then
   * deleted, once, before anything else happens; it is gone afterwards unless
   * its removal failed. A page is rendered unless the encoder raises.
   */
  lemma TranscribedThenDeletedOnce(svc: Services, cfg: Config, url: string, files: set<string>, title: string)
    requires svc.lookup(url) == Titled(title) && title != ""
    requires svc.download(url, OutputTemplate(SafeTitle(title)))
    ensures var o := IndexOutcome(svc, cfg, url, files);
      var safe := SafeTitle(title);
      && (o.value.Page? <==> !EncodingFails(svc, url))
      && |o.calls| >= 4
      && o.calls[..4] == [Lookup(url), Download(url, OutputTemplate(safe)),
                          Transcribe(AudioPath(safe)), Remove(AudioPath(safe))]
      && (forall i :: 4 <= i < |o.calls| ==> o.calls[i].CountTokens? || o.calls[i].Chat?)
      && o.files == if svc.remove(AudioPath(safe)) then files - {AudioPath(safe)} else files + {AudioPath(safe)}
  {
  }

  /** A missing or empty transcription gives both placeholders; neither the tokenizer nor the chat is called. */
  lemma NoTranscriptionPlaceholders(svc: Services, cfg: Config, url: string, files: set<string>, title: string)
    requires svc.lookup(url) == Titled(title) && title != ""
    requires svc.download(url, OutputTemplate(SafeTitle(title)))
    requires !Truthy(svc.whisper(AudioPath(SafeTitle(title))))
    ensures var o := IndexOutcome(svc, cfg, url, files);
      && o.value == Page(url, Note(NoTranscriptionTokens), NoTranscriptionSummary)
      && forall c | c in o.calls :: !c.CountTokens? && !c.Chat?
  {
  }

  /**
   * Within the budget (at most 7000 tokens), the count is reported and the
   * summary is the chat's content, or the error text when the chat failed.
   */
  lemma WithinBudgetSummarises(svc: Services, cfg: Config, url: string, files: set<string>,
                               title: string, text: string)
    requires svc.lookup(url) == Titled(title) && title != ""
    requires svc.download(url, OutputTemplate(SafeTitle(title)))
    requires svc.whisper(AudioPath(SafeTitle(title))) == Some(text) && text != ""
    requires svc.encode(text).Some? && |svc.encode(text).value| <= TokenLimit
    ensures var o := IndexOutcome(svc, cfg, url, files);
      var chat := svc.chat(SummaryRequest(cfg, text));
      && o.value == Page(url, Count(|svc.encode(text).value|), if chat.Some? then chat.value else SummaryFailed)
      && |o.calls| == 6
      && o.calls[4..] == [CountTokens(text), Chat(SummaryRequest(cfg, text))]
  {
  }

  /** Over the budget, the summary is the fixed "too long" text and the chat is not called. */
  lemma OverBudgetTooLong(svc: Services, cfg: Config, url: string, files: set<string>,
                          title: string, text: string)
    requires svc.lookup(url) == Titled(title) && title != ""
    requires svc.download(url, OutputTemplate(SafeTitle(title)))
    requires svc.whisper(AudioPath(SafeTitle(title))) == Some(text) && text != ""
    requires svc.encode(text).Some? && |svc.encode(text).value| > TokenLimit
    ensures var o := IndexOutcome(svc, cfg, url, files);
      && o.value == Page(url, Count(|svc.encode(text).value|), TooLong)
      && |o.calls| == 5
      && o.calls[4] == CountTokens(text)
      && forall c | c in o.calls :: !c.Chat?
  {
  }

  /**
   * For every request: each transcribed file is deleted by the very next call,
   * and it is absent afterwards exactly when its removal succeeded.
   */
  lemma EveryTranscriptionIsCleanedUp(svc: Services, cfg: Config, url: string, files: set<string>)
    ensures var o := IndexOutcome(svc, cfg, url, files);
      forall i :: 0 <= i < |o.calls| && o.calls[i].Transcribe? ==>
        && i + 1 < |o.calls|
        && o.calls[i + 1] == Remove(o.calls[i].path)
        && (o.calls[i].path !in o.files <==> svc.remove(o.calls[i].path))
  {
  }

  /**
   * `delete_file` swallows its failure: whether the removal succeeds changes
   * neither the response nor the calls that follow.
   */
  lemma DeletionFailureIsSwallowed(svc: Services, cfg: Config, url: string, files: set<string>,
                                   remove: string -> bool)
    ensures var o := IndexOutcome(svc, cfg, url, files);
      var o' := IndexOutcome(svc.(remove := remove), cfg, url, files);
      o.value == o'.value && o.calls == o'.calls
  {
  }

  /**
   * For every request: a reported count is the length of the encoding of the
   * text counted right after the deletion, and an encoder failure on any
   * counted text ends the request in a server error.
   */
  lemma ReportedCountIsEncodingLength(svc: Services, cfg: Config, url: string, files: set<string>)
    ensures var o := IndexOutcome(svc, cfg, url, files);
      o.value.Page? && o.value.numTokens.Count? ==>
        && |o.calls| >= 5
        && o.calls[4].CountTokens?
        && svc.encode(o.calls[4].text).Some?
        && o.value.numTokens.n == |svc.encode(o.calls[4].text).value|
    ensures var o := IndexOutcome(svc, cfg, url, files);
      forall i | 0 <= i < |o.calls| && o.calls[i].CountTokens? && svc.encode(o.calls[i].text).None? ::
        o.value == ServerError
  {
  }

  /** For every request: the chat is called only right after a count within the budget, on that text. */
  lemma ChatOnlyWithinBudget(svc: Services, cfg: Config, url: string, files: set<string>)
    ensures var o := IndexOutcome(svc, cfg, url, files);
      forall i :: 0 <= i < |o.calls| && o.calls[i].Chat? ==>
        && i > 0
        && o.calls[i - 1].CountTokens?
        && NumTokens(svc, o.calls[i - 1].text).Some?
        && NumTokens(svc, o.calls[i - 1].text).value <= TokenLimit
        && o.calls[i].request == SummaryRequest(cfg, o.calls[i - 1].text)
  {
    var o := IndexOutcome(svc, cfg, url, files);
    if svc.lookup(url).Titled? && SafeTitle(svc.lookup(url).title) != ""
       && svc.download(url, OutputTemplate(SafeTitle(svc.lookup(url).title)))
    {
      var safe := SafeTitle(svc.lookup(url).title);
      var path := AudioPath(safe);
      var heard := svc.whisper(path);
      TranscribedCalls(svc, cfg, url, files, safe);
      if Truthy(heard) && NumTokens(svc, heard.value).Some? && NumTokens(svc, heard.value).value <= TokenLimit {
        assert o.calls[5] == Chat(SummaryRequest(cfg, heard.value));
        assert o.calls[4] == CountTokens(heard.value);
      }
      assert forall i :: 0 <= i < |o.calls| && i != 5 ==> !o.calls[i].Chat?;
    } else {
      UntranscribedCalls(svc, cfg, url, files);
    }
  }

  /** The calls of a request that transcribes nothing: only the lookup and the download. */
  lemma UntranscribedCalls(svc: Services, cfg: Config, url: string, files: set<string>)
    requires !(svc.lookup(url).Titled? && SafeTitle(svc.lookup(url).title) != ""
               && svc.download(url, OutputTemplate(SafeTitle(svc.lookup(url).title))))
    ensures var o := IndexOutcome(svc, cfg, url, files);
      o.calls == DownloadOutcome(svc, url, files).calls && |o.calls| <= 2
  {
  }

  /** The calls of a request whose download of a non-empty safe title succeeded. */
  lemma TranscribedCalls(svc: Services, cfg: Config, url: string, files: set<string>, safe: string)
    requires svc.lookup(url).Titled? && safe == SafeTitle(svc.lookup(url).title) && safe != ""
    requires svc.download(url, OutputTemplate(safe))
    ensures var o := IndexOutcome(svc, cfg, url, files);
      var path := AudioPath(safe);
      var heard := svc.whisper(path);
      var cleaned := [Lookup(url), Download(url, OutputTemplate(safe)), Transcribe(path), Remove(path)];
      o.calls == if !Truthy(heard) then cleaned
                 else if NumTokens(svc, heard.value).Some? && NumTokens(svc, heard.value).value <= TokenLimit
                 then cleaned + [CountTokens(heard.value), Chat(SummaryRequest(cfg, heard.value))]
                 else cleaned + [CountTokens(heard.value)]
  {
    assert AudioPath(safe) in DownloadOutcome(svc, url, files).files;
  }

  /**
   * `summarize_transcription` never fails: a falsy input gives the fixed text
   * without calling the chat; otherwise the chat is called once with the
   * configured model, the system message and the transcription verbatim after
   * the prompt, and its content or the error text is returned.
   */
  lemma SummarizeFallbacks(svc: Services, cfg: Config, transcription: Option<string>, files: set<string>)
    ensures var o := SummarizeOutcome(svc, cfg, transcription, files);
      !Truthy(transcription) ==> o.value == NoTranscriptionSummary && o.calls == []
    ensures var o := SummarizeOutcome(svc, cfg, transcription, files);
      Truthy(transcription) ==>
        && |o.calls| == 1 && o.calls[0].Chat?
        && var r := o.calls[0].request;
        && r.model == cfg.model
        && |r.messages| == 2
        && r.messages[0] == Message("system", cfg.systemMessage)
        && r.messages[1].role == "user"
        && r.messages[1].content[..|PromptPrefix|] == PromptPrefix
        && r.messages[1].content[|PromptPrefix|..] == transcription.value
        && o.value == (if svc.chat(r).Some? then svc.chat(r).value else SummaryFailed)
  {
  }
}
