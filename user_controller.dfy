/** The users router of RAG/routers/users/user_controller.py: the single-slot
    chain store, pipeline start-up, the language fallbacks, the query handler
    `use_chain` and the counsel-history `save_chat`.

    The language detector (`langdetect.detect`), the translator
    (`GoogleTranslator(source='auto', target='ko').translate`) and a chain's
    `invoke` are oracles given as parameters: `None` or `Failure` stands for the
    exception they raise. */
module UserRoutes {
  import opened Wrappers
  import opened RagCorpus
  import opened HistoryFiles

  /** The process-wide slot holding the pipeline built at start-up, if any. */
  class ChainStore {
    var chain: Option<Chain>

    constructor ()
      ensures chain == None
    {
      chain := None;
    }

    /** `set_chain`: replaces whatever the slot held. */
    method SetChain(c: Chain)
      modifies this
      ensures chain == Some(c)
    {
      chain := Some(c);
    }

    /** `get_chain`: the current pipeline, or `None` before start-up has stored one. */
    function GetChain(): Option<Chain>
      reads this
    {
      chain
    }
  }

  const Korean := "ko"
  const DefaultLanguage := "en"
  const DatasetPath := "log.json"
  const RewritePrefix := "Rewrite the following in English: "

  /** What the handler answers: the model's text, or a JSON body with a status code. */
  datatype Reply = Answer(text: string) | JsonReply(status: int, message: string)

  const ChainNotFound := JsonReply(404, "Chain not found")

  /** `detect_language(text)`: the detector's verdict, or English when it raises. */
  function DetectLanguage(text: string, detect: string -> Option<string>): (lang: string)
    ensures detect(text).Some? ==> lang == detect(text).value
    ensures detect(text).None? ==> lang == DefaultLanguage
  {
    match detect(text)
    case Some(l) => l
    case None => DefaultLanguage
  }

  /** `translate_to_korean(text)`. The text comes back changed only when the
      detector names a language other than Korean and the translator succeeds,
      and then it is the translator's output; in every other case, including a
      failing detector or translator, it is the original text. */
  function TranslateToKorean(text: string, detect: string -> Option<string>, translate: string -> Option<string>): (r: string)
    ensures r != text ==> detect(text).Some? && detect(text).value != Korean && translate(text) == Some(r)
    ensures detect(text).Some? && detect(text).value != Korean && translate(text).Some? ==> r == translate(text).value
  {
    match detect(text)
    case None => text
    case Some(lang) =>
      if lang != Korean then
        match translate(text)
        case Some(translated) => translated
        case None => text
      else text
  }

  /** `ChainStart()`: builds the pipeline from `log.json` and stores it. When
      create_chain raises, the store is left as it was. */
  method ChainStart(
    store: ChainStore,
    load: string -> Result<seq<Entry>, string>,
    split: (SplitterConfig, seq<Document>) -> seq<Document>,
    index: seq<Document> -> Outcome<string>)
    returns (r: Result<Chain, ChainError>)
    modifies store
    ensures r.Success? ==> store.chain == Some(r.value)
    ensures r.Failure? ==> store.chain == old(store.chain)
    ensures r.Success? <==>
      load(DatasetPath).Success? && Units(load(DatasetPath).value) != []
      && split(TextSplitter, Units(load(DatasetPath).value)) != []
      && index(split(TextSplitter, Units(load(DatasetPath).value))).Pass?
    ensures r.Success? ==> r.value == Chain(split(TextSplitter, Units(load(DatasetPath).value)), Pipeline)
  {
    ghost var stages;
    r, stages := CreateChain(DatasetPath, load, split, index);
    if r.Success? {
      store.SetChain(r.value);
    }
  }

  /** A chain's answer as the handler's reply; a raised exception stays a failure. */
  function AsReply(answer: Result<string, string>): Result<Reply, string> {
    match answer
    case Success(text) => Success(Answer(text))
    case Failure(e) => Failure(e)
  }

  /** `use_chain(payload, store)`. The prompts the chain is invoked with are
      reported, in order, in `prompts`. Without a chain the reply is the 404 and
      the chain is never invoked; a Korean query is answered by one invocation on
      the query itself; any other query, including one the detector fails on, is
      answered by invoking the chain on its Korean translation and then once more
      to rewrite that answer in English. A failing invocation ends the request. */
  method UseChain(
    store: ChainStore,
    query: string,
    detect: string -> Option<string>,
    translate: string -> Option<string>,
    invoke: (Chain, string) -> Result<string, string>)
    returns (reply: Result<Reply, string>, ghost prompts: seq<string>)
    ensures reply == Success(ChainNotFound) <==> store.chain.None?
    ensures store.chain.None? ==> prompts == []
    ensures store.chain.Some? && DetectLanguage(query, detect) == Korean ==>
      prompts == [query] && reply == AsReply(invoke(store.chain.value, query))
    ensures store.chain.Some? && DetectLanguage(query, detect) != Korean ==>
      var c := store.chain.value;
      var question := TranslateToKorean(query, detect, translate);
      match invoke(c, question)
      case Failure(e) => prompts == [question] && reply == Failure(e)
      case Success(answer) =>
        prompts == [question, RewritePrefix + answer] && reply == AsReply(invoke(c, RewritePrefix + answer))
    ensures store.chain.Some? && detect(query).None? ==> |prompts| >= 1 && prompts[0] == query
    ensures reply.Success? && reply.value.Answer? ==>
      store.chain.Some? && |prompts| > 0 && invoke(store.chain.value, prompts[|prompts| - 1]) == Success(reply.value.text)
  {
    var chain := store.GetChain();
    var lang := DetectLanguage(query, detect);
    prompts := [];
    if chain.Some? {
      if lang != Korean {
        var translatedQuestion := TranslateToKorean(query, detect, translate);
        prompts := prompts + [translatedQuestion];
        var answer := invoke(chain.value, translatedQuestion);
        if answer.Failure? {
          return Failure(answer.error), prompts;
        }
        var rewrite := RewritePrefix + answer.value;
        prompts := prompts + [rewrite];
        reply := AsReply(invoke(chain.value, rewrite));
      } else {
        prompts := prompts + [query];
        reply := AsReply(invoke(chain.value, query));
      }
    } else {
      reply := Success(ChainNotFound);
    }
  }

  /** A message of the counsel-history request body. */
  datatype CounselMessage = CounselMessage(dialogueSetNumber: string, customerQuestion: string, counselorAnswer: string)

  /** One saved record; its fields are written under the JSON keys
      `대화셋일련번호`, `고객질문` and `상담사답변`. */
  datatype CounselRecord = CounselRecord(dialogueSetNumber: string, customerQuestion: string, counselorAnswer: string)

  const SavedMessage := "Masked chat history saved successfully"

  /** `save_chat(chat_history)`: one record per message, in order, each field
      copied unchanged. The clock reading enters as `timestamp`; the file write is
      returned as `written`. */
  method SaveChat(messages: seq<CounselMessage>, timestamp: string)
    returns (written: Written<CounselRecord>, response: SaveResponse)
    ensures written.path == FilePath(timestamp)
    ensures |written.records| == |messages|
    ensures forall i :: 0 <= i < |messages| ==>
      && written.records[i].dialogueSetNumber == messages[i].dialogueSetNumber
      && written.records[i].customerQuestion == messages[i].customerQuestion
      && written.records[i].counselorAnswer == messages[i].counselorAnswer
    ensures response == SaveResponse(SavedMessage, FileName(timestamp))
  {
    var filename := FilePrefix + timestamp + FileSuffix;
    var filepath := SaveDir + "/" + filename;
    var maskedMessages: seq<CounselRecord> := [];
    for i := 0 to |messages|
      invariant |maskedMessages| == i
      invariant forall k :: 0 <= k < i ==>
        && maskedMessages[k].dialogueSetNumber == messages[k].dialogueSetNumber
        && maskedMessages[k].customerQuestion == messages[k].customerQuestion
        && maskedMessages[k].counselorAnswer == messages[k].counselorAnswer
    {
      var message := messages[i];
      var maskedMessage := CounselRecord(message.dialogueSetNumber, message.customerQuestion, message.counselorAnswer);
      maskedMessages := maskedMessages + [maskedMessage];
    }
    written := Written(filepath, maskedMessages);
    response := SaveResponse(SavedMessage, filename);
  }
}
