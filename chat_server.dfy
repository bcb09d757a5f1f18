/** The `/api/save_chat` handler of RAG/main.py: every chat message becomes a
    question or an answer record of one dialogue set named after the save's
    timestamp. */
module ChatServer {
  import opened HistoryFiles

  /** A message of the request body: who sent it and what it says. */
  datatype Message = Message(sender: string, text: string)

  /** One saved turn; its fields are written under the JSON keys
      `대화셋일련번호`, `QA`, `고객질문(요청)` and `답변`. */
  datatype TurnRecord = TurnRecord(dialogueSetNumber: string, qa: string, customerRequest: string, answer: string)

  const UserSender := "user"
  const SavedMessage := "Formatted chat history saved successfully"

  /** `f"B{timestamp}"`: the dialogue-set id shared by all turns of one save. */
  function DialogueSetNumber(timestamp: string): string {
    "B" + timestamp
  }

  /** The record of one message. A user's message is a question ("Q") and
      every other sender's an answer ("A"); the text lands in exactly the field
      of its role and the other is empty, so the text and whether the sender
      was the user can be read back from the record. */
  function FormatTurn(m: Message, dialogueSetNumber: string): (r: TurnRecord)
    ensures r.dialogueSetNumber == dialogueSetNumber
    ensures r.qa == "Q" || r.qa == "A"
    ensures r.qa == "Q" <==> m.sender == UserSender
    ensures r.customerRequest == "" || r.answer == ""
    ensures r.customerRequest + r.answer == m.text
    ensures r.qa == "Q" ==> r.answer == ""
    ensures r.qa == "A" ==> r.customerRequest == ""
  {
    var isUser := m.sender == UserSender;
    TurnRecord(
      dialogueSetNumber,
      if isUser then "Q" else "A",
      if isUser then m.text else "",
      if !isUser then m.text else "")
  }

  /** `save_chat(chat_history)`. The clock reading enters as `timestamp`; the
      file write is returned as `written`. */
  method SaveChat(messages: seq<Message>, timestamp: string)
    returns (written: Written<TurnRecord>, response: SaveResponse)
    ensures written.path == FilePath(timestamp)
    ensures |written.records| == |messages|
    ensures forall i :: 0 <= i < |messages| ==>
      written.records[i] == FormatTurn(messages[i], DialogueSetNumber(timestamp))
    ensures forall i :: 0 <= i < |messages| ==> written.records[i].dialogueSetNumber == "B" + timestamp
    ensures response == SaveResponse(SavedMessage, FileName(timestamp))
  {
    var filename := FilePrefix + timestamp + FileSuffix;
    var filepath := SaveDir + "/" + filename;
    var formattedMessages: seq<TurnRecord> := [];
    var dialogueSetNumber := "B" + timestamp;
    for i := 0 to |messages|
      invariant |formattedMessages| == i
      invariant forall k :: 0 <= k < i ==> formattedMessages[k] == FormatTurn(messages[k], dialogueSetNumber)
    {
      var message := messages[i];
      var qa := if message.sender == UserSender then "Q" else "A";
      var formattedMessage := TurnRecord(
        dialogueSetNumber,
        qa,
        if message.sender == UserSender then message.text else "",
        if message.sender != UserSender then message.text else "");
      formattedMessages := formattedMessages + [formattedMessage];
    }
    written := Written(filepath, formattedMessages);
    response := SaveResponse(SavedMessage, filename);
  }
}
