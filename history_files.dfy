/** The naming of chat-history files, shared by the save_chat handlers of
    RAG/main.py and RAG/routers/users/user_controller.py. The timestamp is the
    already formatted `datetime.now().strftime("%Y%m%d_%H%M%S")`. */
module HistoryFiles {

  const SaveDir := "chat_histories"
  const FilePrefix := "chat_history_"
  const FileSuffix := ".json"

  /** `f"chat_history_{timestamp}.json"`: the timestamp stands between the fixed
      prefix and suffix, so it can be read back from the name. */
  function FileName(timestamp: string): (name: string)
    ensures |name| == |FilePrefix| + |timestamp| + |FileSuffix|
    ensures name[..|FilePrefix|] == FilePrefix
    ensures name[|FilePrefix|..|name| - |FileSuffix|] == timestamp
    ensures name[|name| - |FileSuffix|..] == FileSuffix
  {
    FilePrefix + timestamp + FileSuffix
  }

  /** The timestamp a history file name carries. */
  function TimestampOf(name: string): string
    requires |name| >= |FilePrefix| + |FileSuffix|
  {
    name[|FilePrefix|..|name| - |FileSuffix|]
  }

  /** A history file name determines its timestamp, so two saves with different
      timestamps never share a file. */
  lemma FileNameRoundTrip(timestamp: string)
    ensures TimestampOf(FileName(timestamp)) == timestamp
  {
  }

  lemma FileNameInjective(a: string, b: string)
    ensures FileName(a) == FileName(b) <==> a == b
  {
    if FileName(a) == FileName(b) {
      FileNameRoundTrip(a);
      FileNameRoundTrip(b);
    }
  }

  /** `os.path.join(save_dir, filename)` on a POSIX system. */
  function FilePath(timestamp: string): string {
    SaveDir + "/" + FileName(timestamp)
  }

  /** The file a save writes: its path and the records `json.dump` serialises, in order. */
  datatype Written<R> = Written(path: string, records: seq<R>)

  /** The JSON body a save returns. */
  datatype SaveResponse = SaveResponse(message: string, file: string)
}
