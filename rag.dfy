/** The corpus side of RAG/dependencies/Rag.py: turning dataset records into
    text units (extract_text) and the two guards of pipeline construction
    (create_chain). Loading, splitting, indexing and the language model are
    outside this model and enter only as parameters or as fixed configuration. */
module RagCorpus {
  import opened Wrappers

  /** One record of the JSON dataset. A key that is absent from the record is `None`. */
  datatype Entry = Entry(source: Option<string>, response: Option<string>)

  /** A langchain Document; only its page content is used by this code. */
  datatype Document = Document(pageContent: string)

  /** The characters for which Python's `str.isspace()` holds; these are the
      characters `str.strip()` removes when called without an argument. */
  const Whitespace: seq<char> := [
    ' ', '\t', '\n', '\U{B}', '\U{C}', '\r', '\U{1C}', '\U{1D}', '\U{1E}', '\U{1F}',
    '\U{85}', '\U{A0}', '\U{1680}',
    '\U{2000}', '\U{2001}', '\U{2002}', '\U{2003}', '\U{2004}', '\U{2005}',
    '\U{2006}', '\U{2007}', '\U{2008}', '\U{2009}', '\U{200A}',
    '\U{2028}', '\U{2029}', '\U{202F}', '\U{205F}', '\U{3000}'
  ]

  predicate IsSpace(c: char) {
    OneOf(c, Whitespace)
  }

  /** `c` occurs in `cs`; spelled out recursively so that the verifier only
      looks into the character list where a proof needs it. */
  predicate OneOf(c: char, cs: seq<char>) {
    cs != [] && (cs[0] == c || OneOf(c, cs[1..]))
  }

  /** OneOf is sequence membership. */
  lemma {:induction false} OneOfIsIn(c: char, cs: seq<char>)
    ensures OneOf(c, cs) <==> c in cs
  {
    if cs != [] {
      OneOfIsIn(c, cs[1..]);
      assert c in cs <==> cs[0] == c || c in cs[1..];
    }
  }

  /** Python's `str.lstrip()`: the longest suffix that does not start with whitespace. */
  function TrimStart(s: string): (r: string)
    ensures |r| <= |s| && r == s[|s| - |r|..]
    ensures forall k :: 0 <= k < |s| - |r| ==> IsSpace(s[k])
    ensures r == [] || !IsSpace(r[0])
  {
    if s != [] && IsSpace(s[0]) then TrimStart(s[1..]) else s
  }

  /** Python's `str.rstrip()`: the longest prefix that does not end with whitespace. */
  function TrimEnd(s: string): (r: string)
    ensures |r| <= |s| && r == s[..|r|]
    ensures forall k :: |r| <= k < |s| ==> IsSpace(s[k])
    ensures r == [] || !IsSpace(r[|r| - 1])
  {
    if s != [] && IsSpace(s[|s| - 1]) then TrimEnd(s[..|s| - 1]) else s
  }

  /** Number of whitespace characters `Strip` removes from the front of `s`. */
  function Leading(s: string): nat {
    |s| - |TrimStart(s)|
  }

  /** Python's `str.strip()`: `s` without its leading and trailing whitespace,
      a slice of `s` starting at `Leading(s)` (see StripSpec). */
  function Strip(s: string): (r: string)
    ensures Leading(s) + |r| <= |s| && r == s[Leading(s)..Leading(s) + |r|]
  {
    TrimEnd(TrimStart(s))
  }

  /** What strip() promises: neither end of the result is whitespace,
      everything cut off is whitespace, and the result is empty exactly when
      `s` consists of whitespace only. */
  lemma StripSpec(s: string)
    ensures forall k :: 0 <= k < |s| && (k < Leading(s) || Leading(s) + |Strip(s)| <= k) ==> IsSpace(s[k])
    ensures Strip(s) == [] || (!IsSpace(Strip(s)[0]) && !IsSpace(Strip(s)[|Strip(s)| - 1]))
    ensures Strip(s) == [] <==> forall k :: 0 <= k < |s| ==> IsSpace(s[k])
  {
    StripCutOff(s);
    StripEnds(s);
    if Strip(s) != [] {
      assert s[Leading(s)] == Strip(s)[0];
    }
  }

  /** Everything strip() cuts off, in front or behind, is whitespace. */
  lemma StripCutOff(s: string)
    ensures forall k :: 0 <= k < |s| && (k < Leading(s) || Leading(s) + |Strip(s)| <= k) ==> IsSpace(s[k])
  {
    var t := TrimStart(s);
    var n := |s| - |t|;
    assert Leading(s) == n && Strip(s) == TrimEnd(t);
    TrimEndShifted(s, n);
  }

  /** Whatever TrimEnd cuts off a suffix `s[n..]` is whitespace of `s`. */
  lemma TrimEndShifted(s: string, n: nat)
    requires n <= |s|
    ensures forall k :: n + |TrimEnd(s[n..])| <= k < |s| ==> IsSpace(s[k])
  {
    var t := s[n..];
    var r := TrimEnd(t);
    forall k | n + |r| <= k < |s|
      ensures IsSpace(s[k])
    {
      assert s[k] == t[k - n];
    }
  }

  /** Neither end of a non-empty strip() result is whitespace. */
  lemma StripEnds(s: string)
    ensures Strip(s) == [] || (!IsSpace(Strip(s)[0]) && !IsSpace(Strip(s)[|Strip(s)| - 1]))
  {
    var t := TrimStart(s);
    var r := TrimEnd(t);
    assert r != [] ==> r[0] == t[0];
  }

  /** `entry.get(key, '')`: a missing key reads as the empty string. */
  function Field(value: Option<string>): string {
    value.GetOr("")
  }

  /** The test of extract_text: both fields are non-empty once stripped. */
  predicate Qualifies(e: Entry) {
    Strip(Field(e.source)) != [] && Strip(Field(e.response)) != []
  }

  /** A field that is present and holds at least one non-whitespace character. */
  ghost predicate Visible(value: Option<string>) {
    value.Some? && exists k :: 0 <= k < |value.value| && !IsSpace(value.value[k])
  }

  /** The text unit rendered for a record. */
  function Unit(e: Entry): Document {
    Document("Source: " + Strip(Field(e.source)) + "\nResponse: " + Strip(Field(e.response)))
  }

  /** The text units extract_text produces: one per qualifying record, in order. */
  function Units(dataset: seq<Entry>): (units: seq<Document>)
    ensures |units| <= |dataset|
  {
    if dataset == [] then []
    else
      var last := dataset[|dataset| - 1];
      Units(dataset[..|dataset| - 1]) + (if Qualifies(last) then [Unit(last)] else [])
  }

  /** A record is kept exactly when both its `source` and its `response` are
      present and hold a character other than whitespace. */
  lemma QualifiesIff(e: Entry)
    ensures Qualifies(e) <==> Visible(e.source) && Visible(e.response)
  {
    StripSpec(Field(e.source));
    StripSpec(Field(e.response));
  }

  /** The units of a prefix of the dataset are a prefix of its units. */
  lemma {:induction false} UnitsPrefix(dataset: seq<Entry>, i: nat)
    requires i <= |dataset|
    ensures Units(dataset[..i]) <= Units(dataset)
    decreases |dataset|
  {
    if i < |dataset| {
      var front := dataset[..|dataset| - 1];
      assert front[..i] == dataset[..i];
      UnitsPrefix(front, i);
    } else {
      assert dataset[..i] == dataset;
    }
  }

  /** Every qualifying record yields its own unit, at the position given by the
      number of units produced before it: no qualifying record is dropped. */
  lemma {:induction false} UnitAt(dataset: seq<Entry>, i: nat)
    requires i < |dataset| && Qualifies(dataset[i])
    ensures |Units(dataset[..i])| < |Units(dataset)|
    ensures Units(dataset)[|Units(dataset[..i])|] == Unit(dataset[i])
  {
    var upTo := dataset[..i + 1];
    assert upTo[..|upTo| - 1] == dataset[..i];
    assert Units(upTo) == Units(dataset[..i]) + [Unit(dataset[i])];
    UnitsPrefix(dataset, i + 1);
  }

  /** Every unit comes from a qualifying record, and it is that record's unit;
      `i` is the index of that record. */
  lemma {:induction false} UnitSource(dataset: seq<Entry>, k: nat) returns (i: nat)
    requires k < |Units(dataset)|
    ensures i < |dataset| && Qualifies(dataset[i])
    ensures |Units(dataset[..i])| == k && Units(dataset)[k] == Unit(dataset[i])
    decreases |dataset|
  {
    var front := dataset[..|dataset| - 1];
    var last := dataset[|dataset| - 1];
    assert Units(dataset) == Units(front) + (if Qualifies(last) then [Unit(last)] else []);
    if k < |Units(front)| {
      i := UnitSource(front, k);
      assert front[..i] == dataset[..i];
      assert dataset[i] == front[i];
      assert Units(dataset)[k] == Units(front)[k];
    } else {
      i := |dataset| - 1;
      assert dataset[..i] == front;
      assert Qualifies(last);
    }
  }

  /** Units keep the relative order of their records: an earlier qualifying
      record has a strictly smaller position than any later record's unit. */
  lemma UnitsOrdered(dataset: seq<Entry>, i: nat, j: nat)
    requires i < j < |dataset| && Qualifies(dataset[i]) && Qualifies(dataset[j])
    ensures |Units(dataset[..i])| < |Units(dataset[..j])|
  {
    var upTo := dataset[..j];
    assert upTo[..i] == dataset[..i];
    UnitAt(upTo, i);
  }

  /** extract_text yields nothing exactly when no record qualifies. */
  lemma UnitsEmptyIff(dataset: seq<Entry>)
    ensures Units(dataset) == [] <==> forall i :: 0 <= i < |dataset| ==> !Qualifies(dataset[i])
  {
    if Units(dataset) != [] {
      var i := UnitSource(dataset, 0);
    }
    forall i | 0 <= i < |dataset| && Qualifies(dataset[i])
      ensures Units(dataset) != []
    {
      UnitAt(dataset, i);
    }
  }

  /** The positions of the records extract_text keeps. */
  ghost function QualifyingIndices(dataset: seq<Entry>): set<nat> {
    set i: nat | i < |dataset| && Qualifies(dataset[i])
  }

  /** Appending a record adds its position to the qualifying ones exactly when it qualifies. */
  lemma QualifyingIndicesSnoc(dataset: seq<Entry>)
    requires dataset != []
    ensures var n := |dataset| - 1;
      QualifyingIndices(dataset) == QualifyingIndices(dataset[..n]) + (if Qualifies(dataset[n]) then {n} else {})
  {
    var n := |dataset| - 1;
    var front := dataset[..n];
    var keep := Qualifies(dataset[n]);
    forall i: nat | i < n
      ensures i in QualifyingIndices(dataset) <==> i in QualifyingIndices(front)
    {
      assert front[i] == dataset[i];
    }
    assert n in QualifyingIndices(dataset) <==> keep;
  }

  /** There are exactly as many units as qualifying records. */
  lemma {:induction false} UnitsCount(dataset: seq<Entry>)
    ensures |Units(dataset)| == |QualifyingIndices(dataset)|
    decreases |dataset|
  {
    if dataset == [] {
      assert QualifyingIndices(dataset) == {};
    } else {
      var n := |dataset| - 1;
      UnitsCount(dataset[..n]);
      QualifyingIndicesSnoc(dataset);
      assert n !in QualifyingIndices(dataset[..n]);
    }
  }

  /** `extract_text(dataset)`: a loop appending one unit per qualifying record. */
  method ExtractText(dataset: seq<Entry>) returns (texts: seq<Document>)
    ensures texts == Units(dataset)
  {
    texts := [];
    for i := 0 to |dataset|
      invariant texts == Units(dataset[..i])
    {
      var entry := dataset[i];
      var source := Strip(Field(entry.source));
      var response := Strip(Field(entry.response));
      if source != [] && response != [] {
        texts := texts + [Document("Source: " + source + "\nResponse: " + response)];
      }
      assert dataset[..i + 1][..i] == dataset[..i];
    }
    assert dataset[..|dataset|] == dataset;
  }

  /** The parameters given to RecursiveCharacterTextSplitter. */
  datatype SplitterConfig = SplitterConfig(chunkSize: nat, chunkOverlap: nat, separators: seq<string>)

  const TextSplitter := SplitterConfig(1500, 200, ["Source:", "Response:", "\n", ". ", " ", ""])

  /** The fixed configuration of the retriever, prompt and model that
      create_chain composes over the split segments. */
  datatype PipelineConfig = PipelineConfig(
    retrieverWeights: seq<real>, searchType: string, topK: nat, modelName: string, temperature: real)

  const Pipeline := PipelineConfig([0.3, 0.7], "mmr", 3, "gpt-3.5-turbo", 0.0)

  /** The composed `retriever | prompt | llm | parser` runnable, seen as the
      segments it indexes and the configuration it was built with. */
  datatype Chain = Chain(segments: seq<Document>, config: PipelineConfig)

  const EmptyCorpusMessage := "The dataset does not contain any valid Q&A pairs."
  const EmptySplitMessage := "Text splitting did not produce any valid text segments."

  /** What create_chain raises: the dataset could not be read, one of its two
      `ValueError`s, or the retrievers could not be built over the splits. */
  datatype ChainError = DatasetError(detail: string) | ValueError(message: string) | IndexError(detail: string)

  /** The stages of create_chain, in the order they are reached. */
  datatype Stage = Load(path: string) | Extract | Split | Index

  /** `create_chain(dataset_path)`. `load` stands for load_dataset (a failure is
      an exception from `open` or `json.load`), `split` for the text splitter's
      `split_documents`, and `index` for building the BM25 and FAISS retrievers
      over the splits (FAISS sends them to the embeddings service, which may
      fail). The stages reached are reported in `stages`. */
  method CreateChain(
    datasetPath: string,
    load: string -> Result<seq<Entry>, string>,
    split: (SplitterConfig, seq<Document>) -> seq<Document>,
    index: seq<Document> -> Outcome<string>)
    returns (r: Result<Chain, ChainError>, ghost stages: seq<Stage>)
    ensures match load(datasetPath)
      case Failure(e) => r == Failure(DatasetError(e)) && stages == [Load(datasetPath)]
      case Success(dataset) =>
        var units := Units(dataset);
        if units == [] then
          r == Failure(ValueError(EmptyCorpusMessage)) && stages == [Load(datasetPath), Extract]
        else if split(TextSplitter, units) == [] then
          r == Failure(ValueError(EmptySplitMessage)) && stages == [Load(datasetPath), Extract, Split]
        else
          && stages == [Load(datasetPath), Extract, Split, Index]
          && match index(split(TextSplitter, units))
             case Fail(e) => r == Failure(IndexError(e))
             case Pass => r == Success(Chain(split(TextSplitter, units), Pipeline))
    ensures Split in stages ==> load(datasetPath).Success? && Units(load(datasetPath).value) != []
    ensures Index in stages ==> load(datasetPath).Success? && split(TextSplitter, Units(load(datasetPath).value)) != []
    ensures r.Success? ==> Index in stages && r.value.segments != []
  {
    stages := [Load(datasetPath)];
    var loaded := load(datasetPath);
    if loaded.Failure? {
      return Failure(DatasetError(loaded.error)), stages;
    }
    var dataset := loaded.value;
    stages := [Load(datasetPath), Extract];
    var qaPairs := ExtractText(dataset);
    if qaPairs == [] {
      return Failure(ValueError(EmptyCorpusMessage)), stages;
    }
    stages := [Load(datasetPath), Extract, Split];
    var splits := split(TextSplitter, qaPairs);
    if splits == [] {
      return Failure(ValueError(EmptySplitMessage)), stages;
    }
    stages := [Load(datasetPath), Extract, Split, Index];
    var built := index(splits);
    if built.Fail? {
      return Failure(IndexError(built.error)), stages;
    }
    r := Success(Chain(splits, Pipeline));
  }
}
