/** The earlier handler, src/GeneratePoemFunction/main.go: it carries its own
    two-attribute poem table (primary key only, no accession index), frames the
    prompt as a Human/Assistant dialogue, and stores the poem under the caller's
    raw identifier. */
module LegacyGeneratePoem {
  import opened Outcomes

  // ---------------------------------------------------------------- prompt

  const Opening := "\n\nHuman: "
  const DocumentOpen := "<document>"
  const DocumentClose := "</document>\n\n"
  const Instruction := "Write a short poem inspired by the artwork described by the <document> \n\nAssistant:"

  /** The prompt: the dialogue opening, the artwork bytes (as a string) between document
      delimiters, then the instruction and the assistant turn. The document sits verbatim
      between a fixed prefix and a fixed suffix. */
  function CraftPrompt(doc: string): (prompt: string)
    ensures |prompt| == |Opening + DocumentOpen| + |doc| + |DocumentClose + Instruction|
    ensures prompt[..|Opening + DocumentOpen|] == Opening + DocumentOpen
    ensures prompt[|Opening + DocumentOpen|..|Opening + DocumentOpen| + |doc|] == doc
    ensures prompt[|Opening + DocumentOpen| + |doc|..] == DocumentClose + Instruction
  {
    var document := DocumentOpen + doc + DocumentClose;
    Opening + document + Instruction
  }

  /** Recovers the document a prompt was crafted from, if it has the prompt's shape. */
  function ExtractDocument(prompt: string): Option<string>
  {
    var head := Opening + DocumentOpen;
    var tail := DocumentClose + Instruction;
    if |prompt| >= |head| + |tail| && prompt[..|head|] == head && prompt[|prompt| - |tail|..] == tail
    then Some(prompt[|head|..|prompt| - |tail|])
    else None
  }

  lemma ExtractCraftPrompt(doc: string)
    ensures ExtractDocument(CraftPrompt(doc)) == Some(doc)
  {
  }

  /** The converse: any string from which a document is extracted is that document's prompt. */
  lemma CraftExtractedPrompt(prompt: string, doc: string)
    requires ExtractDocument(prompt) == Some(doc)
    ensures CraftPrompt(doc) == prompt
  {
  }

  // ---------------------------------------------------------------- the poem table

  /** A stored record: attributes `id` and `poem`. */
  datatype Poem = Poem(id: string, poem: string)

  const Zero := Poem("", "")

  const TableNameNotSet := "POEMS_TABLE_NAME not set"

  function ConfigError(detail: string): string { "unable to load AWS config: " + detail }
  function RequestError(detail: string): string { "error talking to the database: " + detail }
  function DecodeError(detail: string): string { "error unmarshalling poem from database: " + detail }
  function WriteError(detail: string): string { "could not write poem to the database " + detail }

  class PoemTable {
    /** Value of POEMS_TABLE_NAME; `""` when it is unset. */
    var tableName: string
    /** Records by primary key. */
    var items: map<string, Poem>

    ghost predicate Valid()
      reads this
    {
      forall k :: k in items ==> items[k].id == k
    }

    constructor (tableName: string)
      ensures Valid() && this.tableName == tableName && items == map[]
    {
      this.tableName := tableName;
      items := map[];
    }

    /** What `GetPoem(id)` returns: always a primary-key read of the raw `id`. */
    function Lookup(id: string, faults: StoreFaults): (r: Result<Poem, string>)
      reads this
      requires Valid()
      ensures faults.client.Some? ==> r == Err(ConfigError(faults.client.value))
      ensures faults.client.None? && tableName == "" ==> r == Err(TableNameNotSet)
      ensures r.Ok? <==> faults == NoFaults && tableName != ""
      ensures r.Ok? && id in items ==> r.value == items[id]
      ensures r.Ok? && id !in items ==> r.value == Zero
      // a hit is a record stored under exactly the caller's id, so "" is never a hit
      ensures r.Ok? && r.value.id != "" ==> r.value.id == id && id in items
    {
      if faults.client.Some? then Err(ConfigError(faults.client.value))
      else if tableName == "" then Err(TableNameNotSet)
      else if faults.request.Some? then Err(RequestError(faults.request.value))
      else if faults.decode.Some? then Err(DecodeError(faults.decode.value))
      else Ok(if id in items then items[id] else Zero)
    }

    /** GetPoem of the earlier handler. */
    method GetPoem(id: string, faults: StoreFaults) returns (r: Result<Poem, string>)
      requires Valid()
      ensures r == Lookup(id, faults)
    {
      if faults.client.Some? {
        return Err(ConfigError(faults.client.value));
      }
      if tableName == "" {
        return Err(TableNameNotSet);
      }
      if faults.request.Some? {
        return Err(RequestError(faults.request.value));
      }
      var stored := if id in items then items[id] else Zero;
      var item := Zero;
      if faults.decode.Some? {
        return Err(DecodeError(faults.decode.value));
      }
      item := stored;
      return Ok(item);
    }

    /** The error `PutPoem` reports, if any. */
    function PutError(faults: StoreFaults): (err: Option<string>)
      reads this
      ensures err.None? <==> faults.client.None? && tableName != "" && faults.request.None?
      ensures faults.client.Some? ==> err == Some(ConfigError(faults.client.value))
      ensures faults.client.None? && tableName == "" ==> err == Some(TableNameNotSet)
    {
      if faults.client.Some? then Some(ConfigError(faults.client.value))
      else if tableName == "" then Some(TableNameNotSet)
      else if faults.request.Some? then Some(WriteError(faults.request.value))
      else None
    }

    /** PutPoem of the earlier handler: an unconditional PutItem of `id` and `poem`. */
    method PutPoem(poem: Poem, faults: StoreFaults) returns (err: Option<string>)
      requires Valid()
      modifies this
      ensures Valid() && tableName == old(tableName)
      ensures err == old(PutError(faults))
      ensures err.None? ==> items == old(items)[poem.id := poem]
      ensures err.Some? ==> items == old(items)
    {
      err := PutError(faults);
      if err.None? {
        items := items[poem.id := Poem(poem.id, poem.poem)];
      }
    }
  }

  // ---------------------------------------------------------------- request pipeline

  /** The JSON body: both fields are always present (no `omitempty`). */
  datatype Response = Response(poem: string, error: string)

  datatype ProxyResponse = ProxyResponse(statusCode: int, body: Response)

  function Failure(message: string): (r: ProxyResponse)
    ensures r.statusCode == 500 && r.body.error == message && r.body.poem == ""
  {
    ProxyResponse(500, Response("", message))
  }

  function Success(text: string): (r: ProxyResponse)
    ensures r.statusCode == 200 && r.body.poem == text && r.body.error == ""
  {
    ProxyResponse(200, Response(text, ""))
  }

  datatype Call =
    | GetPoem(id: string)
    | GetArtwork(id: string)
    | SendPromptToBedrock(prompt: string)
    | PutPoem(poem: Poem)

  /** What the collaborators answer during one request, if they are called. The catalog
      answers with the raw body of the artwork's JSON document. */
  datatype Answers = Answers(
    lookup: StoreFaults,
    artwork: Result<string, string>,
    generated: Result<string, string>,
    store: StoreFaults)

  function QueryId(query: map<string, string>): string
  {
    if "id" in query then query["id"] else ""
  }

  /** The handler of the earlier variant. */
  method Handler(table: PoemTable, query: map<string, string>, o: Answers)
    returns (resp: ProxyResponse, calls: seq<Call>)
    requires table.Valid()
    modifies table
    ensures table.Valid() && table.tableName == old(table.tableName)
    ensures var id := QueryId(query);
            var looked := old(table.Lookup(id, o.lookup));
            (looked.Err? ==>
               resp == Failure(looked.error) && calls == [GetPoem(id)] && table.items == old(table.items)) &&
            // a hit returns only the stored text
            (looked.Ok? && looked.value.id != "" ==>
               resp == Success(looked.value.poem) && calls == [GetPoem(id)] && table.items == old(table.items)) &&
            (looked.Ok? && looked.value.id == "" && o.artwork.Err? ==>
               resp == Failure(o.artwork.error) && calls == [GetPoem(id), GetArtwork(id)] &&
               table.items == old(table.items)) &&
            (looked.Ok? && looked.value.id == "" && o.artwork.Ok? && o.generated.Err? ==>
               resp == Failure(o.generated.error) &&
               calls == [GetPoem(id), GetArtwork(id), SendPromptToBedrock(CraftPrompt(o.artwork.value))] &&
               table.items == old(table.items)) &&
            // the record written is keyed by the caller's raw id
            (looked.Ok? && looked.value.id == "" && o.artwork.Ok? && o.generated.Ok? ==>
               var p := Poem(id, o.generated.value);
               calls == [GetPoem(id), GetArtwork(id), SendPromptToBedrock(CraftPrompt(o.artwork.value)), PutPoem(p)] &&
               var err := old(table.PutError(o.store));
               (err.Some? ==> resp == Failure(err.value) && table.items == old(table.items)) &&
               (err.None? ==> resp == Success(o.generated.value) && table.items == old(table.items)[id := p]))
  {
    var id := QueryId(query);
    calls := [GetPoem(id)];
    var poem := table.GetPoem(id, o.lookup);
    if poem.Err? {
      return Failure(poem.error), calls;
    }
    if poem.value.id != "" {
      return Success(poem.value.poem), calls;
    }
    calls := calls + [GetArtwork(id)];
    if o.artwork.Err? {
      return Failure(o.artwork.error), calls;
    }
    var art := o.artwork.value;
    var prompt := CraftPrompt(art);
    calls := calls + [SendPromptToBedrock(prompt)];
    if o.generated.Err? {
      return Failure(o.generated.error), calls;
    }
    var newPoem := o.generated.value;
    var p := Zero;
    p := p.(id := id);
    p := p.(poem := newPoem);
    calls := calls + [PutPoem(p)];
    var err := table.PutPoem(p, o.store);
    if err.Some? {
      return Failure(err.value), calls;
    }
    resp := Success(newPoem);
  }

  /** Two requests in a row with the same query. After a success, a non-empty id is a hit
      with the same answer and no generation; the empty id is never a hit, so every request
      for it that gets past the lookup fetches and generates again. */
  method RequestTwice(table: PoemTable, query: map<string, string>, first: Answers, second: Answers)
    returns (r1: ProxyResponse, c1: seq<Call>, r2: ProxyResponse, c2: seq<Call>)
    requires table.Valid()
    requires second.lookup == NoFaults
    modifies table
    ensures QueryId(query) != "" && r1.statusCode == 200 ==>
              r2 == r1 && c2 == [GetPoem(QueryId(query))]
    ensures QueryId(query) == "" && table.tableName != "" ==>
              |c2| > 1 && c2[1] == GetArtwork("")
  {
    r1, c1 := Handler(table, query, first);
    r2, c2 := Handler(table, query, second);
  }
}
