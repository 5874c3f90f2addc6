/** The current request handler, cmd/GeneratePoemFunction/main.go: answer
    "poem for artwork X" from the poem table, or fetch the artwork, have the
    model write a poem, store it under the artwork's own identity and return it. */
module GeneratePoem {
  import opened Outcomes
  import Strconv
  import opened Poems

  // ---------------------------------------------------------------- prompt

  const DocumentOpen := "<document>"
  const DocumentClose := "</document>\n\n"
  const Instruction := "Write a short poem inspired by the artwork described by the <document>"

  /** The prompt: the artwork document between fixed delimiters, then a fixed instruction.
      The document sits verbatim between a fixed prefix and a fixed suffix. */
  function CraftPrompt(doc: string): (prompt: string)
    ensures |prompt| == |DocumentOpen| + |doc| + |DocumentClose| + |Instruction|
    ensures prompt[..|DocumentOpen|] == DocumentOpen
    ensures prompt[|DocumentOpen|..|DocumentOpen| + |doc|] == doc
    ensures prompt[|DocumentOpen| + |doc|..] == DocumentClose + Instruction
  {
    var document := DocumentOpen + doc + DocumentClose;
    document + Instruction
  }

  /** Recovers the document a prompt was crafted from, if it has the prompt's shape. */
  function ExtractDocument(prompt: string): Option<string>
  {
    var tail := DocumentClose + Instruction;
    if |prompt| >= |DocumentOpen| + |tail| && prompt[..|DocumentOpen|] == DocumentOpen &&
       prompt[|prompt| - |tail|..] == tail
    then Some(prompt[|DocumentOpen|..|prompt| - |tail|])
    else None
  }

  lemma ExtractCraftPrompt(doc: string)
    ensures ExtractDocument(CraftPrompt(doc)) == Some(doc)
  {
  }

  /** The converse: any string from which a document is extracted is that document's prompt. */
  lemma CraftExtractedPrompt(prompt: string, doc: string)
    requires ExtractDocument(prompt) == Some(doc)
    ensures CraftPrompt(doc) == prompt
  {
  }

  /** Different documents give different prompts. */
  lemma CraftPromptInjective(a: string, b: string)
    requires CraftPrompt(a) == CraftPrompt(b)
    ensures a == b
  {
  }

  // ---------------------------------------------------------------- request pipeline

  /** The artwork as the catalog client returns it: its numeric id, accession number and
      the raw JSON document describing it. */
  datatype Artwork = Artwork(id: Strconv.Int64, accessionNumber: string, json: string)

  /** The JSON body (`omitempty` on every field). */
  datatype Response = Response(poem: string, id: string, accessionNumber: string, error: string)

  /** The API Gateway proxy response. */
  datatype ProxyResponse = ProxyResponse(statusCode: int, body: Response)

  /** A 500 response carrying only the error text. */
  function Failure(message: string): (r: ProxyResponse)
    ensures r.statusCode == 500 && r.body.error == message
    ensures r.body.poem == "" && r.body.id == "" && r.body.accessionNumber == ""
  {
    ProxyResponse(500, Response("", "", "", message))
  }

  /** A 200 response carrying a poem record's three fields. */
  function Success(p: Poem): (r: ProxyResponse)
    ensures r.statusCode == 200 && r.body.error == ""
    ensures r.body.poem == p.poem && r.body.id == p.id && r.body.accessionNumber == p.accessionNumber
  {
    ProxyResponse(200, Response(p.poem, p.id, p.accessionNumber, ""))
  }

  /** A call the handler makes to a collaborator, with its argument. */
  datatype Call =
    | GetPoem(id: string)
    | GetArtwork(id: string)
    | SendPromptToBedrock(prompt: string)
    | PutPoem(poem: Poem)

  /** What the collaborators answer during one request, if they are called:
      the store for the lookup, the catalog, the model, and the store for the write. */
  datatype Answers = Answers(
    lookup: StoreFaults,
    artwork: Result<Artwork, string>,
    generated: Result<string, string>,
    store: StoreFaults)

  /** `request.QueryStringParameters["id"]`: a missing parameter reads as "". */
  function QueryId(query: map<string, string>): string
  {
    if "id" in query then query["id"] else ""
  }

  /** The record a miss persists: the artwork's own id, as `fmt.Sprint` renders it, and
      its accession number, never the caller's raw identifier. */
  function Persisted(art: Artwork, text: string): (p: Poem)
    ensures p.id == Strconv.Itoa(art.id) && p.accessionNumber == art.accessionNumber && p.poem == text
    ensures p.id != "" && Classify(p.id) == PrimaryId(p.id)
  {
    Strconv.AtoiItoa(art.id);
    var p := Zero;
    var p := p.(id := Strconv.Itoa(art.id));
    var p := p.(poem := text);
    p.(accessionNumber := art.accessionNumber)
  }

  /** The Lambda handler. Steps run in the order lookup, fetch, generate, put, and the first
      failure ends the request with a 500 that carries only the error. */
  method Handler(table: PoemTable, query: map<string, string>, o: Answers)
    returns (resp: ProxyResponse, calls: seq<Call>)
    requires table.Valid()
    modifies table
    ensures table.Valid() && table.tableName == old(table.tableName)
    ensures var id := QueryId(query);
            var looked := old(table.Lookup(id, o.lookup));
            // the store lookup fails: nothing else happens
            (looked.Err? ==>
               resp == Failure(looked.error) && calls == [GetPoem(id)] &&
               table.items == old(table.items) && table.order == old(table.order)) &&
            // a hit: the stored record is returned as it is, nothing else happens
            (looked.Ok? && looked.value.id != "" ==>
               resp == Success(looked.value) && calls == [GetPoem(id)] &&
               table.items == old(table.items) && table.order == old(table.order)) &&
            // a miss and the catalog fails: no generation, no write
            (looked.Ok? && looked.value.id == "" && o.artwork.Err? ==>
               resp == Failure(o.artwork.error) && calls == [GetPoem(id), GetArtwork(id)] &&
               table.items == old(table.items) && table.order == old(table.order)) &&
            // a miss and the model fails: nothing is written
            (looked.Ok? && looked.value.id == "" && o.artwork.Ok? && o.generated.Err? ==>
               resp == Failure(o.generated.error) &&
               calls == [GetPoem(id), GetArtwork(id), SendPromptToBedrock(CraftPrompt(o.artwork.value.json))] &&
               table.items == old(table.items) && table.order == old(table.order)) &&
            // a miss that reaches the write: the record comes from the fetched artwork
            (looked.Ok? && looked.value.id == "" && o.artwork.Ok? && o.generated.Ok? ==>
               var p := Persisted(o.artwork.value, o.generated.value);
               calls == [GetPoem(id), GetArtwork(id), SendPromptToBedrock(CraftPrompt(o.artwork.value.json)), PutPoem(p)] &&
               var err := old(table.PutError(o.store));
               // the write fails: a 500 without the poem, table unchanged
               (err.Some? ==> resp == Failure(err.value) &&
                              table.items == old(table.items) && table.order == old(table.order)) &&
               // the write succeeds: the poem is stored and returned with the stored identity
               (err.None? ==> resp == Success(p) && table.items == old(table.items)[p.id := p]))
  {
    var id := QueryId(query);
    calls := [GetPoem(id)];
    var poem := table.GetPoem(id, o.lookup);
    if poem.Err? {
      return Failure(poem.error), calls;
    }
    if poem.value.id != "" {
      return Success(poem.value), calls;
    }
    calls := calls + [GetArtwork(id)];
    if o.artwork.Err? {
      return Failure(o.artwork.error), calls;
    }
    var art := o.artwork.value;
    var prompt := CraftPrompt(art.json);
    calls := calls + [SendPromptToBedrock(prompt)];
    if o.generated.Err? {
      return Failure(o.generated.error), calls;
    }
    var newPoem := o.generated.value;
    var p := Persisted(art, newPoem);
    calls := calls + [PutPoem(p)];
    var err := table.PutPoem(p, o.store);
    if err.Some? {
      return Failure(err.value), calls;
    }
    resp := ProxyResponse(200, Response(newPoem, Strconv.Itoa(art.id), art.accessionNumber, ""));
  }

  /** A stored id as this handler writes it: the `fmt.Sprint` rendering of an `int`. */
  predicate Canonical(key: string)
  {
    Strconv.Atoi(key).Ok? && Strconv.Itoa(Strconv.Atoi(key).value) == key
  }

  /** The handler stores records only under canonical ids, so an id Atoi accepts in another
      spelling of the same number ("+160729", "0160729") never hits: every such request
      whose lookup succeeds fetches the artwork again. */
  lemma NonCanonicalIdMisses(table: PoemTable, id: string, faults: StoreFaults)
    requires table.Valid()
    requires forall k :: k in table.items ==> Canonical(k)
    requires Strconv.Atoi(id).Ok? && !Canonical(id)
    ensures table.Lookup(id, faults).Ok? ==> table.Lookup(id, faults).value.id == ""
  {
  }

  /** Two requests in a row. A successful request makes the next one for the same identity a hit
      that calls nothing but the store lookup: a hit stays a hit, and after a generation the
      artwork's own id (or its accession number, when that takes the index route) finds the
      stored record. */
  method RequestTwice(table: PoemTable, query: map<string, string>, first: Answers, second: Answers)
    returns (r1: ProxyResponse, c1: seq<Call>, r2: ProxyResponse, c2: seq<Call>)
    requires table.Valid() && "" !in table.items
    requires second.lookup == NoFaults
    modifies table
    ensures var id := QueryId(query);
            r1.statusCode == 200 && |c1| == 1 ==> r2 == r1 && c2 == [GetPoem(id)]
    ensures var id := QueryId(query);
            r1.statusCode == 200 && |c1| > 1 && first.artwork.Ok? && id == Strconv.Itoa(first.artwork.value.id) ==>
              r2 == r1 && c2 == [GetPoem(id)]
    ensures var id := QueryId(query);
            r1.statusCode == 200 && |c1| > 1 && first.artwork.Ok? && Classify(id).AccessionNumber? &&
            id == first.artwork.value.accessionNumber ==>
              r2 == r1 && c2 == [GetPoem(id)]
  {
    var id := QueryId(query);
    ghost var before := table.Lookup(id, first.lookup);
    ghost var oldItems := table.items;
    r1, c1 := Handler(table, query, first);
    if r1.statusCode == 200 && |c1| > 1 && first.artwork.Ok? && Classify(id).AccessionNumber? &&
       id == first.artwork.value.accessionNumber {
      var p := Persisted(first.artwork.value, first.generated.value);
      // the first lookup missed; since no stored id is empty, the index found nothing,
      // so no earlier record carried accession number `id`
      assert before.Ok? && before.value.id == "";
      assert before.value == Zero;
      assert forall k :: k in oldItems ==> oldItems[k].accessionNumber != id;
      // now the generated record is the only one carrying it, and the index returns it
      assert table.items == oldItems[p.id := p];
      assert forall k :: k in table.items && table.items[k].accessionNumber == id ==> k == p.id;
      assert p.id in table.items && table.items[p.id].accessionNumber == id;
      var looked := table.Lookup(id, second.lookup);
      assert looked.Ok? && looked.value != Zero;
      assert looked.value == p;
    }
    r2, c2 := Handler(table, query, second);
  }
}
