# go-generate-poems: a Dafny model of the poem pipeline

The system answers "give me a poem for artwork X" in an AWS Lambda handler. It
looks the identifier up in a DynamoDB poem table. On a hit it returns the
stored poem. On a miss it fetches the artwork from the Cleveland Museum of
Art's open-access API, wraps the artwork document in a fixed prompt, asks a
Bedrock model for a poem, writes the poem to the table and returns it. The
first failure ends the request with a 500 response that carries only an
error message.

The repository has two handler variants, and both are modelled:

- **current** (`cmd/GeneratePoemFunction/main.go` with `poems/poems.go`): the
  identifier is routed by its syntax. Anything Go's `strconv.Atoi` accepts,
  and also the empty string, is read by primary key. Any other identifier is
  looked up in the `AccessionNumberIndex`, and the first match wins. A miss is
  stored under the fetched artwork's own id (`fmt.Sprint(art.Id)`) and its
  accession number. Because the record is stored under the canonical
  rendering of the artwork's id, an id `Atoi` accepts in another spelling
  (`"0160729"` or `"+160729"` for artwork 160729) never hits
  (`NonCanonicalIdMisses`). Every such request whose lookup succeeds fetches
  the artwork again. When the fetch, the generation and the write also
  succeed, it overwrites the poem stored under `"160729"`. So caching does not
  make such requests idempotent.
- **earlier** (`src/GeneratePoemFunction/main.go`): primary-key reads only,
  a Human/Assistant prompt, and the poem is stored under the caller's raw
  identifier.

Modules:

- `Outcomes` (outcomes.dfy): `Option`, `Result`, and `StoreFaults`, which is
  what the AWS client, the DynamoDB request and the unmarshalling answer in
  one store operation.
- `Strconv` (strconv.dfy): `Atoi` as `ParseInt(s, 10, 0)`/`ParseUint`
  compute it (bitSize 0 means 64 on the platforms modelled), and `Itoa`, the decimal form `fmt.Sprint` gives an `int`.
  These are proved against a reference grammar: an optional sign, then
  decimal digits, within 64-bit range.
- `Poems` (poems.dfy): the `Poem` record, identifier routing, the index
  query, and the `PoemTable` class. Its fields are the table name
  (`POEMS_TABLE_NAME`, where `""` means unset), the records by key, and the
  index order. Its methods are `GetPoem` and `PutPoem`.
- `GeneratePoem` (generate_poem.dfy): the current `CraftPrompt` and `handler`.
- `LegacyGeneratePoem` (legacy_generate_poem.dfy): the earlier variant's
  `CraftPrompt`, `GetPoem`, `PutPoem` and `handler`, with its own
  two-field table.

The collaborators are parameters, because the model cannot call them: the
artwork fetch, the model call, and each store call's client, request and
decode stages. Each one is an `Answers`/`StoreFaults` value saying what that
collaborator returns if it is called. Each handler returns the list of
collaborator calls it made, so the contracts can state which steps ran, in
what order and with which arguments.

On four points where a reader might expect otherwise, the model follows the code:

- A failed write ends the request with a 500 and the generated poem is dropped.
  The poem is not returned.
- `PutPoem` overwrites unconditionally. No create-if-absent check exists.
- The earlier variant's hit returns only the poem text, without the id or the
  accession number.
- The empty identifier goes to the primary-key path with key `""`, even though
  `Atoi` rejects it.

## Model

| member | source | states |
|---|---|---|
| `Strconv.AccumulateCorrect` | poems/poems.go:68 | the digit loop of `ParseUint` succeeds exactly on digit strings whose value fits 64 unsigned bits, and yields that value |
| `Strconv.AtoiAccepts` | poems/poems.go:68 | `Atoi` succeeds exactly on an optional sign followed by one or more ASCII digits whose value fits a 64-bit `int`, and returns that value |
| `Strconv.AtoiItoa` | cmd/GeneratePoemFunction/main.go:159 | every `fmt.Sprint` of an `int` is non-empty and is read back by `Atoi` as the same number |
| `Strconv.FormatNatDigits` | cmd/GeneratePoemFunction/main.go:159 | the decimal rendering of a natural number is a non-empty digit string whose value is that number |
| `Poems.Classify` | poems/poems.go:66-89 | the primary-key route is taken exactly when `Atoi` accepts the id or the id is empty, and always with the id verbatim; any other id takes the index route with the id verbatim as the key |
| `Poems.IndexQueryFirst` | poems/poems.go:101-107 | the index query is empty exactly when no listed record has the accession number; otherwise its first element is the earliest listed record that has it |
| `Poems.PoemTable.Lookup` | poems/poems.go:59-126 | a client failure, then a missing table name, are reported before any table access; the read succeeds exactly when no stage fails and the table name is set; the primary route returns the record stored under `id` or the zero `Poem`; the index route returns the first matching record in index order, or the zero `Poem` exactly when none matches; any hit is a stored record |
| `Poems.PoemTable.GetPoem` | poems/poems.go:59-126 | the imperative lookup (client, Atoi routing, table name, query or get, decode) returns exactly `Lookup` |
| `Poems.PoemTable.PutError` | poems/poems.go:31-57 | a write fails exactly when the client fails, the table name is missing or PutItem fails, and the first two are reported first |
| `Poems.PoemTable.PutPoem` | poems/poems.go:44-51 | a successful write inserts or replaces the record under `poem.id` with exactly the three fields; a failed one changes nothing; the table invariant is kept |
| `Poems.PoemTable.constructor` | poems/poems.go:39-42 | a table starts empty under the configured name |
| `Poems.PutThenGet` | poems/poems.go:44-51 | a put followed by a primary get of that id returns an equal `Poem`, and a later put for the same id replaces it |
| `GeneratePoem.CraftPrompt` | cmd/GeneratePoemFunction/main.go:24-31 | the prompt is `<document>`, then the document verbatim, then `</document>\n\n` and the fixed instruction |
| `GeneratePoem.ExtractCraftPrompt` | cmd/GeneratePoemFunction/main.go:24-31 | the document is recovered from its prompt |
| `GeneratePoem.CraftExtractedPrompt` | cmd/GeneratePoemFunction/main.go:24-31 | any string a document is recovered from is that document's prompt |
| `GeneratePoem.CraftPromptInjective` | cmd/GeneratePoemFunction/main.go:24-31 | different documents give different prompts |
| `GeneratePoem.Persisted` | cmd/GeneratePoemFunction/main.go:158-161 | the record written on a miss has the artwork's `fmt.Sprint` id, the artwork's accession number and the generated text; its id is non-empty and takes the primary route |
| `GeneratePoem.Handler` | cmd/GeneratePoemFunction/main.go:92-188 | (responses built by `Failure`, status 500 with only `Error` set, and `Success`, status 200 with the record's poem, id and accession number) a lookup error gives a 500 with only the error and calls nothing else; a hit gives a 200 with the stored record and calls nothing else; on a miss, a fetch failure stops before generation and a generation failure stops before the write; a write failure gives a 500 without the poem and leaves the table unchanged; success stores exactly the artwork-derived record and returns its poem, id and accession number; at most one call of each kind is made, in the order lookup, fetch, generate, put |
| `GeneratePoem.RequestTwice` | cmd/GeneratePoemFunction/main.go:97-124 | after a successful request, a second request under the stored identity calls only the lookup; a hit repeats the same response; after a generation, the artwork's own id gives the same response, and so does its accession number when that takes the index route, because the generated record is then the only one carrying it |
| `GeneratePoem.NonCanonicalIdMisses` | cmd/GeneratePoemFunction/main.go:159 | when every stored id is a `fmt.Sprint` rendering, an id that `Atoi` accepts in another spelling of the number never hits |
| `LegacyGeneratePoem.CraftPrompt` | src/GeneratePoemFunction/main.go:44-51 | the prompt is `\n\nHuman: <document>`, then the document verbatim, then `</document>\n\n`, the instruction and `\n\nAssistant:` |
| `LegacyGeneratePoem.ExtractCraftPrompt` | src/GeneratePoemFunction/main.go:44-51 | the document is recovered from its prompt |
| `LegacyGeneratePoem.CraftExtractedPrompt` | src/GeneratePoemFunction/main.go:44-51 | any string a document is recovered from is that document's prompt |
| `LegacyGeneratePoem.PoemTable.Lookup` | src/GeneratePoemFunction/main.go:81-114 | config failure, then a missing table name, are reported first; the read succeeds exactly when no stage fails; it always reads the caller's raw id as the primary key; a hit is a record stored under exactly that id |
| `LegacyGeneratePoem.PoemTable.GetPoem` | src/GeneratePoemFunction/main.go:81-114 | the imperative lookup returns exactly `Lookup` |
| `LegacyGeneratePoem.PoemTable.PutError` | src/GeneratePoemFunction/main.go:53-79 | a write fails exactly when config loading fails, the table name is missing or PutItem fails |
| `LegacyGeneratePoem.PoemTable.PutPoem` | src/GeneratePoemFunction/main.go:67-73 | a successful write inserts or replaces the two-field record under `poem.id`; a failed one changes nothing |
| `LegacyGeneratePoem.Handler` | src/GeneratePoemFunction/main.go:166-259 | (responses built by `Failure`, status 500 with the error and an empty poem, and `Success`, status 200 with the poem and an empty error) failures short-circuit in the order lookup, fetch, generate, put, each with a 500 and no later call; a hit returns only the stored text; success stores the poem under the caller's raw id and returns the text; a write failure returns a 500 without the poem |
| `LegacyGeneratePoem.RequestTwice` | src/GeneratePoemFunction/main.go:172-196 | after a success, a second request with the same non-empty id repeats the response and calls only the lookup; the empty id never hits, so every request for it that gets past the lookup fetches again |

## Left out

- Artwork fetch (`clevelandart.GetArtwork`, and the external package the current handler imports): HTTP I/O. Its outcome is a parameter (`Answers.artwork`).
- `SendPromptToBedrock` in both variants: it depends on the Bedrock SDK, JSON marshalling and floating-point sampling parameters. It is an abstract generator outcome that is called with the crafted prompt. The panic on an empty content list is not modelled.
- AWS configuration loading, `getClient`, the DynamoDB SDK and attribute-value (un)marshalling are abstract `StoreFaults` stages. The model does not decide whether DynamoDB rejects a request, for example an empty key string. That decision is part of the request stage's outcome.
- The text of collaborator errors is an opaque detail string. The model keeps only the fixed prefixes the code wraps around it.
- JSON encoding of responses, API Gateway event types, `lambda.Start` and `fmt.Println` logging are left out. A response is a status code and the response struct's fields.
- Concurrent requests for the same id, and the last-writer-wins race between them, are concurrency. No code handles them.
- The index's result order is not specified by DynamoDB. The model keeps it as the `order` field, which is constrained only to list every key once, and `PutPoem` does not promise where a new key goes.
- `Strconv.Atoi`: its fast path for short strings is not modelled separately. It accepts the same strings with the same values. Only success or failure affects routing, so a syntax error and a range error are not distinguished where Go reports one instead of the other.
- Go strings and the earlier variant's `[]byte` document are modelled as Dafny strings. The conversion `string(doc)` is the identity.
- PutPoem: a failed write is *assumed* to change nothing. A timeout or transport error can be reported after DynamoDB has committed the item, and the model does not capture that case.
- Handler: assumes that a failed write changed nothing, as for PutPoem, and that its lookup sees every earlier successful write, as for the reads below.
- PutThenGet: reads are modelled as strongly consistent. `GetItem` is called without `ConsistentRead` and so is eventually consistent, so a get right after a put may still see the old record or none.
- RequestTwice: relies on the same strongly consistent reads. The primary `GetItem` is eventually consistent, and queries on the `AccessionNumberIndex` global secondary index are always eventually consistent, so the second request may briefly miss and generate again.
