/** The poem store of poems/poems.go: a DynamoDB table keyed by `id` with a
    secondary index `AccessionNumberIndex` on `accession_number`. */
module Poems {
  import opened Outcomes
  import Strconv

  /** A stored record: attributes `id`, `accession_number` and `poem`. */
  datatype Poem = Poem(id: string, accessionNumber: string, poem: string)

  /** Go's zero `Poem`, what a read yields when nothing was found; callers treat
      an empty `id` as a miss. */
  const Zero := Poem("", "", "")

  /** The route `GetPoem` takes for a caller's identifier. */
  datatype LookupKey = PrimaryId(key: string) | AccessionNumber(number: string)

  const ConfigPrefix := "unable to load AWS config: "
  const TableNameNotSet := "POEMS_TABLE_NAME not set"

  function ClientError(detail: string): string { "could not get dynamodb client " + ConfigPrefix + detail }
  function RequestError(detail: string): string { "error talking to the database: " + detail }
  function ListDecodeError(detail: string): string { "error unmarshalling poems from the database " + detail }
  function ItemDecodeError(detail: string): string { "error unmarshalling poem from database: " + detail }
  function WriteError(detail: string): string { "could not write poem to the database " + detail }

  /** Routing of `GetPoem`: `accessionNumber` is set to `id` only when Atoi rejects it, and
      the index is used only when `accessionNumber` is non-empty. So every identifier Atoi
      accepts, and also the empty one (which Atoi rejects), goes to the primary key. */
  function Classify(id: string): (k: LookupKey)
    ensures k.PrimaryId? <==> Strconv.Accepts(id) || id == ""
    ensures k.PrimaryId? ==> k.key == id
    ensures k.AccessionNumber? ==> k.number == id && id != ""
  {
    Strconv.AtoiAccepts(id);
    var accessionNumber := if Strconv.Atoi(id).Err? then id else "";
    if accessionNumber != "" then AccessionNumber(accessionNumber) else PrimaryId(id)
  }

  /** An artwork id takes the primary-key route, an accession number the index route. */
  lemma RoutingExamples()
    ensures Classify("160729") == PrimaryId("160729")
    ensures Classify("1916.1018") == AccessionNumber("1916.1018")
    ensures Classify("") == PrimaryId("")
  {
  }

  /** The records the index returns for `number`, in the index's order `keys`. */
  function IndexQuery(items: map<string, Poem>, keys: seq<string>, number: string): seq<Poem>
    requires forall i :: 0 <= i < |keys| ==> keys[i] in items
  {
    if keys == [] then []
    else
      var head := items[keys[0]];
      (if head.accessionNumber == number then [head] else []) + IndexQuery(items, keys[1..], number)
  }

  /** The index query finds nothing exactly when no listed record carries `number`, and
      otherwise its first result is the earliest listed record that does. */
  lemma {:induction false} IndexQueryFirst(items: map<string, Poem>, keys: seq<string>, number: string)
    requires forall i :: 0 <= i < |keys| ==> keys[i] in items
    ensures IndexQuery(items, keys, number) == [] <==>
            forall i :: 0 <= i < |keys| ==> items[keys[i]].accessionNumber != number
    ensures IndexQuery(items, keys, number) != [] ==>
            exists j :: 0 <= j < |keys| && IndexQuery(items, keys, number)[0] == items[keys[j]] &&
                        items[keys[j]].accessionNumber == number &&
                        forall i :: 0 <= i < j ==> items[keys[i]].accessionNumber != number
  {
    if keys != [] {
      IndexQueryFirst(items, keys[1..], number);
      if items[keys[0]].accessionNumber != number && IndexQuery(items, keys, number) != [] {
        var j :| 0 <= j < |keys[1..]| && IndexQuery(items, keys[1..], number)[0] == items[keys[1..][j]] &&
                 items[keys[1..][j]].accessionNumber == number &&
                 forall i :: 0 <= i < j ==> items[keys[1..][i]].accessionNumber != number;
        assert forall i :: 0 <= i < j + 1 ==> items[keys[i]].accessionNumber != number by {
          forall i | 0 <= i < j + 1 ensures items[keys[i]].accessionNumber != number {
            if i > 0 { assert keys[i] == keys[1..][i - 1]; }
          }
        }
        assert keys[j + 1] == keys[1..][j];
      }
      if items[keys[0]].accessionNumber != number && IndexQuery(items, keys, number) == [] {
        forall i | 0 <= i < |keys| ensures items[keys[i]].accessionNumber != number {
          if i > 0 { assert keys[i] == keys[1..][i - 1]; }
        }
      }
    }
  }

  /** The table named by POEMS_TABLE_NAME. */
  class PoemTable {
    /** Value of POEMS_TABLE_NAME; `""` when it is unset (os.Getenv does not tell the two apart). */
    var tableName: string
    /** Records by primary key. */
    var items: map<string, Poem>
    /** The order in which the index returns records; DynamoDB does not specify it,
        so the model only requires it to list every key once. */
    var order: seq<string>

    ghost predicate Valid()
      reads this
    {
      (forall k :: k in items ==> items[k].id == k) &&
      (forall i :: 0 <= i < |order| ==> order[i] in items) &&
      (forall k :: k in items ==> k in order) &&
      (forall i, j :: 0 <= i < j < |order| ==> order[i] != order[j])
    }

    constructor (tableName: string)
      ensures Valid() && this.tableName == tableName && items == map[] && order == []
    {
      this.tableName := tableName;
      items := map[];
      order := [];
    }

    /** What `GetPoem(id)` returns against the current table, given what its collaborators answer. */
    function Lookup(id: string, faults: StoreFaults): (r: Result<Poem, string>)
      reads this
      requires Valid()
      ensures faults.client.Some? ==> r == Err(ClientError(faults.client.value))
      ensures faults.client.None? && tableName == "" ==> r == Err(TableNameNotSet)
      ensures r.Ok? <==> faults == NoFaults && tableName != ""
      // the primary route reads exactly key `id`; an absent key yields the zero Poem
      ensures r.Ok? && Classify(id).PrimaryId? ==>
                (id in items ==> r.value == items[id]) && (id !in items ==> r.value == Zero)
      // the index route yields the first record (in index order) carrying accession number `id`
      ensures r.Ok? && Classify(id).AccessionNumber? ==>
                (r.value == Zero <==> forall k :: k in items ==> items[k].accessionNumber != id) &&
                (r.value != Zero ==>
                   r.value.accessionNumber == id &&
                   exists j :: 0 <= j < |order| && items[order[j]] == r.value &&
                               forall i :: 0 <= i < j ==> items[order[i]].accessionNumber != id)
      // whatever counts as a hit is a stored record
      ensures r.Ok? && r.value.id != "" ==> r.value.id in items && items[r.value.id] == r.value
    {
      if faults.client.Some? then Err(ClientError(faults.client.value))
      else if tableName == "" then Err(TableNameNotSet)
      else if faults.request.Some? then Err(RequestError(faults.request.value))
      else
        match Classify(id)
        case AccessionNumber(number) =>
          if faults.decode.Some? then Err(ListDecodeError(faults.decode.value))
          else
            var found := IndexQuery(items, order, number);
            IndexQueryFirst(items, order, number);
            Ok(if |found| > 0 then found[0] else Zero)
        case PrimaryId(key) =>
          if faults.decode.Some? then Err(ItemDecodeError(faults.decode.value))
          else Ok(if key in items then items[key] else Zero)
    }

    /** poems.GetPoem: a read-only lookup, routed by the shape of `id`. */
    method GetPoem(id: string, faults: StoreFaults) returns (r: Result<Poem, string>)
      requires Valid()
      ensures r == Lookup(id, faults)
    {
      if faults.client.Some? {
        return Err(ClientError(faults.client.value));
      }
      var accessionNumber := "";
      if Strconv.Atoi(id).Err? {
        accessionNumber := id;
      }
      if tableName == "" {
        return Err(TableNameNotSet);
      }
      var item := Zero;
      if accessionNumber != "" {
        if faults.request.Some? {
          return Err(RequestError(faults.request.value));
        }
        var found := IndexQuery(items, order, accessionNumber);
        if faults.decode.Some? {
          return Err(ListDecodeError(faults.decode.value));
        }
        if |found| > 0 {
          item := found[0];
        }
      } else {
        if faults.request.Some? {
          return Err(RequestError(faults.request.value));
        }
        var stored := if id in items then items[id] else Zero;
        if faults.decode.Some? {
          return Err(ItemDecodeError(faults.decode.value));
        }
        item := stored;
      }
      return Ok(item);
    }

    /** The error `PutPoem` reports, if any: a missing table name is caught before any
        table access, a client failure before that. */
    function PutError(faults: StoreFaults): (err: Option<string>)
      reads this
      ensures err.None? <==> faults.client.None? && tableName != "" && faults.request.None?
      ensures faults.client.Some? ==> err == Some(ClientError(faults.client.value))
      ensures faults.client.None? && tableName == "" ==> err == Some(TableNameNotSet)
    {
      if faults.client.Some? then Some(ClientError(faults.client.value))
      else if tableName == "" then Some(TableNameNotSet)
      else if faults.request.Some? then Some(WriteError(faults.request.value))
      else None
    }

    /** poems.PutPoem: an unconditional PutItem of the three attributes, which inserts a new
        record or replaces the one stored under the same `id`. */
    method PutPoem(poem: Poem, faults: StoreFaults) returns (err: Option<string>)
      requires Valid()
      modifies this
      ensures Valid() && tableName == old(tableName)
      ensures err == old(PutError(faults))
      ensures err.None? ==> items == old(items)[poem.id := poem]
      ensures err.Some? ==> items == old(items) && order == old(order)
    {
      err := PutError(faults);
      if err.None? {
        var record := Poem(poem.id, poem.accessionNumber, poem.poem);
        if record.id !in items {
          order := order + [record.id];
        }
        items := items[record.id := record];
      }
    }
  }

  /** A put followed by a primary-key get of the same id returns an equal Poem,
      and a later put for the same id replaces the earlier one. */
  method PutThenGet(table: PoemTable, poem: Poem, later: Poem, faults: StoreFaults)
    returns (first: Result<Poem, string>, second: Result<Poem, string>)
    requires table.Valid() && table.tableName != "" && faults == NoFaults
    requires Strconv.Accepts(poem.id) && later.id == poem.id
    modifies table
    ensures first == Ok(poem) && second == Ok(later)
  {
    var err := table.PutPoem(poem, faults);
    first := table.GetPoem(poem.id, faults);
    err := table.PutPoem(later, faults);
    second := table.GetPoem(poem.id, faults);
  }
}
