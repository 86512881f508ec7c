/** Turning a batch of chunks into search documents (`run_preparation`): every chunk's text is
    cut into token parts, all parts of a batch are embedded by one call, and the returned
    vectors are dealt back to their chunks. */
module Embedding {
  import opened Options
  import opened Leases

  /** The tokens of one part. */
  type Part = seq<nat>

  /** A source chunk with its text as the token parts the provider will see. */
  datatype Chunk = Chunk(id: Id, parts: seq<Part>)

  /** The vector a provider returned for an input part. */
  datatype Vector = Vector(part: Part, value: nat)

  /** `embedding` holds the vectors whose weighted mean is stored; keyword search has none. */
  datatype Document = Document(chunk: Id, tokenCount: nat, embedding: Option<seq<Vector>>)

  function Tokens(parts: seq<Part>): nat {
    if parts == [] then 0 else |parts[0]| + Tokens(parts[1..])
  }

  function BatchTokens(batch: seq<Chunk>): nat {
    if batch == [] then 0 else Tokens(batch[0].parts) + BatchTokens(batch[1..])
  }

  /** All parts of a batch, in order: the inputs of one provider call. */
  function Flatten(batch: seq<Chunk>): seq<Part> {
    if batch == [] then [] else batch[0].parts + Flatten(batch[1..])
  }

  ghost predicate Answers(vectors: seq<Vector>, inputs: seq<Part>) {
    |vectors| == |inputs| && forall i | 0 <= i < |vectors| :: vectors[i].part == inputs[i]
  }

  /** A document is built from exactly its own chunk's parts, in order. */
  ghost predicate FromOwnParts(c: Chunk, hybrid: bool, d: Document) {
    && d.chunk == c.id && d.tokenCount == Tokens(c.parts)
    && (if hybrid then d.embedding.Some? && Answers(d.embedding.value, c.parts) else d.embedding.None?)
  }

  /** The documents of a batch: each chunk gets the next |parts| vectors. */
  function Documents(batch: seq<Chunk>, vectors: Option<seq<Vector>>): (docs: seq<Document>)
    requires vectors.Some? ==> |vectors.value| == |Flatten(batch)|
    ensures |docs| == |batch|
  {
    if batch == [] then []
    else
      var n := |batch[0].parts|;
      var own := if vectors.None? then None else Some(vectors.value[..n]);
      var rest := if vectors.None? then None else Some(vectors.value[n..]);
      [Document(batch[0].id, Tokens(batch[0].parts), own)] + Documents(batch[1..], rest)
  }

  /** Every document of a batch belongs to its chunk and carries the vectors of that chunk's
      own parts. */
  lemma {:induction false} DocumentsAreOwn(batch: seq<Chunk>, vectors: Option<seq<Vector>>, k: nat)
    requires k < |batch|
    requires vectors.Some? ==> Answers(vectors.value, Flatten(batch))
    ensures FromOwnParts(batch[k], vectors.Some?, Documents(batch, vectors)[k])
    decreases |batch|
  {
    var parts := batch[0].parts;
    var n := |parts|;
    if vectors.Some? {
      var v, flat := vectors.value, Flatten(batch);
      assert Answers(v[..n], parts) by {
        forall i | 0 <= i < n ensures v[..n][i].part == parts[i] { assert v[i].part == flat[i]; }
      }
      assert Answers(v[n..], Flatten(batch[1..])) by {
        forall i | 0 <= i < |v| - n ensures v[n..][i].part == Flatten(batch[1..])[i] { assert v[n + i].part == flat[n + i]; }
      }
    }
    var rest := if vectors.None? then None else Some(vectors.value[n..]);
    if k > 0 { DocumentsAreOwn(batch[1..], rest, k - 1); }
  }

  function CountAll(docs: seq<Document>): nat {
    if docs == [] then 0 else docs[0].tokenCount + CountAll(docs[1..])
  }

  lemma {:induction false} CountOfBatch(batch: seq<Chunk>, vectors: Option<seq<Vector>>)
    requires vectors.Some? ==> |vectors.value| == |Flatten(batch)|
    ensures CountAll(Documents(batch, vectors)) == BatchTokens(batch)
    decreases |batch|
  {
    if batch != [] {
      var n := |batch[0].parts|;
      var rest := if vectors.None? then None else Some(vectors.value[n..]);
      CountOfBatch(batch[1..], rest);
      assert Documents(batch, vectors)[1..] == Documents(batch[1..], rest);
    }
  }

  lemma {:induction false} CountAppend(a: seq<Document>, b: seq<Document>)
    ensures CountAll(a + b) == CountAll(a) + CountAll(b)
  {
    if a == [] {
      assert a + b == b;
    } else {
      assert (a + b)[1..] == a[1..] + b;
      CountAppend(a[1..], b);
    }
  }

  /** The tokens a provider call is sent are the tokens of the batch's chunks. */
  lemma {:induction false} FlattenKeepsTokens(batch: seq<Chunk>)
    ensures Tokens(Flatten(batch)) == BatchTokens(batch)
  {
    if batch != [] {
      FlattenKeepsTokens(batch[1..]);
      TokensAppend(batch[0].parts, Flatten(batch[1..]));
    }
  }

  lemma {:induction false} TokensAppend(a: seq<Part>, b: seq<Part>)
    ensures Tokens(a + b) == Tokens(a) + Tokens(b)
  {
    if a == [] {
      assert a + b == b;
    } else {
      assert (a + b)[1..] == a[1..] + b;
      TokensAppend(a[1..], b);
    }
  }

  // ---- The loops as written

  method FlattenParts(batch: seq<Chunk>) returns (flat: seq<Part>)
    ensures flat == Flatten(batch)
  {
    flat := [];
    for position := 0 to |batch|
      invariant flat + Flatten(batch[position..]) == Flatten(batch)
    {
      var document := batch[position].parts;
      ghost var before, after := flat, Flatten(batch[position + 1..]);
      assert batch[position..][0] == batch[position] && batch[position..][1..] == batch[position + 1..];
      for i := 0 to |document|
        invariant flat == before + document[..i]
      {
        assert document[..i + 1] == document[..i] + [document[i]];
        flat := flat + [document[i]];
      }
      assert before + (document + after) == (before + document) + after;
    }
  }

  ghost function Rest(response: Option<seq<Vector>>, offset: nat): Option<seq<Vector>>
    requires response.Some? ==> offset <= |response.value|
  {
    if response.None? then None else Some(response.value[offset..])
  }

  /** Deal the response back with a moving offset and build the documents. */
  method BuildDocuments(batch: seq<Chunk>, response: Option<seq<Vector>>) returns (documents: seq<Document>)
    requires response.Some? ==> |response.value| == |Flatten(batch)|
    ensures documents == Documents(batch, response)
  {
    documents := [];
    var offset: nat := 0;
    for position := 0 to |batch|
      invariant response.Some? ==> offset <= |response.value| && |response.value| - offset == |Flatten(batch[position..])|
      invariant documents + Documents(batch[position..], Rest(response, offset)) == Documents(batch, response)
    {
      var document := batch[position].parts;
      assert batch[position..][0] == batch[position] && batch[position..][1..] == batch[position + 1..];
      var vector: Option<seq<Vector>> := None;
      ghost var before := Rest(response, offset);
      if response.Some? {
        vector := Some(response.value[offset..offset + |document|]);
        assert vector.value == before.value[..|document|];
        offset := offset + |document|;
        assert Rest(response, offset).value == before.value[|document|..];
      }
      documents := documents + [Document(batch[position].id, Tokens(document), vector)];
    }
    assert batch[|batch|..] == [];
  }
}
