/** The bounded streaming reader. */
module BoundedBody {
  import opened Wrappers

  type Bytes = seq<bv8>

  datatype BodyError = ResponseSizeLimit

  function Concat(chunks: seq<Bytes>): Bytes {
    if chunks == [] then [] else Concat(chunks[..|chunks| - 1]) + chunks[|chunks| - 1]
  }

  /** Extend the body chunk by chunk and give up as soon as it exceeds the limit. `read` is the
      number of chunks consumed and `body` what they left in the buffer. */
  method Read(chunks: seq<Bytes>, limit: int) returns (r: Result<Bytes, BodyError>, read: nat, body: Bytes)
    ensures r == if chunks == [] || |Concat(chunks)| <= limit then Ok(Concat(chunks)) else Err(ResponseSizeLimit)
    ensures read <= |chunks| && body == Concat(chunks[..read])
    ensures r.Ok? ==> read == |chunks|
    ensures r.Err? ==> read > 0 && limit < |body| <= (if limit < 0 then 0 else limit) + |chunks[read - 1]|
    ensures r.Err? ==> forall k | 0 < k < read :: |Concat(chunks[..k])| <= limit
  {
    body := [];
    read := 0;
    while read < |chunks|
      invariant read <= |chunks| && body == Concat(chunks[..read])
      invariant forall k | 0 < k <= read :: |Concat(chunks[..k])| <= limit
    {
      assert chunks[..read + 1][..read] == chunks[..read];
      assert read == 0 ==> chunks[..read] == [];
      body := body + chunks[read];
      read := read + 1;
      if |body| > limit {
        GrowsWithPrefix(chunks, read, |chunks|);
        assert chunks[..|chunks|] == chunks;
        return Err(ResponseSizeLimit), read, body;
      }
    }
    assert chunks[..|chunks|] == chunks;
    return Ok(body), read, body;
  }

  /** A longer prefix of the chunks holds no less. */
  lemma {:induction false} GrowsWithPrefix(chunks: seq<Bytes>, j: nat, k: nat)
    requires j <= k <= |chunks|
    ensures |Concat(chunks[..j])| <= |Concat(chunks[..k])|
  {
    if j < k {
      GrowsWithPrefix(chunks, j, k - 1);
      assert chunks[..k][..k - 1] == chunks[..k - 1];
    }
  }

  /** The chunking does not matter to the contents, so not to the outcome of a non-empty stream. */
  lemma {:induction false} ConcatIgnoresChunking(a: seq<Bytes>, b: seq<Bytes>)
    ensures Concat(a + b) == Concat(a) + Concat(b)
  {
    if b == [] {
      assert a + b == a;
    } else {
      assert (a + b)[..|a + b| - 1] == a + b[..|b| - 1];
      ConcatIgnoresChunking(a, b[..|b| - 1]);
    }
  }
}
