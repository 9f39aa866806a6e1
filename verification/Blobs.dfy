/** app/blobstore.py: the tile bytes in MinIO, under "{job_id}/{kind}/{tile_id}.jpg". */
module Blobs {
  import opened Collections
  import opened JobRecords

  function Decimal(n: nat): (s: string)
    ensures |s| > 0
  {
    var digit := ['0' + (n % 10) as char];
    if n < 10 then digit else Decimal(n / 10) + digit
  }

  /** str() of a Python int. */
  function Str(n: int): string {
    if n < 0 then "-" + Decimal(-n) else Decimal(n)
  }

  function BlobKey(id: JobId, kind: string, t: TileId): string {
    id + "/" + kind + "/" + Str(t) + ".jpg"
  }

  /** The keys list_objects(prefix=f"{job_id}/") reports. */
  predicate UnderJob(key: string, id: JobId) {
    id + "/" <= key
  }

  class BlobStore {
    var objects: map<string, Bytes>

    constructor ()
      ensures objects == map[]
    {
      objects := map[];
    }

    method PutTile(id: JobId, t: TileId, kind: string, data: Bytes) returns (key: string)
      modifies this
      ensures key == BlobKey(id, kind, t)
      ensures objects == old(objects)[key := data]
    {
      key := BlobKey(id, kind, t);
      objects := objects[key := data];
    }

    /** `stuck` are the keys whose removal fails. */
    method DeleteJobTiles(id: JobId, stuck: set<string>) returns (deleted: nat)
      modifies this
      ensures forall k :: k in objects <==> k in old(objects) && (UnderJob(k, id) ==> k in stuck)
      ensures forall k :: k in objects ==> objects[k] == old(objects)[k]
      ensures deleted == |old(objects)| - |objects|
      ensures forall kind, t :: BlobKey(id, kind, t) in objects ==> BlobKey(id, kind, t) in stuck
      ensures '/' !in id ==> forall j, kind, t :: '/' !in j && j != id && BlobKey(j, kind, t) in old(objects) ==>
                BlobKey(j, kind, t) in objects && objects[BlobKey(j, kind, t)] == old(objects)[BlobKey(j, kind, t)]
    {
      var doomed := set k | k in objects && UnderJob(k, id) && k !in stuck;
      assert doomed <= objects.Keys;
      var rest := objects - doomed;
      assert rest.Keys == objects.Keys - doomed;
      assert |objects.Keys| == |doomed| + |objects.Keys - doomed|;
      objects := rest;
      deleted := |doomed|;
      OwnBlobsGo(old(objects), objects, id, stuck);
      if '/' !in id {
        OthersBlobsStay(old(objects), objects, id, stuck);
      }
    }
  }

  lemma PrefixStays(prefix: string, a: string, b: string)
    requires prefix <= a
    ensures prefix <= a + b
  {
  }

  lemma OwnKey(id: JobId, kind: string, t: TileId)
    ensures UnderJob(BlobKey(id, kind, t), id)
  {
    var prefix := id + "/";
    PrefixStays(prefix, prefix, kind);
    PrefixStays(prefix, prefix + kind, "/");
    PrefixStays(prefix, prefix + kind + "/", Str(t));
    PrefixStays(prefix, prefix + kind + "/" + Str(t), ".jpg");
  }

  /** Job ids are UUIDs, so they contain no '/': then the prefix picks out the blobs of one job, all of them. */
  lemma UnderJobExactly(j: JobId, kind: string, t: TileId, id: JobId)
    requires '/' !in j && '/' !in id
    ensures UnderJob(BlobKey(j, kind, t), id) <==> j == id
  {
    var key := BlobKey(j, kind, t);
    OwnKey(j, kind, t);
    UpToSlash(key, j);
    if UnderJob(key, id) {
      UpToSlash(key, id);
      assert |id| == |j|;
    }
  }

  /** The id is what precedes the first '/'. */
  lemma UpToSlash(key: string, id: JobId)
    requires UnderJob(key, id) && '/' !in id
    ensures |id| < |key| && key[|id|] == '/' && key[..|id|] == id
    ensures forall k :: 0 <= k < |id| ==> key[k] != '/'
  {
    var prefix := id + "/";
    assert key[..|prefix|] == prefix;
    assert forall k :: 0 <= k <= |id| ==> key[k] == prefix[k];
  }

  lemma OwnBlobsGo(before: map<string, Bytes>, after: map<string, Bytes>, id: JobId, stuck: set<string>)
    requires forall k :: k in after <==> k in before && (UnderJob(k, id) ==> k in stuck)
    ensures forall kind, t :: BlobKey(id, kind, t) in after ==> BlobKey(id, kind, t) in stuck
  {
    forall kind, t | BlobKey(id, kind, t) in after
      ensures BlobKey(id, kind, t) in stuck
    {
      OwnKey(id, kind, t);
    }
  }

  lemma OthersBlobsStay(before: map<string, Bytes>, after: map<string, Bytes>, id: JobId, stuck: set<string>)
    requires '/' !in id
    requires forall k :: k in after <==> k in before && (UnderJob(k, id) ==> k in stuck)
    requires forall k :: k in after ==> after[k] == before[k]
    ensures forall j, kind, t :: '/' !in j && j != id && BlobKey(j, kind, t) in before ==>
              BlobKey(j, kind, t) in after && after[BlobKey(j, kind, t)] == before[BlobKey(j, kind, t)]
  {
    forall j, kind, t | '/' !in j && j != id && BlobKey(j, kind, t) in before
      ensures BlobKey(j, kind, t) in after && after[BlobKey(j, kind, t)] == before[BlobKey(j, kind, t)]
    {
      UnderJobExactly(j, kind, t, id);
    }
  }

  lemma {:induction false} DecimalInjective(m: nat, n: nat)
    requires Decimal(m) == Decimal(n)
    ensures m == n
  {
    var a, b := Decimal(m), Decimal(n);
    assert a[|a| - 1] == '0' + (m % 10) as char && b[|b| - 1] == '0' + (n % 10) as char;
    assert m % 10 == n % 10;
    if m >= 10 && n >= 10 {
      assert a[..|a| - 1] == Decimal(m / 10) && b[..|b| - 1] == Decimal(n / 10);
      DecimalInjective(m / 10, n / 10);
    }
  }

  /** Digits only, so "-" tells a negative id apart. */
  lemma {:induction false} DecimalDigits(n: nat)
    ensures Decimal(n)[0] != '-'
  {
    if n >= 10 {
      DecimalDigits(n / 10);
    }
  }

  lemma StrInjective(t: int, u: int)
    requires Str(t) == Str(u)
    ensures t == u
  {
    if t < 0 && u < 0 {
      assert Str(t)[1..] == Decimal(-t) && Str(u)[1..] == Decimal(-u);
      DecimalInjective(-t, -u);
    } else if t >= 0 && u >= 0 {
      DecimalInjective(t, u);
    } else if t < 0 {
      DecimalDigits(u);
    } else {
      DecimalDigits(t);
    }
  }

  /** Two tiles of one job never share a blob, so a requeued task cannot pick up another tile's bytes. */
  lemma BlobKeyInjective(id: JobId, kind: string, t: TileId, u: TileId)
    requires BlobKey(id, kind, t) == BlobKey(id, kind, u)
    ensures t == u
  {
    var prefix := id + "/" + kind + "/";
    var a, b := BlobKey(id, kind, t), BlobKey(id, kind, u);
    assert a == prefix + (Str(t) + ".jpg") && b == prefix + (Str(u) + ".jpg");
    assert a[|prefix|..] == Str(t) + ".jpg" && b[|prefix|..] == Str(u) + ".jpg";
    var x, y := Str(t) + ".jpg", Str(u) + ".jpg";
    assert x[..|x| - 4] == Str(t) && y[..|y| - 4] == Str(u);
    StrInjective(t, u);
  }
}
