/** The content-addressed store (`internal/artifacts/store.go`) and the code that
    publishes into it and prunes it, each run on its own. `BlobSafety` interleaves
    them. */
module ContentStore {
  import opened Prelude

  type Time = int
  type Bytes = seq<bv8>
  type Hash = nat
  type TempName = nat
  type RowId = nat

  datatype StoreError = ReadFailed | RenameFailed | InsertFailed

  class Store {
    const hash: Bytes -> Hash
    var files: map<Hash, Bytes> // <hash>.ipa
    var temps: map<TempName, Bytes> // .upload-*
    var nextTemp: TempName

    constructor (hash: Bytes -> Hash)
      ensures Valid() && this.hash == hash && files == map[] && temps == map[]
    {
      this.hash := hash;
      files, temps, nextTemp := map[], map[], 0;
    }

    /** A file's name is the hash of its bytes. */
    ghost predicate Valid()
      reads this
    {
      && (forall h :: h in files ==> hash(files[h]) == h)
      && (forall t :: t in temps ==> t < nextTemp)
    }

    /** `r` is what the reader delivers; None if it fails on the way. */
    method SaveToTemp(r: Option<Bytes>) returns (saved: Result<(Hash, TempName), StoreError>)
      requires Valid()
      modifies this`temps, this`nextTemp
      ensures Valid()
      ensures r.None? ==> saved == Err(ReadFailed) && temps == old(temps)
      ensures r.Some? ==> saved.Ok? && saved.value.0 == hash(r.value)
                          && saved.value.1 !in old(temps) && temps == old(temps)[saved.value.1 := r.value]
    {
      var tmp := nextTemp;
      temps, nextTemp := temps[tmp := []], nextTemp + 1;
      if r.None? {
        temps := temps - {tmp};
        assert temps == old(temps);
        return Err(ReadFailed);
      }
      temps := temps[tmp := r.value];
      return Ok((hash(r.value), tmp));
    }

    method DiscardTemp(tmp: TempName)
      requires Valid()
      modifies this`temps
      ensures Valid() && temps == old(temps) - {tmp}
    {
      temps := temps - {tmp};
    }

    method Publish(sum: Hash, tmp: TempName) returns (created: Result<bool, StoreError>)
      requires Valid() && (tmp in temps ==> hash(temps[tmp]) == sum)
      modifies this`files, this`temps
      ensures Valid()
      ensures sum in old(files) ==> created == Ok(false) && files == old(files) && temps == old(temps) - {tmp}
      ensures sum !in old(files) && tmp in old(temps) ==>
        created == Ok(true) && files == old(files)[sum := old(temps)[tmp]] && temps == old(temps) - {tmp}
      ensures sum !in old(files) && tmp !in old(temps) ==>
          created == Err(RenameFailed) && files == old(files) && temps == old(temps)
    {
      if sum in files {
        temps := temps - {tmp};
        return Ok(false);
      }
      if tmp !in temps { return Err(RenameFailed); }
      files := files[sum := temps[tmp]];
      temps := temps - {tmp};
      return Ok(true);
    }

    method Remove(sum: Hash)
      requires Valid()
      modifies this`files
      ensures Valid() && files == old(files) - {sum}
    {
      files := files - {sum};
    }

    /** Uploading the same bytes twice converges on one file, whatever else is
        stored, as long as no two contents share a hash. */
    method Save(r: Option<Bytes>) returns (sum: Result<Hash, StoreError>)
      requires Valid()
      modifies this`files, this`temps, this`nextTemp
      ensures Valid() && temps == old(temps)
      ensures r.None? ==> sum == Err(ReadFailed) && files == old(files)
      ensures r.Some? ==>
        && sum == Ok(hash(r.value)) && sum.value in files && files.Keys == old(files).Keys + {sum.value}
        && ((forall a, b :: hash(a) == hash(b) ==> a == b) ==> files == old(files)[sum.value := r.value])
    {
      var saved := SaveToTemp(r);
      if saved.Err? { return Err(saved.error); }
      var created := Publish(saved.value.0, saved.value.1);
      assert temps == old(temps);
      if created.Err? { assert false; } // the temp file is there
      return Ok(saved.value.0);
    }
  }

  // ---------------------------------------------------- rows and their files

  datatype SignedRow = SignedRow(hash: Hash, expiry: Option<Time>)

  /** Which files there are, and the committed rows that refer to them. */
  datatype Shelf = Shelf(files: set<Hash>, originals: set<Hash>, signed: map<RowId, SignedRow>)

  /** profile_expiry_at < now() - retention */
  predicate Past(row: SignedRow, cutoff: Time) { row.expiry.Some? && row.expiry.value < cutoff }

  function Doomed(shelf: Shelf, h: Hash, cutoff: Time): set<RowId> {
    set id | id in shelf.signed && shelf.signed[id].hash == h && Past(shelf.signed[id], cutoff)
  }

  predicate Referenced(originals: set<Hash>, signed: map<RowId, SignedRow>, h: Hash) {
    h in originals || exists id :: id in signed && signed[id].hash == h
  }

  /** One turn of the prune loop, uninterrupted. */
  function Pruned(shelf: Shelf, h: Hash, cutoff: Time): Shelf {
    var signed := shelf.signed - Doomed(shelf, h, cutoff);
    Shelf(if Referenced(shelf.originals, signed, h) then shelf.files else shelf.files - {h}, shelf.originals, signed)
  }

  /** The turns up to hash number n, each with its own transaction's now(). */
  function PrunedAll(shelf: Shelf, shas: seq<Hash>, n: nat, clock: nat -> Time, retention: int): Shelf
    requires n <= |shas|
  {
    if n == 0 then shelf
    else Pruned(PrunedAll(shelf, shas, n - 1, clock, retention), shas[n - 1], clock(n - 1) - retention)
  }

  /** SELECT DISTINCT signed_ipa_sha256 of the rows past retention. */
  function Expired(shelf: Shelf, cutoff: Time): set<Hash> {
    set id | id in shelf.signed && Past(shelf.signed[id], cutoff) :: shelf.signed[id].hash
  }

  /** A pass visits exactly the hashes of rows whose recorded expiry is past. */
  lemma ExpiredMeans(shelf: Shelf, cutoff: Time, h: Hash)
    ensures h in Expired(shelf, cutoff) <==>
              exists id, t :: id in shelf.signed && shelf.signed[id] == SignedRow(h, Some(t)) && t < cutoff
  {
    if h in Expired(shelf, cutoff) {
      var id :| id in shelf.signed && Past(shelf.signed[id], cutoff) && shelf.signed[id].hash == h;
      assert shelf.signed[id] == SignedRow(h, Some(shelf.signed[id].expiry.value));
    }
  }

  /** A turn takes exactly the hash's rows whose recorded expiry is past, and the
      hash's file exactly if no original and no remaining row needs it. A row
      without an expiry stays. */
  lemma TurnMeans(shelf: Shelf, h: Hash, cutoff: Time)
    ensures var after := Pruned(shelf, h, cutoff);
            && after.originals == shelf.originals
            && (forall id :: id in after.signed <==>
                  id in shelf.signed
                      && (shelf.signed[id].hash == h ==>
                            shelf.signed[id].expiry == None || shelf.signed[id].expiry.value >= cutoff))
            && (forall id :: id in after.signed ==> after.signed[id] == shelf.signed[id])
            && after.files ==
                 if h in shelf.originals || exists id :: id in after.signed && after.signed[id].hash == h
                 then shelf.files else shelf.files - {h}
  {
  }

  class Keeper {
    const store: Store
    var originals: set<Hash>
    var signed: map<RowId, SignedRow>
    var nextRow: RowId

    constructor (store: Store)
      ensures this.store == store && originals == {} && signed == map[] && nextRow == 0
    {
      this.store := store;
      originals, signed, nextRow := {}, map[], 0;
    }

    function Kept(): Shelf
      reads this, store
    {
      Shelf(store.files.Keys, originals, signed)
    }

    /** The body of handleUploadArtifact under the lock; `inserts` says whether the
        INSERT succeeds. */
    method UploadOriginal(sum: Hash, tmp: TempName, inserts: bool) returns (existing: Result<bool, StoreError>)
      requires store.Valid() && tmp in store.temps && store.hash(store.temps[tmp]) == sum
      modifies this`originals, store`files, store`temps
      ensures store.Valid() && tmp !in store.temps
      ensures existing == if sum in old(originals) then Ok(true) else if inserts then Ok(false) else Err(InsertFailed)
      ensures var files := old(store.files).Keys;
              Kept() == if sum in old(originals) || inserts
                         then Shelf(files + {sum}, old(originals) + {sum}, old(signed))
                         else Shelf(files - {sum}, old(originals), old(signed))
    {
      var found := sum in originals;
      var created := store.Publish(sum, tmp);
      store.DiscardTemp(tmp); // deferred to the return; nothing in between looks at the temp file
      if found { return Ok(true); }
      if !inserts {
        store.Remove(sum);
        return Err(InsertFailed);
      }
      originals := originals + {sum};
      return Ok(false);
    }

    /** The body of the signed upload under the lock; `succeeds` says whether every
        statement after the publication does. */
    method UploadSigned(sum: Hash, tmp: TempName, expiry: Option<Time>, succeeds: bool) returns (row: Option<RowId>)
      requires store.Valid() && tmp in store.temps && store.hash(store.temps[tmp]) == sum
      modifies this`signed, this`nextRow, store`files, store`temps
      ensures store.Valid() && tmp !in store.temps && row.Some? == succeeds
      ensures var files := old(store.files).Keys;
              Kept() == if succeeds
                         then Shelf(files + {sum}, old(originals), old(signed)[old(nextRow) := SignedRow(sum, expiry)])
                         else Shelf(files, old(originals), old(signed))
    {
      var created := store.Publish(sum, tmp);
      store.DiscardTemp(tmp);
      if !succeeds {
        if created == Ok(true) { store.Remove(sum); }
        assert store.files.Keys == old(store.files).Keys;
        return None;
      }
      signed := signed[nextRow := SignedRow(sum, expiry)];
      row := Some(nextRow);
      nextRow := nextRow + 1;
    }

    /** One transaction of the prune loop: how many rows it deleted. */
    method PruneHash(sha: Hash, cutoff: Time) returns (deleted: nat)
      requires store.Valid()
      modifies this`signed, store`files
      ensures store.Valid() && Kept() == Pruned(old(Kept()), sha, cutoff)
      ensures deleted + |signed| == |old(signed)|
    {
      var doomed := Doomed(Kept(), sha, cutoff);
      SizeWithout(signed, doomed);
      signed := signed - doomed;
      deleted := |doomed|;
      if !Referenced(originals, signed, sha) && sha in store.files {
        store.Remove(sha);
      }
    }

    /** PruneSignedArtifacts with nobody interfering. `retention` is in seconds;
        `clock(k)` is now() of the k-th transaction. */
    method PruneSignedArtifacts(retention: int, now: Time, clock: nat -> Time)
      returns (pruned: nat, ghost shas: seq<Hash>)
      requires store.Valid()
      modifies this`signed, store`files
      ensures store.Valid()
      ensures retention == 0 ==> pruned == 0 && Kept() == old(Kept())
      ensures retention != 0 ==>
        && Elements(shas) == Expired(old(Kept()), now - retention)
        && (forall i, j :: 0 <= i < j < |shas| ==> shas[i] != shas[j])
        && Kept() == PrunedAll(old(Kept()), shas, |shas|, clock, retention)
        && pruned == |old(signed)| - |signed|
    {
      hide Pruned, Expired, Ascending;
      pruned, shas := 0, [];
      if retention == 0 { return; }
      var rows := Ascending(Expired(Kept(), now - retention)); // any order will do
      shas := rows;
      ghost var before := Kept();
      var i := 0;
      while i < |rows|
        invariant 0 <= i <= |rows| && store.Valid()
        invariant Kept() == PrunedAll(before, rows, i, clock, retention)
        invariant pruned + |signed| == |old(signed)|
      {
        var n := PruneHash(rows[i], clock(i) - retention);
        pruned := pruned + n;
        i := i + 1;
      }
    }
  }

  lemma SizeWithout(m: map<RowId, SignedRow>, gone: set<RowId>)
    requires gone <= m.Keys
    ensures |m - gone| + |gone| == |m|
  {
    assert m.Keys == (m - gone).Keys + gone;
    assert |m| == |m.Keys| && |m - gone| == |(m - gone).Keys|;
  }

  /** What one pass comes to, read off the shelf before it, when all its
      transactions see the same time: exactly the rows past retention go, and
      exactly the files they named that no other row names. */
  lemma {:induction false} PassRemoves(shelf: Shelf, shas: seq<Hash>, n: nat, clock: nat -> Time, retention: int,
                                       now: Time)
    requires n <= |shas| && forall k :: clock(k) == now
    ensures var after, done, cutoff := PrunedAll(shelf, shas, n, clock, retention), Elements(shas[..n]),
        now - retention;
            && after.originals == shelf.originals
            && after.signed == (map id | id in shelf.signed
                && !(shelf.signed[id].hash in done && shelf.signed[id].expiry.Some?
                     && shelf.signed[id].expiry.value < cutoff)
                                  :: shelf.signed[id])
            && after.files == set h | h in shelf.files
                && (h in done ==> h in shelf.originals || exists id :: id in after.signed && after.signed[id].hash == h)
  {
    if n > 0 {
      PassRemoves(shelf, shas, n - 1, clock, retention, now);
      var h, before := shas[n - 1], PrunedAll(shelf, shas, n - 1, clock, retention);
      var after := PrunedAll(shelf, shas, n, clock, retention);
      assert shas[..n] == shas[..n - 1] + [h];
      OtherReferences(before, h, now - retention);
    }
  }

  lemma OtherReferences(shelf: Shelf, h: Hash, cutoff: Time)
    ensures forall x :: x != h ==>
      (Referenced(shelf.originals, Pruned(shelf, h, cutoff).signed, x) <==>
         Referenced(shelf.originals, shelf.signed, x))
  {
    var after := Pruned(shelf, h, cutoff);
    forall x | x != h && Referenced(shelf.originals, shelf.signed, x)
      ensures Referenced(shelf.originals, after.signed, x)
    {
      if x !in shelf.originals {
        var y :| y in shelf.signed && shelf.signed[y].hash == x;
        assert y in after.signed;
      }
    }
  }
}
