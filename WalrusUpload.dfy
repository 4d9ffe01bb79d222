/** The Walrus side of the NFT uploader: reading the Walrus CLI's answer to a
    `store` command into one (blobId, endEpoch) pair, and enriching the NFT
    records of one asset directory with the stored images. The CLI run, the
    directory listing and the brains-info file are inputs. */
module WalrusUpload {
  import opened Wrappers
  import opened PyJson

  /** What one run of `walrus json` gives back: its exit status and its
      standard output, already parsed (`None` when the text is not JSON). */
  datatype CliOutput = CliOutput(returnCode: int, stdout: Option<Json>)

  /** The normalised result of a successful store. */
  datatype Stored = Stored(blobId: Json, endEpoch: Json)

  const NewlyCreated := "newlyCreated"
  const AlreadyCertified := "alreadyCertified"

  /** Where the two success shapes keep the blob id and the end epoch. */
  const NewBlobIdPath := [NewlyCreated, "blobObject", "blobId"]
  const NewEndEpochPath := [NewlyCreated, "blobObject", "storage", "endEpoch"]
  const CertifiedBlobIdPath := [AlreadyCertified, "blobId"]
  const CertifiedEndEpochPath := [AlreadyCertified, "endEpoch"]

  /** `upload_file_to_walrus` after the CLI has run: check the exit status,
      parse, and read whichever success shape is present, `newlyCreated`
      first. */
  function StoreResult(out: CliOutput): (r: Result<Stored, PyError>)
    ensures out.returnCode != 0 ==> r == Failure(AssertionError(out.returnCode))
    ensures r.Success? ==> out.returnCode == 0 && out.stdout.Some? && out.stdout.value.JObject?
  {
    if out.returnCode != 0 then Failure(AssertionError(out.returnCode))
    else if out.stdout.None? then Failure(JSONDecodeError)
    else
      var d := out.stdout.value;
      var hasNew :- Contains(d, NewlyCreated);
      if hasNew then
        var created :- GetItem(d, NewlyCreated);
        var blobObject :- GetItem(created, "blobObject");
        var blobId :- GetItem(blobObject, "blobId");
        var storage :- GetItem(blobObject, "storage");
        var endEpoch :- GetItem(storage, "endEpoch");
        Success(Stored(blobId, endEpoch))
      else
        var hasCertified :- Contains(d, AlreadyCertified);
        if hasCertified then
          var certified :- GetItem(d, AlreadyCertified);
          var blobId :- GetItem(certified, "blobId");
          var endEpoch :- GetItem(certified, "endEpoch");
          Success(Stored(blobId, endEpoch))
        else
          Failure(ValueError)
  }

  /** A `newlyCreated` answer read out of a JSON object succeeds exactly when
      both paths exist, and gives the values at those paths. */
  lemma StoreNewlyCreated(fields: map<string, Json>)
    requires NewlyCreated in fields
    ensures var r := StoreResult(CliOutput(0, Some(JObject(fields))));
            var d := JObject(fields);
            && (r.Success? <==> Lookup(d, NewBlobIdPath).Some? && Lookup(d, NewEndEpochPath).Some?)
            && (r.Success? ==> r.value == Stored(Lookup(d, NewBlobIdPath).value, Lookup(d, NewEndEpochPath).value))
  {
    var d, created := JObject(fields), fields[NewlyCreated];
    assert NewBlobIdPath[1..] == ["blobObject", "blobId"];
    assert NewEndEpochPath[1..] == ["blobObject", "storage", "endEpoch"];
    assert Lookup(d, NewBlobIdPath) == Lookup(created, ["blobObject", "blobId"]);
    assert Lookup(d, NewEndEpochPath) == Lookup(created, ["blobObject", "storage", "endEpoch"]);
    if created.JObject? && "blobObject" in created.fields {
      var blobObject := created.fields["blobObject"];
      assert ["blobObject", "storage", "endEpoch"][1..] == ["storage", "endEpoch"];
      assert Lookup(created, ["blobObject", "storage", "endEpoch"]) == Lookup(blobObject, ["storage", "endEpoch"]);
      assert ["blobObject", "blobId"][1..] == ["blobId"];
      assert Lookup(created, ["blobObject", "blobId"]) == Lookup(blobObject, ["blobId"]);
      assert ["blobId"][1..] == [];
      if blobObject.JObject? && "storage" in blobObject.fields {
        assert ["storage", "endEpoch"][1..] == ["endEpoch"];
        assert Lookup(blobObject, ["storage", "endEpoch"]) == Lookup(blobObject.fields["storage"], ["endEpoch"]);
        assert ["endEpoch"][1..] == [];
        var storage := blobObject.fields["storage"];
        assert Lookup(storage, ["endEpoch"]) == if storage.JObject? && "endEpoch" in storage.fields then Some(storage.fields["endEpoch"]) else None;
        assert Lookup(blobObject, ["blobId"]) == if "blobId" in blobObject.fields then Some(blobObject.fields["blobId"]) else None;
      }
    }
  }

  /** Without `newlyCreated`, an `alreadyCertified` answer succeeds exactly
      when both of its fields exist, and gives them. */
  lemma StoreAlreadyCertified(fields: map<string, Json>)
    requires NewlyCreated !in fields && AlreadyCertified in fields
    ensures var r := StoreResult(CliOutput(0, Some(JObject(fields))));
            var d := JObject(fields);
            && (r.Success? <==> Lookup(d, CertifiedBlobIdPath).Some? && Lookup(d, CertifiedEndEpochPath).Some?)
            && (r.Success? ==> r.value == Stored(Lookup(d, CertifiedBlobIdPath).value, Lookup(d, CertifiedEndEpochPath).value))
  {
    var d, certified := JObject(fields), fields[AlreadyCertified];
    assert CertifiedBlobIdPath[1..] == ["blobId"];
    assert CertifiedEndEpochPath[1..] == ["endEpoch"];
    assert Lookup(d, CertifiedBlobIdPath) == Lookup(certified, ["blobId"]);
    assert Lookup(d, CertifiedEndEpochPath) == Lookup(certified, ["endEpoch"]);
    assert ["blobId"][1..] == [] && ["endEpoch"][1..] == [];
    assert Lookup(certified, ["blobId"])
        == if certified.JObject? && "blobId" in certified.fields then Some(certified.fields["blobId"]) else None;
    assert Lookup(certified, ["endEpoch"])
        == if certified.JObject? && "endEpoch" in certified.fields then Some(certified.fields["endEpoch"]) else None;
  }

  /** When both keys are present the `alreadyCertified` part is never read. */
  lemma StoreNewlyCreatedFirst(fields: map<string, Json>, other: Json)
    requires NewlyCreated in fields
    ensures StoreResult(CliOutput(0, Some(JObject(fields[AlreadyCertified := other]))))
         == StoreResult(CliOutput(0, Some(JObject(fields - {AlreadyCertified}))))
  {
  }

  /** An object answer with neither key raises `ValueError`. */
  lemma StoreNeitherShape(fields: map<string, Json>)
    requires NewlyCreated !in fields && AlreadyCertified !in fields
    ensures StoreResult(CliOutput(0, Some(JObject(fields)))) == Failure(ValueError)
  {
  }

  /** The two documented wire shapes, built from their parts. */
  function NewlyCreatedReply(blobId: Json, endEpoch: Json): Json
  {
    JObject(map[NewlyCreated := JObject(map["blobObject" := JObject(map[
      "blobId" := blobId,
      "storage" := JObject(map["endEpoch" := endEpoch])])])])
  }

  function AlreadyCertifiedReply(blobId: Json, endEpoch: Json): Json
  {
    JObject(map[AlreadyCertified := JObject(map["blobId" := blobId, "endEpoch" := endEpoch])])
  }

  /** Reading either shape back gives the pair it was built from. */
  lemma NewlyCreatedRoundTrip(blobId: Json, endEpoch: Json)
    ensures StoreResult(CliOutput(0, Some(NewlyCreatedReply(blobId, endEpoch)))) == Success(Stored(blobId, endEpoch))
  {
  }

  lemma AlreadyCertifiedRoundTrip(blobId: Json, endEpoch: Json)
    ensures StoreResult(CliOutput(0, Some(AlreadyCertifiedReply(blobId, endEpoch)))) == Success(Stored(blobId, endEpoch))
  {
    assert NewlyCreated !in AlreadyCertifiedReply(blobId, endEpoch).fields;
  }

  // ---------------------------------------------------------------------
  // process_directory

  /** One entry of `os.listdir`, with whether `os.path.isfile` holds of it. */
  datatype Entry = Entry(name: string, isFile: bool)

  /** `os.path.join(dir, name)` on POSIX. */
  function PathJoin(dir: string, name: string): string
  {
    if name != [] && name[0] == '/' then name
    else if dir == [] || dir[|dir| - 1] == '/' then dir + name
    else dir + "/" + name
  }

  /** The record appended for the file at listing index `i`: the upload
      result first, then `brain_info[i]`, with `image` and `endEpoch` set. */
  function Enrich(brainInfo: Json, i: nat, upload: Result<Stored, PyError>): Result<Json, PyError>
  {
    var stored :- upload;
    var data :- GetIndex(brainInfo, i);
    var withImage :- SetItem(data, "image", stored.blobId);
    SetItem(withImage, "endEpoch", stored.endEpoch)
  }

  /** An enriched record is the object at index `i` with the two fields set;
      anything else at that index, or a failed upload, raises. */
  lemma EnrichSetsFields(brainInfo: Json, i: nat, upload: Result<Stored, PyError>)
    ensures var r := Enrich(brainInfo, i, upload);
            && (r.Success? <==> upload.Success? && brainInfo.JArray? && i < |brainInfo.items| && brainInfo.items[i].JObject?)
            && (r.Success? ==> r.value == JObject(brainInfo.items[i].fields["image" := upload.value.blobId]["endEpoch" := upload.value.endEpoch]))
            && (upload.Failure? ==> r == Failure(upload.error))
  {
  }

  /** The store result for the listing entry at index `i`. */
  function UploadAt(dir: string, listing: seq<Entry>, walrus: string -> CliOutput, i: nat): Result<Stored, PyError>
    requires i < |listing|
  {
    StoreResult(walrus(PathJoin(dir, listing[i].name)))
  }

  /** The record the loop builds for each listing index, whether or not the
      entry is a regular file (the loop only consults those that are). */
  function Records(brainInfo: Json, dir: string, listing: seq<Entry>, walrus: string -> CliOutput): (r: seq<Result<Json, PyError>>)
    ensures |r| == |listing|
  {
    seq(|listing|, i requires 0 <= i < |listing| => Enrich(brainInfo, i, UploadAt(dir, listing, walrus, i)))
  }

  /** What the loop appends, and the exception it stops with, if any. */
  datatype Walked = Walked(appended: seq<Json>, raised: Option<PyError>)

  /** The loop of `process_directory` from listing index `i` on, given the
      record built for each index; `hasKey` says whether the output dict has
      the collection key. */
  function Walk(hasKey: bool, listing: seq<Entry>, records: seq<Result<Json, PyError>>, i: nat): Walked
    requires |records| == |listing| && i <= |listing|
    decreases |listing| - i
  {
    if i == |listing| then Walked([], None)
    else if !listing[i].isFile then Walk(hasKey, listing, records, i + 1)
    else match records[i]
      case Failure(e) => Walked([], Some(e))
      case Success(record) =>
        if !hasKey then Walked([], Some(KeyError))
        else
          var rest := Walk(hasKey, listing, records, i + 1);
          Walked([record] + rest.appended, rest.raised)
  }

  /** Indices, from `i` on, of the listing entries that are regular files. */
  function FileIndices(listing: seq<Entry>, i: nat): (r: seq<nat>)
    requires i <= |listing|
    ensures forall j :: 0 <= j < |r| ==> i <= r[j] < |listing| && listing[r[j]].isFile
    decreases |listing| - i
  {
    if i == |listing| then []
    else if listing[i].isFile then [i] + FileIndices(listing, i + 1)
    else FileIndices(listing, i + 1)
  }

  /** `FileIndices` lists every regular file from `i` on, and does so in
      increasing order. */
  lemma {:induction false} FileIndicesComplete(listing: seq<Entry>, i: nat)
    requires i <= |listing|
    ensures forall k :: i <= k < |listing| && listing[k].isFile ==> k in FileIndices(listing, i)
    decreases |listing| - i
  {
    if i < |listing| {
      FileIndicesComplete(listing, i + 1);
    }
  }

  lemma {:induction false} FileIndicesIncreasing(listing: seq<Entry>, i: nat)
    requires i <= |listing|
    ensures forall a, b :: 0 <= a < b < |FileIndices(listing, i)| ==> FileIndices(listing, i)[a] < FileIndices(listing, i)[b]
    decreases |listing| - i
  {
    if i < |listing| {
      FileIndicesIncreasing(listing, i + 1);
      var rest := FileIndices(listing, i + 1);
      if listing[i].isFile {
        var r := [i] + rest;
        assert FileIndices(listing, i) == r;
        forall a, b | 0 <= a < b < |r| ensures r[a] < r[b] {
          assert r[b] == rest[b - 1] && i + 1 <= rest[b - 1];
          if a > 0 {
            assert r[a] == rest[a - 1];
          }
        }
      } else {
        assert FileIndices(listing, i) == rest;
      }
    }
  }

  /** The walk raised at the first regular file it did not append: with
      that file's upload or enrichment error, or, once the record was built,
      with `KeyError` for a missing collection key. */
  predicate RaisedBy(hasKey: bool, records: seq<Result<Json, PyError>>, files: seq<nat>, w: Walked)
    requires w.raised.Some? && |w.appended| < |files|
    requires forall j :: 0 <= j < |files| ==> files[j] < |records|
  {
    var e := records[files[|w.appended|]];
    || (e.Failure? && w.raised.value == e.error)
    || (e.Success? && !hasKey && w.raised.value == KeyError)
  }

  /** One record per regular file, in listing order, each the one built for
      that file's own listing index; the loop stops short only by raising,
      and keeps what it appended before. */
  lemma {:induction false} WalkAppendsPerFile(hasKey: bool, listing: seq<Entry>, records: seq<Result<Json, PyError>>, i: nat)
    requires |records| == |listing| && i <= |listing|
    ensures var w := Walk(hasKey, listing, records, i);
            var files := FileIndices(listing, i);
            && |w.appended| <= |files|
            && (w.raised.None? ==> |w.appended| == |files|)
            && (w.appended != [] ==> hasKey)
            && forall j :: 0 <= j < |w.appended| ==> records[files[j]] == Success(w.appended[j])
    decreases |listing| - i
  {
    if i < |listing| {
      WalkAppendsPerFile(hasKey, listing, records, i + 1);
      var rest := Walk(hasKey, listing, records, i + 1);
      var later := FileIndices(listing, i + 1);
      var w := Walk(hasKey, listing, records, i);
      if !listing[i].isFile {
        assert w == rest && FileIndices(listing, i) == later;
      } else {
        var files := [i] + later;
        assert FileIndices(listing, i) == files;
        if records[i].Failure? || !hasKey {
          assert w.appended == [];
        } else {
          assert w == Walked([records[i].value] + rest.appended, rest.raised);
          forall j | 0 <= j < |w.appended|
            ensures records[files[j]] == Success(w.appended[j])
          {
            if j > 0 {
              assert w.appended[j] == rest.appended[j - 1] && files[j] == later[j - 1];
            }
          }
        }
      }
    }
  }

  /** A walk that raises stops short of the regular files, and raises the
      error of the first file it did not append. */
  lemma {:induction false} WalkRaisesAtFirstFailure(hasKey: bool, listing: seq<Entry>, records: seq<Result<Json, PyError>>, i: nat)
    requires |records| == |listing| && i <= |listing|
    ensures var w := Walk(hasKey, listing, records, i);
            w.raised.Some? ==> |w.appended| < |FileIndices(listing, i)|
    ensures var w := Walk(hasKey, listing, records, i);
            w.raised.Some? ==> RaisedBy(hasKey, records, FileIndices(listing, i), w)
    decreases |listing| - i
  {
    if i < |listing| {
      WalkRaisesAtFirstFailure(hasKey, listing, records, i + 1);
      if listing[i].isFile {
        var rest := Walk(hasKey, listing, records, i + 1);
        var later := FileIndices(listing, i + 1);
        assert FileIndices(listing, i) == [i] + later;
        if records[i].Success? && hasKey && rest.raised.Some? {
          var w := Walk(hasKey, listing, records, i);
          assert w == Walked([records[i].value] + rest.appended, rest.raised);
          assert FileIndices(listing, i)[|w.appended|] == later[|rest.appended|];
        }
      }
    }
  }

  /** One pass of the loop body for a regular file: upload it, then enrich
      `brain_info[i]` with the result. */
  method UploadRecord(brainInfo: Json, dir: string, listing: seq<Entry>, walrus: string -> CliOutput, i: nat)
    returns (record: Result<Json, PyError>)
    requires i < |listing|
    ensures record == Records(brainInfo, dir, listing, walrus)[i]
    ensures var upload := UploadAt(dir, listing, walrus, i);
            && (record.Success? <==> upload.Success? && brainInfo.JArray? && i < |brainInfo.items| && brainInfo.items[i].JObject?)
            && (record.Success? ==> record.value == JObject(brainInfo.items[i].fields["image" := upload.value.blobId]["endEpoch" := upload.value.endEpoch]))
            && (upload.Failure? ==> record == Failure(upload.error))
  {
    var stored := StoreResult(walrus(PathJoin(dir, listing[i].name)));
    record := Enrich(brainInfo, i, stored);
    EnrichSetsFields(brainInfo, i, stored);
  }

  /** `items` appended to the list under `key`, when there is one. */
  function AppendTo(c: map<string, seq<Json>>, key: string, items: seq<Json>): map<string, seq<Json>>
  {
    if key in c then c[key := c[key] + items] else c
  }

  /** Appending nothing leaves the dict as it was. */
  lemma AppendToNothing(c: map<string, seq<Json>>, key: string)
    ensures AppendTo(c, key, []) == c
  {
    if key in c {
      assert c[key] + [] == c[key];
    }
  }

  /** Two appends under one key are one append of both lists in order. */
  lemma AppendToTwice(c: map<string, seq<Json>>, key: string, first: seq<Json>, second: seq<Json>)
    ensures AppendTo(AppendTo(c, key, first), key, second) == AppendTo(c, key, first + second)
  {
    if key in c {
      assert c[key] + first + second == c[key] + (first + second);
    }
  }

  /** The output of the script: one list of NFT records per collection key. */
  class NftCatalog {
    var collections: map<string, seq<Json>>

    /** The three empty lists the script starts from. */
    constructor ()
      ensures collections == map["bronzeNFT" := [], "silverNFT" := [], "goldNFT" := []]
    {
      collections := map["bronzeNFT" := [], "silverNFT" := [], "goldNFT" := []];
    }

    /** `process_directory`: look up this collection's records in the
        brains-info document, then upload every regular file of the listing
        and append its enriched record to `collections[nftDataKey]`. Returns
        the exception that ended the call, if any; records appended before it
        stay. */
    method ProcessDirectory(nftDataKey: string, assetsPath: string, brainsInfo: Json,
                            listing: seq<Entry>, walrus: string -> CliOutput)
      returns (raised: Option<PyError>)
      modifies this
      ensures GetItem(brainsInfo, nftDataKey).Failure? ==>
                raised == Some(GetItem(brainsInfo, nftDataKey).error) && collections == old(collections)
      ensures GetItem(brainsInfo, nftDataKey).Success? ==>
                var w := Walk(nftDataKey in old(collections), listing,
                              Records(GetItem(brainsInfo, nftDataKey).value, assetsPath, listing, walrus), 0);
                && raised == w.raised
                && collections == AppendTo(old(collections), nftDataKey, w.appended)
    {
      var lookup := GetItem(brainsInfo, nftDataKey);
      if lookup.Failure? {
        return Some(lookup.error);
      }
      raised := AppendRecords(nftDataKey, assetsPath, lookup.value, listing, walrus);
    }

    /** The loop of `process_directory`, once `brain_info` is found. */
    method AppendRecords(nftDataKey: string, assetsPath: string, brainInfo: Json,
                         listing: seq<Entry>, walrus: string -> CliOutput)
      returns (raised: Option<PyError>)
      modifies this
      ensures var w := Walk(nftDataKey in old(collections), listing, Records(brainInfo, assetsPath, listing, walrus), 0);
              && raised == w.raised
              && collections == AppendTo(old(collections), nftDataKey, w.appended)
    {
      ghost var base := collections;
      ghost var hasKey := nftDataKey in base;
      ghost var records := Records(brainInfo, assetsPath, listing, walrus);
      ghost var whole := Walk(hasKey, listing, records, 0);
      ghost var done: seq<Json> := [];
      raised := None;
      AppendToNothing(base, nftDataKey);
      var i := 0;
      while i < |listing|
        invariant 0 <= i <= |listing|
        invariant whole.raised == Walk(hasKey, listing, records, i).raised
        invariant whole.appended == done + Walk(hasKey, listing, records, i).appended
        invariant collections == AppendTo(base, nftDataKey, done)
      {
        if listing[i].isFile {
          var record := UploadRecord(brainInfo, assetsPath, listing, walrus, i);
          if record.Failure? {
            assert Walk(hasKey, listing, records, i) == Walked([], Some(record.error));
            assert whole.appended == done + [] == done;
            return Some(record.error);
          }
          if nftDataKey !in collections {
            assert Walk(hasKey, listing, records, i) == Walked([], Some(KeyError));
            assert whole.appended == done + [] == done;
            return Some(KeyError);
          }
          ghost var rest := Walk(hasKey, listing, records, i + 1);
          assert Walk(hasKey, listing, records, i).appended == [record.value] + rest.appended;
          AppendToTwice(base, nftDataKey, done, [record.value]);
          collections := collections[nftDataKey := collections[nftDataKey] + [record.value]];
          assert done + ([record.value] + rest.appended) == (done + [record.value]) + rest.appended;
          done := done + [record.value];
        }
        i := i + 1;
      }
      assert whole.appended == done + [] == done;
    }
  }
}
