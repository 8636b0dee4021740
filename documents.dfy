/** Safety-sheet documents (app/routes/pdf_routes.py): the storage key and URL
    an upload is given, the metadata it records, and the role-filtered listing
    of products that carry a document link. */
module Documents {
  import opened Common
  import opened Roles
  import opened Products

  const UPLOAD_ROLES: seq<string> := [ADMIN]
  const LIST_ROLES: seq<string> := [ADMIN, ANALYST, VIEWER]

  /** The fields a viewer's listing keeps. */
  const VIEWER_FIELDS: set<string> := {"_id", "nome_do_produto", "qtade_maxima_armazenada", "pdf_url"}

  // ---------------------------------------------------------------------------
  // Storage key and URL

  /** Whether some character of `s[from..to]` is not a dot. */
  predicate HasNonDot(s: string, from: int, to: int)
    requires 0 <= from && to <= |s|
  {
    exists k :: from <= k < to && s[k] != '.'
  }

  /** Whether no character of `s` from index `i` on is a slash, that is,
      whether `i` lies in the final component of the path. */
  predicate InFinalComponent(s: string, i: int)
    requires 0 <= i <= |s|
  {
    forall m :: i <= m < |s| ==> s[m] != '/'
  }

  /** Whether the final component of `name` has a dot after some character
      that is not a dot: the names that `os.path.splitext` gives an extension. */
  predicate HasExtension(name: string) {
    exists i, j :: 0 <= i < j < |name| && name[i] != '.' && name[j] == '.' && InFinalComponent(name, i)
  }

  /** The extension `os.path.splitext` splits off a POSIX path: from the last
      dot on, provided that dot follows the last slash and is not part of the
      leading dots of the final component; otherwise nothing. */
  function Extension(name: string): (ext: string)
    ensures ext == [] || (ext[0] == '.' && '.' !in ext[1..] && '/' !in ext)
    ensures |ext| <= |name| && name[|name| - |ext|..] == ext
    ensures ext != [] <==> HasExtension(name)
  {
    var dot := LastIndexOf(name, '.');
    var slash := LastIndexOf(name, '/');
    SplitFound(name);
    SplitMissed(name);
    if dot > slash && HasNonDot(name, slash + 1, dot) then name[dot..] else []
  }

  /** When the last dot follows the last slash and a non-dot precedes it in
      the final component, the name has an extension. */
  lemma SplitFound(name: string)
    ensures var dot := LastIndexOf(name, '.');
            var slash := LastIndexOf(name, '/');
            dot > slash && HasNonDot(name, slash + 1, dot) ==> HasExtension(name)
  {
    var dot := LastIndexOf(name, '.');
    var slash := LastIndexOf(name, '/');
    if dot > slash && HasNonDot(name, slash + 1, dot) {
      var i :| slash + 1 <= i < dot && name[i] != '.';
      assert InFinalComponent(name, i);
    }
  }

  /** Conversely, a name with an extension passes that test. */
  lemma SplitMissed(name: string)
    ensures var dot := LastIndexOf(name, '.');
            var slash := LastIndexOf(name, '/');
            HasExtension(name) ==> dot > slash && HasNonDot(name, slash + 1, dot)
  {
    var dot := LastIndexOf(name, '.');
    var slash := LastIndexOf(name, '/');
    if HasExtension(name) {
      var i, j :| 0 <= i < j < |name| && name[i] != '.' && name[j] == '.' && InFinalComponent(name, i);
      assert j <= dot;
      assert slash < i;
      assert HasNonDot(name, slash + 1, dot);
    }
  }

  /** `"uploads/" + uuid + extension`: the object key an upload is stored under. */
  function StorageKey(uuid: string, filename: string): (key: string)
    ensures IsPrefix("uploads/" + uuid, key)
    ensures key[|"uploads/" + uuid|..] == Extension(filename)
  {
    "uploads/" + uuid + Extension(filename)
  }

  /** `str()` of an optional configuration value. */
  function PyStr(v: Option<string>): string {
    if v.Some? then v.value else "None"
  }

  /** The public URL of an object in the bucket: never empty, an https URL,
      and ending with the key. So the route's 500 answer for an empty URL can
      never be given. */
  function ObjectUrl(bucket: string, region: Option<string>, key: string): (url: string)
    ensures url != ""
    ensures IsPrefix("https://", url)
    ensures |key| < |url| && url[|url| - |key| - 1..] == "/" + key
  {
    var head := "https://" + bucket + ".s3." + PyStr(region) + ".amazonaws.com";
    assert (head + ("/" + key))[..8] == "https://";
    head + ("/" + key)
  }

  /** The key depends on the original file name only through its extension,
      and a name without an extension gives the bare identifier. */
  lemma KeyKeepsOnlyExtension(uuid: string, a: string, b: string)
    ensures Extension(a) == Extension(b) ==> StorageKey(uuid, a) == StorageKey(uuid, b)
    ensures Extension(a) == [] ==> StorageKey(uuid, a) == "uploads/" + uuid
  {
  }

  /** Two uploads with different identifiers of the same length never share a
      key, whatever their file names. */
  lemma {:induction false} DistinctUuidsDistinctKeys(u1: string, u2: string, a: string, b: string)
    requires |u1| == |u2| && u1 != u2
    ensures StorageKey(u1, a) != StorageKey(u2, b)
  {
    var n := |"uploads/"| + |u1|;
    assert StorageKey(u1, a)[..n] == "uploads/" + u1;
    assert StorageKey(u2, b)[..n] == "uploads/" + u2;
    assert ("uploads/" + u1)[|"uploads/"|..] == u1;
    assert ("uploads/" + u2)[|"uploads/"|..] == u2;
  }

  // ---------------------------------------------------------------------------
  // Upload

  /** What `upload_file` has to work with besides the request: whether the
      storage client and the metadata collection could be set up, and the
      bucket and region settings. */
  datatype UploadConfig = UploadConfig(storageReady: bool, bucket: Option<string>, region: Option<string>, metadataReady: bool)

  /** The metadata record inserted for each stored file. */
  datatype PdfMetadata = PdfMetadata(originalFilename: string, key: string, url: string, uploadedAt: Time, uploadedBy: Id)

  /** What a successful upload answers with. */
  datatype Uploaded = Uploaded(url: string, key: string, id: Id, originalFilename: string)

  /** The metadata collection, in insertion order. */
  class UploadLog {
    var ids: seq<Id>
    var records: map<Id, PdfMetadata>

    ghost predicate Valid()
      reads this
    {
      Distinct(ids) && forall id :: id in records <==> id in ids
    }

    constructor ()
      ensures Valid() && ids == [] && records == map[]
    {
      ids := [];
      records := map[];
    }

    /** `POST /upload`. `file` is the file part's name (`None` when the part is
        missing), `uuid` the fresh identifier, `now` the clock, `stored` whether
        the object store accepted the file, and `newId` the id the metadata
        record is given. */
    method Upload(users: map<Id, User>, callerId: Id, config: UploadConfig, file: Option<string>,
                  uuid: string, now: Time, stored: bool, newId: Id) returns (status: Status, response: Option<Uploaded>)
      requires Valid() && newId !in records
      modifies this
      ensures Valid()
      ensures RoleRequired(users, callerId, UPLOAD_ROLES).Deny? ==>
                status == RoleRequired(users, callerId, UPLOAD_ROLES).status
      ensures RoleRequired(users, callerId, UPLOAD_ROLES).Admit? ==>
                && (!config.storageReady || config.bucket.None? || !config.metadataReady ==> status == ServerError500)
                && (config.storageReady && config.bucket.Some? && config.metadataReady && (file.None? || file.value == "") ==>
                      status == BadRequest400)
                && (config.storageReady && config.bucket.Some? && config.metadataReady
                    && file.Some? && file.value != "" && !stored ==>
                      status == ServerError500)
      ensures status == Ok200 <==>
                && RoleRequired(users, callerId, UPLOAD_ROLES).Admit?
                && config.storageReady && config.bucket.Some? && config.metadataReady
                && file.Some? && file.value != "" && stored
      ensures status == Ok200 ==>
                var key := StorageKey(uuid, file.value);
                var url := ObjectUrl(config.bucket.value, config.region, key);
                && ids == old(ids) + [newId]
                && records == old(records)[newId := PdfMetadata(file.value, key, url, now, callerId)]
                && response == Some(Uploaded(url, key, newId, file.value))
      ensures status != Ok200 ==> ids == old(ids) && records == old(records) && response == None
    {
      var decision := RoleRequired(users, callerId, UPLOAD_ROLES);
      if decision.Deny? {
        return decision.status, None;
      }
      if !config.storageReady || config.bucket.None? {
        return ServerError500, None;
      }
      if !config.metadataReady {
        return ServerError500, None;
      }
      if file.None? {
        return BadRequest400, None;
      }
      var filename := file.value;
      if filename == "" {
        return BadRequest400, None;
      }
      var key := StorageKey(uuid, filename);
      if !stored {
        return ServerError500, None;
      }
      var url := ObjectUrl(config.bucket.value, config.region, key);
      ids := ids + [newId];
      records := records[newId := PdfMetadata(filename, key, url, now, callerId)];
      status, response := Ok200, Some(Uploaded(url, key, newId, filename));
    }
  }

  // ---------------------------------------------------------------------------
  // Listing

  /** The query filter's first condition: a `pdf_url` that exists and is not null. */
  predicate HasPdf(doc: Doc) {
    "pdf_url" in doc && !MongoEq(doc["pdf_url"], Null)
  }

  /** The role part of the listing filter; roles outside the three get none. */
  function PdfScope(role: string, callerId: Id): Option<Scope> {
    if role == VIEWER then Some(OnlyApproved)
    else if role == ANALYST then Some(ApprovedOrOwnedBy(callerId))
    else if role == ADMIN then Some(Everything)
    else None
  }

  /** The listing applies the same role filter as the product listing: it
      admits every record the product access test admits, and on records
      with scalar status and creator exactly those. */
  lemma PdfScopeIsAccessTest(role: string, callerId: Id, doc: Doc)
    ensures IsRole(role) <==> PdfScope(role, callerId).Some?
    ensures IsRole(role) ==> PdfScope(role, callerId) == Some(ScopeFor(role, callerId))
    ensures IsRole(role) && CanView(role, callerId, doc) ==> InScope(PdfScope(role, callerId).value, doc)
    ensures IsRole(role) && ScalarOwnership(doc) ==>
              (InScope(PdfScope(role, callerId).value, doc) <==> CanView(role, callerId, doc))
  {
    RolesTable();
    ScopeIsAccessTest(role, callerId, doc);
  }

  /** The ids of `order` with a document link and within `scope`, in order. */
  function WithPdf(order: seq<Id>, products: map<Id, Doc>, scope: Scope): (r: seq<Id>)
    requires forall id :: id in order ==> id in products
    ensures forall id :: id in r <==> id in order && HasPdf(products[id]) && InScope(scope, products[id])
    ensures |r| <= |order|
  {
    if order == [] then []
    else
      var last := order[|order| - 1];
      WithPdf(order[..|order| - 1], products, scope)
        + (if HasPdf(products[last]) && InScope(scope, products[last]) then [last] else [])
  }

  /** The listing keeps the collection's order: its ids are the collection's ids
      with the unlinked and out-of-scope ones left out. */
  lemma {:induction false} WithPdfKeepsOrder(order: seq<Id>, products: map<Id, Doc>, scope: Scope)
    requires forall id :: id in order ==> id in products
    ensures Subsequence(WithPdf(order, products, scope), order)
  {
    if order != [] {
      var last := order[|order| - 1];
      var front := WithPdf(order[..|order| - 1], products, scope);
      WithPdfKeepsOrder(order[..|order| - 1], products, scope);
      if HasPdf(products[last]) && InScope(scope, products[last]) {
        var r := front + [last];
        assert r[..|r| - 1] == front;
        assert r[|r| - 1] == order[|order| - 1];
        assert WithPdf(order, products, scope) == r;
      } else {
        assert WithPdf(order, products, scope) == front;
      }
    }
  }

  /** `acc` with `doc`'s entry for `k`, when there is one. */
  function Keep(doc: Doc, k: string, acc: Doc): Doc {
    if k in doc then acc[k := doc[k]] else acc
  }

  /** The projection: a viewer's record keeps only the viewer fields. */
  function Projected(role: string, doc: Doc): (p: Doc)
    ensures role == VIEWER ==> p.Keys == doc.Keys * VIEWER_FIELDS
    ensures forall k :: k in p ==> k in doc && p[k] == doc[k]
    ensures role != VIEWER ==> p == doc
  {
    if role == VIEWER then
      Keep(doc, "_id", Keep(doc, "nome_do_produto", Keep(doc, "qtade_maxima_armazenada", Keep(doc, "pdf_url", map[]))))
    else doc
  }

  /** One listed record: projected, `_id` as text, `pdf_url` renamed to `url_download`. */
  function PdfRecord(role: string, id: Id, doc: Doc): Doc {
    var p := Projected(role, doc)["_id" := Str(id)];
    if "pdf_url" in p then (p - {"pdf_url"})["url_download" := p["pdf_url"]] else p
  }

  /** No listed record keeps a `pdf_url` key; its value moves to
      `url_download`; a viewer sees the name, the maximum quantity and the
      link only; any other role sees every other field unchanged. */
  lemma PdfRecordShape(role: string, id: Id, doc: Doc)
    ensures var out := PdfRecord(role, id, doc);
            && "pdf_url" !in out
            && "_id" in out && out["_id"] == Str(id)
            && ("pdf_url" in doc ==> "url_download" in out && out["url_download"] == doc["pdf_url"])
            && (role == VIEWER ==> out.Keys <= {"_id", "nome_do_produto", "qtade_maxima_armazenada", "url_download"})
            && (role == VIEWER ==>
                  forall k :: k in doc && k in {"nome_do_produto", "qtade_maxima_armazenada"} ==> k in out && out[k] == doc[k])
            && (role != VIEWER ==>
                  forall k :: k in doc && k !in {"_id", "pdf_url", "url_download"} ==> k in out && out[k] == doc[k])
  {
  }

  /** The listed records for the selected ids, in the same order. */
  function PdfRecords(role: string, ids: seq<Id>, products: map<Id, Doc>): (r: seq<Doc>)
    requires forall id :: id in ids ==> id in products
    ensures |r| == |ids|
    ensures forall k :: 0 <= k < |ids| ==> r[k] == PdfRecord(role, ids[k], products[ids[k]])
  {
    if ids == [] then []
    else
      var last := ids[|ids| - 1];
      PdfRecords(role, ids[..|ids| - 1], products) + [PdfRecord(role, last, products[last])]
  }

  /** One more id of the order extends the selection by that id when it qualifies. */
  lemma WithPdfStep(order: seq<Id>, i: nat, products: map<Id, Doc>, scope: Scope)
    requires i < |order| && forall id :: id in order ==> id in products
    ensures WithPdf(order[..i + 1], products, scope) ==
              WithPdf(order[..i], products, scope)
                + (if HasPdf(products[order[i]]) && InScope(scope, products[order[i]]) then [order[i]] else [])
  {
    assert order[..i + 1][..i] == order[..i];
  }

  /** One more selected id extends the listing by its record. */
  lemma PdfRecordsStep(role: string, ids: seq<Id>, id: Id, products: map<Id, Doc>)
    requires id in products && forall x :: x in ids ==> x in products
    ensures PdfRecords(role, ids + [id], products) == PdfRecords(role, ids, products) + [PdfRecord(role, id, products[id])]
  {
    assert (ids + [id])[..|ids|] == ids;
  }

  /** The loop over the query's cursor: each matching record, reshaped. */
  method CollectPdfs(order: seq<Id>, products: map<Id, Doc>, role: string, scope: Scope) returns (list: seq<Doc>)
    requires forall id :: id in order ==> id in products
    ensures list == PdfRecords(role, WithPdf(order, products, scope), products)
  {
    list := [];
    ghost var selected: seq<Id> := [];
    for i := 0 to |order|
      invariant forall id :: id in order ==> id in products
      invariant selected == WithPdf(order[..i], products, scope)
      invariant list == PdfRecords(role, selected, products)
    {
      var id := order[i];
      WithPdfStep(order, i, products, scope);
      var doc := products[id];
      if HasPdf(doc) && InScope(scope, doc) {
        PdfRecordsStep(role, selected, id, products);
        list := list + [PdfRecord(role, id, doc)];
        selected := selected + [id];
      }
    }
    assert order[..|order|] == order;
  }

  /** `GET /pdfs` over the product collection. `collectionReady` is whether
      the collection could be reached. */
  method ListPdfs(store: ProductStore, users: map<Id, User>, callerId: Id, collectionReady: bool)
    returns (status: Status, list: seq<Doc>)
    requires store.Valid()
    ensures RoleRequired(users, callerId, LIST_ROLES).Deny? ==>
              status == RoleRequired(users, callerId, LIST_ROLES).status && list == []
    ensures RoleRequired(users, callerId, LIST_ROLES).Admit? && !collectionReady ==>
              status == ServerError500 && list == []
    ensures RoleRequired(users, callerId, LIST_ROLES).Admit? && collectionReady ==>
              var role := users[callerId].role;
              var selected := WithPdf(store.order, store.products, ScopeFor(role, callerId));
              && status == Ok200
              && (forall id :: id in selected <==>
                    id in store.products && HasPdf(store.products[id]) && InScope(ScopeFor(role, callerId), store.products[id]))
              && (forall id :: id in store.products && HasPdf(store.products[id]) && CanView(role, callerId, store.products[id]) ==>
                    id in selected)
              && |list| == |selected|
              && forall k :: 0 <= k < |selected| ==> list[k] == PdfRecord(role, selected[k], store.products[selected[k]])
  {
    var decision := RoleRequired(users, callerId, LIST_ROLES);
    if decision.Deny? {
      return decision.status, [];
    }
    if !collectionReady {
      return ServerError500, [];
    }
    var role := decision.caller.role;
    var scope := PdfScope(role, callerId);
    if scope.None? {
      return Forbidden403, [];
    }
    PdfScopeIsAccessTest(role, callerId, map[]);
    forall id | id in store.products && CanView(role, callerId, store.products[id])
      ensures InScope(scope.value, store.products[id])
    {
      PdfScopeIsAccessTest(role, callerId, store.products[id]);
    }
    list := CollectPdfs(store.order, store.products, role, scope.value);
    status := Ok200;
  }
}
