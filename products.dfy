/** The product catalogue with its approval workflow
    (app/routes/product_routes.py): who may create, see, edit and delete a
    product, and what each route writes. */
module Products {
  import opened Common
  import opened Roles

  const PENDING: string := "pendente"
  const APPROVED: string := "aprovado"
  const REJECTED: string := "rejeitado"

  /** The statuses an administrator's update accepts. */
  const STATUSES: seq<string> := [PENDING, APPROVED, REJECTED]

  const CREATE_ROLES: seq<string> := [ADMIN, ANALYST]
  const READ_ROLES: seq<string> := [ADMIN, ANALYST, VIEWER]
  const UPDATE_ROLES: seq<string> := [ADMIN, ANALYST]
  const DELETE_ROLES: seq<string> := [ADMIN]

  /** The descriptive fields a created product carries. */
  const DESCRIPTIVE_FIELDS: set<string> := {
    "codigo", "qtade_maxima_armazenada", "nome_do_produto", "fornecedor",
    "estado_fisico", "local_de_armazenamento",
    "substancia1", "nCas1", "concentracao1",
    "substancia2", "nCas2", "concentracao2",
    "substancia3", "nCas3", "concentracao3",
    "perigos_fisicos", "perigos_saude", "perigos_meio_ambiente",
    "palavra_de_perigo", "categoria"
  }

  /** The hazard fields, which default to an empty list rather than null. */
  const HAZARD_LISTS: set<string> := {"perigos_fisicos", "perigos_saude", "perigos_meio_ambiente"}

  /** Keys of a product record that a payload may never write directly. */
  const PROTECTED_KEYS: set<string> := {"_id", "status", "created_by_user_id"}

  /** Every key of a product record. */
  const PRODUCT_KEYS: set<string> := DESCRIPTIVE_FIELDS + PROTECTED_KEYS

  /** The text fields a search may match against. */
  const TEXT_SELECTORS: seq<string> := [
    "nome_do_produto", "codigo", "substancia1", "substancia2", "substancia3", "categoria", "fornecedor"
  ]
  const ID_SELECTOR: string := "id"
  const DEFAULT_SELECTOR: string := "nome_do_produto"

  predicate ValidStatus(j: Json) {
    j.Str? && j.s in STATUSES
  }

  /** The route code's own test `product.status == 'aprovado'`: Python
      equality, which a list never passes. */
  predicate Approved(doc: Doc) {
    Get(doc, "status") == Str(APPROVED)
  }

  /** The route code's test `product.created_by_user_id == caller`. */
  predicate OwnedBy(doc: Doc, callerId: Id) {
    Get(doc, "created_by_user_id") == Str(callerId)
  }

  /** The database's equality test of a stored field against a literal, as in
      `{"status": "aprovado"}`: the value is the literal, or an array with the
      literal among its elements. A missing field is null. */
  predicate MongoEq(v: Json, literal: Json) {
    v == literal || (v.Arr? && literal in v.items)
  }

  /** The database's `$regex` test: a text value that matches, or an array with
      a text element that matches. */
  predicate MongoRegex(regex: (string, string) -> bool, pattern: string, v: Json) {
    || (v.Str? && regex(pattern, v.s))
    || (v.Arr? && exists e :: e in v.items && e.Str? && regex(pattern, e.s))
  }

  /** The filter `{"status": "aprovado"}`. */
  predicate ApprovedMatch(doc: Doc) {
    MongoEq(Get(doc, "status"), Str(APPROVED))
  }

  /** The filter `{"created_by_user_id": caller}`. */
  predicate OwnedMatch(doc: Doc, callerId: Id) {
    MongoEq(Get(doc, "created_by_user_id"), Str(callerId))
  }

  // ---------------------------------------------------------------------------
  // Creation

  function FieldDefault(field: string): Json {
    if field in HAZARD_LISTS then Arr([]) else Null
  }

  /** The status a new product starts in: only an administrator's payload is
      consulted, and its value is taken as it is. */
  function CreationStatus(role: string, payload: Doc): Json {
    if role == ADMIN && "status" in payload then payload["status"] else Str(PENDING)
  }

  /** The record `create_product` inserts. */
  function NewProduct(payload: Doc, role: string, callerId: Id): (d: Doc)
    ensures d.Keys == DESCRIPTIVE_FIELDS + {"status", "created_by_user_id"}
    ensures forall f :: f in DESCRIPTIVE_FIELDS && f in payload ==> d[f] == payload[f]
    ensures forall f :: f in DESCRIPTIVE_FIELDS && f !in payload ==> d[f] == FieldDefault(f)
    ensures d["created_by_user_id"] == Str(callerId)
    ensures role != ADMIN ==> d["status"] == Str(PENDING)
    ensures role == ADMIN && "status" in payload ==> d["status"] == payload["status"]
    ensures role == ADMIN && "status" !in payload ==> d["status"] == Str(PENDING)
  {
    (map f | f in DESCRIPTIVE_FIELDS :: if f in payload then payload[f] else FieldDefault(f))
      ["status" := CreationStatus(role, payload)]
      ["created_by_user_id" := Str(callerId)]
  }

  // ---------------------------------------------------------------------------
  // Visibility

  /** The access test of `get_product`: a viewer is refused anything not
      approved, an analyst anything neither approved nor their own. */
  predicate CanView(role: string, callerId: Id, doc: Doc)
    ensures role == VIEWER ==> (CanView(role, callerId, doc) <==> Approved(doc))
    ensures role == ANALYST ==> (CanView(role, callerId, doc) <==> Approved(doc) || OwnedBy(doc, callerId))
    ensures role != VIEWER && role != ANALYST ==> CanView(role, callerId, doc)
  {
    && !(role == VIEWER && !Approved(doc))
    && !(role == ANALYST && !Approved(doc) && !OwnedBy(doc, callerId))
  }

  /** The role-scoped query filter that listing and search start from. */
  datatype Scope = OnlyApproved | ApprovedOrOwnedBy(owner: Id) | Everything

  function ScopeFor(role: string, callerId: Id): Scope {
    if role == VIEWER then OnlyApproved
    else if role == ANALYST then ApprovedOrOwnedBy(callerId)
    else Everything
  }

  predicate InScope(scope: Scope, doc: Doc) {
    match scope
    case OnlyApproved => ApprovedMatch(doc)
    case ApprovedOrOwnedBy(owner) => ApprovedMatch(doc) || OwnedMatch(doc, owner)
    case Everything => true
  }

  /** Whether the status and creator of `doc` are scalars, as every route but
      an administrator's creation guarantees. */
  predicate ScalarOwnership(doc: Doc) {
    !Get(doc, "status").Arr? && !Get(doc, "created_by_user_id").Arr?
  }

  /** The list filter admits every record the single-record access test
      admits; on records with scalar status and creator the two agree. */
  lemma ScopeIsAccessTest(role: string, callerId: Id, doc: Doc)
    ensures CanView(role, callerId, doc) ==> InScope(ScopeFor(role, callerId), doc)
    ensures ScalarOwnership(doc) ==> (InScope(ScopeFor(role, callerId), doc) <==> CanView(role, callerId, doc))
  {
  }

  /** An administrator may create a product whose status is the list
      `["aprovado"]`. Such a product is listed to a viewer, but the viewer's
      request for it alone is refused. */
  lemma {:induction false} ListedButRefused(adminId: Id, viewerId: Id)
    ensures var payload := map["codigo" := Str("1"), "nome_do_produto" := Str("x"), "status" := Arr([Str(APPROVED)])];
            var doc := NewProduct(payload, ADMIN, adminId);
            && InScope(ScopeFor(VIEWER, viewerId), doc)
            && !CanView(VIEWER, viewerId, doc)
  {
    var payload := map["codigo" := Str("1"), "nome_do_produto" := Str("x"), "status" := Arr([Str(APPROVED)])];
    var doc := NewProduct(payload, ADMIN, adminId);
    assert doc["status"] == Arr([Str(APPROVED)]);
    assert Str(APPROVED) in Arr([Str(APPROVED)]).items;
  }

  // ---------------------------------------------------------------------------
  // Query filters

  /** The search criterion added to the role filter. */
  datatype Selector = AnyProduct | FieldMatches(field: string, pattern: string) | IdIs(id: Id)

  datatype Filter = Filter(scope: Scope, selector: Selector)

  /** `regex(pattern, text)` stands for the database's case-insensitive regular
      expression match of `pattern` against `text`. */
  predicate Selects(selector: Selector, id: Id, doc: Doc, regex: (string, string) -> bool) {
    match selector
    case AnyProduct => true
    case FieldMatches(field, pattern) => MongoRegex(regex, pattern, Get(doc, field))
    case IdIs(x) => id == x
  }

  predicate Matches(filter: Filter, id: Id, doc: Doc, regex: (string, string) -> bool) {
    InScope(filter.scope, doc) && Selects(filter.selector, id, doc, regex)
  }

  /** The ids of `order` whose records satisfy `filter`, in collection order. */
  function Matching(order: seq<Id>, products: map<Id, Doc>, filter: Filter, regex: (string, string) -> bool): (r: seq<Id>)
    requires forall id :: id in order ==> id in products
    ensures forall id :: id in r <==> id in order && Matches(filter, id, products[id], regex)
    ensures |r| <= |order|
  {
    if order == [] then []
    else
      var last := order[|order| - 1];
      Matching(order[..|order| - 1], products, filter, regex)
        + (if Matches(filter, last, products[last], regex) then [last] else [])
  }

  /** A query keeps the collection's order: its ids are the collection's ids with
      the non-matching ones left out. */
  lemma {:induction false} MatchingKeepsOrder(order: seq<Id>, products: map<Id, Doc>, filter: Filter, regex: (string, string) -> bool)
    requires forall id :: id in order ==> id in products
    ensures Subsequence(Matching(order, products, filter, regex), order)
  {
    if order != [] {
      var last := order[|order| - 1];
      var front := Matching(order[..|order| - 1], products, filter, regex);
      MatchingKeepsOrder(order[..|order| - 1], products, filter, regex);
      if Matches(filter, last, products[last], regex) {
        var r := front + [last];
        assert r[..|r| - 1] == front;
        assert r[|r| - 1] == order[|order| - 1];
        assert Matching(order, products, filter, regex) == r;
      } else {
        assert Matching(order, products, filter, regex) == front;
      }
    }
  }

  /** The search filter: the role filter, narrowed by the `by` argument when the stripped
      query `q` is not empty; an unknown selector or a malformed id is a 400. */
  function SearchFilter(role: string, callerId: Id, q: Option<string>, column: Option<string>): (r: Result<Filter>)
    ensures r.Ok? ==> r.value.scope == ScopeFor(role, callerId)
  {
    var query := Strip(if q.Some? then q.value else "");
    var selector := if column.Some? then column.value else DEFAULT_SELECTOR;
    var scope := ScopeFor(role, callerId);
    if query == "" then Ok(Filter(scope, AnyProduct))
    else if selector == ID_SELECTOR then
      if ValidId(query) then Ok(Filter(scope, IdIs(IdKey(query)))) else Err(BadRequest400)
    else if selector in TEXT_SELECTORS then Ok(Filter(scope, FieldMatches(selector, query)))
    else Err(BadRequest400)
  }

  function QueryText(q: Option<string>): string {
    Strip(if q.Some? then q.value else "")
  }

  function SelectorName(column: Option<string>): string {
    if column.Some? then column.value else DEFAULT_SELECTOR
  }

  /** What a search answers, stated without the filter: an empty query ignores
      `by`; otherwise a selector outside the eight is a 400, as is a malformed
      id; and a record is found exactly when the caller may see it and it
      meets the criterion. */
  lemma SearchMeaning(role: string, callerId: Id, q: Option<string>, column: Option<string>,
                      regex: (string, string) -> bool, id: Id, doc: Doc)
    ensures QueryText(q) == "" ==> SearchFilter(role, callerId, q, column) == SearchFilter(role, callerId, q, None)
    ensures QueryText(q) != "" && SelectorName(column) != ID_SELECTOR && SelectorName(column) !in TEXT_SELECTORS ==>
              SearchFilter(role, callerId, q, column) == Err(BadRequest400)
    ensures QueryText(q) != "" && SelectorName(column) == ID_SELECTOR ==>
              (SearchFilter(role, callerId, q, column) == Err(BadRequest400) <==> !ValidId(QueryText(q)))
    ensures SearchFilter(role, callerId, q, column).Ok? <==>
              || QueryText(q) == ""
              || SelectorName(column) in TEXT_SELECTORS
              || (SelectorName(column) == ID_SELECTOR && ValidId(QueryText(q)))
    ensures SearchFilter(role, callerId, q, column).Ok? ==>
              (Matches(SearchFilter(role, callerId, q, column).value, id, doc, regex) <==>
                && InScope(ScopeFor(role, callerId), doc)
                && (QueryText(q) == "" ||
                    (if SelectorName(column) == ID_SELECTOR then ValidId(QueryText(q)) && id == IdKey(QueryText(q))
                     else MongoRegex(regex, QueryText(q), Get(doc, SelectorName(column))))))
  {
    assert ID_SELECTOR !in TEXT_SELECTORS;
  }

  // ---------------------------------------------------------------------------
  // Updates

  /** The payload keys `update_product` copies: keys of a product record other
      than the protected ones. */
  function AllowListed(payload: Doc): (fields: Doc)
    ensures fields.Keys == payload.Keys * DESCRIPTIVE_FIELDS
    ensures forall k :: k in fields ==> fields[k] == payload[k]
  {
    assert DESCRIPTIVE_FIELDS * PROTECTED_KEYS == {};
    map k | k in payload && k in PRODUCT_KEYS && k !in PROTECTED_KEYS :: payload[k]
  }

  /** Everything an accepted update writes: the allow-listed fields, plus the
      status when an administrator sends one. */
  function Changes(role: string, payload: Doc): (c: Doc)
    ensures c.Keys <= DESCRIPTIVE_FIELDS + {"status"}
    ensures payload.Keys * DESCRIPTIVE_FIELDS <= c.Keys
    ensures "status" in c <==> role == ADMIN && "status" in payload
    ensures forall k :: k in c ==> k in payload && c[k] == payload[k]
  {
    if role == ADMIN && "status" in payload then AllowListed(payload)["status" := payload["status"]]
    else AllowListed(payload)
  }

  /** Applying the changes never writes the creator, and leaves every key it
      does not write as it was. */
  lemma ChangesStayInBounds(role: string, payload: Doc, doc: Doc)
    ensures forall k :: k !in Changes(role, payload) ==> Get(doc + Changes(role, payload), k) == Get(doc, k)
    ensures Get(doc + Changes(role, payload), "created_by_user_id") == Get(doc, "created_by_user_id")
  {
    assert "created_by_user_id" !in DESCRIPTIVE_FIELDS + {"status"};
  }

  /** The name of the account whose id the record's creator field holds, or
      null when there is no such account. */
  function CreatorName(users: map<Id, User>, doc: Doc): (r: Json)
    ensures var creator := Get(doc, "created_by_user_id");
            r != Null <==> creator.Str? && ValidId(creator.s) && IdKey(creator.s) in users
    ensures var creator := Get(doc, "created_by_user_id");
            r != Null ==> r == Str(users[IdKey(creator.s)].username)
  {
    var creator := Get(doc, "created_by_user_id");
    if creator.Str? && ValidId(creator.s) && IdKey(creator.s) in users then Str(users[IdKey(creator.s)].username) else Null
  }

  /** A record as the routes answer it: its fields, its id under `id`, and its
      creator's name under `created_by`. */
  function ProductView(users: map<Id, User>, id: Id, doc: Doc): (v: Doc)
    ensures v.Keys == doc.Keys + {"id", "created_by"}
    ensures v["id"] == Str(id)
    ensures v["created_by"] == CreatorName(users, doc)
    ensures v["created_by"] == Null || exists u :: u in users && v["created_by"] == Str(users[u].username)
    ensures forall k :: k in doc && k != "id" && k != "created_by" ==> v[k] == doc[k]
  {
    doc["id" := Str(id)]["created_by" := CreatorName(users, doc)]
  }

  /** The loop that turns a query's cursor over `order` into the response list. */
  method Find(order: seq<Id>, products: map<Id, Doc>, users: map<Id, User>, filter: Filter, regex: (string, string) -> bool)
    returns (list: seq<Doc>)
    requires forall id :: id in order ==> id in products
    ensures var selected := Matching(order, products, filter, regex);
            && |list| == |selected|
            && forall k :: 0 <= k < |selected| ==> list[k] == ProductView(users, selected[k], products[selected[k]])
  {
    list := [];
    ghost var selected: seq<Id> := [];
    for i := 0 to |order|
      invariant selected == Matching(order[..i], products, filter, regex)
      invariant |list| == |selected|
      invariant forall k :: 0 <= k < |selected| ==>
                  selected[k] in products && list[k] == ProductView(users, selected[k], products[selected[k]])
    {
      var id := order[i];
      assert order[..i + 1][..i] == order[..i];
      if InScope(filter.scope, products[id]) && Selects(filter.selector, id, products[id], regex) {
        list := list + [ProductView(users, id, products[id])];
        selected := selected + [id];
      }
    }
    assert order[..|order|] == order;
  }

  /** The products collection, in insertion order. */
  class ProductStore {
    var products: map<Id, Doc>
    var order: seq<Id>

    ghost predicate Valid()
      reads this
    {
      && Distinct(order)
      && (forall id :: id in products <==> id in order)
      && (forall id :: id in products ==> CanonicalId(id))
    }

    constructor ()
      ensures Valid() && products == map[] && order == []
    {
      products := map[];
      order := [];
    }

    /** `POST /products`. */
    method Create(users: map<Id, User>, callerId: Id, payload: Doc, newId: Id) returns (status: Status, view: Option<Doc>)
      requires Valid() && CanonicalId(newId) && newId !in products
      modifies this
      ensures Valid()
      ensures RoleRequired(users, callerId, CREATE_ROLES).Deny? ==>
                status == RoleRequired(users, callerId, CREATE_ROLES).status
      ensures RoleRequired(users, callerId, CREATE_ROLES).Admit? && ("codigo" !in payload || "nome_do_produto" !in payload) ==>
                status == BadRequest400
      ensures status == Created201 <==>
                RoleRequired(users, callerId, CREATE_ROLES).Admit? && "codigo" in payload && "nome_do_produto" in payload
      ensures status == Created201 ==>
                && products == old(products)[newId := NewProduct(payload, users[callerId].role, callerId)]
                && order == old(order) + [newId]
                && view == Some(products[newId]["id" := Str(newId)])
      ensures status != Created201 ==> products == old(products) && order == old(order) && view == None
    {
      var decision := RoleRequired(users, callerId, CREATE_ROLES);
      if decision.Deny? {
        return decision.status, None;
      }
      if payload == map[] || "codigo" !in payload || "nome_do_produto" !in payload {
        return BadRequest400, None;
      }
      var record := NewProduct(payload, decision.caller.role, callerId);
      products := products[newId := record];
      order := order + [newId];
      status, view := Created201, Some(record["id" := Str(newId)]);
    }

    /** `GET /products`: the records the caller may see, in collection order. */
    method List(users: map<Id, User>, callerId: Id) returns (status: Status, list: seq<Doc>)
      requires Valid()
      ensures RoleRequired(users, callerId, READ_ROLES).Deny? ==>
                status == RoleRequired(users, callerId, READ_ROLES).status && list == []
      ensures RoleRequired(users, callerId, READ_ROLES).Admit? ==>
                var selected := Matching(order, products, Filter(ScopeFor(users[callerId].role, callerId), AnyProduct), (p, t) => false);
                && status == Ok200
                && (forall id :: id in selected <==> id in products && InScope(ScopeFor(users[callerId].role, callerId), products[id]))
                && (forall id :: id in products && CanView(users[callerId].role, callerId, products[id]) ==> id in selected)
                && |list| == |selected|
                && forall k :: 0 <= k < |selected| ==> list[k] == ProductView(users, selected[k], products[selected[k]])
    {
      var decision := RoleRequired(users, callerId, READ_ROLES);
      if decision.Deny? {
        return decision.status, [];
      }
      var filter := Filter(ScopeFor(decision.caller.role, callerId), AnyProduct);
      list := Find(order, products, users, filter, (p, t) => false);
      status := Ok200;
      forall id | id in products && CanView(decision.caller.role, callerId, products[id])
        ensures Matches(filter, id, products[id], (p, t) => false)
      {
        ScopeIsAccessTest(decision.caller.role, callerId, products[id]);
      }
    }

    /** `GET /products/<id>`: guard, 400 for a malformed id, 404 for a missing
        record, 403 for a record the caller may not see. */
    function GetProduct(users: map<Id, User>, callerId: Id, productId: string): (r: Result<Doc>)
      reads this
      ensures RoleRequired(users, callerId, READ_ROLES).Deny? ==>
                r == Err(RoleRequired(users, callerId, READ_ROLES).status)
      ensures RoleRequired(users, callerId, READ_ROLES).Admit? ==>
                && (r == Err(BadRequest400) <==> !ValidId(productId))
                && (r == Err(NotFound404) <==> ValidId(productId) && IdKey(productId) !in products)
                && (r == Err(Forbidden403) <==>
                      && ValidId(productId) && IdKey(productId) in products
                      && !CanView(users[callerId].role, callerId, products[IdKey(productId)]))
                && (r.Ok? <==>
                      && ValidId(productId) && IdKey(productId) in products
                      && CanView(users[callerId].role, callerId, products[IdKey(productId)]))
      ensures r.Ok? ==>
                ValidId(productId) && r.value == ProductView(users, IdKey(productId), products[IdKey(productId)])
    {
      match RoleRequired(users, callerId, READ_ROLES)
      case Deny(s) => Err(s)
      case Admit(caller) =>
        if !ValidId(productId) then Err(BadRequest400)
        else
          var key := IdKey(productId);
          if key !in products then Err(NotFound404)
          else if caller.role == VIEWER && !Approved(products[key]) then Err(Forbidden403)
          else if caller.role == ANALYST && !Approved(products[key]) && !OwnedBy(products[key], callerId) then Err(Forbidden403)
          else Ok(ProductView(users, key, products[key]))
    }

    /** The loop that copies the allow-listed payload keys into `update_fields`. */
    method CollectFields(payload: Doc) returns (fields: Doc)
      ensures fields == AllowListed(payload)
    {
      fields := map[];
      var pending := payload.Keys;
      while pending != {}
        invariant pending <= payload.Keys
        invariant fields == map k | k in payload.Keys - pending && k in PRODUCT_KEYS && k !in PROTECTED_KEYS :: payload[k]
        decreases pending
      {
        var key :| key in pending;
        if key in PRODUCT_KEYS && key !in PROTECTED_KEYS {
          fields := fields[key := payload[key]];
        }
        pending := pending - {key};
      }
    }

    /** `PUT /products/<id>`. */
    method Update(users: map<Id, User>, callerId: Id, productId: string, payload: Doc) returns (status: Status, view: Option<Doc>)
      requires Valid()
      modifies this
      ensures Valid() && order == old(order)
      ensures RoleRequired(users, callerId, UPDATE_ROLES).Deny? ==>
                status == RoleRequired(users, callerId, UPDATE_ROLES).status
      ensures RoleRequired(users, callerId, UPDATE_ROLES).Admit? ==>
                var role := users[callerId].role;
                && (!ValidId(productId) ==> status == BadRequest400)
                && (ValidId(productId) && IdKey(productId) !in old(products) ==> status == NotFound404)
                && (ValidId(productId) && IdKey(productId) in old(products) && role == ANALYST
                    && (|| !OwnedBy(old(products)[IdKey(productId)], callerId)
                        || Approved(old(products)[IdKey(productId)]) || "status" in payload) ==>
                      status == Forbidden403)
                && (ValidId(productId) && IdKey(productId) in old(products) && role == ADMIN
                    && "status" in payload && !ValidStatus(payload["status"]) ==>
                      status == BadRequest400)
                && (ValidId(productId) && IdKey(productId) in old(products)
                    && !(role == ANALYST
                         && (|| !OwnedBy(old(products)[IdKey(productId)], callerId)
                             || Approved(old(products)[IdKey(productId)]) || "status" in payload))
                    && !(role == ADMIN && "status" in payload && !ValidStatus(payload["status"]))
                    && Changes(role, payload) == map[] ==>
                      status == BadRequest400)
      ensures status == Ok200 <==>
                && RoleRequired(users, callerId, UPDATE_ROLES).Admit?
                && ValidId(productId) && IdKey(productId) in old(products)
                && (users[callerId].role == ANALYST ==>
                      && OwnedBy(old(products)[IdKey(productId)], callerId)
                      && !Approved(old(products)[IdKey(productId)]) && "status" !in payload)
                && (users[callerId].role == ADMIN && "status" in payload ==> ValidStatus(payload["status"]))
                && Changes(users[callerId].role, payload) != map[]
      ensures status == Ok200 ==>
                var key := IdKey(productId);
                && products == old(products)[key := old(products)[key] + Changes(users[callerId].role, payload)]
                && view == Some(ProductView(users, key, products[key]))
      ensures status != Ok200 ==> products == old(products) && view == None
    {
      var decision := RoleRequired(users, callerId, UPDATE_ROLES);
      if decision.Deny? {
        return decision.status, None;
      }
      var role := decision.caller.role;
      if !ValidId(productId) {
        return BadRequest400, None;
      }
      var key := IdKey(productId);
      if key !in products {
        return NotFound404, None;
      }
      var current := products[key];
      if role == ANALYST {
        if !OwnedBy(current, callerId) {
          return Forbidden403, None;
        }
        if Approved(current) {
          return Forbidden403, None;
        }
        if "status" in payload {
          return Forbidden403, None;
        }
      }
      var fields := CollectFields(payload);
      if role == ADMIN && "status" in payload {
        if ValidStatus(payload["status"]) {
          fields := fields["status" := payload["status"]];
        } else {
          return BadRequest400, None;
        }
      }
      assert fields == Changes(role, payload);
      if fields == map[] {
        return BadRequest400, None;
      }
      products := products[key := current + fields];
      status, view := Ok200, Some(ProductView(users, key, products[key]));
    }

    /** `DELETE /products/<id>`: administrators only. */
    method Delete(users: map<Id, User>, callerId: Id, productId: string) returns (status: Status)
      requires Valid()
      modifies this
      ensures Valid()
      ensures RoleRequired(users, callerId, DELETE_ROLES).Deny? ==>
                status == RoleRequired(users, callerId, DELETE_ROLES).status
      ensures RoleRequired(users, callerId, DELETE_ROLES).Admit? ==>
                && (!ValidId(productId) ==> status == BadRequest400)
                && (ValidId(productId) && IdKey(productId) !in old(products) ==> status == NotFound404)
                && (ValidId(productId) && IdKey(productId) in old(products) ==> status == Ok200)
      ensures status == Ok200 ==>
                && ValidId(productId)
                && products == old(products) - {IdKey(productId)} && order == Without(old(order), IdKey(productId))
      ensures status != Ok200 ==> products == old(products) && order == old(order)
    {
      var decision := RoleRequired(users, callerId, DELETE_ROLES);
      if decision.Deny? {
        return decision.status;
      }
      if !ValidId(productId) {
        return BadRequest400;
      }
      var key := IdKey(productId);
      if key !in products {
        return NotFound404;
      }
      products := products - {key};
      order := Without(order, key);
      status := Ok200;
    }

    /** `GET /products/search?q=...&by=...`. */
    method Search(users: map<Id, User>, callerId: Id, q: Option<string>, column: Option<string>, regex: (string, string) -> bool)
      returns (status: Status, list: seq<Doc>)
      requires Valid()
      ensures RoleRequired(users, callerId, READ_ROLES).Deny? ==>
                status == RoleRequired(users, callerId, READ_ROLES).status && list == []
      ensures RoleRequired(users, callerId, READ_ROLES).Admit? ==>
                match SearchFilter(users[callerId].role, callerId, q, column)
                case Err(e) => status == e && list == []
                case Ok(filter) =>
                  var selected := Matching(order, products, filter, regex);
                  && status == Ok200
                  && |list| == |selected|
                  && forall k :: 0 <= k < |selected| ==> list[k] == ProductView(users, selected[k], products[selected[k]])
    {
      var decision := RoleRequired(users, callerId, READ_ROLES);
      if decision.Deny? {
        return decision.status, [];
      }
      var filter := SearchFilter(decision.caller.role, callerId, q, column);
      if filter.Err? {
        return filter.error, [];
      }
      list := Find(order, products, users, filter.value, regex);
      status := Ok200;
    }
  }
}
