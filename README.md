# Chemical product registry — verified model

This project models the decision logic of a Flask back end. The back end keeps a
registry of chemical products with an approval workflow, and it has six parts:

- **Role guard** (`app/utils.py`). A fixed table of three roles:
  `administrador`, `analista` and `visualizador`. Every protected route first
  looks up the caller's account, then tests its role.
- **Accounts** (`app/routes/user_routes.py`). Self-registration, login, and the
  administrator's list, get, update and delete of accounts. The model keeps the
  accounts in an in-memory identity store with an abstract password hash.
- **Products** (`app/routes/product_routes.py`). Create, list, get, update,
  delete and search. A product's status is meant to be `pendente`, `aprovado`
  or `rejeitado`, and an update checks that, but an administrator's create
  stores whatever status it is sent. Who may see or change a product depends
  on its status, its creator and the caller's role.
- **Documents** (`app/routes/pdf_routes.py`). The storage key and URL an
  uploaded safety sheet receives, the metadata recorded for it, and the listing
  of products with a document link. The listing is filtered by role and
  reshaped for viewers.
- **Abuse filter** (`app/security_middleware.py`). A WSGI middleware with three
  per-address tables: strike counts, block-until times and recent request
  times. It blocks, rejects or forwards each request.
- **Rate-limit configuration** (`app/security_config.py`). The key each request
  is counted under, and the limit tables.

Neither `run.py` nor `app/run.py` calls `init_security_middleware`, and the
application factory calls neither it nor `init_security`. As written, the
abuse filter and the limiter are never installed. They are modelled as they
would behave once installed.

Files:

- `common.dfy`: shared types (Option, Result, JSON values, statuses, accounts)
  and text helpers (`str.strip`, `find`, `rfind`, decimal digits).
- `roles.dfy`, `accounts.dfy`, `products.dfy`, `documents.dfy`,
  `abuse_filter.dfy`, `rate_limits.dfy`: one module per source file.

Modelling choices:

- Each collection is a class. It holds a `map` from id to record and a `seq` of
  ids in insertion order, which stands for the database's natural order.
- The routes that write are methods with `modifies` clauses.
- Listing and search are loops proved against recursive specification
  functions.
- The caller's id comes in as a parameter, as the token layer would supply it.
- An object id is written as 24 hexadecimal digits in either letter case.
  Stored records are keyed by the lower-case form, and a lookup first maps the
  text it receives to that form (`Common.IdKey`), as `ObjectId(...)` does.
- Database filters use the database's matching: equality, and `$regex`, also
  match an array field that holds a matching element. The single-record access
  test of `get_product` uses Python's `!=`, which does not. The two agree on
  records whose status and creator are not arrays, and `Products.ListedButRefused`
  shows a record on which they differ.
- The password hash, the regular-expression match used by product search, the
  clock, the fresh identifiers and the result of the object-store write are all
  parameters.

## Model

| member | source | states |
|---|---|---|
| Roles.RolesTable | app/utils.py:12-16 | The table maps exactly the keys ADMIN, ANALYST and VIEWER to three distinct role texts. A role is accepted exactly when it is one of those three. |
| Roles.RoleRequired | app/utils.py:26-38 | A missing account gives 404. An account whose role is not listed gives 403. Otherwise the caller is admitted with their stored account. Each outcome is stated as an if-and-only-if. |
| Roles.Wrapper | app/utils.py:18-41 | The wrapped handler runs exactly when the guard admits the caller. It receives the caller's account, and its result is returned unchanged. Refusals carry 404 or 403. |
| Roles.UnknownCallerBeforeRoleTest | app/utils.py:29-31 | An unknown caller gets 404 whatever role list the route declares. |
| Common.Strip | app/routes/product_routes.py:238 | `str.strip()`: the result is the input with a prefix and a suffix of white space removed, and it neither starts nor ends with white space. So it is empty exactly when the input is all white space. White space is Python's set, including the Unicode separators such as U+00A0. |
| Common.IdKey | app/routes/user_routes.py:102 | The object id that valid id text denotes: the same 24 digits with letters in lower case. The result is always in the canonical form that stored records are keyed by. |
| Common.IdKeyCanonical | app/routes/user_routes.py:102 | Canonical text denotes itself. Two valid texts denote the same object id exactly when they differ only in the case of their letters. |
| Accounts.FindByUsername | app/routes/user_routes.py:65 | The lookup finds nothing exactly when no account has the name. Otherwise it returns a stored account that has the name. |
| Accounts.FindMatchesNameTaken | app/routes/user_routes.py:33 | The lookup used by login and by the duplicate test succeeds exactly when some stored account carries the name. |
| Accounts.IdentityStore.Register | app/routes/user_routes.py:17-51 | The checks run in this order: missing or empty name or password gives 400, a taken name gives 409, a role outside the table gives 400. The role defaults to `visualizador`, and `administrador` is accepted. On 201 the one new account holds hash(password), the response exposes only id, name and role, and the store invariant is kept. Otherwise nothing changes. If names were unique before, they still are. |
| Accounts.RegistrationKeepsNamesUnique | app/routes/user_routes.py:33-46 | Inserting an account whose name is not taken, under a fresh id, keeps names unique. |
| Accounts.IdentityStore.Login | app/routes/user_routes.py:54-76 | An unknown or missing name gives 401, and so does a hash mismatch. A known name without a password gives 500. Success holds exactly when the first account with the name has hash(password), and the token identity is that account's id. |
| Accounts.IdentityStore.ListUsers | app/routes/user_routes.py:80-92 | Administrators only. The result lists every account in collection order as id, name and role. |
| Accounts.IdentityStore.GetUser | app/routes/user_routes.py:94-111 | Guard first. Then 400 exactly for a malformed id and 404 exactly when no account has the id it denotes, in either letter case. Otherwise the public view of that account, under its canonical id. |
| Accounts.IdentityStore.PatchFor | app/routes/user_routes.py:129-142 | The update writes the name as sent exactly when one is sent, the role as sent exactly when one is sent, and hash(password) exactly when a password is sent. The patch is empty exactly when none of the three is sent. |
| Accounts.IdentityStore.UpdateUser | app/routes/user_routes.py:113-155 | Guard first, then 400 for a malformed id, 404 when no account has the id it denotes, 400 for a role outside the table, and 400 when none of the three fields is sent. On 200 only that account changes, by the patch: its name, role and hash(password) as sent, everything else kept. Otherwise nothing changes. |
| Accounts.UpdateCanDuplicateNames | app/routes/user_routes.py:133-134 | The update does not re-check the name. There exist two accounts with unique names where renaming one leaves two accounts with the same name. |
| Accounts.IdentityStore.DeleteUser | app/routes/user_routes.py:157-171 | Guard first, then 400 for a malformed id, 404 when no account has the id it denotes, 200 otherwise. On 200 that account is removed from the map and from the order. Otherwise nothing changes. |
| Products.NewProduct | app/routes/product_routes.py:33-61 | The record has the 20 descriptive fields plus status and creator. A field sent in the payload is copied, the hazard lists default to `[]` and the other fields to null. The creator is the caller. A non-administrator always gets `pendente`. An administrator gets the payload's status unchecked, or `pendente` when none is sent. |
| Products.CreatorName | app/routes/product_routes.py:106-109 | The creator's name is given exactly when the creator field is id text of a stored account, and it is that account's name. Otherwise it is null. |
| Products.CanView | app/routes/product_routes.py:137-140 | The access test of a single record, by role: a viewer sees exactly the records whose status is the text `aprovado`. An analyst sees those and the ones whose creator is the caller. An administrator sees everything. |
| Products.ProductStore.Create | app/routes/product_routes.py:17-69 | Guard first, then 400 when `codigo` or `nome_do_produto` is missing. 201 exactly when both are present. Then the store gains exactly that record, appended at the end, and the response is the record with its id. Otherwise nothing changes. |
| Products.ScopeIsAccessTest | app/routes/product_routes.py:84-95 | The database filter of the list and search routes admits every record the single-record access test admits. On records whose status and creator are not arrays, the two admit exactly the same records. |
| Products.ListedButRefused | app/routes/product_routes.py:35-56 | An administrator can create a product whose status is the list `["aprovado"]`. A viewer's list shows that product, since the database's equality also matches array elements. The viewer's request for that product alone is refused, since Python's `!=` does not. |
| Products.Matching | app/routes/product_routes.py:97 | A query returns exactly the stored ids whose records meet the filter. The role filter and `$regex` use the database's matching: a field matches when it is the value, or an array holding a matching element. |
| Products.MatchingKeepsOrder | app/routes/product_routes.py:97-100 | The ids a query returns come in collection order: they are the collection's ids with the non-matching ones left out. |
| Products.Find | app/routes/product_routes.py:99-113 | The cursor loop returns one record per matching id, in order. Each record has its id and its creator's name, or null when the creator is gone. |
| Products.ProductView | app/routes/product_routes.py:103-109 | A record as answered: every stored field unchanged, plus `id` set to its id and `created_by` set to its creator's name, or null when no stored account has the creator's id. |
| Products.ProductStore.List | app/routes/product_routes.py:71-113 | Guard first. The ids listed are exactly the stored products the role filter admits, in the database's matching. Every product the access test admits is among them. Each is shown as the loop shapes it. |
| Products.ProductStore.GetProduct | app/routes/product_routes.py:115-149 | Guard first. Then 400 exactly for a malformed id, and 404 exactly when no record has the id it denotes, in either letter case. Then 403 exactly when the access test fails. Otherwise the shaped record under its canonical id. |
| Products.AllowListed | app/routes/product_routes.py:186-190 | The copied keys are exactly the payload keys that are descriptive fields. Each keeps its payload value. |
| Products.Changes | app/routes/product_routes.py:186-198 | An update writes every descriptive field the payload holds, and nothing outside the descriptive fields and `status`. It writes `status` exactly when an administrator sends one. Every value written is the payload's. |
| Products.ProductStore.CollectFields | app/routes/product_routes.py:188-190 | The copy loop over the payload produces exactly the allow-listed fields. |
| Products.ChangesStayInBounds | app/routes/product_routes.py:186-198 | Applying the changes never touches the creator. Every key the update does not write keeps its old value. |
| Products.ProductStore.Update | app/routes/product_routes.py:151-214 | Guard, then 400 for a malformed id and 404 when no record has the id it denotes. For an analyst, someone else's product, an approved product or any `status` key gives 403. An administrator's status outside the three gives 400. An empty change gives 400. 200 exactly when none of these applies. Then only that record changes, by the allowed fields and, for an administrator, the status. Otherwise nothing changes. |
| Products.ProductStore.Delete | app/routes/product_routes.py:216-229 | Administrators only. 400 for a malformed id, 404 when no record has the id it denotes, 200 otherwise. On 200 that record is removed from the map and from the order. |
| Products.SearchFilter | app/routes/product_routes.py:238-275 | When a search filter is accepted, it always carries the caller's role scope. |
| Products.SearchMeaning | app/routes/product_routes.py:245-275 | The search is accepted exactly when the stripped query is empty, or `by` names one of the seven text fields, or `by` is `id` and the query is a valid id. An empty query ignores `by`. Otherwise a selector outside the eight gives 400, and so does a malformed id. A record is found exactly when the role filter admits it and it meets the criterion: the denoted id, or a `$regex` match on the field. |
| Products.ProductStore.Search | app/routes/product_routes.py:231-291 | Guard first. Then the filter's 400, or the shaped records of exactly the matching ids, in order. |
| Documents.Extension | app/routes/pdf_routes.py:86 | The POSIX `splitext` extension is non-empty exactly when the final component of the path has a dot after some character that is not a dot. It is then the suffix from the last dot on: it starts with a dot and holds no other dot and no slash. |
| Documents.StorageKey | app/routes/pdf_routes.py:86-88 | The key is `uploads/` and the identifier, followed by exactly the file name's extension. |
| Documents.KeyKeepsOnlyExtension | app/routes/pdf_routes.py:84-88 | The key depends on the original name only through the extension. A name without an extension gives `uploads/` plus the identifier. |
| Documents.DistinctUuidsDistinctKeys | app/routes/pdf_routes.py:87-88 | Different identifiers of the same length never give the same key, whatever the file names. |
| Documents.ObjectUrl | app/routes/pdf_routes.py:94-98 | The URL is never empty, starts with `https://` and ends with `/` plus the key. So the 500 branch for an empty URL cannot be taken. |
| Documents.UploadLog.Upload | app/routes/pdf_routes.py:58-135 | Administrators only. The storage and metadata configuration checks (500) come before the file checks (400). A file the store did not accept gives 500. 200 exactly when all checks pass and the store accepted the file. Then exactly one metadata record is appended, with the original name, key, URL, time and uploader. Otherwise nothing changes. |
| Documents.PdfScopeIsAccessTest | app/routes/pdf_routes.py:159-181 | The listing's role filter exists exactly for the three roles, and it is the product routes' filter. It admits every record the product access test admits, and on records whose status and creator are not arrays exactly those. |
| Documents.WithPdf | app/routes/pdf_routes.py:156-186 | The query returns exactly the ids whose record has `pdf_url` neither null nor an array holding null and passes the role filter. Matching is the database's, as for the product routes. |
| Documents.WithPdfKeepsOrder | app/routes/pdf_routes.py:180-186 | The listed ids come in collection order: they are the collection's ids with the others left out. |
| Documents.Projected | app/routes/pdf_routes.py:160-168 | A viewer's projection keeps exactly the record's keys among `_id`, name, maximum quantity and `pdf_url`, with their values. Other roles get the whole record. |
| Documents.PdfRecordShape | app/routes/pdf_routes.py:188-194 | No listed record keeps `pdf_url`. Its value appears as `url_download` and `_id` is the id as text. A viewer's record has no other keys. Other roles keep every other field unchanged. |
| Documents.PdfRecords | app/routes/pdf_routes.py:188-194 | Each selected id yields its reshaped record, in order. |
| Documents.CollectPdfs | app/routes/pdf_routes.py:183-194 | The cursor loop returns exactly the reshaped records of the matching ids, in order. |
| Documents.ListPdfs | app/routes/pdf_routes.py:138-200 | Guard first, then 500 when the collection is unavailable. Otherwise 200, listing exactly the products with a document link that the role filter admits, reshaped. Every product with a link that the access test admits is among them. |
| AbuseFilter.FirstHop | app/security_middleware.py:44-46 | A value without a comma is taken unchanged. Otherwise the address is the text before the first comma, stripped of white space. It never holds a comma. |
| AbuseFilter.AddressFrom | app/security_middleware.py:41-48 | The chosen address is `unknown` or comma-free. It is `unknown` unless some header in the list is non-empty. |
| AbuseFilter.ClientIpChoice | app/security_middleware.py:38-48 | X-Forwarded-For wins, then X-Real-IP, then the socket address. Each gives the trimmed text before its first comma. With none of them the address is `unknown`. |
| AbuseFilter.SecurityMiddleware.GetClientIp | app/security_middleware.py:38-48 | The header loop returns the address `ClientIpChoice` describes. |
| AbuseFilter.StartsWithAny | app/security_middleware.py:131 | True exactly when the path starts with one of the prefixes. |
| AbuseFilter.SensitivePathExamples | app/security_middleware.py:121-131 | Matching is by prefix: `/products` and `/pdfs` are not sensitive, while `/products/1` and `/loginx` are. |
| AbuseFilter.ArmedStep | app/security_middleware.py:101 | How "an open `a` on this line" moves across one character: a newline closes it, and a fresh occurrence of `a` opens it. |
| AbuseFilter.FindLiteral | app/security_middleware.py:101 | The search result is true exactly when the literal occurs. |
| AbuseFilter.FindThen | app/security_middleware.py:101 | One pass finds `a.*b` exactly when `b` occurs after an `a` on the same line. |
| AbuseFilter.Search | app/security_middleware.py:101 | The search result is true exactly when the pattern is found. |
| AbuseFilter.MatchesAny | app/security_middleware.py:100-102 | The loop over the nine patterns, on the lower-cased text, is true exactly when some pattern is found. |
| AbuseFilter.UnionSelectIsFound | app/security_middleware.py:88-102 | An upper-case `UNION SELECT` in a query string is detected. |
| AbuseFilter.NewlineSeparatesWords | app/security_middleware.py:89 | `union` and `select` on different lines do not match `union.*select`. |
| AbuseFilter.ParseInt | app/security_middleware.py:108 | `int()` of text succeeds only on text that is not blank. |
| Common.DigitsOfDecimal | app/security_middleware.py:108 | The decimal text of a number reads back as that number. |
| AbuseFilter.ParseDecimal | app/security_middleware.py:108 | Decimal text, with or without a minus sign and surrounded by any white space (Python's set, U+00A0 and U+3000 included), parses back to its number. |
| AbuseFilter.DetectSqlInjection | app/security_middleware.py:84-119 | True exactly when the query string matches. For POST and PUT, also when the body's first Content-Length characters match, given that the length parses and is positive. |
| AbuseFilter.QueryOnlyUnlessPostOrPut | app/security_middleware.py:104-117 | For other methods the body is never consulted. |
| AbuseFilter.Recent | app/security_middleware.py:145-148 | The window keeps exactly the timestamps less than 60 seconds old, each as many times as the history holds it. So its length, which the `> 30` test counts, is the number of recent requests. |
| AbuseFilter.RecentKeepsOrder | app/security_middleware.py:145-148 | The window keeps the history's order: it is the history with the expired times left out. |
| AbuseFilter.KeepRecent | app/security_middleware.py:145-148 | The filter loop computes that window. |
| AbuseFilter.RecentKeepsNewest | app/security_middleware.py:142-148 | The timestamp being recorded always survives the filter. Filtering twice at the same instant changes nothing. |
| AbuseFilter.RecentIdempotent | app/security_middleware.py:145-148 | Filtering an already filtered history at the same instant changes nothing. |
| AbuseFilter.RecentAppendKept | app/security_middleware.py:145-148 | A timestamp inside the window, appended to a history, is appended to its filtered window. |
| AbuseFilter.SecurityMiddleware.IsIpBlocked | app/security_middleware.py:50-59 | True exactly when a block exists and has not expired. An expired block is removed. Nothing else changes. |
| AbuseFilter.SecurityMiddleware.RecordSuspiciousActivity | app/security_middleware.py:153-165 | The count goes up by exactly one and is never reset. Once it is at least 10, the address is blocked until now + 900, on every later strike too. The invariant "blocked implies at least 10 strikes" is kept. |
| AbuseFilter.SecurityMiddleware.IsHighFrequency | app/security_middleware.py:133-151 | Appends now, keeps only the last 60 seconds, and returns whether more than 30 remain. Every kept timestamp is in the window. |
| AbuseFilter.SecurityMiddleware.CheckSuspiciousActivity | app/security_middleware.py:61-82 | Tests run in order: user agent shorter than 10, then injection, then high frequency on a sensitive path. A request is suspicious exactly when one fires, and it then gets exactly one strike. Timestamps are recorded only when the first two pass and the path is sensitive. |
| AbuseFilter.SecurityMiddleware.Call | app/security_middleware.py:23-36 | A live block turns the request away before any test and changes nothing. Otherwise an expired block for the address is dropped, and the request is rejected exactly when it is suspicious. A rejection adds one strike, and with it a block at the tenth strike or later. A forwarded request adds no strike and no block. The address's history is updated exactly when the request is tracked. |
| RateLimits.LimiterKey | app/security_config.py:8-22 | The key of a request starts with its client address, followed by nothing or by a colon. |
| RateLimits.LimiterKeyCases | app/security_config.py:8-22 | With no request the key is `global`. With a non-empty identity it is `address:identity`. Otherwise it is the address. |
| RateLimits.SameAddressSeparateKeys | app/security_config.py:17-22 | From one address, each identity and the anonymous requests get separate keys. |
| RateLimits.KeysSeparateWithoutColons | app/security_config.py:19-22 | When addresses hold no colon, different requesters never share a key, and an authenticated key never equals an anonymous one. |
| RateLimits.ColonAddressesCanCollide | app/security_config.py:19-22 | With IPv6-style addresses, a user at `::1` and an anonymous client at `::1:7` share a key. |
| RateLimits.ParseRender | app/security_config.py:93-100 | Every limit's text form `"<n> per <period>"` reads back as that limit. |
| RateLimits.DefaultLimits | app/security_config.py:35-37 | The default limits are 200 per day and 50 per hour. |
| RateLimits.RouteLimits | app/security_config.py:93-100 | Per-route limits: login 5 per minute, register 3 per hour, upload 10 per hour, delete 5 per hour, general 100 per hour, health 30 per minute. |

## Left out

Outside the model:

- The database and object-store clients, and their failures. Every store is an
  in-memory map. A database error that the routes would turn into a 500 is not
  modelled, except the configuration checks of the upload and the listing.
- Token issuance and verification, and the 401 they give. The caller's id is an
  input. The token issued by login is represented by the account id it carries.
- Password hashing is an abstract function `hash` fixed for the store. Checking
  a password is taken as comparing `hash(password)` with the stored hash.
- Identifier parsing is `ValidId`: exactly 24 hexadecimal digits. The
  identifiers produced by the database and `uuid.uuid4()` are parameters. So
  are the clock (`now`) and whether the object store accepted an upload.
- Account payloads carry text values only. A non-text JSON value for a name,
  password or role is not modelled. Neither is a request whose body is not JSON
  at all.
- Product search passes the database's case-insensitive regular-expression
  match in as a parameter `regex(pattern, text)`. Pattern syntax, and a pattern
  the database rejects, are not modelled.
- The pattern matcher of the abuse filter is written by hand for the two shapes
  in its list: a literal, and `a.*b` meaning `a`, then `b` later on the same
  line. Case-insensitivity is ASCII lower-casing. Unicode case folding (for
  example `ſ` matching `s`) is not modelled.
- The request body is given as text. Reading `n` bytes is taken as the first `n`
  characters, and the UTF-8 decoding that drops invalid bytes is left out. The
  re-wrapping of `wsgi.input` is I/O and is left out.
- `ParseInt` accepts surrounding white space, one sign and decimal digits.
  Python's `int()` also accepts `_` between digits and non-ASCII digits. Those
  forms are not modelled.
- AbuseFilter.DetectSqlInjection: requires `REQUEST_METHOD` in the environment,
  as the WSGI standard (PEP 3333) guarantees. The source indexes it without a
  default.
- The middleware reads the clock separately in `is_ip_blocked`,
  `is_high_frequency` and `record_suspicious_activity`. The model uses one
  instant per request.
- Only the filter's verdict is modelled: blocked, rejected or forwarded. The
  filter's own answers are not. `blocked_response` and `suspicious_response`
  call `start_response` with 429 or 400 and then `json.dumps`
  (app/security_middleware.py:173, :184), but the module does not import `json`
  (lines 2-7). Each raises `NameError`, so the server answers 500 instead.
- Time is a real number, and `time.time()` is taken as exact. Floating-point
  rounding of the block-until time and of the 60-second window is not modelled.
- The caller's id is the canonical lower-case id of an account, as the token
  issued by login carries it.
- Products.CreatorName: a creator that is not valid id text gives null, as a
  missing account does. In the source `ObjectId(...)` raises on such text
  (app/routes/product_routes.py:107), which is a 500. The model does not
  capture that 500. The routes themselves always store valid id text there.
- A `$ne: None` filter on an array field is taken to fail exactly when the
  array holds null, as the database's array matching gives.
- The limiter's strategy (`fixed-window`) and its storage URI are left out.
- RateLimits.LimiterKey: assumes that `get_jwt_identity()` returns the caller's
  id, or a false value when there is none, at the moment the limiter computes
  the key (app/security_config.py:16-17). With flask_jwt_extended 4, the
  version `@jwt_required()` in app/utils.py points to, reading the identity
  raises unless a token was already verified in the same request. The limiter
  computes its key before the route's decorator runs, so the source may raise
  there instead. That behaviour is not modelled.
- `SUSPICIOUS_THRESHOLD` (app/security_middleware.py:21) is declared and never
  read, so the model has no counterpart.
- Logging, `init_security`, `setup_security_logging`,
  `register_error_handlers` and the breach handler are left out. So is the
  rate-limiting library's counting: only the key and the limit tables are
  modelled, and `Parse` stands for the library's reading of a limit string.
- `os.path.splitext` is modelled for POSIX paths only, with `/` as the only
  separator.
- app/models.py is not part of this model, because it declares a different
  record layer. The product record is taken to be the 20 descriptive fields
  plus `_id`, `status` and `created_by_user_id`.
- An empty projection in the PDF listing is taken to return whole records. A
  driver version that turns an empty projection into "ids only" would return
  only `_id` to analysts and administrators.
- The 403 for an unrecognised role in the PDF listing is modelled. After the
  guard admits only the three roles, that branch cannot be reached.
- Products.SearchFilter: its contract states only the scope it keeps. What it
  selects is stated by `Products.SearchMeaning`.
- AbuseFilter.ParseInt: its contract states only that blank text fails. What it
  reads is stated by `AbuseFilter.ParseDecimal`.

Behaviour of the code worth knowing, which the model follows:

- The strike count of an address is never reset, so after a block expires the
  next suspicious request blocks the address again
  (app/security_middleware.py:157-165).
- Updating an account copies the new name as sent and does not check that it
  is unique (app/routes/user_routes.py:133-134). Registration does check it
  (line 33).
- An administrator's status at creation is taken as sent, without the check
  against the three statuses (app/routes/product_routes.py:35). It is checked
  on update.
- Self-registration accepts any role of the table, including `administrador`
  (app/routes/user_routes.py:27, 37).
- Creating a product checks only that `codigo` and `nome_do_produto` are
  present, not that they are non-empty.
- Login without a name answers 401 (app/routes/user_routes.py:65-69). A known
  name without a password makes the hash check raise, which is a 500.
- Accounts have no e-mail field, and the upload route sets no size limit.
