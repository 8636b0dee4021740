/** Types shared by every part of the registry: optional values and results,
    JSON payloads and stored documents, record identifiers, HTTP outcomes, the
    stored account record, and a few text and sequence helpers. */
module Common {

  datatype Option<+T> = None | Some(value: T)

  /** The HTTP status codes the routes answer with. */
  datatype Status =
    | Ok200 | Created201 | BadRequest400 | Unauthorized401 | Forbidden403
    | NotFound404 | Conflict409 | ServerError500

  /** Either a value or the error status a route answers with. */
  datatype Result<+T> = Ok(value: T) | Err(error: Status)

  /** A JSON value as the request parser hands it over (numbers kept integral). */
  datatype Json = Null | Bool(b: bool) | Num(n: int) | Str(s: string) | Arr(items: seq<Json>)

  /** A JSON object: a request payload or a stored document. */
  type Doc = map<string, Json>

  /** A record identifier, as the text form of a database object id. */
  type Id = string

  /** Seconds since the epoch, as the clock reports them. */
  type Time = real

  /** `d.get(k)`: the value under `k`, or null when the key is absent. */
  function Get(d: Doc, k: string): Json {
    if k in d then d[k] else Null
  }

  /** `d.get(k, default)` on a payload whose values are text. */
  function GetText(d: map<string, string>, k: string, default: string): string {
    if k in d then d[k] else default
  }

  predicate IsHexDigit(c: char) {
    ('0' <= c <= '9') || ('a' <= c <= 'f') || ('A' <= c <= 'F')
  }

  /** What the object-id parser accepts as text: exactly 24 hexadecimal digits,
      in either case. Any other text makes it raise, which the routes turn
      into a 400. */
  predicate ValidId(s: string) {
    |s| == 24 && forall i :: 0 <= i < |s| ==> IsHexDigit(s[i])
  }

  /** The text form the database gives an object id: 24 lower-case
      hexadecimal digits. Stored records are keyed by it. */
  predicate CanonicalId(s: string) {
    |s| == 24 && forall i :: 0 <= i < |s| ==> ('0' <= s[i] <= '9') || ('a' <= s[i] <= 'f')
  }

  /** The object id that valid id text denotes, in its canonical form: the
      parser decodes hexadecimal digits regardless of case. */
  function IdKey(s: string): (k: Id)
    requires ValidId(s)
    ensures CanonicalId(k)
    ensures forall i :: 0 <= i < |s| ==> k[i] == LowerChar(s[i])
  {
    Lower(s)
  }

  /** Canonical text is valid and denotes itself; two valid texts denote the
      same object id exactly when they differ only in the case of their letters. */
  lemma {:induction false} IdKeyCanonical(s: string, t: string)
    ensures CanonicalId(s) ==> ValidId(s) && IdKey(s) == s
    ensures ValidId(s) && ValidId(t) ==>
              (IdKey(s) == IdKey(t) <==> forall i :: 0 <= i < 24 ==> LowerChar(s[i]) == LowerChar(t[i]))
  {
    if CanonicalId(s) {
      assert forall i :: 0 <= i < |s| ==> IsHexDigit(s[i]);
      assert forall i :: 0 <= i < |s| ==> IdKey(s)[i] == s[i];
    }
    if ValidId(s) && ValidId(t) && forall i :: 0 <= i < 24 ==> LowerChar(s[i]) == LowerChar(t[i]) {
      assert forall i :: 0 <= i < 24 ==> IdKey(s)[i] == IdKey(t)[i];
    }
  }

  /** A stored account: the name, the password hash and the role text. */
  datatype User = User(username: string, passwordHash: string, role: string)

  /** The fields of an account that responses expose. */
  datatype PublicUser = PublicUser(id: Id, username: string, role: string)

  // ---------------------------------------------------------------------------
  // Text helpers

  /** The characters Python's `str.strip()` and `int()` treat as white space
      (`str.isspace`): the ASCII controls 9 to 13 and 28 to 31, the space,
      and the Unicode separators. */
  predicate IsSpace(c: char) {
    || c == ' ' || ('\t' <= c <= '\r') || ('\U{001C}' <= c <= '\U{001F}')
    || c == '\U{0085}' || c == '\U{00A0}' || c == '\U{1680}'
    || ('\U{2000}' <= c <= '\U{200A}') || c == '\U{2028}' || c == '\U{2029}'
    || c == '\U{202F}' || c == '\U{205F}' || c == '\U{3000}'
  }

  /** Number of leading white-space characters of `s`. */
  function LeadingSpaces(s: string): (n: nat)
    ensures n <= |s|
    ensures forall k :: 0 <= k < n ==> IsSpace(s[k])
    ensures n < |s| ==> !IsSpace(s[n])
  {
    if s == [] || !IsSpace(s[0]) then 0 else 1 + LeadingSpaces(s[1..])
  }

  /** Index where the trailing white space of `s` begins. */
  function TrailingStart(s: string): (m: nat)
    ensures m <= |s|
    ensures forall k :: m <= k < |s| ==> IsSpace(s[k])
    ensures 0 < m ==> !IsSpace(s[m - 1])
  {
    if s == [] || !IsSpace(s[|s| - 1]) then |s| else TrailingStart(s[..|s| - 1])
  }

  /** `s.strip()`: `s` without its leading and trailing white space. */
  function Strip(s: string): (r: string)
    ensures r == [] <==> forall k :: 0 <= k < |s| ==> IsSpace(s[k])
    ensures r != [] ==> !IsSpace(r[0]) && !IsSpace(r[|r| - 1])
    ensures exists i, j :: && 0 <= i <= j <= |s| && r == s[i..j]
                           && (forall k :: 0 <= k < i ==> IsSpace(s[k]))
                           && (forall k :: j <= k < |s| ==> IsSpace(s[k]))
  {
    var i := LeadingSpaces(s);
    if i == |s| then
      assert s[i..i] == [];
      []
    else
      s[i..TrailingStart(s)]
  }

  /** Index of the first occurrence of `c` in `s`, or `|s|` when there is none. */
  function IndexOf(s: string, c: char): (i: nat)
    ensures i <= |s|
    ensures i < |s| ==> s[i] == c
    ensures forall k :: 0 <= k < i ==> s[k] != c
  {
    if s == [] then 0 else if s[0] == c then 0 else 1 + IndexOf(s[1..], c)
  }

  /** Index of the last occurrence of `c` in `s`, or -1 (`str.rfind`). */
  function LastIndexOf(s: string, c: char): (i: int)
    ensures -1 <= i < |s|
    ensures 0 <= i ==> s[i] == c
    ensures forall k :: i < k < |s| ==> s[k] != c
  {
    if s == [] then -1
    else if s[|s| - 1] == c then |s| - 1
    else LastIndexOf(s[..|s| - 1], c)
  }

  /** ASCII lower-casing of one character. */
  function LowerChar(c: char): char {
    if 'A' <= c <= 'Z' then (c as int + 32) as char else c
  }

  function Lower(s: string): (r: string)
    ensures |r| == |s|
    ensures forall k :: 0 <= k < |s| ==> r[k] == LowerChar(s[k])
  {
    seq(|s|, k requires 0 <= k < |s| => LowerChar(s[k]))
  }

  predicate IsPrefix(p: string, s: string) {
    |p| <= |s| && s[..|p|] == p
  }

  // ---------------------------------------------------------------------------
  // Decimal numbers

  predicate IsDigit(c: char) {
    '0' <= c <= '9'
  }

  /** The value of a string of decimal digits. */
  function DigitsValue(s: string): nat
    requires forall k :: 0 <= k < |s| ==> IsDigit(s[k])
  {
    if s == [] then 0
    else
      assert IsDigit(s[|s| - 1]);
      10 * DigitsValue(s[..|s| - 1]) + (s[|s| - 1] as int - '0' as int)
  }

  /** Decimal rendering of a natural number. */
  function Decimal(n: nat): (s: string)
    ensures s != [] && forall k :: 0 <= k < |s| ==> IsDigit(s[k])
  {
    if n < 10 then [('0' as int + n) as char] else Decimal(n / 10) + [('0' as int + n % 10) as char]
  }

  /** Reading the digits of a rendered number gives the number back. */
  lemma {:induction false} DigitsOfDecimal(n: nat)
    ensures DigitsValue(Decimal(n)) == n
  {
    if n >= 10 {
      DigitsOfDecimal(n / 10);
      var s := Decimal(n);
      assert s[..|s| - 1] == Decimal(n / 10);
    }
  }

  // ---------------------------------------------------------------------------
  // Insertion-ordered collections

  predicate Distinct(s: seq<Id>) {
    forall i, j :: 0 <= i < j < |s| ==> s[i] != s[j]
  }

  /** `r` is `s` with some elements left out and the others kept in order. */
  predicate Subsequence<T(==)>(r: seq<T>, s: seq<T>)
    decreases |s|
  {
    if s == [] then r == []
    else
      || Subsequence(r, s[..|s| - 1])
      || (r != [] && r[|r| - 1] == s[|s| - 1] && Subsequence(r[..|r| - 1], s[..|s| - 1]))
  }

  /** `s` with every occurrence of `x` removed, order kept. */
  function Without(s: seq<Id>, x: Id): (r: seq<Id>)
    ensures forall y :: y in r <==> y in s && y != x
    ensures Distinct(s) ==> Distinct(r)
  {
    if s == [] then []
    else if s[0] == x then Without(s[1..], x)
    else
      var rest := Without(s[1..], x);
      assert Distinct(s) ==> s[0] !in rest && Distinct(rest) by {
        if Distinct(s) {
          assert forall k :: 1 <= k < |s| ==> s[k] != s[0];
          assert Distinct(s[1..]);
        }
      }
      [s[0]] + rest
  }
}
