/** The values the rating controller handles: request-body values with
    JavaScript truthiness, stored rating documents, identifiers, responses
    and the failures the document store may raise. */
module Ratings {

  /** A value taken from a JSON request body. A field the client did not
      send reads as `Undefined`. */
  datatype JsValue = Undefined | Null | Bool(b: bool) | Num(x: real) | Str(s: string)

  /** JavaScript truthiness: `undefined`, `null`, `false`, `0` and `""` are
      falsy, every other value is truthy. */
  predicate Truthy(v: JsValue)
    ensures Truthy(v) <==> v !in {Undefined, Null, Bool(false), Num(0.0), Str("")}
  {
    match v
    case Undefined => false
    case Null => false
    case Bool(b) => b
    case Num(x) => x != 0.0
    case Str(s) => s != ""
  }

  /** The JavaScript expression `a || b`: the first operand when it is truthy,
      the second otherwise. */
  function Or(a: JsValue, b: JsValue): (r: JsValue)
    ensures Truthy(a) ==> r == a
    ensures !Truthy(a) ==> r == b
    ensures Truthy(r) <==> Truthy(a) || Truthy(b)
  {
    if Truthy(a) then a else b
  }

  /** The characters of the class `[0-9a-fA-F]`. */
  const HEX_DIGITS := "0123456789abcdefABCDEF"

  predicate IsHexDigit(c: char)
    ensures IsHexDigit(c) <==> c in HEX_DIGITS
  {
    ('0' <= c <= '9') || ('a' <= c <= 'f') || ('A' <= c <= 'F')
  }

  /** The id shape of the regular expression `^[0-9a-fA-F]{24}$`: exactly 24
      characters, each of the class. */
  predicate IsObjectId(s: string)
    ensures IsObjectId(s) <==> |s| == 24 && forall c | c in s :: c in HEX_DIGITS
  {
    |s| == 24 && forall i | 0 <= i < |s| :: IsHexDigit(s[i])
  }

  /** The hex string of an ObjectId as the store writes it: 24 lower-case hex digits. */
  predicate IsCanonicalId(s: string) {
    |s| == 24 && forall i | 0 <= i < |s| :: '0' <= s[i] <= '9' || 'a' <= s[i] <= 'f'
  }

  function LowerHex(c: char): char {
    if 'A' <= c <= 'F' then (c as int - 'A' as int + 'a' as int) as char else c
  }

  /** The key a hex id string is cast to: the ObjectId cast reads hex digits
      regardless of letter case, and the store writes them in lower case. */
  function Canonical(s: string): (r: string)
    ensures |r| == |s|
    ensures forall i | 0 <= i < |s| :: r[i] == if 'A' <= s[i] <= 'F' then s[i] + ('a' - 'A') else s[i]
    ensures IsCanonicalId(r) <==> IsObjectId(s)
    ensures IsCanonicalId(s) ==> r == s
  {
    seq(|s|, i requires 0 <= i < |s| => LowerHex(s[i]))
  }

  /** Identifiers Mongoose assigns to new documents, in their lower-case hex form. */
  type ObjectId = s: string | IsCanonicalId(s) witness "000000000000000000000000"

  /** The authenticated requester's id, as the authentication layer supplies it. */
  type UserId = string

  /** A stored rating document (without its `_id`, which is its key in the store). */
  datatype Rating = Rating(inspection: string, user: UserId, rating: JsValue, comment: JsValue)

  /** The rating collection: documents by `_id`. */
  type Store = map<string, Rating>

  /** Every key of the store is the hex string of a generated id. */
  predicate WellKeyed(store: Store) {
    forall id | id in store :: IsCanonicalId(id)
  }

  /** A document as it is sent in a response: its `_id` and its fields. */
  datatype Doc = Doc(id: string, fields: Rating)

  /** Response bodies: none (204), `{error}`, one bare document, a list of
      documents, or `{message, data}`. The list is given as the documents
      by id; the order the store returns them in is not modelled. */
  datatype Body =
    | NoContent
    | Error(error: string)
    | Document(doc: Doc)
    | Documents(docs: map<string, Rating>)
    | Wrapped(message: string, data: Doc)

  datatype Response = Response(status: int, body: Body)

  const OK := 200
  const CREATED := 201
  const NO_CONTENT := 204
  const BAD_REQUEST := 400
  const FORBIDDEN := 403
  const NOT_FOUND := 404
  const SERVER_ERROR := 500

  /** A failure of the document store, with the message of the error it
      raises: `ReadFault` makes the lookup (`find`, `findById`) fail,
      `WriteFault` makes the write (`save`, `deleteOne`) fail. */
  datatype StoreFault = NoFault | ReadFault(message: string) | WriteFault(message: string)

  /** The start of the message MongoDB gives a `save` of a new document
      whose `_id` is already taken (the collection, index and key follow). */
  const DUPLICATE_KEY := "E11000 duplicate key error"
}
