/**
 * Shared vocabulary of the pages: optional values, the JavaScript notion of a
 * "truthy" string, the whitespace test behind `String.prototype.trim`, ASCII
 * lower-casing, `Array.prototype.find` / `filter`, and the shapes in which
 * the REST services answer (an HTTP reply and the `{ success, response }`
 * envelope).
 */
module Common {

  datatype Option<T> = None | Some(value: T) {
    function GetOr(default: T): T {
      match this
      case Some(v) => v
      case None => default
    }
  }

  /** The browser's `localStorage`: string keys to string values. */
  type Store = map<string, string>

  /** `localStorage.getItem(key)`: the value, or null when the key is absent. */
  function Get(store: Store, key: string): (r: Option<string>)
    ensures r.Some? <==> key in store
    ensures r.Some? ==> r.value == store[key]
  {
    if key in store then Some(store[key]) else None
  }

  /** A nullable string used as a condition: null and "" are falsy, every other string is truthy. */
  predicate Truthy(s: Option<string>) {
    s.Some? && s.value != ""
  }

  /**
   * The characters `trim()` removes: the ECMAScript WhiteSpace and
   * LineTerminator code points.
   */
  predicate IsJsWhitespace(c: char) {
    c == ' ' || c == '\t' || c == '\n' || c == '\U{000B}' || c == '\U{000C}' || c == '\r'
    || c == '\U{00A0}' || c == '\U{1680}' || ('\U{2000}' <= c <= '\U{200A}')
    || c == '\U{2028}' || c == '\U{2029}' || c == '\U{202F}' || c == '\U{205F}'
    || c == '\U{3000}' || c == '\U{FEFF}'
  }

  /** `!s.trim()`: the string is empty once its surrounding whitespace is removed. */
  predicate IsBlank(s: string) {
    forall i :: 0 <= i < |s| ==> IsJsWhitespace(s[i])
  }

  /** `toLowerCase()` on the ASCII letters; every other character is kept. */
  function LowerChar(c: char): (r: char)
    ensures 'A' <= c <= 'Z' ==> r as int == c as int + 32
    ensures !('A' <= c <= 'Z') ==> r == c
  {
    if 'A' <= c <= 'Z' then (c as int + 32) as char else c
  }

  function ToLower(s: string): (r: string)
    ensures |r| == |s|
    ensures forall i :: 0 <= i < |s| ==> r[i] == LowerChar(s[i])
  {
    if s == [] then [] else [LowerChar(s[0])] + ToLower(s[1..])
  }

  /** `Array.prototype.findIndex`: the first position whose element satisfies `p`. */
  function FindIndex<T>(s: seq<T>, p: T -> bool): (r: Option<nat>)
    ensures r.Some? ==> r.value < |s| && p(s[r.value])
    ensures r.Some? ==> forall j :: 0 <= j < r.value ==> !p(s[j])
    ensures r.None? <==> forall j :: 0 <= j < |s| ==> !p(s[j])
  {
    if s == [] then None
    else if p(s[0]) then Some(0)
    else match FindIndex(s[1..], p)
      case None => None
      case Some(k) => Some(k + 1)
  }

  /** `Array.prototype.find`: the first element satisfying `p`, or undefined. */
  function Find<T>(s: seq<T>, p: T -> bool): (r: Option<T>)
    ensures r.None? <==> forall j :: 0 <= j < |s| ==> !p(s[j])
    ensures r.Some? ==> exists k :: 0 <= k < |s| && s[k] == r.value && p(s[k])
                                    && forall j :: 0 <= j < k ==> !p(s[j])
  {
    match FindIndex(s, p)
    case None => None
    case Some(k) => Some(s[k])
  }

  /** `Array.prototype.filter`: the elements satisfying `p`, in their original order. */
  function Filter<T(!new)>(s: seq<T>, p: T -> bool): (r: seq<T>)
    ensures |r| <= |s|
    ensures forall x :: x in r <==> x in s && p(x)
  {
    if s == [] then [] else (if p(s[0]) then [s[0]] else []) + Filter(s[1..], p)
  }

  /** The number of elements satisfying `p`. */
  function Count<T>(s: seq<T>, p: T -> bool): (n: nat)
    ensures n <= |s|
  {
    if s == [] then 0 else (if p(s[0]) then 1 else 0) + Count(s[1..], p)
  }

  /** `filter(p).length` counts the elements satisfying `p`. */
  lemma {:induction false} FilterLength<T(!new)>(s: seq<T>, p: T -> bool)
    ensures |Filter(s, p)| == Count(s, p)
  {
    if s != [] {
      FilterLength(s[1..], p);
    }
  }

  /** Filtering distributes over concatenation, so `filter` keeps the input order. */
  lemma {:induction false} FilterAppend<T(!new)>(a: seq<T>, b: seq<T>, p: T -> bool)
    ensures Filter(a + b, p) == Filter(a, p) + Filter(b, p)
  {
    if a == [] {
      assert a + b == b;
    } else {
      var ab := a + b;
      assert ab[0] == a[0] && ab[1..] == a[1..] + b;
      FilterAppend(a[1..], b, p);
    }
  }

  /** The first element `filter` keeps is the element `find` returns. */
  lemma {:induction false} FilterHeadIsFind<T(!new)>(s: seq<T>, p: T -> bool)
    ensures Filter(s, p) == [] <==> Find(s, p).None?
    ensures Filter(s, p) != [] ==> Find(s, p) == Some(Filter(s, p)[0])
  {
    if s == [] {
    } else if p(s[0]) {
      assert Filter(s, p) == [s[0]] + Filter(s[1..], p);
      assert FindIndex(s, p) == Some(0);
    } else {
      FilterHeadIsFind(s[1..], p);
      assert Filter(s, p) == Filter(s[1..], p);
      assert FindIndex(s, p) == match FindIndex(s[1..], p)
        case None => None
        case Some(k) => Some(k + 1);
    }
  }

  /** An HTTP call as the page sees it: either the promise rejects, or a reply with its `ok` flag and parsed body. */
  datatype Reply<B> = Threw | Reply(ok: bool, body: B)

  /** The services' uniform envelope `{ success, response }`; an absent or null `response` is `None`. */
  datatype Envelope<T> = Envelope(success: bool, response: Option<T>)

  /** A paged listing `{ items }`, where `items` may be missing. */
  datatype Page<T> = Page(items: Option<seq<T>>)

  /**
   * The response of a successful envelope, if it carries one (`data.success
   * && data.response`).
   */
  function EnvelopeResponse<T>(data: Option<Envelope<T>>): (r: Option<T>)
    ensures r.Some? <==> data.Some? && data.value.success && data.value.response.Some?
    ensures r.Some? ==> r == data.value.response
  {
    if data.Some? && data.value.success then data.value.response else None
  }

  /**
   * The items of a well-formed listing envelope: a body, `success`, a
   * `response`, and an `items` array in it (`data && data.success &&
   * data.response && Array.isArray(data.response.items)`, or
   * `data.success && data.response?.items`).
   */
  function ListedItems<T>(data: Option<Envelope<Page<T>>>): (r: Option<seq<T>>)
    ensures r.Some? <==> data.Some? && data.value.success && data.value.response.Some?
                         && data.value.response.value.items.Some?
    ensures r.Some? ==> r == data.value.response.value.items
  {
    if data.Some? && data.value.success && data.value.response.Some? then data.value.response.value.items
    else None
  }

  /**
   * A parsed JSON body that should hold a list: a bare array, an object
   * (whose `tickets` member may or may not be an array), or `null`.
   */
  datatype ListBody<T> = ArrayBody(items: seq<T>) | ObjectBody(tickets: Option<seq<T>>) | NullBody

  /** `Array.isArray(data) ? data : []`. */
  function ArrayOrEmpty<T>(body: ListBody<T>): (r: seq<T>)
    ensures body.ArrayBody? ==> r == body.items
    ensures !body.ArrayBody? ==> r == []
  {
    if body.ArrayBody? then body.items else []
  }
}
