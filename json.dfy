/** JSON documents as the nlohmann::json library holds them, and the parts of
    that library's behaviour the client relies on: key lookup through `find`,
    the const and non-const `operator[]`, member assignment, `erase`, `update`,
    `empty`, range-for iteration and conversion to C++ values. */
module JsonModel {
  import opened Wrappers

  /** An object is a list of members in key order, as the library's std::map
      keeps them; numbers are integers (floating point is not modelled). */
  datatype Json =
    | Null
    | Bool(b: bool)
    | Number(n: int)
    | Str(s: string)
    | Array(items: seq<Json>)
    | Object(members: seq<Member>)

  datatype Member = Member(key: string, value: Json)

  /** The library exceptions the client can run into. */
  datatype JsonError =
    | NotAnObject(key: string)     // operator[] with a string key on a value that is not an object
    | WrongType(expected: string)  // conversion of a value to a C++ type it does not hold
    | Malformed                    // text that is not JSON

  /** The library's text functions, which the model leaves uninterpreted:
      `parse` answers None where the library rejects the text. */
  datatype TextCodec = TextCodec(parse: string -> Option<Json>, dump: Json -> string)

  /** The order of std::string keys: lexicographic on character codes. */
  predicate KeyLess(a: string, b: string)
  {
    if a == [] then b != []
    else if b == [] then false
    else if a[0] != b[0] then a[0] < b[0]
    else KeyLess(a[1..], b[1..])
  }

  function Lookup(ms: seq<Member>, key: string): Option<Json>
  {
    if ms == [] then None
    else if ms[0].key == key then Some(ms[0].value)
    else Lookup(ms[1..], key)
  }

  /** `j.find(key) != j.end()`: only an object has members. */
  predicate Has(j: Json, key: string)
  {
    j.Object? && Lookup(j.members, key).Some?
  }

  /** The member under `key`, null when there is none. */
  function Get(j: Json, key: string): Json
  {
    if j.Object? then Lookup(j.members, key).GetOr(Null) else Null
  }

  /** The const `operator[]`: it throws unless `j` is an object. For a missing
      key the library's behaviour is undefined; the model reads null. */
  function At(j: Json, key: string): (r: Result<Json, JsonError>)
    ensures r.Success? <==> j.Object?
    ensures r.Success? ==> r.value == Get(j, key)
  {
    if j.Object? then Success(Get(j, key)) else Failure(NotAnObject(key))
  }

  /** The non-const `operator[]` used for reading: a null value turns into an
      object and a missing key reads as null; any other value throws. */
  function Slot(j: Json, key: string): (r: Result<Json, JsonError>)
    ensures r.Success? <==> (j.Object? || j.Null?)
    ensures r.Success? ==> r.value == Get(j, key)
  {
    if j.Object? || j.Null? then Success(Get(j, key)) else Failure(NotAnObject(key))
  }

  /** Insert or replace a member, keeping key order. */
  function Put(ms: seq<Member>, key: string, v: Json): seq<Member>
  {
    if ms == [] then [Member(key, v)]
    else if ms[0].key == key then [Member(key, v)] + ms[1..]
    else if KeyLess(key, ms[0].key) then [Member(key, v)] + ms
    else [ms[0]] + Put(ms[1..], key, v)
  }

  /** `j[key] = v`, used on objects and on null (which becomes an object). */
  function Set(j: Json, key: string, v: Json): Json
  {
    Object(Put(if j.Object? then j.members else [], key, v))
  }

  function Remove(ms: seq<Member>, key: string): seq<Member>
  {
    if ms == [] then []
    else if ms[0].key == key then Remove(ms[1..], key)
    else [ms[0]] + Remove(ms[1..], key)
  }

  /** `j.erase(key)` on an object. */
  function Erase(j: Json, key: string): Json
  {
    if j.Object? then Object(Remove(j.members, key)) else j
  }

  /** `a.update(b)`: every member of the object `b` is written into `a`. */
  function Update(a: Json, b: Json): Json
  {
    if b.Object? then Merge(a, b.members) else a
  }

  function Merge(a: Json, ms: seq<Member>): Json
  {
    if ms == [] then a else Set(Merge(a, ms[1..]), ms[0].key, ms[0].value)
  }

  /** The library's `empty()`: null and containers without elements are empty,
      a scalar (even the empty string) is not. */
  predicate IsEmpty(j: Json)
  {
    match j
    case Null => true
    case Array(items) => items == []
    case Object(ms) => ms == []
    case _ => false
  }

  function Values(ms: seq<Member>): (r: seq<Json>)
    ensures |r| == |ms|
    ensures forall i :: 0 <= i < |ms| ==> r[i] == ms[i].value
  {
    if ms == [] then [] else [ms[0].value] + Values(ms[1..])
  }

  /** What a range-for over `j` visits: nothing for null, the elements of an
      array, the member values of an object in key order, and a scalar itself. */
  function Elements(j: Json): (r: seq<Json>)
    ensures j.Null? ==> r == []
    ensures j.Array? ==> r == j.items
    ensures (j.Bool? || j.Number? || j.Str?) ==> r == [j]
  {
    match j
    case Null => []
    case Array(items) => items
    case Object(ms) => Values(ms)
    case _ => [j]
  }

  const TwoTo32: int := 0x1_0000_0000
  const TwoTo64: int := 0x1_0000_0000_0000_0000

  /** A cast to a 32-bit `int`, which wraps modulo 2^32. */
  function Int32(n: int): (r: int)
    ensures -0x8000_0000 <= r < 0x8000_0000
    ensures (r - n) % TwoTo32 == 0
  {
    (n + 0x8000_0000) % TwoTo32 - 0x8000_0000
  }

  /** A cast to `unsigned long long`, which wraps modulo 2^64. */
  function UInt64(n: int): (r: int)
    ensures 0 <= r < TwoTo64
    ensures (r - n) % TwoTo64 == 0
  {
    n % TwoTo64
  }

  /** Conversion to std::string: only a string converts. */
  function ToText(j: Json): (r: Result<string, JsonError>)
    ensures r.Success? <==> j.Str?
    ensures r.Success? ==> j == Str(r.value)
  {
    if j.Str? then Success(j.s) else Failure(WrongType("string"))
  }

  /** Conversion to `int`: a number is cast, a boolean gives 0 or 1,
      anything else throws. */
  function ToInt(j: Json): (r: Result<int, JsonError>)
    ensures r.Success? <==> (j.Number? || j.Bool?)
    ensures j.Number? ==> r == Success(Int32(j.n))
    ensures j.Bool? ==> r == Success(if j.b then 1 else 0)
  {
    match j
    case Number(n) => Success(Int32(n))
    case Bool(b) => Success(if b then 1 else 0)
    case _ => Failure(WrongType("number"))
  }

  /** Conversion to `unsigned long long`. With MSVC, the only compiler the
      library builds with, that type is the document's own unsigned number
      type, whose conversion takes numbers only: a boolean throws, unlike the
      conversion to `int`. */
  function ToUInt64(j: Json): (r: Result<int, JsonError>)
    ensures r.Success? <==> j.Number?
    ensures j.Number? ==> r == Success(UInt64(j.n))
    ensures r.Success? ==> 0 <= r.value < TwoTo64
  {
    match j
    case Number(n) => Success(UInt64(n))
    case _ => Failure(WrongType("number"))
  }

  /** Conversion to `bool`: only a boolean converts. */
  function ToBool(j: Json): (r: Result<bool, JsonError>)
    ensures r.Success? <==> j.Bool?
    ensures r.Success? ==> j == Bool(r.value)
  {
    if j.Bool? then Success(j.b) else Failure(WrongType("boolean"))
  }

  /** Writing a member and reading any key back. */
  lemma {:induction false} LookupPut(ms: seq<Member>, key: string, v: Json, k: string)
    ensures Lookup(Put(ms, key, v), k) == if k == key then Some(v) else Lookup(ms, k)
  {
    if ms != [] && ms[0].key != key && !KeyLess(key, ms[0].key) {
      LookupPut(ms[1..], key, v, k);
    }
  }

  /** Removing a key and reading any key back. */
  lemma {:induction false} LookupRemove(ms: seq<Member>, key: string, k: string)
    ensures Lookup(Remove(ms, key), k) == if k == key then None else Lookup(ms, k)
  {
    if ms != [] {
      LookupRemove(ms[1..], key, k);
    }
  }

  /** `j[key] = v` makes `key` hold `v` and leaves every other key as it was. */
  lemma GetSet(j: Json, key: string, v: Json, k: string)
    requires j.Object? || j.Null?
    ensures Has(Set(j, key, v), k) <==> (k == key || Has(j, k))
    ensures Get(Set(j, key, v), k) == if k == key then v else Get(j, k)
  {
    LookupPut(if j.Object? then j.members else [], key, v, k);
  }

  /** `j.erase(key)` removes `key` and nothing else. */
  lemma GetErase(j: Json, key: string, k: string)
    requires j.Object?
    ensures Has(Erase(j, key), k) <==> (k != key && Has(j, k))
    ensures Get(Erase(j, key), k) == if k == key then Null else Get(j, k)
  {
    LookupRemove(j.members, key, k);
  }

  lemma {:induction false} GetMerge(a: Json, ms: seq<Member>, k: string)
    requires a.Object? || a.Null?
    ensures Merge(a, ms).Object? || Merge(a, ms).Null?
    ensures Has(Merge(a, ms), k) <==> (Lookup(ms, k).Some? || Has(a, k))
    ensures Get(Merge(a, ms), k) == if Lookup(ms, k).Some? then Lookup(ms, k).value else Get(a, k)
  {
    if ms != [] {
      GetMerge(a, ms[1..], k);
      GetSet(Merge(a, ms[1..]), ms[0].key, ms[0].value, k);
    }
  }

  /** `a.update(b)`: a key of `b` reads as in `b`, every other key as in `a`. */
  lemma GetUpdate(a: Json, b: Json, k: string)
    requires a.Object? || a.Null?
    requires b.Object?
    ensures Has(Update(a, b), k) <==> (Has(b, k) || Has(a, k))
    ensures Get(Update(a, b), k) == if Has(b, k) then Get(b, k) else Get(a, k)
  {
    GetMerge(a, b.members, k);
  }

  /** The first member under a key is the one read. */
  lemma {:induction false} LookupFirst(ms: seq<Member>, i: nat)
    requires i < |ms|
    requires forall k :: 0 <= k < i ==> ms[k].key != ms[i].key
    ensures Lookup(ms, ms[i].key) == Some(ms[i].value)
  {
    if i > 0 {
      LookupFirst(ms[1..], i - 1);
    }
  }

  /** An object holds each of its members under that member's key, as long
      as no earlier member has the same key. */
  lemma GetMember(j: Json, i: nat)
    requires j.Object? && i < |j.members|
    requires forall k :: 0 <= k < i ==> j.members[k].key != j.members[i].key
    ensures Has(j, j.members[i].key)
    ensures Get(j, j.members[i].key) == j.members[i].value
  {
    LookupFirst(j.members, i);
  }

  /** A key no member has reads as absent. */
  lemma {:induction false} GetAbsent(j: Json, key: string)
    requires j.Object?
    requires forall k :: 0 <= k < |j.members| ==> j.members[k].key != key
    ensures !Has(j, key) && Get(j, key) == Null
  {
    LookupMissing(j.members, key);
  }

  lemma {:induction false} LookupMissing(ms: seq<Member>, key: string)
    requires forall k :: 0 <= k < |ms| ==> ms[k].key != key
    ensures Lookup(ms, key) == None
  {
    if ms != [] {
      LookupMissing(ms[1..], key);
    }
  }
}
