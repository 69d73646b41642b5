/** JavaScript values and plain objects, as far as the dashboard's rules look at them.

    A record (an application document, a request body, a row to export) is a plain
    object: its own properties in insertion order, which is the order Object.keys
    reports for string keys. Objects nested inside a record are opaque: the model
    keeps only the text JSON.stringify gives for them and the text their toString
    gives (for a MongoDB ObjectId, the 24-digit hexadecimal form). */
module JsValues {

  datatype Option<T> = None | Some(value: T)

  /** A nested object or array, known only by its two renderings. */
  datatype JsObject = JsObject(json: string, text: string)

  datatype Value =
    | Undefined
    | Null
    | Bool(b: bool)
    | Num(n: int)
    | Str(s: string)
    | Obj(o: JsObject)

  /** JavaScript truthiness (NaN is not modelled). */
  predicate Truthy(v: Value) {
    match v
    case Undefined => false
    case Null => false
    case Bool(b) => b
    case Num(n) => n != 0
    case Str(s) => s != ""
    case Obj(_) => true
  }

  /** `v == null`: the values on which `?.` stops. */
  predicate Nullish(v: Value) {
    v.Undefined? || v.Null?
  }

  function DigitChar(d: nat): char
    requires d < 10
  {
    "0123456789"[d]
  }

  /** Decimal rendering of a natural number, most significant digit first. */
  function NatToString(n: nat): string
    decreases n
  {
    if n < 10 then [DigitChar(n)] else NatToString(n / 10) + [DigitChar(n % 10)]
  }

  function IntToString(i: int): string {
    if i < 0 then "-" + NatToString(-i) else NatToString(i)
  }

  /** `String(v)`. */
  function ToStr(v: Value): string {
    match v
    case Undefined => "undefined"
    case Null => "null"
    case Bool(b) => if b then "true" else "false"
    case Num(n) => IntToString(n)
    case Str(s) => s
    case Obj(o) => o.text
  }

  /** `c.toLowerCase()` on the ASCII range; other characters are left alone. */
  function LowerChar(c: char): char {
    if 'A' <= c <= 'Z' then (c as int + 32) as char else c
  }

  /** `s.toLowerCase()`, character by character. */
  function Lower(s: string): (r: string)
    ensures |r| == |s|
    ensures forall i :: 0 <= i < |s| ==> r[i] == LowerChar(s[i])
  {
    seq(|s|, i requires 0 <= i < |s| => LowerChar(s[i]))
  }

  /** `s.startsWith(p)`. */
  predicate StartsWith(s: string, p: string) {
    |p| <= |s| && s[..|p|] == p
  }

  /** `s.includes(t)`: t occurs in s at some position. */
  predicate Contains(s: string, t: string)
    decreases |s|
  {
    StartsWith(s, t) || (s != [] && Contains(s[1..], t))
  }

  /** t occurs in s starting at position i. */
  predicate OccursAt(s: string, t: string, i: int) {
    0 <= i <= |s| - |t| && s[i..i + |t|] == t
  }

  /** Contains is exactly "t is a contiguous slice of s". */
  lemma {:induction false} ContainsAt(s: string, t: string)
    ensures Contains(s, t) <==> exists i :: OccursAt(s, t, i)
  {
    if s == [] {
      if i :| OccursAt(s, t, i) {
        assert t == [];
        assert StartsWith(s, t);
      }
      if Contains(s, t) {
        assert OccursAt(s, t, 0);
      }
    } else {
      ContainsAt(s[1..], t);
      if Contains(s[1..], t) {
        var i :| OccursAt(s[1..], t, i);
        assert s[i + 1..i + 1 + |t|] == s[1..][i..i + |t|];
        assert OccursAt(s, t, i + 1);
      }
      if StartsWith(s, t) {
        assert OccursAt(s, t, 0);
      }
      if i :| OccursAt(s, t, i) {
        if i > 0 {
          assert s[1..][i - 1..i - 1 + |t|] == s[i..i + |t|];
          assert OccursAt(s[1..], t, i - 1);
        } else {
          assert StartsWith(s, t);
        }
      }
    }
  }

  datatype Field = Field(key: string, val: Value)

  /** A plain object: its own properties in insertion order. */
  datatype Record = Record(fields: seq<Field>)

  function KeyList(fs: seq<Field>): seq<string> {
    if fs == [] then [] else [fs[0].key] + KeyList(fs[1..])
  }

  /** `Object.keys(r)`. */
  function Keys(r: Record): seq<string> {
    KeyList(r.fields)
  }

  function Lookup(fs: seq<Field>, k: string): Value {
    if fs == [] then Undefined
    else if fs[0].key == k then fs[0].val
    else Lookup(fs[1..], k)
  }

  function Overwrite(fs: seq<Field>, k: string, v: Value): seq<Field> {
    if fs == [] then [Field(k, v)]
    else if fs[0].key == k then [Field(k, v)] + fs[1..]
    else [fs[0]] + Overwrite(fs[1..], k, v)
  }

  function Without(fs: seq<Field>, k: string): seq<Field> {
    if fs == [] then []
    else if fs[0].key == k then Without(fs[1..], k)
    else [fs[0]] + Without(fs[1..], k)
  }

  /** `r[k]`: undefined when r has no property k. */
  function Get(r: Record, k: string): Value {
    Lookup(r.fields, k)
  }

  /** `r[k] = v`: an existing property keeps its place, a new one goes last. */
  function Assign(r: Record, k: string, v: Value): Record {
    Record(Overwrite(r.fields, k, v))
  }

  /** `const { [k]: _, ...rest } = r`: the object without property k. */
  function Omit(r: Record, k: string): Record {
    Record(Without(r.fields, k))
  }

  lemma {:induction false} LookupMissing(fs: seq<Field>, k: string)
    requires k !in KeyList(fs)
    ensures Lookup(fs, k) == Undefined
  {
    if fs != [] {
      LookupMissing(fs[1..], k);
    }
  }

  /** Reading a property the object does not have gives undefined. */
  lemma GetMissing(r: Record, k: string)
    requires k !in Keys(r)
    ensures Get(r, k) == Undefined
  {
    LookupMissing(r.fields, k);
  }

  lemma {:induction false} OverwriteFacts(fs: seq<Field>, k: string, v: Value)
    ensures Lookup(Overwrite(fs, k, v), k) == v
    ensures forall k' :: k' != k ==> Lookup(Overwrite(fs, k, v), k') == Lookup(fs, k')
  {
    if fs != [] && fs[0].key != k {
      OverwriteFacts(fs[1..], k, v);
    }
  }

  /** After `r[k] = v`, reading k gives v and every other property reads as before. */
  lemma GetAssign(r: Record, k: string, v: Value)
    ensures Get(Assign(r, k, v), k) == v
    ensures forall k' :: k' != k ==> Get(Assign(r, k, v), k') == Get(r, k')
  {
    OverwriteFacts(r.fields, k, v);
  }

  lemma {:induction false} OverwriteKeys(fs: seq<Field>, k: string, v: Value)
    ensures KeyList(Overwrite(fs, k, v)) == if k in KeyList(fs) then KeyList(fs) else KeyList(fs) + [k]
  {
    if fs != [] && fs[0].key != k {
      OverwriteKeys(fs[1..], k, v);
    }
  }

  /** `r[k] = v` keeps the key order: an existing key stays where it is, a new key is appended. */
  lemma AssignKeys(r: Record, k: string, v: Value)
    ensures Keys(Assign(r, k, v)) == if k in Keys(r) then Keys(r) else Keys(r) + [k]
  {
    OverwriteKeys(r.fields, k, v);
  }

  lemma {:induction false} OverwriteTwice(fs: seq<Field>, k: string, v: Value)
    ensures Overwrite(Overwrite(fs, k, v), k, v) == Overwrite(fs, k, v)
  {
    if fs != [] && fs[0].key != k {
      OverwriteTwice(fs[1..], k, v);
    }
  }

  /** Assigning the same value twice is the same as assigning it once. */
  lemma AssignTwice(r: Record, k: string, v: Value)
    ensures Assign(Assign(r, k, v), k, v) == Assign(r, k, v)
  {
    OverwriteTwice(r.fields, k, v);
  }

  lemma {:induction false} WithoutFacts(fs: seq<Field>, k: string)
    ensures Lookup(Without(fs, k), k) == Undefined
    ensures forall k' :: k' != k ==> Lookup(Without(fs, k), k') == Lookup(fs, k')
    ensures k !in KeyList(Without(fs, k))
  {
    if fs != [] {
      WithoutFacts(fs[1..], k);
    }
  }

  /** The rest object has no property k and agrees with r on every other property. */
  lemma GetOmit(r: Record, k: string)
    ensures k !in Keys(Omit(r, k))
    ensures Get(Omit(r, k), k) == Undefined
    ensures forall k' :: k' != k ==> Get(Omit(r, k), k') == Get(r, k')
  {
    WithoutFacts(r.fields, k);
  }

  /** `Array.isArray(x)`, for a value that is either an array of records or something else. */
  datatype ListProp = Items(records: seq<Record>) | NotAnArray

  /** `Array.isArray(x) ? x : []`. */
  function AsList(p: ListProp): (apps: seq<Record>)
    ensures p.NotAnArray? ==> apps == []
  {
    if p.Items? then p.records else []
  }

  /** `a` is obtained from `b` by deleting elements: order is kept and nothing is added. */
  predicate IsSubseq<T(==)>(a: seq<T>, b: seq<T>)
    decreases |b|
  {
    a == [] ||
    (b != [] && ((a[0] == b[0] && IsSubseq(a[1..], b[1..])) || IsSubseq(a, b[1..])))
  }
}
