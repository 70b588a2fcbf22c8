/**
 * JavaScript values as the post pipeline handles them: decoded wire JSON plus
 * `undefined`. Numbers are integers (no NaN, no fractions). An object is the
 * list of its own enumerable property names in the order `Object.keys`,
 * `Object.values` and object spread (`{...o}`) enumerate them, together with
 * the value of each.
 */
module Js {

  datatype Value =
    | Undefined
    | Null
    | Bool(b: bool)
    | Num(n: int)
    | Str(s: string)
    | Arr(items: seq<Value>)
    | Obj(obj: Object)

  datatype Object = Object(keys: seq<string>, props: map<string, Value>)

  /** One `[key, value]` pair of `Object.entries`. */
  type Field = (string, Value)

  /** A normal completion, or the TypeError JavaScript throws (a property read on null, `Object.keys(undefined)`). */
  datatype Result<T> = Ok(value: T) | TypeError

  const Empty := Object([], map[])

  /** JavaScript truthiness: what `if (v)` tests. */
  predicate Truthy(v: Value) {
    match v
    case Undefined => false
    case Null => false
    case Bool(b) => b
    case Num(n) => n != 0
    case Str(s) => s != ""
    case Arr(_) => true
    case Obj(_) => true
  }

  /** `null` or `undefined`: the two values whose properties cannot be read. */
  predicate Nullish(v: Value) {
    v.Undefined? || v.Null?
  }

  predicate Distinct<T(==)>(s: seq<T>) {
    forall i, j :: 0 <= i < j < |s| ==> s[i] != s[j]
  }

  /** Every JavaScript object enumerates each of its properties exactly once. */
  ghost predicate WellFormed(o: Object) {
    && Distinct(o.keys)
    && forall k :: k in o.keys <==> k in o.props
  }

  /** The property read `o[k]`: the value stored under `k`, or `undefined` when there is none. */
  function Get(o: Object, k: string): Value {
    if k in o.props then o.props[k] else Undefined
  }

  /**
   * The assignment `o[k] = v`: a key already present keeps its position and
   * takes the new value; a new key is enumerated last.
   */
  function Put(o: Object, k: string, v: Value): (r: Object)
    ensures WellFormed(o) ==> WellFormed(r)
    ensures k in o.props ==> r.keys == o.keys
    ensures k !in o.props ==> r.keys == o.keys + [k]
  {
    Object(if k in o.props then o.keys else o.keys + [k], o.props[k := v])
  }

  function Without(keys: seq<string>, k: string): (r: seq<string>)
    ensures forall x :: x in r <==> x in keys && x != k
    ensures Distinct(keys) ==> Distinct(r)
  {
    if keys == [] then []
    else
      var rest := Without(keys[1..], k);
      assert forall x :: x in keys[1..] ==> x in keys;
      assert Distinct(keys) ==> Distinct(keys[1..]) && keys[0] !in keys[1..] by {
        if Distinct(keys) {
          forall i | 0 <= i < |keys| - 1 ensures keys[1..][i] != keys[0] {
            assert keys[i + 1] != keys[0];
          }
        }
      }
      if keys[0] == k then rest else [keys[0]] + rest
  }

  /** `delete o[k]`: the key goes, every other property keeps its value and position. */
  function Delete(o: Object, k: string): (r: Object)
    ensures WellFormed(o) ==> WellFormed(r)
    ensures k !in r.props
  {
    Object(Without(o.keys, k), o.props - {k})
  }

  function FieldKeys(entries: seq<Field>): (keys: seq<string>)
    ensures |keys| == |entries|
    ensures forall i :: 0 <= i < |entries| ==> keys[i] == entries[i].0
  {
    seq(|entries|, i requires 0 <= i < |entries| => entries[i].0)
  }

  /**
   * `{...o, ...entries}`: each entry is put into `o` in turn, so a later entry
   * overrides an earlier one and names new to `o` are enumerated after those
   * of `o`.
   */
  function Assign(o: Object, entries: seq<Field>): (r: Object)
    ensures WellFormed(o) ==> WellFormed(r)
    ensures forall k :: k in r.props <==> k in o.props || k in FieldKeys(entries)
    ensures o.keys <= r.keys
    ensures forall k :: k !in FieldKeys(entries) ==> Get(r, k) == Get(o, k)
    decreases |entries|
  {
    if entries == [] then o
    else
      FieldKeysTail(entries);
      var o' := Put(o, entries[0].0, entries[0].1);
      var r := Assign(o', entries[1..]);
      PrefixTransitive(o.keys, o'.keys, r.keys);
      r
  }

  /** The names of all entries but the first, and what distinctness says of them. */
  lemma FieldKeysTail(entries: seq<Field>)
    requires entries != []
    ensures FieldKeys(entries) == [entries[0].0] + FieldKeys(entries[1..])
    ensures Distinct(FieldKeys(entries)) ==>
              Distinct(FieldKeys(entries[1..])) && entries[0].0 !in FieldKeys(entries[1..])
  {
    var all, rest := FieldKeys(entries), FieldKeys(entries[1..]);
    assert all == [entries[0].0] + rest;
    if Distinct(all) {
      forall i, j | 0 <= i < j < |rest| ensures rest[i] != rest[j] {
        assert all[i + 1] != all[j + 1];
      }
      forall i | 0 <= i < |rest| ensures rest[i] != entries[0].0 {
        assert all[i + 1] != all[0];
      }
    }
  }

  /** Where the entries name distinct properties, each entry wins over the base object. */
  lemma {:induction false} AssignGet(o: Object, entries: seq<Field>, j: nat)
    requires Distinct(FieldKeys(entries)) && j < |entries|
    ensures Get(Assign(o, entries), entries[j].0) == entries[j].1
    decreases |entries|
  {
    FieldKeysTail(entries);
    var o' := Put(o, entries[0].0, entries[0].1);
    assert Assign(o, entries) == Assign(o', entries[1..]);
    if j > 0 {
      assert entries[1..][j - 1] == entries[j];
      AssignGet(o', entries[1..], j - 1);
    } else {
      assert Get(o', entries[0].0) == entries[0].1;
    }
  }

  /** Entries with distinct names new to `o` are appended in their own order. */
  lemma {:induction false} AssignFreshKeys(o: Object, entries: seq<Field>)
    requires Distinct(FieldKeys(entries))
    requires forall k :: k in FieldKeys(entries) ==> k !in o.props
    ensures Assign(o, entries).keys == o.keys + FieldKeys(entries)
    decreases |entries|
  {
    if entries != [] {
      FieldKeysTail(entries);
      var k0, rest := entries[0].0, FieldKeys(entries[1..]);
      var o' := Put(o, k0, entries[0].1);
      assert k0 in FieldKeys(entries);
      assert o'.keys == o.keys + [k0];
      assert forall k :: k in rest ==> k in FieldKeys(entries) && k != k0;
      AssignFreshKeys(o', entries[1..]);
      ConcatAssoc(o.keys, [k0], rest);
    }
  }

  lemma PrefixTransitive<T>(a: seq<T>, b: seq<T>, c: seq<T>)
    requires a <= b && b <= c
    ensures a <= c
  {
  }

  lemma ConcatAssoc<T>(a: seq<T>, b: seq<T>, c: seq<T>)
    ensures (a + b) + c == a + (b + c)
  {
  }

  /** `Object.entries(o)`. */
  function Entries(o: Object): (e: seq<Field>)
    ensures FieldKeys(e) == o.keys
    ensures forall i :: 0 <= i < |e| ==> e[i].1 == Get(o, o.keys[i])
  {
    var e := seq(|o.keys|, i requires 0 <= i < |o.keys| => (o.keys[i], Get(o, o.keys[i])));
    assert FieldKeys(e) == o.keys;
    e
  }

  /** Spreading a whole object over a base: its properties win, the base's others stay. */
  lemma AssignObject(base: Object, o: Object)
    requires WellFormed(o)
    ensures forall k :: Get(Assign(base, Entries(o)), k) == if k in o.props then o.props[k] else Get(base, k)
  {
    var r := Assign(base, Entries(o));
    forall k ensures Get(r, k) == if k in o.props then o.props[k] else Get(base, k) {
      if k in o.props {
        var j :| 0 <= j < |o.keys| && o.keys[j] == k;
        AssignGet(base, Entries(o), j);
      }
    }
  }

  /**
   * Putting the entries of an object one by one into `{}` rebuilds the object:
   * this is why `Spread` may return an object itself.
   */
  lemma SpreadCopies(o: Object)
    requires WellFormed(o)
    ensures Assign(Empty, Entries(o)) == o
  {
    var r := Assign(Empty, Entries(o));
    AssignFreshKeys(Empty, Entries(o));
    AssignObject(Empty, o);
    assert r.props == o.props by {
      forall k | k in r.props ensures r.props[k] == o.props[k] {
        assert Get(r, k) == Get(o, k);
      }
    }
  }

  /** A value whose spread (`{...v}`) contributes an object's own fields: an object, or nothing at all. */
  ghost predicate Spreadable(v: Value) {
    Nullish(v) || (v.Obj? && WellFormed(v.obj))
  }

  /** The fields a spreadable value contributes. */
  function Own(v: Value): Object {
    if v.Obj? then v.obj else Empty
  }

  /** Spreading a spreadable value over a base: its fields win, the base's others stay, new names come last. */
  lemma SpreadOver(base: Object, v: Value)
    requires Spreadable(v)
    ensures forall k :: Get(Assign(base, OwnEntries(v)), k) == if k in Own(v).props then Own(v).props[k] else Get(base, k)
  {
    if v.Obj? {
      AssignObject(base, v.obj);
    }
  }

  /** Spreading keeps the base's keys in front and adds exactly the spread value's own keys. */
  lemma SpreadOverKeys(base: Object, v: Value)
    requires Spreadable(v)
    ensures var r := Assign(base, OwnEntries(v));
      && (forall k :: k in r.props <==> k in base.props || k in Own(v).props)
      && base.keys <= r.keys
  {
  }

  /** Spreading into `{}` enumerates the spread object's own keys in its order. */
  lemma SpreadKeys(v: Value)
    requires Spreadable(v)
    ensures Assign(Empty, OwnEntries(v)).keys == Own(v).keys
  {
    if v.Obj? {
      SpreadCopies(v.obj);
    }
  }

  /** The decimal spelling of an array index, the name of its property. */
  function IndexKey(n: nat): (s: string)
    ensures |s| > 0
  {
    if n < 10 then [DigitChar(n)] else IndexKey(n / 10) + [DigitChar(n % 10)]
  }

  function DigitChar(d: nat): char
    requires d < 10
  {
    ('0' as int + d) as char
  }

  /**
   * The own enumerable properties of a value, as `Object.entries` lists them:
   * an object's fields, an array's or a string's indices, nothing for the
   * other primitives and for `null` and `undefined`.
   */
  function OwnEntries(v: Value): seq<Field> {
    match v
    case Obj(o) => Entries(o)
    case Arr(items) => seq(|items|, i requires 0 <= i < |items| => (IndexKey(i), items[i]))
    case Str(s) => seq(|s|, i requires 0 <= i < |s| => (IndexKey(i), Str([s[i]])))
    case _ => []
  }

  /**
   * The elements an index loop `for (i = 0; i < v.length; i++) v[i]` visits:
   * an array's items, a string's characters, and for an array-like object
   * with a numeric `length` the properties "0", "1", ... below it.
   */
  function Elements(v: Value): seq<Value> {
    match v
    case Arr(items) => items
    case Str(s) => seq(|s|, i requires 0 <= i < |s| => Str([s[i]]))
    case Obj(o) =>
      var length := Get(o, "length");
      if length.Num? && length.n > 0 then seq(length.n, i requires 0 <= i => Get(o, IndexKey(i))) else []
    case _ => []
  }

  /**
   * The object literal `{...v}`: the own entries of `v` put into `{}` in
   * order. For an object this is a copy of it (`SpreadCopies`).
   */
  function Spread(v: Value): Object {
    match v
    case Obj(o) => o
    case _ => Assign(Empty, OwnEntries(v))
  }

  /**
   * The property read `v.k` on a value that is not nullish, own properties
   * only: an object's field, or an array's or a string's element whose index
   * is spelt `k`.
   */
  function Prop(v: Value, k: string): Value
    requires !Nullish(v)
  {
    match v
    case Obj(o) => Get(o, k)
    case _ => Find(OwnEntries(v), k)
  }

  /** The value of the first entry named `k`, or `undefined`. */
  function Find(entries: seq<Field>, k: string): Value {
    if entries == [] then Undefined
    else if entries[0].0 == k then entries[0].1
    else Find(entries[1..], k)
  }

  /** The property read `v.length` on a value that is not nullish. */
  function Length(v: Value): Value
    requires !Nullish(v)
  {
    match v
    case Arr(items) => Num(|items|)
    case Str(s) => Num(|s|)
    case Obj(o) => Get(o, "length")
    case _ => Undefined
  }

  /** Arrays and strings are what array spread (`[...v]`) accepts; anything else throws. */
  predicate Iterable(v: Value) {
    v.Arr? || v.Str?
  }

  /** `Object.values(v)` on a value that is not nullish. */
  function ValuesOf(v: Value): (vs: seq<Value>)
    ensures |vs| == |OwnEntries(v)|
    ensures forall i :: 0 <= i < |vs| ==> vs[i] == OwnEntries(v)[i].1
  {
    var e := OwnEntries(v);
    seq(|e|, i requires 0 <= i < |e| => e[i].1)
  }

  /**
   * The string a value becomes when it is used as a property name
   * (`statuses[userId]`); an array becomes its elements joined by commas.
   */
  function ToPropertyKey(v: Value): string
    decreases v, 1
  {
    match v
    case Undefined => "undefined"
    case Null => "null"
    case Bool(b) => if b then "true" else "false"
    case Num(n) => if n < 0 then "-" + IndexKey(-n) else IndexKey(n)
    case Str(s) => s
    case Arr(items) => Join(v, items)
    case Obj(_) => "[object Object]"
  }

  /** `Array.prototype.join(",")`: `null` and `undefined` elements become empty strings. */
  function Join(ghost owner: Value, items: seq<Value>): string
    requires owner.Arr? && items <= owner.items
    decreases owner, 0, |items|
  {
    if items == [] then ""
    else
      var last := items[|items| - 1];
      assert last in owner.items;
      var head := Join(owner, items[..|items| - 1]);
      var text := if Nullish(last) then "" else ToPropertyKey(last);
      if |items| == 1 then text else head + "," + text
  }
}
