/**
 * The local database (src/frontend/js/storage.js): three auto-increment object
 * stores, `patients`, `records` and `sync-queue`, each with in-line keys at
 * `id`. The rules follow sections 2.11 (key generators) and 3.1 (keys) of the
 * W3C Indexed Database API: an object without an `id` gets the generator's
 * current number, counting up from 1; an own numeric `id` pushes the
 * generator past it; an own string `id` is stored under that string and
 * leaves the generator alone; a clear never resets the generator; and
 * generation fails once it passes 2^53. Numbers order before strings, and
 * strings order by their UTF-16 code units.
 */
module Storage {
  import opened Wrappers
  import opened Json

  /** A stored object: its own members. */
  type Item = map<string, Value>

  datatype StoreName = Patients | Records | SyncQueue

  /** The DOMException names a request can fail with. */
  datatype StorageError = ConstraintError | DataError | NotFoundError

  /** The largest key a key generator produces: 2^53. */
  const MaxGeneratedKey: int := 0x20_0000_0000_0000

  /** A record under a numeric primary key. */
  datatype Row = Row(key: int, value: Item)

  /** A record under a string primary key. */
  datatype Named = Named(name: string, value: Item)

  /**
   * An object store: its numerically keyed records in ascending key order,
   * then its string-keyed records in ascending key order, and its generator's
   * current number.
   */
  datatype ObjectStore = ObjectStore(rows: seq<Row>, named: seq<Named>, current: int)

  /**
   * The UTF-16 code units of a character, as JavaScript strings hold it: one
   * unit below U+10000, else a high surrogate and a low surrogate.
   */
  function Utf16(c: char): (r: seq<int>)
    ensures 1 <= |r| <= 2 && (|r| == 1 <==> c as int < 0x1_0000)
  {
    var n := c as int;
    if n < 0x1_0000 then [n] else [0xD800 + (n - 0x1_0000) / 0x400, 0xDC00 + (n - 0x1_0000) % 0x400]
  }

  /** The UTF-16 code units of a string. */
  function CodeUnits(s: string): seq<int>
  {
    if s == [] then [] else Utf16(s[0]) + CodeUnits(s[1..])
  }

  /** Code unit sequences in lexicographic order, a proper prefix first. */
  predicate UnitsBelow(a: seq<int>, b: seq<int>)
    decreases |a|
  {
    if a == [] then b != []
    else b != [] && (a[0] < b[0] || (a[0] == b[0] && UnitsBelow(a[1..], b[1..])))
  }

  /** The order of string keys: by UTF-16 code unit, as IndexedDB compares strings. */
  predicate StrBelow(a: string, b: string)
  {
    UnitsBelow(CodeUnits(a), CodeUnits(b))
  }

  /** A character's first code unit is a high surrogate exactly when it lies beyond U+FFFF. */
  lemma Utf16Lead(c: char)
    ensures c as int < 0x1_0000 <==> !(0xD800 <= Utf16(c)[0] < 0xDC00)
  {
  }

  /** The code units that begin a string determine its first character and the units of the rest. */
  lemma Utf16Determines(c: char, d: char, x: seq<int>, y: seq<int>)
    requires Utf16(c) + x == Utf16(d) + y
    ensures c == d && x == y
  {
    var u, v := Utf16(c), Utf16(d);
    assert u[0] == (u + x)[0] == (v + y)[0] == v[0];
    Utf16Lead(c);
    Utf16Lead(d);
    if c as int >= 0x1_0000 {
      assert u[1] == (u + x)[1] == (v + y)[1] == v[1];
      var p, q := c as int - 0x1_0000, d as int - 0x1_0000;
      assert p == p / 0x400 * 0x400 + p % 0x400;
      assert q == q / 0x400 * 0x400 + q % 0x400;
    }
    assert u == v;
    assert x == (u + x)[|u|..] == (v + y)[|v|..] == y;
  }

  /** Distinct strings have distinct code units. */
  lemma {:induction false} CodeUnitsInjective(a: string, b: string)
    requires CodeUnits(a) == CodeUnits(b)
    ensures a == b
    decreases |a|
  {
    if a != [] && b != [] {
      Utf16Determines(a[0], b[0], CodeUnits(a[1..]), CodeUnits(b[1..]));
      CodeUnitsInjective(a[1..], b[1..]);
      assert a == [a[0]] + a[1..] && b == [b[0]] + b[1..];
    }
  }

  lemma {:induction false} UnitsBelowIrreflexive(a: seq<int>)
    ensures !UnitsBelow(a, a)
    decreases |a|
  {
    if a != [] {
      UnitsBelowIrreflexive(a[1..]);
    }
  }

  lemma {:induction false} UnitsBelowTransitive(a: seq<int>, b: seq<int>, c: seq<int>)
    requires UnitsBelow(a, b) && UnitsBelow(b, c)
    ensures UnitsBelow(a, c)
    decreases |a|
  {
    if a != [] && a[0] == b[0] && b[0] == c[0] {
      UnitsBelowTransitive(a[1..], b[1..], c[1..]);
    }
  }

  lemma {:induction false} UnitsBelowTotal(a: seq<int>, b: seq<int>)
    requires a != b
    ensures UnitsBelow(a, b) || UnitsBelow(b, a)
    decreases |a|
  {
    if a != [] && b != [] && a[0] == b[0] {
      assert a == [a[0]] + a[1..] && b == [b[0]] + b[1..];
      UnitsBelowTotal(a[1..], b[1..]);
    }
  }

  lemma StrBelowIrreflexive(a: string)
    ensures !StrBelow(a, a)
  {
    UnitsBelowIrreflexive(CodeUnits(a));
  }

  lemma StrBelowTransitive(a: string, b: string, c: string)
    requires StrBelow(a, b) && StrBelow(b, c)
    ensures StrBelow(a, c)
  {
    UnitsBelowTransitive(CodeUnits(a), CodeUnits(b), CodeUnits(c));
  }

  lemma StrBelowTotal(a: string, b: string)
    requires a != b
    ensures StrBelow(a, b) || StrBelow(b, a)
  {
    if CodeUnits(a) == CodeUnits(b) {
      CodeUnitsInjective(a, b);
    }
    UnitsBelowTotal(CodeUnits(a), CodeUnits(b));
  }

  /**
   * An illustration of `StrBelow` on code units: a character beyond U+FFFF
   * sorts before U+FFFF, because its high surrogate is the smaller code unit.
   */
  lemma AstralBeforeLastBmp()
    ensures StrBelow("\U{10000}", "\U{FFFF}") && !StrBelow("\U{FFFF}", "\U{10000}")
  {
    assert CodeUnits("\U{10000}") == [0xD800, 0xDC00];
    assert CodeUnits("\U{FFFF}") == [0xFFFF];
  }

  /** The order of primary keys: numbers by value, then strings by UTF-16 code unit. */
  predicate KeyBelow(a: Value, b: Value)
  {
    match (a, b)
    case (Num(x), Num(y)) => x < y
    case (Num(_), Str(_)) => true
    case (Str(x), Str(y)) => StrBelow(x, y)
    case _ => false
  }

  predicate Ascending(rows: seq<Row>)
  {
    forall i, j :: 0 <= i < j < |rows| ==> rows[i].key < rows[j].key
  }

  predicate NamesAscending(named: seq<Named>)
  {
    forall i, j :: 0 <= i < j < |named| ==> StrBelow(named[i].name, named[j].name)
  }

  function Keys(rows: seq<Row>): set<int>
  {
    set x | x in rows :: x.key
  }

  function Names(named: seq<Named>): set<string>
  {
    set x | x in named :: x.name
  }

  /**
   * The store's invariant: keys ascending, each record carrying its key at `id`,
   * and, while the generator can still produce keys, every numeric key below
   * its current number.
   */
  predicate WellFormed(s: ObjectStore)
  {
    && Ascending(s.rows)
    && NamesAscending(s.named)
    && (forall i :: 0 <= i < |s.rows| ==> "id" in s.rows[i].value && s.rows[i].value["id"] == Num(s.rows[i].key))
    && (forall i :: 0 <= i < |s.named| ==> "id" in s.named[i].value && s.named[i].value["id"] == Str(s.named[i].name))
    && s.current >= 1
    && (s.current <= MaxGeneratedKey ==> forall i :: 0 <= i < |s.rows| ==> s.rows[i].key < s.current)
  }

  /** A freshly created store. */
  function Empty(): (s: ObjectStore)
    ensures WellFormed(s) && s.rows == [] && s.named == []
  {
    ObjectStore([], [], 1)
  }

  /** `index.getAll` needs the names of a store's indexes; `sync-queue` has none. */
  function Indexes(name: StoreName): set<string>
  {
    match name
    case Patients => {"email", "name"}
    case Records => {"patientId", "timestamp"}
    case SyncQueue => {}
  }

  /** A valid key: a number, a string, or an array of valid keys. */
  predicate IsValidKey(v: Value)
  {
    match v
    case Num(_) => true
    case Str(_) => true
    case Arr(items) => forall i :: 0 <= i < |items| ==> IsValidKey(items[i])
    case _ => false
  }

  /** An object that gives no key of its own, so the generator must supply one. */
  predicate NoOwnKey(item: Item)
  {
    "id" !in item || item["id"] == Undefined
  }

  /** The object as it is stored under `key`: a generated key is written into its `id`. */
  function Stamped(item: Item, key: int): Item
  {
    if NoOwnKey(item) then item["id" := Num(key)] else item
  }

  /** `store.get(key)` for a numeric key: the object stored under it, if any. */
  function Find(rows: seq<Row>, key: int): (r: Option<Item>)
    ensures r.Some? ==> exists i :: 0 <= i < |rows| && rows[i] == Row(key, r.value)
    ensures r.None? <==> key !in Keys(rows)
  {
    if rows == [] then None
    else if rows[0].key == key then Some(rows[0].value)
    else
      var r := Find(rows[1..], key);
      assert Keys(rows) == {rows[0].key} + Keys(rows[1..]);
      if r.Some? then
        ghost var i :| 0 <= i < |rows[1..]| && rows[1..][i] == Row(key, r.value);
        assert rows[i + 1] == Row(key, r.value);
        r
      else r
  }

  /** `store.get(key)` for a string key: the object stored under it, if any. */
  function FindNamed(named: seq<Named>, name: string): (r: Option<Item>)
    ensures r.Some? ==> exists i :: 0 <= i < |named| && named[i] == Named(name, r.value)
    ensures r.None? <==> name !in Names(named)
  {
    if named == [] then None
    else if named[0].name == name then Some(named[0].value)
    else
      var r := FindNamed(named[1..], name);
      assert Names(named) == {named[0].name} + Names(named[1..]);
      if r.Some? then
        ghost var i :| 0 <= i < |named[1..]| && named[1..][i] == Named(name, r.value);
        assert named[i + 1] == Named(name, r.value);
        r
      else r
  }

  /** With ascending keys a key names at most one record. */
  lemma FindUnique(rows: seq<Row>, i: int)
    requires Ascending(rows) && 0 <= i < |rows|
    ensures Find(rows, rows[i].key) == Some(rows[i].value)
  {
    var r := Find(rows, rows[i].key);
    assert rows[i].key in Keys(rows);
    var j :| 0 <= j < |rows| && rows[j] == Row(rows[i].key, r.value);
    assert j == i;
  }

  /** With ascending string keys a string names at most one record. */
  lemma FindNamedUnique(named: seq<Named>, i: int)
    requires NamesAscending(named) && 0 <= i < |named|
    ensures FindNamed(named, named[i].name) == Some(named[i].value)
  {
    var r := FindNamed(named, named[i].name);
    assert named[i].name in Names(named);
    var j :| 0 <= j < |named| && named[j] == Named(named[i].name, r.value);
    if j < i {
      assert StrBelow(named[j].name, named[i].name);
      StrBelowIrreflexive(named[i].name);
    } else if i < j {
      assert StrBelow(named[i].name, named[j].name);
      StrBelowIrreflexive(named[i].name);
    }
  }

  /** Inserts a record with a new key at its place in key order. */
  function Insert(rows: seq<Row>, row: Row): (r: seq<Row>)
    requires Ascending(rows) && row.key !in Keys(rows)
    ensures Ascending(r) && |r| == |rows| + 1
    ensures forall x :: x in r <==> x in rows || x == row
    decreases |rows|
  {
    if rows == [] then [row]
    else if row.key < rows[0].key then
      assert forall i :: 0 <= i < |rows| ==> row.key < rows[i].key by {
        forall i | 0 <= i < |rows| ensures row.key < rows[i].key {
          if i > 0 { assert rows[0].key < rows[i].key; }
        }
      }
      [row] + rows
    else
      assert forall x :: x in rows[1..] ==> rows[0].key < x.key by {
        forall x | x in rows[1..] ensures rows[0].key < x.key {
          var i :| 0 <= i < |rows[1..]| && rows[1..][i] == x;
          assert rows[i + 1] == x;
        }
      }
      assert rows[0] in rows;
      var tail := Insert(rows[1..], row);
      AscendingCons(rows[0], tail);
      [rows[0]] + tail
  }

  /** Consing a record whose key lies below every key of an ascending sequence keeps it ascending. */
  lemma AscendingCons(head: Row, tail: seq<Row>)
    requires Ascending(tail) && forall x :: x in tail ==> head.key < x.key
    ensures Ascending([head] + tail)
  {
    var r := [head] + tail;
    forall i, j | 0 <= i < j < |r| ensures r[i].key < r[j].key {
      if i == 0 { assert r[j] == tail[j - 1]; assert r[j] in tail; }
      else { assert r[i] == tail[i - 1] && r[j] == tail[j - 1]; }
    }
  }

  /** Inserts a record with a new string key at its place in key order. */
  function InsertNamed(named: seq<Named>, n: Named): (r: seq<Named>)
    requires NamesAscending(named) && n.name !in Names(named)
    ensures NamesAscending(r) && |r| == |named| + 1
    ensures forall x :: x in r <==> x in named || x == n
    decreases |named|
  {
    if named == [] then [n]
    else if StrBelow(n.name, named[0].name) then
      assert forall x :: x in named ==> StrBelow(n.name, x.name) by {
        forall x | x in named ensures StrBelow(n.name, x.name) {
          var i :| 0 <= i < |named| && named[i] == x;
          if i > 0 { StrBelowTransitive(n.name, named[0].name, named[i].name); }
        }
      }
      NamesCons(n, named);
      [n] + named
    else
      assert named[0] in named;
      StrBelowTotal(n.name, named[0].name);
      assert forall x :: x in named[1..] ==> StrBelow(named[0].name, x.name) by {
        forall x | x in named[1..] ensures StrBelow(named[0].name, x.name) {
          var i :| 0 <= i < |named[1..]| && named[1..][i] == x;
          assert named[i + 1] == x;
        }
      }
      var tail := InsertNamed(named[1..], n);
      NamesCons(named[0], tail);
      [named[0]] + tail
  }

  /** Consing a record whose string key lies below every key of an ascending sequence keeps it ascending. */
  lemma NamesCons(head: Named, tail: seq<Named>)
    requires NamesAscending(tail) && forall x :: x in tail ==> StrBelow(head.name, x.name)
    ensures NamesAscending([head] + tail)
  {
    var r := [head] + tail;
    forall i, j | 0 <= i < j < |r| ensures StrBelow(r[i].name, r[j].name) {
      if i == 0 { assert r[j] == tail[j - 1]; assert r[j] in tail; }
      else { assert r[i] == tail[i - 1] && r[j] == tail[j - 1]; }
    }
  }

  /** The record and generator after an add under a key the generator supplied. */
  function Generated(s: ObjectStore, item: Item): (r: ObjectStore)
    requires WellFormed(s) && s.current <= MaxGeneratedKey && NoOwnKey(item)
    ensures WellFormed(r) && r.current == s.current + 1 && r.named == s.named
    ensures r.rows == s.rows + [Row(s.current, Stamped(item, s.current))]
    ensures forall x :: x in r.rows <==> x in s.rows || x == Row(s.current, Stamped(item, s.current))
  {
    var k := s.current;
    var r := ObjectStore(s.rows + [Row(k, Stamped(item, k))], s.named, k + 1);
    assert forall i :: 0 <= i < |s.rows| ==> r.rows[i] == s.rows[i];
    r
  }

  /** The record and generator after an add under the object's own numeric key `n`. */
  function Explicit(s: ObjectStore, item: Item, n: int): (r: ObjectStore)
    requires WellFormed(s) && "id" in item && item["id"] == Num(n) && n !in Keys(s.rows)
    ensures WellFormed(r) && s.current <= r.current && r.named == s.named
    ensures r.current <= MaxGeneratedKey ==> n < r.current
    ensures forall x :: x in r.rows <==> x in s.rows || x == Row(n, item)
  {
    // the generator moves past min(n, 2^53) when that reaches it
    var v := if n < MaxGeneratedKey then n else MaxGeneratedKey;
    var rows := Insert(s.rows, Row(n, item));
    var r := ObjectStore(rows, s.named, if v >= s.current then v + 1 else s.current);
    forall i | 0 <= i < |rows|
      ensures "id" in rows[i].value && rows[i].value["id"] == Num(rows[i].key)
      ensures r.current <= MaxGeneratedKey ==> rows[i].key < r.current
    {
      assert rows[i] in rows;
      if rows[i] != Row(n, item) {
        var j :| 0 <= j < |s.rows| && s.rows[j] == rows[i];
      }
    }
    r
  }

  /** The store after an add under the object's own string key: the generator is not involved. */
  function ExplicitNamed(s: ObjectStore, item: Item, name: string): (r: ObjectStore)
    requires WellFormed(s) && "id" in item && item["id"] == Str(name) && name !in Names(s.named)
    ensures WellFormed(r) && r.rows == s.rows && r.current == s.current
    ensures forall x :: x in r.named <==> x in s.named || x == Named(name, item)
  {
    var named := InsertNamed(s.named, Named(name, item));
    forall i | 0 <= i < |named|
      ensures "id" in named[i].value && named[i].value["id"] == Str(named[i].name)
    {
      assert named[i] in named;
      if named[i] != Named(name, item) {
        var j :| 0 <= j < |s.named| && s.named[j] == named[i];
      }
    }
    ObjectStore(s.rows, named, s.current)
  }

  /**
   * `store.add(item)`: the key is the item's own `id` when it is a number or
   * a string, or else the generator's current number; a key already in use
   * fails with ConstraintError, and so does generation past 2^53. An own `id`
   * that is no valid key fails with DataError.
   */
  function AddRow(s: ObjectStore, item: Item): (r: Result<(ObjectStore, Value), StorageError>)
    requires WellFormed(s)
    ensures r.Success? ==>
              var (s', k) := r.value;
              && WellFormed(s')
              && s.current <= s'.current
              && IsValidKey(k)
              && (k.Num? ==>
                    && k.n !in Keys(s.rows)
                    && s'.named == s.named
                    && (s'.current <= MaxGeneratedKey ==> k.n < s'.current)
                    && (forall x :: x in s'.rows <==> x in s.rows || x == Row(k.n, Stamped(item, k.n))))
              && (k.Str? ==>
                    && k.s !in Names(s.named)
                    && s'.rows == s.rows && s'.current == s.current
                    && (forall x :: x in s'.named <==> x in s.named || x == Named(k.s, item)))
    ensures NoOwnKey(item) ==>
              if s.current > MaxGeneratedKey then r == Failure(ConstraintError)
              else
                && r.Success? && r.value.1 == Num(s.current) && r.value.0.current == s.current + 1
                && r.value.0.rows == s.rows + [Row(s.current, item["id" := Num(s.current)])]
                && r.value.0.named == s.named
    ensures !NoOwnKey(item) && item["id"].Num? ==>
              if item["id"].n in Keys(s.rows) then r == Failure(ConstraintError)
              else r.Success? && r.value.1 == item["id"]
    ensures !NoOwnKey(item) && item["id"].Str? ==>
              if item["id"].s in Names(s.named) then r == Failure(ConstraintError)
              else r.Success? && r.value.1 == item["id"]
    ensures !NoOwnKey(item) && !IsValidKey(item["id"]) ==> r == Failure(DataError)
    ensures !NoOwnKey(item) && item["id"].Arr? ==> r == Failure(DataError)
  {
    if NoOwnKey(item) then
      if s.current > MaxGeneratedKey then Failure(ConstraintError)
      else
        assert s.current !in Keys(s.rows);
        Success((Generated(s, item), Num(s.current)))
    else
      match item["id"]
      case Num(n) =>
        if Find(s.rows, n).Some? then Failure(ConstraintError)
        else Success((Explicit(s, item, n), Num(n)))
      case Str(name) =>
        if FindNamed(s.named, name).Some? then Failure(ConstraintError)
        else Success((ExplicitNamed(s, item, name), Str(name)))
      case _ => Failure(DataError)
  }

  /** `store.clear()`: every record goes; the key generator keeps its current number. */
  function Cleared(s: ObjectStore): (r: ObjectStore)
    ensures r.rows == [] && r.named == [] && r.current == s.current
    ensures WellFormed(s) ==> WellFormed(r)
  {
    ObjectStore([], [], s.current)
  }

  function Values(rows: seq<Row>): (r: seq<Item>)
    ensures |r| == |rows| && forall i :: 0 <= i < |rows| ==> r[i] == rows[i].value
  {
    seq(|rows|, i requires 0 <= i < |rows| => rows[i].value)
  }

  /** The stored objects in key order, as `getAll()` returns them: numeric keys first, then string keys. */
  function Contents(s: ObjectStore): (r: seq<Item>)
    ensures |r| == |s.rows| + |s.named|
    ensures forall i :: 0 <= i < |s.rows| ==> r[i] == s.rows[i].value
    ensures forall i :: 0 <= i < |s.named| ==> r[|s.rows| + i] == s.named[i].value
  {
    Values(s.rows) + seq(|s.named|, i requires 0 <= i < |s.named| => s.named[i].value)
  }

  /**
   * An object appears in an index on `field` when its `field` member is a valid
   * key; a query naming a key selects those whose key equals it, and an absent
   * query (undefined or null) selects them all.
   */
  predicate Listed(x: Item, field: string, query: Value)
  {
    field in x && IsValidKey(x[field]) && (query.Undefined? || query.Null? || x[field] == query)
  }

  /** The objects `index.getAll(query)` selects, in primary key order. */
  function Matching(items: seq<Item>, field: string, query: Value): (r: seq<Item>)
    ensures forall x :: x in r <==> x in items && Listed(x, field, query)
    ensures |r| <= |items|
  {
    if items == [] then []
    else
      var rest := Matching(items[1..], field, query);
      assert forall x :: x in items <==> x == items[0] || x in items[1..] by {
        assert items == [items[0]] + items[1..];
      }
      if Listed(items[0], field, query) then [items[0]] + rest else rest
  }

  /** An object just added is what `get` returns for the key `add` answered. */
  lemma GetAfterAdd(s: ObjectStore, item: Item)
    requires WellFormed(s) && AddRow(s, item).Success?
    ensures var (s', k) := AddRow(s, item).value;
            && (k.Num? ==> Find(s'.rows, k.n) == Some(Stamped(item, k.n)))
            && (k.Str? ==> FindNamed(s'.named, k.s) == Some(item))
  {
    var (s', k) := AddRow(s, item).value;
    if k.Num? {
      assert Row(k.n, Stamped(item, k.n)) in s'.rows;
      var i :| 0 <= i < |s'.rows| && s'.rows[i] == Row(k.n, Stamped(item, k.n));
      FindUnique(s'.rows, i);
    } else {
      assert Named(k.s, item) in s'.named;
      var i :| 0 <= i < |s'.named| && s'.named[i] == Named(k.s, item);
      FindNamedUnique(s'.named, i);
    }
  }

  /**
   * Keys are never reused, even across a clear: a key generated after a clear
   * exceeds every numeric key the store held before it, the one just added
   * among them.
   */
  lemma KeysNeverReused(s: ObjectStore, first: Item, second: Item)
    requires WellFormed(s) && AddRow(s, first).Success?
    requires NoOwnKey(second)
    requires AddRow(Cleared(AddRow(s, first).value.0), second).Success?
    ensures var k1 := AddRow(s, first).value.1;
            var k2 := AddRow(Cleared(AddRow(s, first).value.0), second).value.1;
            k2.Num? && (k1.Num? ==> k1.n < k2.n)
    ensures var s1 := AddRow(s, first).value.0;
            var k2 := AddRow(Cleared(s1), second).value.1;
            forall i :: 0 <= i < |s1.rows| ==> s1.rows[i].key < k2.n
  {
    var (s1, k1) := AddRow(s, first).value;
    assert s1.current <= MaxGeneratedKey;
  }

  /** `getAll` lists a well-formed store's objects by strictly ascending `id`, in the order of keys. */
  lemma GetAllAscending(s: ObjectStore, i: int, j: int)
    requires WellFormed(s) && 0 <= i < j < |Contents(s)|
    ensures "id" in Contents(s)[i] && "id" in Contents(s)[j]
    ensures KeyBelow(Contents(s)[i]["id"], Contents(s)[j]["id"])
  {
    var n := |s.rows|;
    if j < n {
      assert Contents(s)[i] == s.rows[i].value && Contents(s)[j] == s.rows[j].value;
    } else if i < n {
      assert Contents(s)[i] == s.rows[i].value && Contents(s)[j] == s.named[j - n].value;
    } else {
      assert Contents(s)[i] == s.named[i - n].value && Contents(s)[j] == s.named[j - n].value;
    }
  }

  /** Adds objects one after another, as repeated `addToSyncQueue` calls do, stopping at the first failure. */
  function AddEach(s: ObjectStore, items: seq<Item>): (r: Result<ObjectStore, StorageError>)
    requires WellFormed(s)
    ensures r.Success? ==> WellFormed(r.value)
    decreases |items|
  {
    if items == [] then Success(s)
    else
      match AddRow(s, items[0])
      case Failure(e) => Failure(e)
      case Success(p) => AddEach(p.0, items[1..])
  }

  /**
   * The queue is first in, first out: objects without an `id` of their own are
   * stored after every numerically keyed object already there, in the order
   * they were added, under consecutive generated keys.
   */
  lemma {:induction false} AppendOrder(s: ObjectStore, items: seq<Item>, t: ObjectStore)
    requires WellFormed(s) && AddEach(s, items) == Success(t)
    requires forall i :: 0 <= i < |items| ==> NoOwnKey(items[i])
    ensures t.rows == s.rows + Generations(items, s.current)
    ensures t.named == s.named
    decreases |items|
  {
    if items == [] {
      assert t == s;
    } else {
      var s1 := AddEachFirst(s, items, t);
      var tail := items[1..];
      forall j | 0 <= j < |tail| ensures NoOwnKey(tail[j]) {
        assert tail[j] == items[j + 1];
      }
      AppendOrder(s1, tail, t);
      AppendOne(s.rows, s1.rows, items, s.current, s1.current);
    }
  }

  /** Appending one generated record and then the rest is appending all of them. */
  lemma AppendOne(rows: seq<Row>, rows1: seq<Row>, items: seq<Item>, k: int, k1: int)
    requires items != [] && k1 == k + 1 && rows1 == rows + [Generation(items[0], k)]
    ensures rows1 + Generations(items[1..], k1) == rows + Generations(items, k)
  {
  }

  /** The record an add stores for an object without its own `id` under generated key `k`. */
  function Generation(item: Item, k: int): Row
  {
    Row(k, item["id" := Num(k)])
  }

  /** The records a run of adds of objects without their own `id` stores, from generated key `k` on. */
  function Generations(items: seq<Item>, k: int): (r: seq<Row>)
    ensures |r| == |items|
    ensures forall i :: 0 <= i < |items| ==> r[i] == Row(k + i, items[i]["id" := Num(k + i)])
  {
    if items == [] then []
    else
      var rest := Generations(items[1..], k + 1);
      assert forall i :: 0 < i < |items| ==> rest[i - 1] == Row(k + i, items[i]["id" := Num(k + i)]) by {
        forall i | 0 < i < |items| ensures rest[i - 1] == Row(k + i, items[i]["id" := Num(k + i)]) {
          assert items[1..][i - 1] == items[i];
        }
      }
      [Generation(items[0], k)] + rest
  }

  /** One step of AddEach on an object without its own `id`. */
  lemma AddEachFirst(s: ObjectStore, items: seq<Item>, t: ObjectStore) returns (s1: ObjectStore)
    requires WellFormed(s) && items != [] && AddEach(s, items) == Success(t)
    requires NoOwnKey(items[0])
    ensures WellFormed(s1) && AddEach(s1, items[1..]) == Success(t)
    ensures s1.current == s.current + 1 && s1.named == s.named
    ensures s1.rows == s.rows + [Generation(items[0], s.current)]
  {
    s1 := AddRow(s, items[0]).value.0;
  }

  /** The numeric keys a key stands for: itself if it is a number, none if it is a string. */
  function Numeric(k: Value): set<int>
  {
    if k.Num? then {k.n} else {}
  }

  /** What a store's bookkeeping keeps: well formed, numeric keys all issued, and the generator past every issued key. */
  predicate Tracks(s: ObjectStore, issued: set<int>)
  {
    && WellFormed(s)
    && Keys(s.rows) <= issued
    && (s.current <= MaxGeneratedKey ==> forall k :: k in issued ==> k < s.current)
  }

  /** A successful add keeps the bookkeeping once its key is recorded as issued. */
  lemma AddTracks(s: ObjectStore, issued: set<int>, item: Item)
    requires Tracks(s, issued) && AddRow(s, item).Success?
    ensures Tracks(AddRow(s, item).value.0, issued + Numeric(AddRow(s, item).value.1))
    ensures NoOwnKey(item) ==>
              AddRow(s, item).value.1.Num? && forall k :: k in issued ==> k < AddRow(s, item).value.1.n
  {
    var (s1, k) := AddRow(s, item).value;
    if k.Num? {
      forall x | x in Keys(s1.rows) ensures x in Keys(s.rows) + {k.n} {
        var y :| y in s1.rows && y.key == x;
      }
    }
  }

  /**
   * The app's database: the `patients`, `records` and `sync-queue` stores with
   * their indexes. `issued` records, for each store, every numeric key it has
   * ever assigned.
   */
  class StorageService {
    var patients: ObjectStore
    var records: ObjectStore
    var queue: ObjectStore
    ghost var issued: map<StoreName, set<int>>

    function Store(name: StoreName): ObjectStore
      reads this
    {
      match name
      case Patients => patients
      case Records => records
      case SyncQueue => queue
    }

    /** Each store is well formed, holds only keys it issued, and its generator is past all of them. */
    ghost predicate Valid()
      reads this
    {
      && Patients in issued && Records in issued && SyncQueue in issued
      && Tracks(patients, issued[Patients])
      && Tracks(records, issued[Records])
      && Tracks(queue, issued[SyncQueue])
    }

    lemma ValidStore(name: StoreName)
      requires Valid()
      ensures name in issued && Tracks(Store(name), issued[name])
    {
    }

    /** `init` on a new database: three empty stores whose generators start at 1. */
    constructor ()
      ensures Valid()
      ensures patients == Empty() && records == Empty() && queue == Empty()
      ensures issued == map[Patients := {}, Records := {}, SyncQueue := {}]
    {
      patients, records, queue := Empty(), Empty(), Empty();
      issued := map[Patients := {}, Records := {}, SyncQueue := {}];
    }

    /**
     * `add(storeName, item)`: the store changes as AddRow says and nothing else
     * does; the answer is the new key, and a generated one is never a key the
     * store's generator issued before.
     */
    method Add(name: StoreName, item: Item) returns (r: Result<Value, StorageError>)
      requires Valid()
      modifies this
      ensures Valid()
      ensures AddRow(old(Store(name)), item).Failure? ==>
                r == Failure(AddRow(old(Store(name)), item).error) && unchanged(this)
      ensures AddRow(old(Store(name)), item).Success? ==>
                && r == Success(AddRow(old(Store(name)), item).value.1)
                && Store(name) == AddRow(old(Store(name)), item).value.0
                && (forall other :: other != name ==> Store(other) == old(Store(other)))
                && issued == old(issued)[name := old(issued[name]) + Numeric(r.value)]
      ensures r.Success? && NoOwnKey(item) ==> r.value.Num? && forall k :: k in old(issued[name]) ==> k < r.value.n
    {
      ValidStore(name);
      var res := AddRow(Store(name), item);
      match res {
        case Failure(e) =>
          r := Failure(e);
        case Success(p) =>
          AddTracks(Store(name), issued[name], item);
          Put(name, p.0, issued[name] + Numeric(p.1));
          r := Success(p.1);
      }
    }

    /** Replaces one store and its issued keys, keeping the others. */
    method Put(name: StoreName, s: ObjectStore, ghost keys: set<int>)
      requires Valid() && Tracks(s, keys)
      modifies this
      ensures Valid()
      ensures Store(name) == s && issued == old(issued)[name := keys]
      ensures forall other :: other != name ==> Store(other) == old(Store(other))
    {
      issued := issued[name := keys];
      match name {
        case Patients => patients := s;
        case Records => records := s;
        case SyncQueue => queue := s;
      }
    }

    /**
     * `get(storeName, key)`: the object under a numeric or string key, if any;
     * an array key finds nothing, as no object is stored under one; anything
     * else is a DataError.
     */
    method Get(name: StoreName, key: Value) returns (r: Result<Option<Item>, StorageError>)
      ensures key.Num? ==> r == Success(Find(Store(name).rows, key.n))
      ensures key.Str? ==> r == Success(FindNamed(Store(name).named, key.s))
      ensures key.Arr? && IsValidKey(key) ==> r == Success(None)
      ensures !IsValidKey(key) ==> r == Failure(DataError)
    {
      match key {
        case Num(n) => r := Success(Find(Store(name).rows, n));
        case Str(s) => r := Success(FindNamed(Store(name).named, s));
        case _ => r := if IsValidKey(key) then Success(None) else Failure(DataError);
      }
    }

    /** `getAll(storeName)`: every stored object, in key order. */
    method GetAll(name: StoreName) returns (items: seq<Item>)
      ensures items == Contents(Store(name))
    {
      items := Contents(Store(name));
    }

    /**
     * `getByIndex(storeName, indexName, value)`: an index the store lacks is a
     * NotFoundError, a query that is no key is a DataError, and otherwise the
     * answer lists exactly the objects the index selects.
     */
    method GetByIndex(name: StoreName, indexName: string, query: Value) returns (r: Result<seq<Item>, StorageError>)
      ensures indexName !in Indexes(name) ==> r == Failure(NotFoundError)
      ensures indexName in Indexes(name) && IsValidKey(query) ==>
                r == Success(Matching(Contents(Store(name)), indexName, query))
      ensures indexName in Indexes(name) && (query.Undefined? || query.Null?) ==>
                && r.Success?
                && forall x :: x in r.value <==> x in Contents(Store(name)) && indexName in x && IsValidKey(x[indexName])
      ensures indexName in Indexes(name) && !IsValidKey(query) && !query.Undefined? && !query.Null? ==>
                r == Failure(DataError)
    {
      if indexName !in Indexes(name) {
        r := Failure(NotFoundError);
      } else if IsValidKey(query) || query.Undefined? || query.Null? {
        r := Success(Matching(Contents(Store(name)), indexName, query));
      } else {
        r := Failure(DataError);
      }
    }

    /** `addToSyncQueue(item)`: an `add` to `sync-queue`. */
    method AddToSyncQueue(item: Item) returns (r: Result<Value, StorageError>)
      requires Valid()
      modifies this
      ensures Valid()
      ensures AddRow(old(queue), item).Failure? ==> r == Failure(AddRow(old(queue), item).error) && unchanged(this)
      ensures AddRow(old(queue), item).Success? ==>
                && r == Success(AddRow(old(queue), item).value.1)
                && queue == AddRow(old(queue), item).value.0
                && patients == old(patients) && records == old(records)
    {
      r := Add(SyncQueue, item);
      assert Store(Patients) == old(Store(Patients)) && Store(Records) == old(Store(Records));
    }

    /** `getSyncQueue()`: the queued objects in key order. */
    method GetSyncQueue() returns (items: seq<Item>)
      ensures items == Contents(queue)
    {
      items := GetAll(SyncQueue);
    }

    /** `clearSyncQueue()`: `sync-queue` is emptied, keeping its generator; the other stores are untouched. */
    method ClearSyncQueue()
      requires Valid()
      modifies this
      ensures Valid()
      ensures queue.rows == [] && queue.named == [] && queue.current == old(queue.current)
      ensures patients == old(patients) && records == old(records) && issued == old(issued)
    {
      queue := Cleared(queue);
    }
  }
}
