/** The two catalogue tables (agents and model configurations) as the services use them.
    Both services issue the same Prisma queries over a table whose records carry a unique
    key (`agentId` or `modelId`), a `priority`, and the `isActive` and `isDefault` flags;
    this module defines those queries and updates once, over `Row<T>` where `T` holds the
    fields particular to each entity. */
module Catalog {
  import opened Wrappers

  datatype Row<T> = Row(key: string, priority: int, isActive: bool, isDefault: bool, data: T)

  /** The `data` argument of a Prisma `update`: each common column is set when given, and the
      entity's own fields are changed by the entity's `apply` function. */
  datatype Patch<P> = Patch(priority: Option<int>, isActive: Option<bool>, isDefault: Option<bool>, fields: P)

  /** The column keeps its value unless the update names it. */
  function Assign<U>(current: U, given: Option<U>): U
  {
    if given.Some? then given.value else current
  }

  /** A nullable column under an update: `undefined` keeps it, `null` clears it. */
  function AssignNullable<U>(current: Option<U>, given: Field<U>): Option<U>
  {
    match given
    case Undefined => current
    case Null => None
    case Present(v) => Some(v)
  }

  /** A column that may also be missing from the record (read back as `undefined`). */
  function AssignField<U>(current: Field<U>, given: Field<U>): Field<U>
  {
    if given.Undefined? then current else given
  }

  function Keys<T>(rows: seq<Row<T>>): set<string>
  {
    set i | 0 <= i < |rows| :: rows[i].key
  }

  /** The unique constraint on the key column. */
  ghost predicate UniqueKeys<T>(rows: seq<Row<T>>)
  {
    forall i, j :: 0 <= i < j < |rows| ==> rows[i].key != rows[j].key
  }

  /** The state invariant the create and update services try to keep. */
  ghost predicate AtMostOneDefault<T>(rows: seq<Row<T>>)
  {
    forall i, j :: 0 <= i < j < |rows| && rows[i].isDefault ==> !rows[j].isDefault
  }

  // ---------------------------------------------------------------- queries

  /** `where: includeInactive ? {} : { isActive: true }`. */
  function Eligible<T(==)>(rows: seq<Row<T>>, includeInactive: bool): (r: seq<Row<T>>)
    ensures forall i :: 0 <= i < |r| ==> r[i] in rows && (includeInactive || r[i].isActive)
    ensures forall i :: 0 <= i < |rows| && (includeInactive || rows[i].isActive) ==> rows[i] in r
    ensures includeInactive ==> r == rows
  {
    if includeInactive || rows == [] then rows
    else (if rows[0].isActive then [rows[0]] else []) + Eligible(rows[1..], false)
  }

  /** `orderBy: { priority: 'desc' }`. */
  ghost predicate ByPriority<T>(s: seq<Row<T>>)
  {
    forall i, j :: 0 <= i < j < |s| ==> s[i].priority >= s[j].priority
  }

  /** What `findMany` may answer: the eligible rows, each once, by descending priority.
      Rows of equal priority may come in any order. */
  ghost predicate IsListing<T>(rows: seq<Row<T>>, includeInactive: bool, r: seq<Row<T>>)
  {
    ByPriority(r) && multiset(r) == multiset(Eligible(rows, includeInactive))
  }

  /** Inserting `x` before the first row ranked strictly lower than it. */
  function InsertByPriority<T>(x: Row<T>, s: seq<Row<T>>): seq<Row<T>>
  {
    if s == [] || s[0].priority < x.priority then [x] + s
    else [s[0]] + InsertByPriority(x, s[1..])
  }

  /** Inserting into a sequence ordered by descending priority keeps it ordered and adds
      exactly the one row. */
  lemma {:induction false} InsertKeepsOrder<T>(x: Row<T>, s: seq<Row<T>>)
    requires ByPriority(s)
    ensures var r := InsertByPriority(x, s);
      && ByPriority(r) && multiset(r) == multiset(s) + multiset{x}
      && (r[0] == x || (s != [] && r[0] == s[0]))
  {
    if s == [] || s[0].priority < x.priority {
      ConsByPriority(x, s);
    } else {
      var rest := InsertByPriority(x, s[1..]);
      assert ByPriority(s[1..]);
      InsertKeepsOrder(x, s[1..]);
      assert s == [s[0]] + s[1..];
      assert rest[0].priority <= s[0].priority by {
        if rest[0] != x { assert rest[0] == s[1..][0]; }
      }
      ConsByPriority(s[0], rest);
      assert multiset([s[0]] + rest) == multiset{s[0]} + multiset(rest);
    }
  }

  /** Putting a row ranked no lower than the head in front keeps a sequence ordered. */
  lemma ConsByPriority<T>(h: Row<T>, rest: seq<Row<T>>)
    requires ByPriority(rest) && (rest == [] || rest[0].priority <= h.priority)
    ensures ByPriority([h] + rest)
  {
    var r := [h] + rest;
    forall i, j | 0 <= i < j < |r| ensures r[i].priority >= r[j].priority {
      assert r[j] == rest[j - 1];
      if i == 0 {
        assert rest[0].priority >= rest[j - 1].priority;
      } else {
        assert r[i] == rest[i - 1];
      }
    }
  }


  /** One admissible answer of `findMany(... orderBy priority desc)`. */
  function SortByPriority<T(==)>(s: seq<Row<T>>): (r: seq<Row<T>>)
    ensures ByPriority(r) && multiset(r) == multiset(s)
  {
    if s == [] then []
    else
      assert s == [s[0]] + s[1..];
      InsertKeepsOrder(s[0], SortByPriority(s[1..]));
      InsertByPriority(s[0], SortByPriority(s[1..]))
  }

  /** When every row is active, the listing without inactive rows keeps all of them, in their order. */
  lemma {:induction false} AllActiveEligible<T>(rows: seq<Row<T>>)
    requires forall i :: 0 <= i < |rows| ==> rows[i].isActive
    ensures Eligible(rows, false) == rows
  {
    if rows != [] {
      AllActiveEligible(rows[1..]);
      assert rows == [rows[0]] + rows[1..];
    }
  }

  /** A listing holds exactly the eligible rows. */
  lemma ListingMembers<T>(rows: seq<Row<T>>, includeInactive: bool, r: seq<Row<T>>)
    requires IsListing(rows, includeInactive, r)
    ensures forall x :: x in r <==> x in rows && (includeInactive || x.isActive)
  {
    var e := Eligible(rows, includeInactive);
    forall x ensures x in r <==> x in e {
      assert x in r <==> x in multiset(r);
      assert x in e <==> x in multiset(e);
    }
    forall x | x in rows && (includeInactive || x.isActive) ensures x in e {
      var i :| 0 <= i < |rows| && rows[i] == x;
    }
    forall x | x in e ensures x in rows && (includeInactive || x.isActive) {
      var i :| 0 <= i < |e| && e[i] == x;
    }
  }

  /** `findUnique({ where: { key } })`. */
  function FindByKey<T>(rows: seq<Row<T>>, key: string): (r: Option<Row<T>>)
    ensures r.Some? ==> r.value.key == key && exists i :: 0 <= i < |rows| && rows[i] == r.value
    ensures r.None? <==> key !in Keys(rows)
  {
    if rows == [] then None
    else if rows[0].key == key then Some(rows[0])
    else
      var r := FindByKey(rows[1..], key);
      assert Keys(rows) == {rows[0].key} + Keys(rows[1..]) by {
        forall k | k in Keys(rows) ensures k in {rows[0].key} + Keys(rows[1..]) {
          var i :| 0 <= i < |rows| && rows[i].key == k;
          if i > 0 { assert rows[1..][i - 1].key == k; }
        }
        forall k | k in Keys(rows[1..]) ensures k in Keys(rows) {
          var i :| 0 <= i < |rows[1..]| && rows[1..][i].key == k;
          assert rows[i + 1].key == k;
        }
      }
      assert r.Some? ==> exists i :: 0 <= i < |rows| && rows[i] == r.value by {
        if r.Some? {
          var i :| 0 <= i < |rows[1..]| && rows[1..][i] == r.value;
          assert rows[i + 1] == r.value;
        }
      }
      r
  }
  /** In a listing drawn from a table with unique keys, looking up a listed row's key finds that row. */
  lemma FindListedRow<T>(rows: seq<Row<T>>, listing: seq<Row<T>>, a: Row<T>)
    requires UniqueKeys(rows) && (forall x :: x in listing ==> x in rows) && a in listing
    ensures FindByKey(listing, a.key) == Some(a)
  {
    var found := FindByKey(listing, a.key);
    var m :| 0 <= m < |listing| && listing[m] == a;
    assert a.key in Keys(listing);
    var i :| 0 <= i < |listing| && listing[i] == found.value;
    assert found.value in rows;
    var j :| 0 <= j < |rows| && rows[j] == a;
    var k :| 0 <= k < |rows| && rows[k] == found.value;
    assert rows[j].key == rows[k].key;
  }


  /** What `getDefault*` may answer: a default-flagged active row if there is one
      (`findFirst` without an order, so any of them), else an active row of greatest
      priority, else null. */
  ghost predicate DefaultAnswer<T>(rows: seq<Row<T>>, r: Option<Row<T>>)
  {
    if exists i :: 0 <= i < |rows| && rows[i].isDefault && rows[i].isActive then
      r.Some? && r.value in rows && r.value.isDefault && r.value.isActive
    else if exists i :: 0 <= i < |rows| && rows[i].isActive then
      && r.Some? && r.value in rows && r.value.isActive
      && forall i :: 0 <= i < |rows| && rows[i].isActive ==> rows[i].priority <= r.value.priority
    else
      r == None
  }

  function FirstDefault<T(==)>(rows: seq<Row<T>>): (r: Option<Row<T>>)
    ensures r.Some? ==> r.value in rows && r.value.isDefault && r.value.isActive
    ensures r.None? ==> forall i :: 0 <= i < |rows| ==> !(rows[i].isDefault && rows[i].isActive)
  {
    if rows == [] then None
    else if rows[0].isDefault && rows[0].isActive then Some(rows[0])
    else
      var r := FirstDefault(rows[1..]);
      assert forall i :: 1 <= i < |rows| ==> rows[i] == rows[1..][i - 1];
      r
  }

  function TopActive<T(==)>(rows: seq<Row<T>>): (r: Option<Row<T>>)
    ensures r.Some? ==> r.value in rows && r.value.isActive
    ensures r.Some? ==> forall i :: 0 <= i < |rows| && rows[i].isActive ==> rows[i].priority <= r.value.priority
    ensures r.None? ==> forall i :: 0 <= i < |rows| ==> !rows[i].isActive
  {
    if rows == [] then None
    else
      var rest := TopActive(rows[1..]);
      assert forall i :: 1 <= i < |rows| ==> rows[i] == rows[1..][i - 1];
      if rows[0].isActive && (rest.None? || rest.value.priority < rows[0].priority) then Some(rows[0])
      else rest
  }

  /** One admissible answer of `getDefaultAgent` / `getDefaultModelConfig`. */
  function DefaultOf<T(==)>(rows: seq<Row<T>>): (r: Option<Row<T>>)
    ensures DefaultAnswer(rows, r)
  {
    var d := FirstDefault(rows);
    if d.Some? then d else TopActive(rows)
  }

  /** A default answer is null exactly when no row is active, and is otherwise an active row. */
  lemma DefaultAnswerActive<T>(rows: seq<Row<T>>, r: Option<Row<T>>)
    requires DefaultAnswer(rows, r)
    ensures r.Some? ==> r.value in rows && r.value.isActive
    ensures r.None? <==> forall x :: x in rows ==> !x.isActive
  {
    if r.None? {
      forall x | x in rows ensures !x.isActive {
        var i :| 0 <= i < |rows| && rows[i] == x;
      }
    }
  }

  /** When the table keeps at most one default and that row is active, it is the answer. */
  lemma DefaultAnswerIsTheDefault<T>(rows: seq<Row<T>>, d: Row<T>, r: Option<Row<T>>)
    requires AtMostOneDefault(rows)
    requires d in rows && d.isDefault && d.isActive
    requires DefaultAnswer(rows, r)
    ensures r == Some(d)
  {
    var j :| 0 <= j < |rows| && rows[j] == d;
    var i :| 0 <= i < |rows| && rows[i] == r.value;
    assert rows[i].isDefault && rows[j].isDefault;
  }

  // ---------------------------------------------------------------- updates

  /** One row after `updateMany({ where: { isDefault: true, key: { not: keep } }, data: { isDefault: false } })`;
      `keep == None` is the filter without the key condition. */
  function Unflag<T>(r: Row<T>, keep: Option<string>): Row<T>
  {
    if r.isDefault && keep != Some(r.key) then r.(isDefault := false) else r
  }

  function DefaultsCleared<T>(rows: seq<Row<T>>, keep: Option<string>): (r: seq<Row<T>>)
    ensures |r| == |rows|
    ensures forall i :: 0 <= i < |rows| ==> r[i] == Unflag(rows[i], keep)
  {
    seq(|rows|, i requires 0 <= i < |rows| => Unflag(rows[i], keep))
  }

  /** Clearing leaves no default except on the kept key, and changes nothing but flags. */
  lemma ClearedDefaults<T>(rows: seq<Row<T>>, keep: Option<string>)
    ensures var r := DefaultsCleared(rows, keep);
      && (forall i :: 0 <= i < |r| && r[i].isDefault ==> keep == Some(r[i].key))
      && (forall i :: 0 <= i < |r| ==> r[i] == rows[i].(isDefault := r[i].isDefault))
      && Keys(r) == Keys(rows)
  {
    var r := DefaultsCleared(rows, keep);
    assert forall i :: 0 <= i < |r| ==> r[i].key == rows[i].key;
    assert Keys(r) == Keys(rows) by {
      forall k | k in Keys(r) ensures k in Keys(rows) {
        var i :| 0 <= i < |r| && r[i].key == k;
      }
      forall k | k in Keys(rows) ensures k in Keys(r) {
        var i :| 0 <= i < |rows| && rows[i].key == k;
        assert r[i].key == k;
      }
    }
  }

  /** The table after `create*`: defaults cleared first when the new row is a default, then
      the row appended, unless its key is taken (the unique constraint makes `create` throw,
      but the clearing has already happened). */
  function Created<T>(rows: seq<Row<T>>, row: Row<T>): seq<Row<T>>
  {
    var cleared := if row.isDefault then DefaultsCleared(rows, None) else rows;
    if row.key in Keys(rows) then cleared else cleared + [row]
  }

  function Patched<T, P>(r: Row<T>, patch: Patch<P>, apply: (T, P) -> T): Row<T>
  {
    Row(r.key, Assign(r.priority, patch.priority), Assign(r.isActive, patch.isActive),
        Assign(r.isDefault, patch.isDefault), apply(r.data, patch.fields))
  }

  /** The table after Prisma's `update({ where: { key }, data: patch })`. */
  function RawUpdated<T, P>(rows: seq<Row<T>>, key: string, patch: Patch<P>, apply: (T, P) -> T): (r: seq<Row<T>>)
    ensures |r| == |rows|
    ensures forall i :: 0 <= i < |rows| ==> r[i] == if rows[i].key == key then Patched(rows[i], patch, apply) else rows[i]
  {
    seq(|rows|, i requires 0 <= i < |rows| => if rows[i].key == key then Patched(rows[i], patch, apply) else rows[i])
  }

  /** The table after `update*`: when the patch sets `isDefault`, every other key's default
      flag is cleared first, and that clearing stays even when no row has the key. */
  function Updated<T, P>(rows: seq<Row<T>>, key: string, patch: Patch<P>, apply: (T, P) -> T): seq<Row<T>>
  {
    var cleared := if patch.isDefault == Some(true) then DefaultsCleared(rows, Some(key)) else rows;
    RawUpdated(cleared, key, patch, apply)
  }

  /** The patch `delete*` sends: `{ isActive: false }`. */
  function Deactivate(): Patch<()>
  {
    Patch(None, Some(false), None, ())
  }

  function KeepFields<T>(data: T, u: ()): T
  {
    data
  }

  /** Appending a row adds exactly its key. */
  lemma KeysAppend<T>(rows: seq<Row<T>>, row: Row<T>)
    ensures Keys(rows + [row]) == Keys(rows) + {row.key}
  {
    var r := rows + [row];
    forall k | k in Keys(r) ensures k in Keys(rows) + {row.key} {
      var i :| 0 <= i < |r| && r[i].key == k;
      if i < |rows| { assert rows[i].key == k; }
    }
    forall k | k in Keys(rows) ensures k in Keys(r) {
      var i :| 0 <= i < |rows| && rows[i].key == k;
      assert r[i].key == k;
    }
    assert r[|rows|].key == row.key;
  }

  lemma RawUpdatedKeys<T, P>(rows: seq<Row<T>>, key: string, patch: Patch<P>, apply: (T, P) -> T)
    ensures Keys(RawUpdated(rows, key, patch, apply)) == Keys(rows)
  {
    var r := RawUpdated(rows, key, patch, apply);
    forall k | k in Keys(r) ensures k in Keys(rows) {
      var i :| 0 <= i < |r| && r[i].key == k;
    }
    forall k | k in Keys(rows) ensures k in Keys(r) {
      var i :| 0 <= i < |rows| && rows[i].key == k;
      assert r[i].key == k;
    }
  }

  /** Creating keeps the key unique and at most one default; a new default row ends up the
      only default, and a non-default create leaves every existing row as it was. */
  lemma CreatedInvariants<T>(rows: seq<Row<T>>, row: Row<T>)
    requires UniqueKeys(rows) && AtMostOneDefault(rows)
    ensures UniqueKeys(Created(rows, row)) && AtMostOneDefault(Created(rows, row))
    ensures row.key !in Keys(rows) ==> Created(rows, row)[|rows|] == row
    ensures row.isDefault && row.key !in Keys(rows) ==>
      forall i :: 0 <= i < |Created(rows, row)| && Created(rows, row)[i].isDefault ==> i == |rows|
    ensures !row.isDefault ==> Created(rows, row)[..|rows|] == rows
  {
    var r := Created(rows, row);
    var cleared := if row.isDefault then DefaultsCleared(rows, None) else rows;
    ClearedDefaults(rows, None);
    assert |cleared| == |rows|;
    assert forall i :: 0 <= i < |rows| ==> cleared[i].key == rows[i].key;
    if row.key !in Keys(rows) {
      assert r == cleared + [row];
      forall i | 0 <= i < |rows| ensures r[i].key != row.key {
        assert rows[i].key in Keys(rows);
      }
    }
  }

  /** Updating keeps the key unique and at most one default; when the patch sets the
      default flag and the key exists, the updated row is the only default. */
  lemma UpdatedInvariants<T, P>(rows: seq<Row<T>>, key: string, patch: Patch<P>, apply: (T, P) -> T)
    requires UniqueKeys(rows) && AtMostOneDefault(rows)
    ensures var r := Updated(rows, key, patch, apply);
      && UniqueKeys(r) && AtMostOneDefault(r) && |r| == |rows|
      && (patch.isDefault == Some(true) ==>
            forall i :: 0 <= i < |r| ==> (r[i].isDefault <==> r[i].key == key))
  {
    var cleared := if patch.isDefault == Some(true) then DefaultsCleared(rows, Some(key)) else rows;
    ClearedDefaults(rows, Some(key));
    var r := RawUpdated(cleared, key, patch, apply);
    assert forall i :: 0 <= i < |rows| ==> r[i].key == rows[i].key;
    forall i, j | 0 <= i < j < |r| && r[i].isDefault ensures !r[j].isDefault {
      if patch.isDefault == Some(true) {
        assert r[i].key == key;
      }
    }
  }

  /** An update of a missing key changes no row's data, yet a default-setting patch has
      already cleared every default flag. */
  lemma UpdateOfMissingKey<T, P>(rows: seq<Row<T>>, key: string, patch: Patch<P>, apply: (T, P) -> T)
    requires key !in Keys(rows)
    ensures patch.isDefault == Some(true) ==> Updated(rows, key, patch, apply) == DefaultsCleared(rows, None)
    ensures patch.isDefault != Some(true) ==> Updated(rows, key, patch, apply) == rows
  {
    assert forall i :: 0 <= i < |rows| ==> rows[i].key != key by {
      forall i | 0 <= i < |rows| ensures rows[i].key != key { assert rows[i].key in Keys(rows); }
    }
  }

  /** A soft delete keeps the row and all its columns except `isActive`, which becomes false;
      afterwards that row is never the default answer. */
  lemma SoftDeleteOnlyDeactivates<T>(rows: seq<Row<T>>, key: string, r: Option<Row<T>>)
    requires UniqueKeys(rows)
    requires DefaultAnswer(RawUpdated(rows, key, Deactivate(), KeepFields), r)
    ensures var d := RawUpdated(rows, key, Deactivate(), KeepFields);
      && |d| == |rows|
      && (forall i :: 0 <= i < |rows| && rows[i].key == key ==> d[i] == rows[i].(isActive := false))
      && (forall i :: 0 <= i < |rows| && rows[i].key != key ==> d[i] == rows[i])
      && (r.Some? ==> r.value.key != key)
  {
    var d := RawUpdated(rows, key, Deactivate(), KeepFields);
    DefaultAnswerActive(d, r);
    if r.Some? {
      var i :| 0 <= i < |d| && d[i] == r.value;
    }
  }

  // ---------------------------------------------------------------- the table

  /** One database table, updated in place by the services. */
  class Table<T(==)> {
    var rows: seq<Row<T>>

    ghost predicate Valid()
      reads this
    {
      UniqueKeys(rows)
    }

    constructor (rows: seq<Row<T>>)
      requires UniqueKeys(rows)
      ensures Valid() && this.rows == rows
    {
      this.rows := rows;
    }

    function GetAll(includeInactive: bool): (r: seq<Row<T>>)
      reads this
      ensures IsListing(rows, includeInactive, r)
    {
      SortByPriority(Eligible(rows, includeInactive))
    }

    function GetByKey(key: string): (r: Option<Row<T>>)
      reads this
      ensures r.Some? ==> r.value in rows && r.value.key == key
      ensures r.None? <==> key !in Keys(rows)
    {
      FindByKey(rows, key)
    }

    function GetDefault(): (r: Option<Row<T>>)
      reads this
      ensures DefaultAnswer(rows, r)
    {
      DefaultOf(rows)
    }

    /** `count({ where: { key } }) > 0`. */
    function Exists(key: string): (b: bool)
      reads this
      ensures b <==> exists i :: 0 <= i < |rows| && rows[i].key == key
    {
      FindByKey(rows, key).Some?
    }

    /** `deleteMany({})`: every row removed. */
    method DeleteAll()
      modifies this
      ensures Valid() && rows == []
    {
      rows := [];
    }

    /** `updateMany` clearing the default flag of every row whose key is not `keep`. */
    method ClearDefaults(keep: Option<string>)
      modifies this
      ensures rows == DefaultsCleared(old(rows), keep)
    {
      var i := 0;
      while i < |rows|
        invariant 0 <= i <= |rows| == |old(rows)|
        invariant forall k :: 0 <= k < i ==> rows[k] == Unflag(old(rows)[k], keep)
        invariant forall k :: i <= k < |rows| ==> rows[k] == old(rows)[k]
      {
        if rows[i].isDefault && keep != Some(rows[i].key) {
          rows := rows[i := rows[i].(isDefault := false)];
        }
        i := i + 1;
      }
    }

    /** Prisma `create`; `ok` is false when the key is taken and the insert throws. */
    method Insert(row: Row<T>) returns (ok: bool)
      requires Valid()
      modifies this
      ensures Valid()
      ensures ok <==> row.key !in Keys(old(rows))
      ensures rows == if ok then old(rows) + [row] else old(rows)
    {
      ok := FindByKey(rows, row.key).None?;
      if ok {
        forall i | 0 <= i < |rows| ensures rows[i].key != row.key {
          assert rows[i].key in Keys(rows);
        }
        rows := rows + [row];
      }
    }

    /** Prisma `update` by key; `ok` is false when no row has the key and the update throws. */
    method RawUpdate<P>(key: string, patch: Patch<P>, apply: (T, P) -> T) returns (ok: bool)
      requires Valid()
      modifies this
      ensures Valid()
      ensures ok <==> key in Keys(old(rows))
      ensures rows == RawUpdated(old(rows), key, patch, apply)
    {
      var i := 0;
      while i < |rows| && rows[i].key != key
        invariant 0 <= i <= |rows|
        invariant forall k :: 0 <= k < i ==> rows[k].key != key
      {
        i := i + 1;
      }
      ok := i < |rows|;
      if ok {
        rows := rows[i := Patched(rows[i], patch, apply)];
      } else {
        assert key !in Keys(rows);
      }
      assert rows == RawUpdated(old(rows), key, patch, apply);
    }

    /** `create*`: clear every default first when the new row is a default, then insert. */
    method Create(row: Row<T>) returns (ok: bool)
      requires Valid()
      modifies this
      ensures Valid()
      ensures ok <==> row.key !in Keys(old(rows))
      ensures rows == Created(old(rows), row)
    {
      if row.isDefault {
        ClearDefaults(None);
        ClearedDefaults(old(rows), None);
      }
      ok := Insert(row);
    }

    /** `update*`: clear the other defaults first when the patch sets the flag, then update. */
    method Update<P>(key: string, patch: Patch<P>, apply: (T, P) -> T) returns (ok: bool)
      requires Valid()
      modifies this
      ensures Valid()
      ensures ok <==> key in Keys(old(rows))
      ensures rows == Updated(old(rows), key, patch, apply)
    {
      if patch.isDefault == Some(true) {
        ClearDefaults(Some(key));
        ClearedDefaults(old(rows), Some(key));
      }
      ok := RawUpdate(key, patch, apply);
    }

    /** `delete*`: a soft delete that only sets `isActive` to false. */
    method SoftDelete(key: string) returns (ok: bool)
      requires Valid()
      modifies this
      ensures Valid()
      ensures ok <==> key in Keys(old(rows))
      ensures rows == RawUpdated(old(rows), key, Deactivate(), KeepFields)
    {
      ok := RawUpdate(key, Deactivate(), KeepFields);
    }
  }
}
