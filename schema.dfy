/**
 * The `downtime_codes` table: the record shape, its column constraints and
 * the insert shape, together with the validation outcome of the insert schema.
 */
module Schema {
  import opened Wrappers

  /** Declared widths of the varchar columns. `description` is unbounded text. */
  const CodeMaxLength: nat := 50
  const MachineMaxLength: nat := 100
  const TypeMaxLength: nat := 100

  /** A row of `downtime_codes`. The `type` column is `faultType` here,
      because `type` is a reserved word in Dafny. */
  datatype DowntimeCode = DowntimeCode(id: int, code: string, description: string, machine: string, faultType: string)

  /** The insert shape: a row without its generated `id`. */
  datatype InsertDowntimeCode = InsertDowntimeCode(code: string, description: string, machine: string, faultType: string)

  /** One validation failure reported by the insert schema: a message and the
      path to the offending value (object keys and array indices). */
  datatype PathSegment = Key(name: string) | Index(position: nat)
  datatype Issue = Issue(message: string, path: seq<PathSegment>)

  /** What parsing a request body against the insert schema yields. A failed
      parse always reports at least one issue, so the first one is separate. */
  datatype Validation = Valid(input: InsertDowntimeCode) | Invalid(first: Issue, rest: seq<Issue>)

  /** The row the table holds for `input` once it has been given `id`. */
  function ToRecord(input: InsertDowntimeCode, id: int): (r: DowntimeCode)
    ensures r.id == id
  {
    DowntimeCode(id, input.code, input.description, input.machine, input.faultType)
  }

  /** The insert shape of a row: everything but its id. */
  function ToInsert(r: DowntimeCode): (ins: InsertDowntimeCode)
  {
    InsertDowntimeCode(r.code, r.description, r.machine, r.faultType)
  }

  /** The insert shape is exactly the record minus its id: the two conversions
      are inverse, so a caller never supplies an id and loses nothing else. */
  lemma InsertShapeIsRecordWithoutId(input: InsertDowntimeCode, id: int, r: DowntimeCode)
    ensures ToInsert(ToRecord(input, id)) == input
    ensures ToRecord(ToInsert(r), r.id) == r
  {
  }

  /** The record respects every varchar width. */
  predicate FitsColumns(r: DowntimeCode)
  {
    |r.code| <= CodeMaxLength && |r.machine| <= MachineMaxLength && |r.faultType| <= TypeMaxLength
  }

  /** Storing `s` in a `varchar(n)` column: a longer string is an error unless
      everything past the n-th character is a space, which is then cut off. */
  function AssignVarchar(s: string, n: nat): (r: Option<string>)
    ensures r.Some? <==> |s| <= n || forall i :: n <= i < |s| ==> s[i] == ' '
    ensures r.Some? ==> |r.value| <= n && r.value <= s
    ensures |s| <= n ==> r == Some(s)
    ensures |s| > n && r.Some? ==> r.value == s[..n]
  {
    if |s| <= n then Some(s)
    else if forall i :: n <= i < |s| ==> s[i] == ' ' then Some(s[..n])
    else None
  }

  /** Every id in the table belongs to one row only (`id` is the primary key). */
  predicate UniqueIds(rows: seq<DowntimeCode>)
  {
    forall i, j :: 0 <= i < j < |rows| ==> rows[i].id != rows[j].id
  }

  /** No two rows share a `code` (the unique constraint on `code`). */
  predicate UniqueCodes(rows: seq<DowntimeCode>)
  {
    forall i, j :: 0 <= i < j < |rows| ==> rows[i].code != rows[j].code
  }

  /** The constraints every state of the table satisfies. */
  predicate TableInvariant(rows: seq<DowntimeCode>)
  {
    && UniqueIds(rows)
    && UniqueCodes(rows)
    && forall i :: 0 <= i < |rows| ==> FitsColumns(rows[i])
  }

  predicate CodeTaken(rows: seq<DowntimeCode>, code: string)
  {
    exists i :: 0 <= i < |rows| && rows[i].code == code
  }

  /** The rows that inserting `entries` one by one produces when every insert
      succeeds and the id sequence hands out `start`, `start + 1`, ... */
  function Enumerate(entries: seq<InsertDowntimeCode>, start: int): (t: seq<DowntimeCode>)
    ensures |t| == |entries|
    ensures forall i :: 0 <= i < |t| ==> t[i] == ToRecord(entries[i], start + i)
  {
    seq(|entries|, i requires 0 <= i < |entries| => ToRecord(entries[i], start + i))
  }

  /** Entries with pairwise distinct codes that fit their columns form a table
      that satisfies every constraint. */
  lemma EnumeratedTableValid(entries: seq<InsertDowntimeCode>, start: int)
    requires forall i, j :: 0 <= i < j < |entries| ==> entries[i].code != entries[j].code
    requires forall i :: 0 <= i < |entries| ==> FitsColumns(ToRecord(entries[i], 0))
    ensures TableInvariant(Enumerate(entries, start))
  {
    var t := Enumerate(entries, start);
    forall i | 0 <= i < |t|
      ensures FitsColumns(t[i])
    {
      assert FitsColumns(ToRecord(entries[i], 0));
    }
  }
}
