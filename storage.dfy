/**
 * The storage component: the only owner of the `downtime_codes` table.
 *
 * The table is held in memory as the sequence of its rows in insertion order,
 * together with the next value of the sequence behind the serial `id` column.
 * Searches are read-only functions of that state; creating a code is a method
 * that appends a row and draws the next id from the sequence.
 */
module Storage {
  import opened Wrappers
  import opened Text
  import opened Seqs
  import opened SqlLike
  import opened Schema

  /** The name given to the unique constraint on `code`. */
  const CodeUniqueConstraint: string := "downtime_codes_code_unique"

  /** The two ways an insert into the table can fail. */
  datatype DbError =
    | StringDataRightTruncation(maxLength: nat)  // a value longer than its varchar column
    | UniqueViolation(constraint: string)        // a `code` that some row already has

  /** The pattern the search hands to ILIKE: the lower-cased query between two `%`,
      with no escaping of the query's own `%`, `_` or `\`. */
  function SearchPattern(query: string): (pattern: string)
  {
    "%" + Lower(query) + "%"
  }

  /** The WHERE clause of the search: `code`, `description` or `machine` ILIKE the
      pattern. The `type` column is not consulted. */
  predicate RowMatches(row: DowntimeCode, pattern: string)
  {
    ILike(row.code, pattern) || ILike(row.description, pattern) || ILike(row.machine, pattern)
  }

  /** The row the store builds for `input` under `id`: each varchar value is
      assigned in column order, the first one that does not fit aborts the insert. */
  function StoredRow(input: InsertDowntimeCode, id: int): (r: Result<DowntimeCode, DbError>)
    ensures r.Success? ==> r.value.id == id && FitsColumns(r.value)
    ensures r.Success? ==> r.value.description == input.description
    ensures FitsColumns(ToRecord(input, id)) ==> r == Success(ToRecord(input, id))
    ensures r == Failure(StringDataRightTruncation(CodeMaxLength)) <==> AssignVarchar(input.code, CodeMaxLength).None?
    ensures r.Success? <==>
      && AssignVarchar(input.code, CodeMaxLength).Some?
      && AssignVarchar(input.machine, MachineMaxLength).Some?
      && AssignVarchar(input.faultType, TypeMaxLength).Some?
    ensures r.Success? ==>
      r.value == DowntimeCode(id, AssignVarchar(input.code, CodeMaxLength).value, input.description,
                              AssignVarchar(input.machine, MachineMaxLength).value,
                              AssignVarchar(input.faultType, TypeMaxLength).value)
  {
    match AssignVarchar(input.code, CodeMaxLength)
    case None => Failure(StringDataRightTruncation(CodeMaxLength))
    case Some(code) =>
      match AssignVarchar(input.machine, MachineMaxLength)
      case None => Failure(StringDataRightTruncation(MachineMaxLength))
      case Some(machine) =>
        match AssignVarchar(input.faultType, TypeMaxLength)
        case None => Failure(StringDataRightTruncation(TypeMaxLength))
        case Some(faultType) => Success(DowntimeCode(id, code, input.description, machine, faultType))
  }

  /** What `INSERT ... RETURNING` yields for `input` against `table` when the
      sequence hands out `id`: the new row, or the error that aborts the insert. */
  function InsertOutcome(table: seq<DowntimeCode>, input: InsertDowntimeCode, id: int): (r: Result<DowntimeCode, DbError>)
    ensures r.Success? ==> r.value.id == id && FitsColumns(r.value) && !CodeTaken(table, r.value.code)
    ensures r.Failure? && r.error.UniqueViolation? ==> StoredRow(input, id).Success? && CodeTaken(table, StoredRow(input, id).value.code)
    ensures StoredRow(input, id).Failure? ==> r == StoredRow(input, id)
    ensures r.Success? ==> r == StoredRow(input, id)
    ensures StoredRow(input, id).Success? && !CodeTaken(table, StoredRow(input, id).value.code) ==> r == StoredRow(input, id)
    ensures StoredRow(input, id).Success? && CodeTaken(table, StoredRow(input, id).value.code) ==>
      r == Failure(UniqueViolation(CodeUniqueConstraint))
    ensures FitsColumns(ToRecord(input, id)) ==>
      r == if CodeTaken(table, input.code) then Failure(UniqueViolation(CodeUniqueConstraint)) else Success(ToRecord(input, id))
  {
    match StoredRow(input, id)
    case Failure(e) => Failure(e)
    case Success(row) =>
      if CodeTaken(table, row.code) then Failure(UniqueViolation(CodeUniqueConstraint)) else Success(row)
  }

  /** A successful insert under an id above every existing one keeps the table's constraints. */
  lemma InsertKeepsInvariant(table: seq<DowntimeCode>, input: InsertDowntimeCode, id: int)
    requires TableInvariant(table)
    requires forall i :: 0 <= i < |table| ==> table[i].id < id
    ensures InsertOutcome(table, input, id).Success? ==> TableInvariant(table + [InsertOutcome(table, input, id).value])
  {
    var r := InsertOutcome(table, input, id);
    if r.Success? {
      var t := table + [r.value];
      forall i, j | 0 <= i < j < |t|
        ensures t[i].code != t[j].code && t[i].id != t[j].id
      {
        if j == |table| {
          assert t[i] == table[i];
        }
      }
    }
  }

  class DatabaseStorage {
    /** The table's rows in insertion order. */
    var rows: seq<DowntimeCode>
    /** The next value of the sequence behind the serial `id` column. */
    var nextId: int

    ghost predicate Valid()
      reads this
    {
      && TableInvariant(rows)
      && 1 <= nextId
      && forall i :: 0 <= i < |rows| ==> 1 <= rows[i].id < nextId
    }

    /** A fresh, empty table whose sequence starts at 1. */
    constructor ()
      ensures Valid() && rows == [] && nextId == 1
    {
      rows := [];
      nextId := 1;
    }

    /** `SELECT * FROM downtime_codes`. */
    function GetAllDowntimeCodes(): (r: seq<DowntimeCode>)
      reads this
      ensures r == rows
    {
      rows
    }

    /** An empty query lists the whole table; any other query keeps, in table
        order, the rows whose code, description or machine is ILIKE the pattern. */
    function SearchDowntimeCodes(query: string): (r: seq<DowntimeCode>)
      reads this
      ensures query == "" ==> r == GetAllDowntimeCodes()
      ensures query != "" ==> forall x :: x in r <==> x in rows && RowMatches(x, SearchPattern(query))
      ensures IsSubsequence(r, rows) && multiset(r) <= multiset(rows) && |r| <= |rows|
    {
      SubsequenceReflexive(rows);
      if query == "" then GetAllDowntimeCodes()
      else Filter(rows, row => RowMatches(row, SearchPattern(query)))
    }

    /** `INSERT INTO downtime_codes ... RETURNING *`. A value too long for its
        column is taken to be rejected while the statement is planned, before
        the sequence is drawn; an insert that gets as far as the unique check
        has drawn its id, whether or not the code turns out to be taken. */
    method CreateDowntimeCode(input: InsertDowntimeCode) returns (result: Result<DowntimeCode, DbError>)
      requires Valid()
      modifies this
      ensures Valid()
      ensures result == InsertOutcome(old(rows), input, old(nextId))
      ensures rows == if result.Success? then old(rows) + [result.value] else old(rows)
      ensures nextId == if StoredRow(input, old(nextId)).Success? then old(nextId) + 1 else old(nextId)
      ensures result.Success? ==> forall i :: 0 <= i < |old(rows)| ==> old(rows)[i].id < result.value.id
      ensures CodeTaken(old(rows), input.code) ==> result.Failure? && rows == old(rows)
    {
      InsertKeepsInvariant(rows, input, nextId);
      result := InsertOutcome(rows, input, nextId);
      if CodeTaken(rows, input.code) {
        var i :| 0 <= i < |rows| && rows[i].code == input.code;
        assert FitsColumns(rows[i]);
      }
      if result.Success? {
        rows := rows + [result.value];
      }
      if StoredRow(input, nextId).Success? {
        nextId := nextId + 1;
      }
    }
  }

  /** The ILIKE test against a search pattern is case-insensitive substring
      containment when the query holds no `%`, `_` or `\`. */
  lemma ILikeSearchPatternIsContains(field: string, query: string)
    requires IsPlain(query)
    ensures ILike(field, SearchPattern(query)) <==> Contains(Lower(field), Lower(query))
  {
    var q := Lower(query);
    assert Lower(SearchPattern(query)) == "%" + q + "%";
    assert IsPlain(q) by {
      forall i | 0 <= i < |q| ensures q[i] != '%' && q[i] != '_' && q[i] != Escape {
        assert q[i] == LowerChar(query[i]);
      }
    }
    LikeInfixIsContains(Lower(field), q);
  }

  /** For a non-empty query without LIKE wildcards, a row is found exactly when the
      lower-cased query is a substring of its lower-cased code, description or machine. */
  lemma SearchIsSubstringMatch(s: DatabaseStorage, query: string, x: DowntimeCode)
    requires query != "" && IsPlain(query)
    ensures x in s.SearchDowntimeCodes(query) <==>
      x in s.rows && (|| Contains(Lower(x.code), Lower(query))
                      || Contains(Lower(x.description), Lower(query))
                      || Contains(Lower(x.machine), Lower(query)))
  {
    ILikeSearchPatternIsContains(x.code, query);
    ILikeSearchPatternIsContains(x.description, query);
    ILikeSearchPatternIsContains(x.machine, query);
  }

  /** Queries that differ only in letter case find the same rows in the same order. */
  lemma SearchIgnoresCase(s: DatabaseStorage, q1: string, q2: string)
    requires Lower(q1) == Lower(q2)
    ensures s.SearchDowntimeCodes(q1) == s.SearchDowntimeCodes(q2)
  {
    assert |q1| == |Lower(q1)| == |Lower(q2)| == |q2|;
  }

  /** The query is not escaped: "%" becomes the pattern "%%%", which every row
      matches, so it lists the whole table like the empty query does. */
  lemma PercentQueryListsAll(s: DatabaseStorage)
    ensures s.SearchDowntimeCodes("%") == s.rows
  {
    assert SearchPattern("%") == "%%%";
    forall x | x in s.rows
      ensures RowMatches(x, "%%%")
    {
      var c := Lower(x.code);
      PercentMatchesAll(c);
      assert Lower("%%%") == "%%%";
      assert "%%%"[1..] == "%%" && "%%"[1..] == "%";
      assert Like(c, "%%");
    }
    FilterKeepsAll(s.rows, row => RowMatches(row, SearchPattern("%")));
  }

  /** "_" becomes "%_%", which needs one character of anything: a row is found
      exactly when its code, description or machine is non-empty. */
  lemma UnderscoreQueryMatchesAnyCharacter(s: DatabaseStorage, x: DowntimeCode)
    ensures x in s.SearchDowntimeCodes("_") <==>
      x in s.rows && (x.code != "" || x.description != "" || x.machine != "")
  {
    assert SearchPattern("_") == "%" + "_%";
    assert Lower("%" + "_%") == "%" + "_%";
    NonEmptyIffUnderscore(Lower(x.code));
    NonEmptyIffUnderscore(Lower(x.description));
    NonEmptyIffUnderscore(Lower(x.machine));
  }

  lemma NonEmptyIffUnderscore(t: string)
    ensures Like(t, "%" + "_%") <==> t != ""
  {
    LeadingPercent(t, "_%");
    if t != "" {
      PercentMatchesAll(t[1..]);
      assert t[0..] == t;
      assert Like(t[0..], "_%");
    }
    if exists i :: 0 <= i <= |t| && Like(t[i..], "_%") {
      var i :| 0 <= i <= |t| && Like(t[i..], "_%");
      assert i < |t|;
    }
  }
}
