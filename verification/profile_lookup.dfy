/**
 * StudentProfileLookup: a table from student id to name, filled once, when
 * the object is built, from the rows of students.csv, and read with "" as
 * the default.
 */
module ProfileLookup {
  import opened Wrappers
  import opened Text

  /**
   * One step of the CSV reader: a record (column name to value; the parser
   * may give null) or a read error, which ends the loop with an exception.
   */
  datatype CsvEntry = Record(values: map<string, Option<string>>) | ReadError

  /** The classpath resource students.csv: absent, unreadable as a whole, or its records. */
  datatype ProfileSource = NoFile | Unreadable | Rows(entries: seq<CsvEntry>)

  /** A record with both columns, which the loop can read without an exception. */
  predicate Readable(e: CsvEntry) {
    e.Record? && "student_id" in e.values && "name" in e.values
  }

  /** The id of a readable record, if it is stored: not null and not blank. */
  function StoredId(e: CsvEntry): Option<string>
    requires Readable(e)
  {
    var id := e.values["student_id"];
    if id.Some? && !IsBlank(id.value) then id else None
  }

  /** The name of a readable record, with null stored as "". */
  function StoredName(e: CsvEntry): string
    requires Readable(e)
  {
    e.values["name"].GetOr("")
  }

  /**
   * The loading loop over `entries`, starting from `table`: each readable
   * record with a stored id puts its name; the first entry that is not
   * readable throws, which ends the loop and keeps what was put so far.
   */
  function Load(table: map<string, string>, entries: seq<CsvEntry>): map<string, string>
    decreases |entries|
  {
    if entries == [] || !Readable(entries[0]) then table
    else
      var id := StoredId(entries[0]);
      Load(if id.Some? then table[id.value := StoredName(entries[0])] else table, entries[1..])
  }

  /** The table after construction. */
  function Loaded(source: ProfileSource): map<string, string> {
    match source
    case Rows(entries) => Load(map[], entries)
    case _ => map[]
  }

  /** Every entry can be read, so the loop runs to the end. */
  predicate AllReadable(entries: seq<CsvEntry>) {
    forall j :: 0 <= j < |entries| ==> Readable(entries[j])
  }

  /**
   * An independent reading of the table: the name of the LAST readable
   * record whose stored id is `id`.
   */
  function LastNameFor(entries: seq<CsvEntry>, id: string): Option<string>
    requires AllReadable(entries)
  {
    if entries == [] then None
    else
      var last := entries[|entries| - 1];
      if StoredId(last) == Some(id) then Some(StoredName(last))
      else LastNameFor(entries[..|entries| - 1], id)
  }

  // ---------------------------------------------------------------------------
  // Properties of the loading loop

  /** Loading in two runs is loading once, when the first run meets no exception. */
  lemma {:induction false} LoadAppend(table: map<string, string>, first: seq<CsvEntry>, rest: seq<CsvEntry>)
    requires AllReadable(first)
    ensures Load(table, first + rest) == Load(Load(table, first), rest)
    decreases |first|
  {
    if first != [] {
      assert (first + rest)[0] == first[0];
      assert (first + rest)[1..] == first[1..] + rest;
      var id := StoredId(first[0]);
      LoadAppend(if id.Some? then table[id.value := StoredName(first[0])] else table, first[1..], rest);
    } else {
      assert first + rest == rest;
    }
  }

  /** An entry that cannot be read ends the loading: nothing after it is stored. */
  lemma ExceptionStopsLoading(table: map<string, string>, first: seq<CsvEntry>, bad: CsvEntry, rest: seq<CsvEntry>)
    requires AllReadable(first) && !Readable(bad)
    ensures Load(table, first + [bad] + rest) == Load(table, first)
  {
    LoadAppend(table, first, [bad] + rest);
    assert first + [bad] + rest == first + ([bad] + rest);
  }

  /**
   * When the whole file is read, an id is in the table exactly when some
   * record stores it, and it maps to the name of the last such record: a
   * later record overwrites an earlier one.
   */
  lemma {:induction false} LoadedIsLastName(entries: seq<CsvEntry>, id: string)
    requires AllReadable(entries)
    ensures id in Load(map[], entries) <==> LastNameFor(entries, id).Some?
    ensures id in Load(map[], entries) ==> Load(map[], entries)[id] == LastNameFor(entries, id).value
  {
    if entries != [] {
      var init, last := entries[..|entries| - 1], entries[|entries| - 1];
      assert entries == init + [last];
      LoadAppend(map[], init, [last]);
      LoadedIsLastName(init, id);
      var m := Load(map[], init);
      var sid := StoredId(last);
      assert Load(map[], entries) == (if sid.Some? then m[sid.value := StoredName(last)] else m);
    }
  }

  /** Blank ids and null ids are never keys of the table. */
  lemma {:induction false} LoadSkipsBlankIds(table: map<string, string>, entries: seq<CsvEntry>, id: string)
    requires id !in table && IsBlank(id)
    ensures id !in Load(table, entries)
    decreases |entries|
  {
    if entries != [] && Readable(entries[0]) {
      var sid := StoredId(entries[0]);
      LoadSkipsBlankIds(if sid.Some? then table[sid.value := StoredName(entries[0])] else table, entries[1..], id);
    }
  }

  class StudentProfileLookup {
    /** The id-to-name table; written only by the constructor. */
    var studentNames: map<string, string>

    /** Builds the table from students.csv. */
    constructor (source: ProfileSource)
      ensures studentNames == Loaded(source)
      ensures !source.Rows? ==> studentNames == map[]
    {
      studentNames := map[];
      new;
      LoadProfiles(source);
    }

    /**
     * loadProfiles: a missing or unreadable file leaves the table as it is;
     * otherwise the records are put in order until the first exception.
     */
    method LoadProfiles(source: ProfileSource)
      modifies this
      ensures source.Rows? ==> studentNames == Load(old(studentNames), source.entries)
      ensures !source.Rows? ==> studentNames == old(studentNames)
    {
      if !source.Rows? {
        return;
      }
      var entries := source.entries;
      var i := 0;
      while i < |entries|
        invariant 0 <= i <= |entries|
        invariant Load(studentNames, entries[i..]) == Load(old(studentNames), entries)
      {
        if !Readable(entries[i]) {
          return;
        }
        var values := entries[i].values;
        var studentId := values["student_id"];
        var name := values["name"];
        if studentId.Some? && !IsBlank(studentId.value) {
          studentNames := studentNames[studentId.value := if name.None? then "" else name.value];
        }
        assert entries[i..][1..] == entries[i + 1..];
        i := i + 1;
      }
    }

    /** getNameById: "" for a null id or one that is not in the table. */
    function GetNameById(studentId: Option<string>): (r: string)
      reads this
      ensures studentId.None? ==> r == ""
      ensures studentId.Some? && studentId.value !in studentNames ==> r == ""
      ensures studentId.Some? && studentId.value in studentNames ==> r == studentNames[studentId.value]
    {
      if studentId.None? then ""
      else if studentId.value in studentNames then studentNames[studentId.value]
      else ""
    }
  }

  // ---------------------------------------------------------------------------
  // Lookups on a built table

  /**
   * After a file that reads to the end, a lookup gives the name of the last
   * record for that id, and "" for an id no record stores.
   */
  lemma LookupGivesLastName(lookup: StudentProfileLookup, entries: seq<CsvEntry>, id: string)
    requires AllReadable(entries) && lookup.studentNames == Loaded(Rows(entries))
    ensures lookup.GetNameById(Some(id)) == LastNameFor(entries, id).GetOr("")
  {
    LoadedIsLastName(entries, id);
  }

  /** A blank id never finds a name, whatever the file holds. */
  lemma BlankIdFindsNothing(lookup: StudentProfileLookup, source: ProfileSource, id: string)
    requires lookup.studentNames == Loaded(source) && IsBlank(id)
    ensures lookup.GetNameById(Some(id)) == ""
  {
    if source.Rows? {
      LoadSkipsBlankIds(map[], source.entries, id);
    }
  }
}
