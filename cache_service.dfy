/** The append-only response cache: a table of rows keyed by an
    auto-incrementing id, written by `Set` and read by `Get`, both of which do
    nothing until `Init` has opened the table. */
module CacheService {
  import opened Wrappers

  /** One table row. `timestamp` is the insertion time in whole seconds, the
      resolution of the column's `CURRENT_TIMESTAMP` default. */
  datatype Row = Row(id: nat, prompt: string, response: string, provider: string, timestamp: nat)

  /** The columns a lookup returns. */
  datatype Hit = Hit(response: string, provider: string)

  /** Ids are positive and strictly increasing in insertion order, and
      timestamps never decrease. */
  ghost predicate WellFormed(rows: seq<Row>) {
    && (forall i :: 0 <= i < |rows| ==> rows[i].id > 0)
    && (forall i, j :: 0 <= i < j < |rows| ==> rows[i].id < rows[j].id)
    && (forall i, j :: 0 <= i < j < |rows| ==> rows[i].timestamp <= rows[j].timestamp)
  }

  /** The id the table assigns to the next row; nothing is ever deleted, so
      it is one more than the last row's id. */
  function NextId(rows: seq<Row>): (id: nat)
    ensures id > 0
    ensures forall i :: 0 <= i < |rows| && WellFormed(rows) ==> rows[i].id < id
  {
    if rows == [] then 1 else rows[|rows| - 1].id + 1
  }

  /** Some row has exactly this prompt (no normalisation of case or space). */
  ghost predicate HasMatch(rows: seq<Row>, prompt: string) {
    exists i :: 0 <= i < |rows| && rows[i].prompt == prompt
  }

  /** Row `i`, among the first `n`, matches `prompt` and no matching row among
      the first `n` has a later timestamp. */
  ghost predicate NewestAmong(rows: seq<Row>, n: nat, prompt: string, i: int)
    requires n <= |rows|
  {
    && 0 <= i < n
    && rows[i].prompt == prompt
    && forall j :: 0 <= j < n && rows[j].prompt == prompt ==> rows[j].timestamp <= rows[i].timestamp
  }

  /** Row `i` is one that `ORDER BY timestamp DESC LIMIT 1` may return for
      `prompt`; among equal timestamps any one may be chosen. */
  ghost predicate IsNewestMatch(rows: seq<Row>, prompt: string, i: int) {
    NewestAmong(rows, |rows|, prompt, i)
  }

  /** `r` is an admissible answer of a lookup of `prompt` in `rows`. */
  ghost predicate LookupSpec(rows: seq<Row>, prompt: string, r: Option<Hit>) {
    match r
    case None => !HasMatch(rows, prompt)
    case Some(h) => exists i :: IsNewestMatch(rows, prompt, i) && h == Hit(rows[i].response, rows[i].provider)
  }

  /** The row `Set` appends. */
  function NewRow(rows: seq<Row>, prompt: string, response: string, provider: string, now: nat): Row {
    Row(NextId(rows), prompt, response, provider, now)
  }

  /** The clock reading `now` is not earlier than the newest row. */
  ghost predicate ClockNotBefore(rows: seq<Row>, now: nat) {
    rows == [] || rows[|rows| - 1].timestamp <= now
  }

  class Cache {
    /** Whether `Init` has opened the table (the module-level `db` is set). */
    var initialized: bool
    /** The table's rows in insertion order. */
    var rows: seq<Row>

    ghost predicate Valid()
      reads this
    {
      WellFormed(rows)
    }

    /** The module as loaded: no handle yet; `stored` is whatever the table
        file already holds (empty when the file or table does not exist). */
    constructor (stored: seq<Row>)
      requires WellFormed(stored)
      ensures Valid()
      ensures !initialized && rows == stored
    {
      initialized := false;
      rows := stored;
    }

    /** Opens the table, creating it only if absent: existing rows stay. */
    method Init()
      requires Valid()
      modifies this
      ensures Valid()
      ensures initialized && rows == old(rows)
    {
      initialized := true;
    }

    /** The response and provider of a newest row whose prompt equals
        `prompt`; nothing when there is none, or before `Init`. */
    method Get(prompt: string) returns (r: Option<Hit>)
      ensures !initialized ==> r == None
      ensures initialized ==> LookupSpec(rows, prompt, r)
    {
      if !initialized {
        return None;
      }
      var best: Option<nat> := None;
      var i := 0;
      while i < |rows|
        invariant 0 <= i <= |rows|
        invariant best.None? ==> forall j :: 0 <= j < i ==> rows[j].prompt != prompt
        invariant best.Some? ==> NewestAmong(rows, i, prompt, best.value)
      {
        if rows[i].prompt == prompt && (best.None? || rows[best.value].timestamp <= rows[i].timestamp) {
          best := Some(i);
        }
        i := i + 1;
      }
      if best.Some? {
        r := Some(Hit(rows[best.value].response, rows[best.value].provider));
        assert IsNewestMatch(rows, prompt, best.value);
      } else {
        r := None;
      }
    }

    /** Inserts one row with a fresh id and the current time `now`; before
        `Init` it does nothing. */
    method Set(prompt: string, response: string, provider: string, now: nat)
      requires Valid()
      requires initialized ==> ClockNotBefore(rows, now)
      modifies this
      ensures Valid()
      ensures initialized == old(initialized)
      ensures old(initialized) ==> rows == old(rows) + [NewRow(old(rows), prompt, response, provider, now)]
      ensures !old(initialized) ==> rows == old(rows)
    {
      if !initialized {
        return;
      }
      AppendKeepsWellFormed(rows, prompt, response, provider, now);
      rows := rows + [NewRow(rows, prompt, response, provider, now)];
    }
  }

  /** Appending a row keeps the table well formed, and the new row's id is
      greater than every existing id. */
  lemma AppendKeepsWellFormed(rows: seq<Row>, prompt: string, response: string, provider: string, now: nat)
    requires WellFormed(rows)
    requires ClockNotBefore(rows, now)
    ensures WellFormed(rows + [NewRow(rows, prompt, response, provider, now)])
    ensures forall i :: 0 <= i < |rows| ==> rows[i].id < NewRow(rows, prompt, response, provider, now).id
  {
  }

  /** Round trip: after a row for `prompt` is appended with a timestamp later
      than every earlier row for `prompt`, a lookup of `prompt` returns exactly
      that row's response and provider. */
  lemma {:induction false} GetAfterSet(rows: seq<Row>, prompt: string, response: string, provider: string, now: nat, r: Option<Hit>)
    requires forall j :: 0 <= j < |rows| && rows[j].prompt == prompt ==> rows[j].timestamp < now
    ensures var rows' := rows + [NewRow(rows, prompt, response, provider, now)];
            LookupSpec(rows', prompt, r) <==> r == Some(Hit(response, provider))
  {
    var rows' := rows + [NewRow(rows, prompt, response, provider, now)];
    assert IsNewestMatch(rows', prompt, |rows|);
    forall i | IsNewestMatch(rows', prompt, i)
      ensures i == |rows|
    {
      assert rows'[|rows|].prompt == prompt;
    }
  }

  /** A row appended for one prompt leaves every other prompt's lookups as
      they were. */
  lemma {:induction false} SetLeavesOtherPrompts(rows: seq<Row>, other: string, row: Row, r: Option<Hit>)
    requires row.prompt != other
    ensures LookupSpec(rows + [row], other, r) <==> LookupSpec(rows, other, r)
  {
    var rows' := rows + [row];
    assert forall i :: 0 <= i < |rows| ==> rows'[i] == rows[i];
    assert HasMatch(rows', other) <==> HasMatch(rows, other) by {
      if HasMatch(rows', other) {
        var i :| 0 <= i < |rows'| && rows'[i].prompt == other;
        assert rows[i].prompt == other;
      }
    }
    forall i ensures IsNewestMatch(rows', other, i) <==> IsNewestMatch(rows, other, i) {
    }
  }

  /** In a well-formed table the most recently inserted row for a prompt is
      always an admissible answer, because timestamps never decrease. */
  lemma LatestMatchIsNewest(rows: seq<Row>, prompt: string, i: nat)
    requires WellFormed(rows)
    requires i < |rows| && rows[i].prompt == prompt
    requires forall j :: i < j < |rows| ==> rows[j].prompt != prompt
    ensures IsNewestMatch(rows, prompt, i)
    ensures LookupSpec(rows, prompt, Some(Hit(rows[i].response, rows[i].provider)))
  {
  }
}
