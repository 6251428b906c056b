/** The tracked book: which strategies it runs and what share of it each governs, in hundredths of a percent. */
module SleeveBook {
  import opened Basics

  type Id = string

  const BOOK := 10000
  const EPSILON := 5

  datatype Sleeve = Sleeve(id: Id, pct: int)
  datatype Refusal = NOT_POSITIVE | OVER_WHOLE_BOOK | NO_STRATEGY | ALREADY_THERE | DOES_NOT_FIT

  function Total(rows: seq<Sleeve>): int {
    if rows == [] then 0 else rows[0].pct + Total(rows[1..])
  }

  /** A sleeve's size, zero when the book does not run it. */
  function PctOf(rows: seq<Sleeve>, id: Id): int {
    if rows == [] then 0 else if rows[0].id == id then rows[0].pct else PctOf(rows[1..], id)
  }

  predicate Runs(rows: seq<Sleeve>, id: Id) {
    exists s :: s in rows && s.id == id
  }

  function Drop(rows: seq<Sleeve>, id: Id): seq<Sleeve> {
    if rows == [] then [] else if rows[0].id == id then Drop(rows[1..], id) else [rows[0]] + Drop(rows[1..], id)
  }

  /** Resize the sleeve in place if the book runs it, else append it. */
  function Put(rows: seq<Sleeve>, id: Id, pct: int): seq<Sleeve> {
    if rows == [] then [Sleeve(id, pct)]
    else if rows[0].id == id then [Sleeve(id, pct)] + rows[1..]
    else [rows[0]] + Put(rows[1..], id, pct)
  }

  /** Why a sleeve may not be added or resized to this size, or None if it may. */
  function Validate(rows: seq<Sleeve>, id: Id, pct: int, replacing: bool): Option<Refusal> {
    if pct <= 0 then Some(NOT_POSITIVE)
    else if pct > BOOK then Some(OVER_WHOLE_BOOK)
    else if id == "" then Some(NO_STRATEGY)
    else if !replacing && Runs(rows, id) then Some(ALREADY_THERE)
    else if pct > BOOK - Total(if replacing then Drop(rows, id) else rows) + EPSILON then Some(DOES_NOT_FIT)
    else None
  }

  /** One row per strategy, every size positive and at most the whole book, all of it within the ceiling. */
  ghost predicate Sound(rows: seq<Sleeve>) {
    && (forall i, j :: 0 <= i < j < |rows| ==> rows[i].id != rows[j].id)
    && (forall s :: s in rows ==> s.id != "" && 0 < s.pct <= BOOK)
    && Total(rows) <= BOOK + EPSILON
  }

  // ---------------------------------------------------------------- rows as a map

  function AsMap(rows: seq<Sleeve>): map<Id, int> {
    if rows == [] then map[] else AsMap(rows[1..])[rows[0].id := rows[0].pct]
  }

  ghost predicate Distinct(rows: seq<Sleeve>) {
    forall i, j :: 0 <= i < j < |rows| ==> rows[i].id != rows[j].id
  }

  lemma {:induction false} MapLooksUp(rows: seq<Sleeve>, id: Id)
    ensures id in AsMap(rows) <==> Runs(rows, id)
    ensures Runs(rows, id) ==> AsMap(rows)[id] == PctOf(rows, id)
    ensures !Runs(rows, id) ==> PctOf(rows, id) == 0
  {
    if rows != [] {
      MapLooksUp(rows[1..], id);
      assert rows[0] in rows;
      assert Runs(rows, id) <==> rows[0].id == id || Runs(rows[1..], id);
    }
  }

  lemma {:induction false} DropFacts(rows: seq<Sleeve>, id: Id)
    requires Distinct(rows)
    ensures Distinct(Drop(rows, id))
    ensures forall s :: s in Drop(rows, id) <==> s in rows && s.id != id
    ensures Total(Drop(rows, id)) == Total(rows) - PctOf(rows, id)
    ensures forall other :: PctOf(Drop(rows, id), other) == if other == id then 0 else PctOf(rows, other)
  {
    if rows != [] {
      DropFacts(rows[1..], id);
      if rows[0].id == id {
        DropAbsent(rows[1..], id);
      }
    }
  }

  lemma {:induction false} DropAbsent(rows: seq<Sleeve>, id: Id)
    requires forall s :: s in rows ==> s.id != id
    ensures Drop(rows, id) == rows && PctOf(rows, id) == 0
  {
    if rows != [] {
      DropAbsent(rows[1..], id);
    }
  }

  lemma {:induction false} PutRows(rows: seq<Sleeve>, id: Id, pct: int)
    requires Distinct(rows)
    ensures forall s :: s in Put(rows, id, pct) <==> s == Sleeve(id, pct) || (s in rows && s.id != id)
    ensures Distinct(Put(rows, id, pct))
  {
    if rows != [] {
      PutRows(rows[1..], id, pct);
      assert rows[0] in rows && forall s :: s in rows[1..] ==> s.id != rows[0].id;
      assert forall s :: s in rows <==> s == rows[0] || s in rows[1..];
    }
  }

  lemma {:induction false} PutFacts(rows: seq<Sleeve>, id: Id, pct: int)
    ensures Total(Put(rows, id, pct)) == Total(rows) - PctOf(rows, id) + pct
    ensures forall other :: PctOf(Put(rows, id, pct), other) == if other == id then pct else PctOf(rows, other)
  {
    if rows != [] {
      PutFacts(rows[1..], id, pct);
    }
  }

  /** The first row of a strategy, or |rows| when the book does not run it. */
  function IndexOf(rows: seq<Sleeve>, id: Id): (i: nat)
    ensures i <= |rows| && (i < |rows| ==> rows[i].id == id)
  {
    if rows == [] || rows[0].id == id then 0 else 1 + IndexOf(rows[1..], id)
  }

  lemma {:induction false} PutByIndex(rows: seq<Sleeve>, id: Id, pct: int)
    ensures var i := IndexOf(rows, id);
      Put(rows, id, pct) == if i < |rows| then rows[i := Sleeve(id, pct)] else rows + [Sleeve(id, pct)]
  {
    if rows == [] {
      assert rows + [Sleeve(id, pct)] == [Sleeve(id, pct)];
    } else if rows[0].id == id {
      assert rows[0 := Sleeve(id, pct)] == [Sleeve(id, pct)] + rows[1..];
    } else {
      PutByIndex(rows[1..], id, pct);
      var i := IndexOf(rows[1..], id);
      if i < |rows[1..]| {
        assert [rows[0]] + rows[1..][i := Sleeve(id, pct)] == rows[i + 1 := Sleeve(id, pct)];
      } else {
        assert [rows[0]] + (rows[1..] + [Sleeve(id, pct)]) == rows + [Sleeve(id, pct)];
      }
    }
  }

  /** A resize is accepted exactly when the size is a size and the book it would make is within the ceiling. */
  lemma ValidateMeansBookFits(rows: seq<Sleeve>, id: Id, pct: int)
    requires Distinct(rows) && id != ""
    ensures Validate(rows, id, pct, true).None?
        <==> 0 < pct <= BOOK && Total(Put(rows, id, pct)) <= BOOK + EPSILON
  {
    DropFacts(rows, id);
    PutFacts(rows, id, pct);
  }

  lemma {:induction false} UnrunIsZero(rows: seq<Sleeve>, id: Id)
    requires !Runs(rows, id)
    ensures PctOf(rows, id) == 0
  {
    if rows != [] {
      assert rows[0] in rows;
      assert forall s :: s in rows[1..] ==> s in rows;
      UnrunIsZero(rows[1..], id);
    }
  }

  /** A sleeve may be added or resized exactly when the size is a size, the strategy has a name and, to be added, is
      not run yet, and the book it would make is within the ceiling. */
  lemma ValidateIff(rows: seq<Sleeve>, id: Id, pct: int, replacing: bool)
    requires Distinct(rows)
    ensures Validate(rows, id, pct, replacing).None? <==>
      && 0 < pct <= 10000 && id != "" && (replacing || !Runs(rows, id))
      && Total(Put(rows, id, pct)) <= 10005
  {
    hide Runs, Distinct;
    DropFacts(rows, id);
    PutFacts(rows, id, pct);
    if !Runs(rows, id) {
      UnrunIsZero(rows, id);
    }
  }

  lemma {:induction false} SizeIsARow(rows: seq<Sleeve>, id: Id)
    ensures Runs(rows, id) ==> Sleeve(id, PctOf(rows, id)) in rows
  {
    if rows != [] && rows[0].id != id {
      SizeIsARow(rows[1..], id);
      assert Runs(rows, id) <==> Runs(rows[1..], id);
    } else if rows != [] {
      assert rows[0] in rows;
    }
  }

  lemma RunsIffSized(rows: seq<Sleeve>, id: Id)
    requires Sound(rows)
    ensures Runs(rows, id) <==> PctOf(rows, id) > 0
    ensures id in AsMap(rows) <==> PctOf(rows, id) > 0
    ensures id in AsMap(rows) ==> AsMap(rows)[id] == PctOf(rows, id)
    ensures 0 <= PctOf(rows, id) <= BOOK && (id == "" ==> PctOf(rows, id) == 0)
  {
    hide Total, AsMap, PctOf;
    MapLooksUp(rows, id);
    SizeIsARow(rows, id);
  }

  /** Sound books with the same sizes are the same map. */
  lemma SameSizesSameMap(a: seq<Sleeve>, b: seq<Sleeve>)
    requires Sound(a) && Sound(b) && forall id :: PctOf(a, id) == PctOf(b, id)
    ensures AsMap(a) == AsMap(b)
  {
    hide Sound, AsMap, PctOf, Runs;
    forall id
      ensures id in AsMap(a) <==> id in AsMap(b)
      ensures id in AsMap(a) ==> AsMap(a)[id] == AsMap(b)[id]
    {
      RunsIffSized(a, id);
      RunsIffSized(b, id);
    }
  }

  // ---------------------------------------------------------------- the stored rows

  class Book {
    var rows: seq<Sleeve>

    constructor (rows: seq<Sleeve>)
      ensures this.rows == rows
    {
      this.rows := rows;
    }

    /** Add a sleeve, or re-size one already on the book.  Nothing is written on a refusal. */
    method AddOrResize(id: Id, pct: int) returns (why: Option<Refusal>)
      modifies this
      ensures why == Validate(old(rows), id, pct, true)
      ensures rows == if why.None? then Put(old(rows), id, pct) else old(rows)
    {
      why := Validate(rows, id, pct, true);
      if why.Some? {
        return;
      }
      PutByIndex(rows, id, pct);
      var i := IndexOf(rows, id);
      if i == |rows| {
        rows := rows + [Sleeve(id, pct)];
      } else {
        rows := rows[i := rows[i].(pct := pct)];
      }
    }

    /** Drop a sleeve; false when the book does not run it. */
    method Remove(id: Id) returns (ok: bool)
      modifies this
      ensures ok == Runs(old(rows), id)
      ensures rows == if ok then Drop(old(rows), id) else old(rows)
    {
      ok := Runs(rows, id);
      if ok {
        rows := Drop(rows, id);
      }
    }
  }
}
