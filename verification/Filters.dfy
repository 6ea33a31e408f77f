// The `where` objects handed to Prisma and what they mean on a row.
//
// A `where` is a JavaScript object, so a key is present at most once and a later
// spread of the same key replaces an earlier one. That is why `cols` is a map and
// why `Spread` overwrites.
module Filters {
  import opened Values

  datatype Model = Tenant | User | Ticket | Comment | AuditLog | RefreshToken | TicketCounter | Report

  datatype Key = Key(model: Model, id: string)

  // `tenant` is the `tenant_id` column; the `Tenant` model has none and leaves it empty.
  datatype Row = Row(tenant: string, cols: map<string, Value>)

  datatype Field = Id | TenantId | Col(name: string)

  datatype Cond =
    | Equals(value: Value)
    | Differs(value: Value)
    | NotIn(values: seq<Value>)
    | Contains(text: string)

  datatype Where = Where(cols: map<Field, Cond>, ands: seq<Where>, ors: Disjunction)

  datatype Disjunction = NoOr | Or(arms: seq<Where>)

  const EVERYTHING := Where(map[], [], NoOr)

  function Column(key: Key, row: Row, field: Field): Value {
    match field
    case Id => Text(key.id)
    case TenantId => Text(row.tenant)
    case Col(name) => if name in row.cols then row.cols[name] else Null
  }

  function LowerCase(c: char): char {
    if 'A' <= c <= 'Z' then (c as int + 32) as char else c
  }

  function Lower(s: string): string {
    seq(|s|, i requires 0 <= i < |s| => LowerCase(s[i]))
  }

  // `ILIKE '%needle%'`.
  predicate ContainsText(haystack: string, needle: string) {
    exists i: nat | i <= |haystack| :: OccursAt(Lower(haystack), Lower(needle), i)
  }

  predicate OccursAt(haystack: string, needle: string, at: nat) {
    at + |needle| <= |haystack| && haystack[at..at + |needle|] == needle
  }

  // SQL's reading of each condition: a comparison with NULL is never true, and
  // `equals: null` / `not: null` are IS NULL / IS NOT NULL.
  predicate CondHolds(cond: Cond, value: Value) {
    match cond
    case Equals(v) => value == v
    case Differs(v) => value != Null && value != v
    case NotIn(vs) => value != Null && value !in vs
    case Contains(text) => value.Text? && ContainsText(value.text, text)
  }

  predicate Holds(w: Where, key: Key, row: Row) {
    && (forall f | f in w.cols :: CondHolds(w.cols[f], Column(key, row, f)))
    && (forall i | 0 <= i < |w.ands| :: Holds(w.ands[i], key, row))
    && (match w.ors
        case NoOr => true
        case Or(arms) => exists i | 0 <= i < |arms| :: Holds(arms[i], key, row))
  }

  // `{ ...w, [field]: cond }`
  function With(w: Where, field: Field, cond: Cond): Where {
    w.(cols := w.cols[field := cond])
  }

  // `{ ...left, ...right }` for objects whose keys are columns, AND and OR.
  function Spread(left: Where, right: Where): Where {
    Where(
      left.cols + right.cols,
      if right.ands == [] then left.ands else right.ands,
      if right.ors == NoOr then left.ors else right.ors)
  }

  // ----- What a condition says ---------------------------------------------------------------

  // The same letter, whatever its case.
  predicate SameLetter(c: char, d: char) {
    c == d
    || ('A' <= c <= 'Z' && d as int == c as int + 32)
    || ('A' <= d <= 'Z' && c as int == d as int + 32)
  }

  predicate ReadsAt(haystack: string, needle: string, at: nat)
    requires at + |needle| <= |haystack|
  {
    forall j | 0 <= j < |needle| :: SameLetter(haystack[at + j], needle[j])
  }

  // A search finds its text anywhere in the column, in capitals or not.
  lemma SearchExactly(haystack: string, needle: string)
    ensures ContainsText(haystack, needle)
        <==> exists at: nat | at + |needle| <= |haystack| :: ReadsAt(haystack, needle, at)
  {
    forall at: nat | at + |needle| <= |haystack|
      ensures OccursAt(Lower(haystack), Lower(needle), at) <==> ReadsAt(haystack, needle, at)
    {
      FoundLetterByLetter(haystack, needle, at);
    }
    if at: nat :| at <= |haystack| && OccursAt(Lower(haystack), Lower(needle), at) {
      assert ReadsAt(haystack, needle, at);
    }
    if at: nat :| at + |needle| <= |haystack| && ReadsAt(haystack, needle, at) {
      assert OccursAt(Lower(haystack), Lower(needle), at);
    }
  }

  lemma FoundLetterByLetter(haystack: string, needle: string, at: nat)
    requires at + |needle| <= |haystack|
    ensures OccursAt(Lower(haystack), Lower(needle), at) <==> ReadsAt(haystack, needle, at)
  {
    var part := Lower(haystack)[at..at + |needle|];
    if part == Lower(needle) {
      forall j | 0 <= j < |needle| ensures SameLetter(haystack[at + j], needle[j]) {
        assert part[j] == Lower(needle)[j];
      }
    }
  }

  // NULL satisfies no condition but `equals: null`; any other value is compared as it is.
  lemma ConditionsMean(value: Value, v: Value, vs: seq<Value>, text: string)
    ensures CondHolds(Equals(v), value) <==> value == v
    ensures CondHolds(Differs(v), value) <==> value != Null && value != v
    ensures CondHolds(NotIn(vs), value) <==> value != Null && forall i | 0 <= i < |vs| :: vs[i] != value
    ensures CondHolds(Contains(text), value) <==> value.Text? && ContainsText(value.text, text)
  {
  }

  // Overwriting a key replaces its condition and leaves every other part alone.
  lemma WithMeans(w: Where, field: Field, cond: Cond, key: Key, row: Row)
    ensures Holds(With(w, field, cond), key, row)
        <==> CondHolds(cond, Column(key, row, field)) && Holds(w.(cols := w.cols - {field}), key, row)
  {
    var w' := With(w, field, cond);
    var rest := w.(cols := w.cols - {field});
    if Holds(w', key, row) {
      forall f | f in rest.cols ensures CondHolds(rest.cols[f], Column(key, row, f)) {
        assert f in w'.cols && w'.cols[f] == rest.cols[f];
      }
      assert field in w'.cols && w'.cols[field] == cond;
    }
    if CondHolds(cond, Column(key, row, field)) && Holds(rest, key, row) {
      forall f | f in w'.cols ensures CondHolds(w'.cols[f], Column(key, row, f)) {
        if f != field {
          assert f in rest.cols && w'.cols[f] == rest.cols[f];
        }
      }
    }
  }

  // ----- Evaluating a spread -------------------------------------------------------------

  // `{ [field]: cond }`
  function Just(field: Field, cond: Cond): Where {
    Where(map[field := cond], [], NoOr)
  }

  lemma JustMeans(field: Field, cond: Cond, key: Key, row: Row)
    ensures Holds(Just(field, cond), key, row) <==> CondHolds(cond, Column(key, row, field))
  {
    assert field in Just(field, cond).cols && Just(field, cond).cols[field] == cond;
  }

  lemma EverythingHolds(key: Key, row: Row)
    ensures Holds(EVERYTHING, key, row)
  {
  }

  lemma SpreadNothing(w: Where)
    ensures Spread(w, EVERYTHING) == w
  {
    assert w.cols + map[] == w.cols;
  }

  // A column the object does not have yet is intersected.
  lemma SpreadColumn(w: Where, field: Field, cond: Cond, key: Key, row: Row)
    requires field !in w.cols
    ensures Holds(Spread(w, Just(field, cond)), key, row)
        <==> Holds(w, key, row) && CondHolds(cond, Column(key, row, field))
  {
    assert Spread(w, Just(field, cond)) == With(w, field, cond) by {
      assert w.cols + map[field := cond] == w.cols[field := cond];
    }
    assert w.(cols := w.cols - {field}) == w by { assert w.cols - {field} == w.cols; }
    WithMeans(w, field, cond, key, row);
  }

  // An `OR` or an `AND` written into an object that has none is intersected.
  lemma SpreadOr(w: Where, arms: seq<Where>, key: Key, row: Row)
    requires w.ors == NoOr
    ensures Holds(Spread(w, Where(map[], [], Or(arms))), key, row)
        <==> Holds(w, key, row) && exists i | 0 <= i < |arms| :: Holds(arms[i], key, row)
  {
    assert w.cols + map[] == w.cols;
    assert Spread(w, Where(map[], [], Or(arms))) == Where(w.cols, w.ands, Or(arms));
  }

  lemma SpreadAnd(w: Where, part: Where, key: Key, row: Row)
    requires w.ands == []
    ensures Holds(Spread(w, Where(map[], [part], NoOr)), key, row) <==> Holds(w, key, row) && Holds(part, key, row)
  {
    assert w.cols + map[] == w.cols;
    var w' := Spread(w, Where(map[], [part], NoOr));
    assert w' == Where(w.cols, [part], w.ors);
    assert w'.ands[0] == part;
  }
}
