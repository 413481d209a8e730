/** The portion-selection store of js/app.js: a mutable map from food id to
    the number of portions the user entered, the read that defaults an absent
    id to 0, and the summary that adds all stored portions up. */
module Selections {

  import opened Wrappers

  /** `parseFloat(raw) || 0`: a value that does not parse (NaN) becomes 0;
      any number, negative ones included, is kept as it is. */
  function Coerce(parsed: Option<real>): (r: real)
    ensures parsed.Some? ==> r == parsed.value
    ensures parsed.None? ==> r == 0.0
  {
    match parsed
    case Some(v) => v
    case None => 0.0
  }

  /** `userSelections[id] || 0`: the stored portions, or 0 for an id never set. */
  function Lookup(m: map<string, real>, id: string): (r: real)
    ensures id !in m ==> r == 0.0
    ensures id in m ==> r == m[id]
  {
    if id in m then m[id] else 0.0
  }

  /** `userSelections[id] = value`: overwrite (or add) one entry and keep the rest. */
  function Assign(m: map<string, real>, id: string, parsed: Option<real>): (r: map<string, real>)
    ensures r.Keys == m.Keys + {id}
    ensures r[id] == (if parsed.Some? then parsed.value else 0.0)
    ensures forall k :: k in m && k != id ==> r[k] == m[k]
  {
    m[id := Coerce(parsed)]
  }

  /** The sum of every stored portion count, whatever its key. The key taken
      first is arbitrary; SumRemove shows the result does not depend on it.
      A store holding only zeros (say, every input unparsable) totals 0. */
  ghost function Sum(m: map<string, real>): (r: real)
    ensures (forall k :: k in m ==> m[k] == 0.0) ==> r == 0.0
    decreases |m|
  {
    if m == map[] then 0.0
    else
      var k :| k in m;
      m[k] + Sum(m - {k})
  }

  /** Any entry can be taken out of the sum first: the total does not depend
      on the order in which the values are visited. */
  lemma {:induction false} SumRemove(m: map<string, real>, k: string)
    requires k in m
    ensures Sum(m) == m[k] + Sum(m - {k})
    decreases |m|
  {
    var j :| j in m && Sum(m) == m[j] + Sum(m - {j});
    if j != k {
      assert |m - {j}| == |m| - 1;
      assert |m - {k}| == |m| - 1;
      SumRemove(m - {j}, k);
      SumRemove(m - {k}, j);
      assert m - {j} - {k} == m - {k} - {j};
    }
  }

  /** Overwriting one entry changes the total by the difference between the
      new value and the value read for that id before (0 if it was absent). */
  lemma SumAssign(m: map<string, real>, id: string, parsed: Option<real>)
    ensures Sum(Assign(m, id, parsed)) == Sum(m) - Lookup(m, id) + Coerce(parsed)
  {
    var r := Assign(m, id, parsed);
    SumRemove(r, id);
    assert r - {id} == m - {id};
    if id in m {
      SumRemove(m, id);
    } else {
      assert m - {id} == m;
    }
  }

  /** Read-after-write: the updated id reads back as the coerced input, every
      other id reads as before. */
  lemma LookupAfterAssign(m: map<string, real>, id: string, parsed: Option<real>, k: string)
    ensures Lookup(Assign(m, id, parsed), k) == if k == id then Coerce(parsed) else Lookup(m, k)
  {
  }

  /** The total is non-negative when every stored value is; nothing in the
      store itself guarantees that premise. */
  lemma {:induction false} SumNonNegative(m: map<string, real>)
    requires forall k :: k in m ==> m[k] >= 0.0
    ensures Sum(m) >= 0.0
    decreases |m|
  {
    if m != map[] {
      var k :| k in m;
      SumRemove(m, k);
      assert |m - {k}| == |m| - 1;
      SumNonNegative(m - {k});
    }
  }

  /** A negative input is stored as entered and lowers the total: with "c1"
      set to 2 and "c2" set to -5, the summary shows -3. */
  lemma NegativePortionLowersTotal()
    ensures Sum(Assign(Assign(map[], "c1", Some(2.0)), "c2", Some(-5.0))) == -3.0
  {
    var m1 := Assign(map[], "c1", Some(2.0));
    SumAssign(map[], "c1", Some(2.0));
    SumAssign(m1, "c2", Some(-5.0));
  }

  /** A negative portion entered for a food not yet in the store lowers the
      total by its magnitude: it is neither clamped nor dropped. */
  lemma NegativeNewPortionLowersTotal(m: map<string, real>, id: string, v: real)
    requires id !in m
    requires v < 0.0
    ensures Lookup(Assign(m, id, Some(v)), id) == v
    ensures Sum(Assign(m, id, Some(v))) == Sum(m) + v
    ensures Sum(Assign(m, id, Some(v))) < Sum(m)
  {
    SumAssign(m, id, Some(v));
  }

  /** An input that does not parse stores 0 for the id (adding the key if it
      was absent) and takes that id's previous value out of the total. */
  lemma UnparsableInputStoresZero(m: map<string, real>, id: string)
    ensures Lookup(Assign(m, id, None), id) == 0.0
    ensures id in Assign(m, id, None)
    ensures Sum(Assign(m, id, None)) == Sum(m) - Lookup(m, id)
  {
    SumAssign(m, id, None);
  }

  /** The global `userSelections` object. */
  class SelectionStore {
    var selections: map<string, real>

    /** `let userSelections = {}`. */
    constructor ()
      ensures selections == map[]
      ensures Sum(selections) == 0.0
    {
      selections := map[];
    }

    /** The value shown in a food's portion input. */
    function Get(id: string): (r: real)
      reads this
      ensures r == Lookup(selections, id)
    {
      Lookup(selections, id)
    }

    /** `updateSelection`: store the coerced input for `id`. */
    method Update(id: string, parsed: Option<real>)
      modifies this
      ensures selections == Assign(old(selections), id, parsed)
      ensures Get(id) == Coerce(parsed)
      ensures forall k :: k != id ==> Get(k) == old(Get(k))
      ensures Sum(selections) == old(Sum(selections)) - old(Get(id)) + Coerce(parsed)
    {
      SumAssign(selections, id, parsed);
      selections := Assign(selections, id, parsed);
    }

    /** The loop of `renderSummary`: add up every stored value. */
    method Total() returns (total: real)
      ensures total == Sum(selections)
    {
      total := 0.0;
      var rest := selections;
      while rest != map[]
        invariant total + Sum(rest) == Sum(selections)
        decreases |rest|
      {
        var k :| k in rest;
        SumRemove(rest, k);
        total := total + rest[k];
        assert |rest - {k}| == |rest| - 1;
        rest := rest - {k};
      }
    }
  }
}
