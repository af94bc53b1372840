/** The "show archived clients" checkbox (src/components/archived-toggle.tsx, lines 13-22): it
    copies the current query parameters, sets or deletes `archived`, and deletes `page`. The
    parameters are an ordered list of name/value pairs with the `URLSearchParams` rules for
    `set` and `delete`. */
module ArchivedToggle {

  type Param = (string, string)

  /** The values under `name`, in order (`getAll(name)`). */
  function Values(entries: seq<Param>, name: string): (vs: seq<string>)
    ensures |vs| <= |entries|
  {
    if entries == [] then []
    else (if entries[0].0 == name then [entries[0].1] else []) + Values(entries[1..], name)
  }

  /** The pairs whose name is not in `names`, in order. */
  function Drop(entries: seq<Param>, names: set<string>): (r: seq<Param>)
    ensures |r| <= |entries|
    ensures forall p :: p in r <==> p in entries && p.0 !in names
  {
    if entries == [] then []
    else (if entries[0].0 in names then [] else [entries[0]]) + Drop(entries[1..], names)
  }

  /** `delete(name)`: every pair with that name goes, and the others stay in order. */
  function DeleteParam(entries: seq<Param>, name: string): (r: seq<Param>)
    ensures |r| <= |entries|
    ensures forall p :: p in r <==> p in entries && p.0 != name
  {
    Drop(entries, {name})
  }

  /** `set(name, value)`: the first pair with that name takes the value and later ones go; with
      no such pair, one is appended. `seen` says whether the first one has been passed. */
  function SetFrom(entries: seq<Param>, name: string, value: string, seen: bool): (r: seq<Param>)
    ensures |r| <= |entries| + (if seen then 0 else 1)
  {
    if entries == [] then (if seen then [] else [(name, value)])
    else if entries[0].0 == name then
      (if seen then [] else [(name, value)]) + SetFrom(entries[1..], name, value, true)
    else [entries[0]] + SetFrom(entries[1..], name, value, seen)
  }

  function SetParam(entries: seq<Param>, name: string, value: string): seq<Param> {
    SetFrom(entries, name, value, false)
  }

  /** `getAll` of a concatenation is the concatenation of the two. */
  lemma {:induction false} ValuesAppend(a: seq<Param>, b: seq<Param>, name: string)
    ensures Values(a + b, name) == Values(a, name) + Values(b, name)
  {
    if a == [] {
      assert a + b == b;
    } else {
      assert (a + b)[1..] == a[1..] + b;
      ValuesAppend(a[1..], b, name);
    }
  }

  /** Dropping names from a concatenation drops them from each part. */
  lemma {:induction false} DropAppend(a: seq<Param>, b: seq<Param>, names: set<string>)
    ensures Drop(a + b, names) == Drop(a, names) + Drop(b, names)
  {
    if a == [] {
      assert a + b == b;
    } else {
      assert (a + b)[1..] == a[1..] + b;
      DropAppend(a[1..], b, names);
    }
  }

  /** After `delete(name)` nothing is left under `name`, and every other name keeps its values. */
  lemma {:induction false} DeleteValues(entries: seq<Param>, name: string, other: string)
    ensures Values(DeleteParam(entries, name), name) == []
    ensures other != name ==> Values(DeleteParam(entries, name), other) == Values(entries, other)
  {
    if entries != [] {
      DeleteValues(entries[1..], name, other);
      var head := if entries[0].0 == name then [] else [entries[0]];
      ValuesAppend(head, DeleteParam(entries[1..], name), name);
      ValuesAppend(head, DeleteParam(entries[1..], name), other);
    }
  }

  /** After `set(name, value)` the name holds exactly that one value. */
  lemma {:induction false} SetHoldsValue(entries: seq<Param>, name: string, value: string, seen: bool)
    ensures Values(SetFrom(entries, name, value, seen), name) == if seen then [] else [value]
  {
    if entries != [] {
      if entries[0].0 == name {
        SetHoldsValue(entries[1..], name, value, true);
        var head := if seen then [] else [(name, value)];
        ValuesAppend(head, SetFrom(entries[1..], name, value, true), name);
      } else {
        SetHoldsValue(entries[1..], name, value, seen);
        ValuesAppend([entries[0]], SetFrom(entries[1..], name, value, seen), name);
      }
    }
  }

  /** Pairs under other names are neither removed, added nor reordered by `delete`. */
  lemma {:induction false} DropAfterDelete(entries: seq<Param>, name: string, names: set<string>)
    requires name in names
    ensures Drop(DeleteParam(entries, name), names) == Drop(entries, names)
  {
    if entries != [] {
      DropAfterDelete(entries[1..], name, names);
      var head := if entries[0].0 == name then [] else [entries[0]];
      DropAppend(head, DeleteParam(entries[1..], name), names);
    }
  }

  /** Pairs under other names are neither removed, added nor reordered by `set`. */
  lemma {:induction false} DropAfterSet(entries: seq<Param>, name: string, value: string, seen: bool, names: set<string>)
    requires name in names
    ensures Drop(SetFrom(entries, name, value, seen), names) == Drop(entries, names)
  {
    if entries != [] {
      if entries[0].0 == name {
        DropAfterSet(entries[1..], name, value, true, names);
        var head := if seen then [] else [(name, value)];
        DropAppend(head, SetFrom(entries[1..], name, value, true), names);
      } else {
        DropAfterSet(entries[1..], name, value, seen, names);
        DropAppend([entries[0]], SetFrom(entries[1..], name, value, seen), names);
      }
    }
  }

  /** What `handleToggle` pushes as the new query. */
  function Toggled(entries: seq<Param>, checked: bool): (r: seq<Param>)
    ensures |r| <= |entries| + 1
    ensures !checked ==> |r| <= |entries|
  {
    DeleteParam(if checked then SetParam(entries, "archived", "true") else DeleteParam(entries, "archived"), "page")
  }

  /** Checked, the query holds `archived=true` once; unchecked, no `archived` at all; `page` is
      always gone; and every other pair is kept, in order. */
  lemma ToggleOutcome(entries: seq<Param>, checked: bool)
    ensures Values(Toggled(entries, checked), "archived") == if checked then ["true"] else []
    ensures Values(Toggled(entries, checked), "page") == []
    ensures Drop(Toggled(entries, checked), {"archived", "page"}) == Drop(entries, {"archived", "page"})
  {
    var mid := if checked then SetParam(entries, "archived", "true") else DeleteParam(entries, "archived");
    DeleteValues(mid, "page", "archived");
    if checked {
      SetHoldsValue(entries, "archived", "true", false);
      DropAfterSet(entries, "archived", "true", false, {"archived", "page"});
    } else {
      DeleteValues(entries, "archived", "page");
      DropAfterDelete(entries, "archived", {"archived", "page"});
    }
    DropAfterDelete(mid, "page", {"archived", "page"});
  }

  /** `URLSearchParams`, updated in place. */
  class SearchParams {
    var entries: seq<Param>

    /** `new URLSearchParams(searchParams.toString())`: a copy with the same pairs. */
    constructor (entries: seq<Param>)
      ensures this.entries == entries
    {
      this.entries := entries;
    }

    method Set(name: string, value: string)
      modifies this
      ensures entries == SetParam(old(entries), name, value)
    {
      entries := SetParam(entries, name, value);
    }

    method Delete(name: string)
      modifies this
      ensures entries == DeleteParam(old(entries), name)
    {
      entries := DeleteParam(entries, name);
    }
  }

  /** `handleToggle`: the parameters it navigates to; the current ones are not touched. */
  method HandleToggle(current: SearchParams, checked: bool) returns (params: SearchParams)
    ensures fresh(params)
    ensures params.entries == Toggled(current.entries, checked)
  {
    params := new SearchParams(current.entries);
    if checked {
      params.Set("archived", "true");
    } else {
      params.Delete("archived");
    }
    params.Delete("page");
  }
}
