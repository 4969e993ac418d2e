/** The product list's search box and status filter
    (app/dashboard/products/product-search.tsx): each handler copies the
    current query parameters, sets or deletes one key, and navigates to
    `/dashboard/products?` plus the serialised parameters. The parameters are
    an ordered list of name/value pairs with the `set`/`delete` behaviour of
    the URL Standard's `URLSearchParams`; the percent-encoding of names and
    values is the parameter `encode`. */
module ProductSearch {
  import opened Common

  datatype Param = Param(name: string, value: string)

  /** Some pair is named `name`. */
  predicate HasName(ps: seq<Param>, name: string)
  {
    exists i :: 0 <= i < |ps| && ps[i].name == name
  }

  /** `params.get(name)`: the value of the first pair named `name`. */
  function Get(ps: seq<Param>, name: string): Option<string>
  {
    if ps == [] then None
    else if ps[0].name == name then Some(ps[0].value)
    else Get(ps[1..], name)
  }

  /** `params.delete(name)`: every pair named `name` goes, the rest keep their order. */
  function DeleteEntry(ps: seq<Param>, name: string): (r: seq<Param>)
    ensures forall i :: 0 <= i < |r| ==> r[i].name != name
    ensures forall p :: p in r <==> p in ps && p.name != name
    ensures |r| <= |ps|
  {
    if ps == [] then []
    else if ps[0].name == name then DeleteEntry(ps[1..], name)
    else [ps[0]] + DeleteEntry(ps[1..], name)
  }

  /** Delete works pair by pair, so the surviving pairs keep their order:
      deleting from a concatenation concatenates the results, and a single
      pair survives exactly when it has another name. */
  lemma {:induction false} DeleteAppend(a: seq<Param>, b: seq<Param>, name: string)
    ensures DeleteEntry(a + b, name) == DeleteEntry(a, name) + DeleteEntry(b, name)
    ensures forall p :: DeleteEntry([p], name) == if p.name == name then [] else [p]
  {
    if a != [] {
      assert (a + b)[1..] == a[1..] + b;
      DeleteAppend(a[1..], b, name);
    } else {
      assert a + b == b;
    }
    forall p ensures DeleteEntry([p], name) == if p.name == name then [] else [p] {
      assert [p][1..] == [];
    }
  }

  /** A name present but not first is present in the rest. */
  lemma HasNameTail(ps: seq<Param>, name: string)
    requires HasName(ps, name) && ps[0].name != name
    ensures HasName(ps[1..], name)
  {
    var i :| 0 <= i < |ps| && ps[i].name == name;
    assert ps[1..][i - 1].name == name;
  }

  /** Exactly one pair is named `name`, and it carries `value`. */
  predicate OnlyPair(ps: seq<Param>, name: string, value: string)
  {
    && HasName(ps, name)
    && (forall i :: 0 <= i < |ps| && ps[i].name == name ==> ps[i].value == value)
    && (forall i, j :: 0 <= i < j < |ps| ==> ps[i].name != name || ps[j].name != name)
  }

  /** The first pair named `name` takes the new value; later ones go. */
  function ReplaceFirst(ps: seq<Param>, name: string, value: string): (r: seq<Param>)
    requires HasName(ps, name)
    ensures |r| <= |ps|
    ensures OnlyPair(r, name, value)
  {
    if ps[0].name == name then
      var r := [Param(name, value)] + DeleteEntry(ps[1..], name);
      assert r[0].name == name;
      r
    else
      HasNameTail(ps, name);
      var rest := ReplaceFirst(ps[1..], name, value);
      var r := [ps[0]] + rest;
      assert forall i :: 1 <= i < |r| ==> r[i] == rest[i - 1];
      assert HasName(r, name) by {
        var i :| 0 <= i < |rest| && rest[i].name == name;
        assert r[i + 1].name == name;
      }
      r
  }

  /** `params.set(name, value)`: replace in place when present, append
      otherwise; either way exactly one pair is then named `name`. */
  function SetEntry(ps: seq<Param>, name: string, value: string): (r: seq<Param>)
    ensures OnlyPair(r, name, value)
    ensures HasName(ps, name) ==> |r| <= |ps|
    ensures !HasName(ps, name) ==> r == ps + [Param(name, value)]
  {
    if HasName(ps, name) then ReplaceFirst(ps, name, value)
    else
      var r := ps + [Param(name, value)];
      assert r[|ps|].name == name;
      r
  }

  /** `params.toString()`: `name=value` pairs joined by `&`; empty exactly
      when there are no pairs. */
  function Serialize(ps: seq<Param>, encode: string -> string): (r: string)
    ensures r == "" <==> ps == []
  {
    if ps == [] then ""
    else if |ps| == 1 then encode(ps[0].name) + "=" + encode(ps[0].value)
    else encode(ps[0].name) + "=" + encode(ps[0].value) + "&" + Serialize(ps[1..], encode)
  }

  /** Serialising a concatenation joins the two serialisations with `&`. */
  lemma {:induction false} SerializeAppend(a: seq<Param>, b: seq<Param>, encode: string -> string)
    requires a != [] && b != []
    ensures Serialize(a + b, encode) == Serialize(a, encode) + "&" + Serialize(b, encode)
  {
    assert (a + b)[0] == a[0];
    if |a| == 1 {
      assert (a + b)[1..] == b;
    } else {
      assert (a + b)[1..] == a[1..] + b;
      SerializeAppend(a[1..], b, encode);
    }
  }

  // ---------------------------------------------------------------------------
  // What set and delete do to the key they touch and to every other key

  lemma {:induction false} DeleteGet(ps: seq<Param>, name: string, other: string)
    ensures Get(DeleteEntry(ps, name), name) == None
    ensures other != name ==> Get(DeleteEntry(ps, name), other) == Get(ps, other)
  {
    if ps != [] {
      DeleteGet(ps[1..], name, other);
    }
  }

  lemma {:induction false} DeleteTwice(ps: seq<Param>, name: string)
    ensures DeleteEntry(DeleteEntry(ps, name), name) == DeleteEntry(ps, name)
  {
    if ps != [] {
      DeleteTwice(ps[1..], name);
    }
  }

  lemma {:induction false} ReplaceFirstFacts(ps: seq<Param>, name: string, value: string, other: string)
    requires HasName(ps, name)
    ensures Get(ReplaceFirst(ps, name, value), name) == Some(value)
    ensures other != name ==> Get(ReplaceFirst(ps, name, value), other) == Get(ps, other)
    ensures DeleteEntry(ReplaceFirst(ps, name, value), name) == DeleteEntry(ps, name)
  {
    var r := ReplaceFirst(ps, name, value);
    if ps[0].name == name {
      var rest := DeleteEntry(ps[1..], name);
      assert r == [Param(name, value)] + rest;
      assert r[1..] == rest;
      DeleteGet(ps[1..], name, other);
      DeleteTwice(ps[1..], name);
    } else {
      HasNameTail(ps, name);
      var rest := ReplaceFirst(ps[1..], name, value);
      assert r == [ps[0]] + rest;
      assert r[1..] == rest;
      ReplaceFirstFacts(ps[1..], name, value, other);
    }
  }

  lemma {:induction false} AppendFacts(ps: seq<Param>, name: string, value: string, other: string)
    requires !HasName(ps, name)
    ensures Get(ps + [Param(name, value)], name) == Some(value)
    ensures other != name ==> Get(ps + [Param(name, value)], other) == Get(ps, other)
    ensures DeleteEntry(ps + [Param(name, value)], name) == DeleteEntry(ps, name)
  {
    if ps == [] {
    } else {
      assert (ps + [Param(name, value)])[1..] == ps[1..] + [Param(name, value)];
      assert !HasName(ps[1..], name);
      AppendFacts(ps[1..], name, value, other);
    }
  }

  /** After `set`, the key reads back the new value, every other key reads as
      before, and removing the key gives what removing it from the old list gives:
      nothing but that key changed. */
  lemma SetFacts(ps: seq<Param>, name: string, value: string, other: string)
    ensures Get(SetEntry(ps, name, value), name) == Some(value)
    ensures other != name ==> Get(SetEntry(ps, name, value), other) == Get(ps, other)
    ensures DeleteEntry(SetEntry(ps, name, value), name) == DeleteEntry(ps, name)
  {
    if HasName(ps, name) {
      ReplaceFirstFacts(ps, name, value, other);
    } else {
      AppendFacts(ps, name, value, other);
    }
  }

  // ---------------------------------------------------------------------------
  // The mutable copy and the two handlers

  /** `new URLSearchParams(searchParams)`: an owned, ordered list of pairs. */
  class SearchParams {
    var entries: seq<Param>

    constructor (init: seq<Param>)
      ensures entries == init
    {
      entries := init;
    }

    method Set(name: string, value: string)
      modifies this
      ensures entries == SetEntry(old(entries), name, value)
    {
      entries := SetEntry(entries, name, value);
    }

    method Delete(name: string)
      modifies this
      ensures entries == DeleteEntry(old(entries), name)
    {
      entries := DeleteEntry(entries, name);
    }

    function ToString(encode: string -> string): string
      reads this
    {
      Serialize(entries, encode)
    }
  }

  /** The parameters after a search for `term`: a single `query` pair with
      the term, or none when the term is empty. */
  function AfterSearch(ps: seq<Param>, term: string): (r: seq<Param>)
    ensures term != "" ==> OnlyPair(r, "query", term)
    ensures term == "" ==> !HasName(r, "query")
  {
    if term != "" then SetEntry(ps, "query", term) else DeleteEntry(ps, "query")
  }

  /** The parameters after choosing `status` in the filter: a single `status`
      pair, or none for the empty choice and for `all`. */
  function AfterStatusChange(ps: seq<Param>, status: string): (r: seq<Param>)
    ensures status != "" && status != "all" ==> OnlyPair(r, "status", status)
    ensures status == "" || status == "all" ==> !HasName(r, "status")
  {
    if status != "" && status != "all" then SetEntry(ps, "status", status) else DeleteEntry(ps, "status")
  }

  /** The body of the debounced `handleSearch` callback; returns the URL passed to `replace`. */
  method HandleSearch(searchParams: seq<Param>, term: string, encode: string -> string) returns (target: string)
    ensures target == "/dashboard/products?" + Serialize(AfterSearch(searchParams, term), encode)
  {
    var params := new SearchParams(searchParams);
    if term != "" {
      params.Set("query", term);
    } else {
      params.Delete("query");
    }
    target := "/dashboard/products?" + params.ToString(encode);
  }

  /** `handleStatusChange`; returns the URL passed to `replace`. */
  method HandleStatusChange(searchParams: seq<Param>, status: string, encode: string -> string) returns (target: string)
    ensures target == "/dashboard/products?" + Serialize(AfterStatusChange(searchParams, status), encode)
  {
    var params := new SearchParams(searchParams);
    if status != "" && status != "all" {
      params.Set("status", status);
    } else {
      params.Delete("status");
    }
    target := "/dashboard/products?" + params.ToString(encode);
  }

  /** A non-empty term becomes `query`, an empty one removes it; every other
      key reads as before. */
  lemma SearchEditsOnlyQuery(ps: seq<Param>, term: string, other: string)
    ensures Get(AfterSearch(ps, term), "query") == if term != "" then Some(term) else None
    ensures other != "query" ==> Get(AfterSearch(ps, term), other) == Get(ps, other)
    ensures DeleteEntry(AfterSearch(ps, term), "query") == DeleteEntry(ps, "query")
  {
    if term != "" {
      SetFacts(ps, "query", term, other);
    } else {
      DeleteGet(ps, "query", other);
      DeleteTwice(ps, "query");
    }
  }

  /** A status other than `''` and `'all'` becomes `status`, those two remove
      it; every other key reads as before. */
  lemma StatusEditsOnlyStatus(ps: seq<Param>, status: string, other: string)
    ensures Get(AfterStatusChange(ps, status), "status") == if status != "" && status != "all" then Some(status) else None
    ensures other != "status" ==> Get(AfterStatusChange(ps, status), other) == Get(ps, other)
    ensures DeleteEntry(AfterStatusChange(ps, status), "status") == DeleteEntry(ps, "status")
  {
    if status != "" && status != "all" {
      SetFacts(ps, "status", status, other);
    } else {
      DeleteGet(ps, "status", other);
      DeleteTwice(ps, "status");
    }
  }
}
