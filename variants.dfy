/** The variant generator of the new-product form
    (app/dashboard/products/new/page.tsx): option rows `{ name, values }`, where
    `values` is a comma-separated list, are expanded into every combination of
    one value per option. */
module Variants {

  /** One row of the options editor. */
  datatype OptionRow = OptionRow(name: string, values: string)

  /** A generated variant: display name, price, stock and option-name to value map. */
  datatype Variant = Variant(name: string, price: int, stock: int, options: map<string, string>)

  // ---------------------------------------------------------------------------
  // Strings: split on a separator, trim, join

  /** ECMAScript white space and line terminators, which `trim` removes. */
  predicate IsSpace(c: char)
  {
    || c == '\t' || c == '\n' || c == '\r' || c == ' '
    || c as int == 0x0B || c as int == 0x0C || c as int == 0xA0 || c as int == 0x1680
    || 0x2000 <= c as int <= 0x200A
    || c as int == 0x2028 || c as int == 0x2029 || c as int == 0x202F || c as int == 0x205F
    || c as int == 0x3000 || c as int == 0xFEFF
  }

  /** Drops leading white space. */
  function TrimStart(s: string): (r: string)
    ensures |r| <= |s| && r == s[|s| - |r|..]
    ensures r == [] || !IsSpace(r[0])
    ensures forall j :: 0 <= j < |s| - |r| ==> IsSpace(s[j])
  {
    if s != [] && IsSpace(s[0]) then TrimStart(s[1..]) else s
  }

  /** Drops trailing white space. */
  function TrimEnd(s: string): (r: string)
    ensures |r| <= |s| && r == s[..|r|]
    ensures r == [] || !IsSpace(r[|r| - 1])
    ensures forall j :: |r| <= j < |s| ==> IsSpace(s[j])
  {
    if s != [] && IsSpace(s[|s| - 1]) then TrimEnd(s[..|s| - 1]) else s
  }

  /** `String.prototype.trim`: what is left of `s` once its leading white
      space is dropped (`TrimStart`) and then its trailing white space; of
      the left-trimmed string it keeps a prefix that does not end with white
      space, and everything it cuts from there is white space. */
  function Trim(s: string): (r: string)
    ensures var t := TrimStart(s);
      && |r| <= |t| && r == t[..|r|]
      && (r == [] || !IsSpace(r[|r| - 1]))
      && (forall k :: |r| <= k < |t| ==> IsSpace(t[k]))
  {
    TrimEnd(TrimStart(s))
  }

  /** Neither end of a trimmed string is white space, and it has no
      character that `s` lacks. */
  lemma TrimEnds(s: string)
    ensures var r := Trim(s);
      && (r == [] || (!IsSpace(r[0]) && !IsSpace(r[|r| - 1])))
      && (forall c :: c in r ==> c in s)
  {
    var t := TrimStart(s);
    var r := Trim(s);
    assert r != [] ==> r[0] == t[0];
    forall c | c in r ensures c in s {
      var m :| 0 <= m < |r| && r[m] == c;
      assert t[m] == c;
      assert s[|s| - |t| + m] == c;
    }
  }

  /** `s.split(sep)` for a one-character separator: the pieces between
      separators, including empty ones; `""` splits into `[""]`. */
  function Split(s: string, sep: char): (pieces: seq<string>)
    ensures |pieces| >= 1
    ensures forall k :: 0 <= k < |pieces| ==> sep !in pieces[k]
  {
    if s == [] then [""]
    else
      var rest := Split(s[1..], sep);
      if s[0] == sep then [""] + rest else [[s[0]] + rest[0]] + rest[1..]
  }

  /** `pieces.join(sep)` */
  function Join(pieces: seq<string>, sep: string): string
  {
    if pieces == [] then ""
    else if |pieces| == 1 then pieces[0]
    else pieces[0] + sep + Join(pieces[1..], sep)
  }

  /** Splitting and joining back with the same separator gives the original string. */
  lemma {:induction false} JoinSplit(s: string, sep: char)
    ensures Join(Split(s, sep), [sep]) == s
  {
    if s != [] {
      var rest := Split(s[1..], sep);
      JoinSplit(s[1..], sep);
      if s[0] == sep {
        assert Split(s, sep)[1..] == rest;
      } else {
        var pieces := Split(s, sep);
        if |rest| == 1 {
          assert pieces == [[s[0]] + rest[0]];
        } else {
          assert pieces[1..] == rest[1..];
          assert Join(rest, [sep]) == rest[0] + [sep] + Join(rest[1..], [sep]);
        }
      }
    }
  }

  /** `map(v => v.trim())` */
  function TrimAll(pieces: seq<string>): (r: seq<string>)
    ensures |r| == |pieces|
    ensures forall k :: 0 <= k < |r| ==> r[k] == Trim(pieces[k])
  {
    seq(|pieces|, k requires 0 <= k < |pieces| => Trim(pieces[k]))
  }

  /** `filter(v => v !== '')`: exactly the non-empty pieces. */
  function NonEmpty(pieces: seq<string>): (r: seq<string>)
    ensures |r| <= |pieces|
    ensures forall x :: x in r <==> x in pieces && x != ""
  {
    if pieces == [] then []
    else if pieces[0] == "" then NonEmpty(pieces[1..])
    else [pieces[0]] + NonEmpty(pieces[1..])
  }

  /** The filter keeps order: it works piece by piece, so filtering a
      concatenation concatenates the filtered parts, and a single piece is
      kept exactly when it is non-empty. */
  lemma {:induction false} NonEmptyAppend(a: seq<string>, b: seq<string>)
    ensures NonEmpty(a + b) == NonEmpty(a) + NonEmpty(b)
    ensures forall x :: NonEmpty([x]) == if x == "" then [] else [x]
  {
    if a != [] {
      assert (a + b)[1..] == a[1..] + b;
      NonEmptyAppend(a[1..], b);
    } else {
      assert a + b == b;
    }
    forall x ensures NonEmpty([x]) == if x == "" then [] else [x] {
      assert [x][1..] == [];
    }
  }

  /** An option's values: `values.split(',').map(v => v.trim()).filter(v => v !== '')`. */
  function ParseValues(values: string): seq<string>
  {
    NonEmpty(TrimAll(Split(values, ',')))
  }

  /** Every parsed value is non-empty, has no surrounding white space and no comma. */
  lemma ParsedValueShape(values: string, k: nat)
    ensures var vs := ParseValues(values);
      k < |vs| ==> vs[k] != "" && !IsSpace(vs[k][0]) && !IsSpace(vs[k][|vs[k]| - 1]) && ',' !in vs[k]
  {
    var pieces := Split(values, ',');
    var trimmed := TrimAll(pieces);
    var vs := ParseValues(values);
    if k < |vs| {
      assert vs[k] in trimmed;
      var m :| 0 <= m < |trimmed| && trimmed[m] == vs[k];
      TrimEnds(pieces[m]);
    }
  }

  // ---------------------------------------------------------------------------
  // Combinations

  /** An option row with both a name and values. */
  predicate IsValid(o: OptionRow)
  {
    o.name != "" && o.values != ""
  }

  /** `options.filter(o => o.name && o.values)`: exactly the valid rows. */
  function ValidOptions(options: seq<OptionRow>): (r: seq<OptionRow>)
    ensures |r| <= |options|
    ensures forall o :: o in r <==> o in options && IsValid(o)
  {
    if options == [] then []
    else if IsValid(options[0]) then [options[0]] + ValidOptions(options[1..])
    else ValidOptions(options[1..])
  }

  /** The filter keeps order: filtering a concatenation concatenates the
      filtered parts, and a single row is kept exactly when it is valid. */
  lemma {:induction false} ValidOptionsAppend(a: seq<OptionRow>, b: seq<OptionRow>)
    ensures ValidOptions(a + b) == ValidOptions(a) + ValidOptions(b)
    ensures forall o :: ValidOptions([o]) == if IsValid(o) then [o] else []
  {
    if a != [] {
      assert (a + b)[1..] == a[1..] + b;
      ValidOptionsAppend(a[1..], b);
    } else {
      assert a + b == b;
    }
    forall o ensures ValidOptions([o]) == if IsValid(o) then [o] else [] {
      assert [o][1..] == [];
    }
  }

  /** The option names, in order. */
  function Names(valid: seq<OptionRow>): (r: seq<string>)
    ensures |r| == |valid|
    ensures forall k :: 0 <= k < |r| ==> r[k] == valid[k].name
  {
    if valid == [] then [] else [valid[0].name] + Names(valid[1..])
  }

  /** Each option's parsed values, in order. */
  function ValueLists(valid: seq<OptionRow>): (r: seq<seq<string>>)
    ensures |r| == |valid|
    ensures forall k :: 0 <= k < |r| ==> r[k] == ParseValues(valid[k].values)
  {
    seq(|valid|, k requires 0 <= k < |valid| => ParseValues(valid[k].values))
  }

  /** `[v] + c` for every `c` of `cs`. */
  function PrependAll(v: string, cs: seq<seq<string>>): (r: seq<seq<string>>)
    ensures |r| == |cs|
    ensures forall k :: 0 <= k < |cs| ==> r[k] == [v] + cs[k]
  {
    if cs == [] then [] else [[v] + cs[0]] + PrependAll(v, cs[1..])
  }

  /** For each value in turn, that value followed by every tail. */
  function EachThen(values: seq<string>, tails: seq<seq<string>>): seq<seq<string>>
  {
    if values == [] then [] else PrependAll(values[0], tails) + EachThen(values[1..], tails)
  }

  lemma {:induction false} EachThenLength(values: seq<string>, tails: seq<seq<string>>)
    ensures |EachThen(values, tails)| == |values| * |tails|
  {
    if values != [] {
      EachThenLength(values[1..], tails);
      MulStep(|values|, |tails|);
    }
  }

  lemma MulStep(q: nat, n: nat)
    requires q > 0
    ensures q * n == (q - 1) * n + n
  {
  }

  /** The cartesian product of the value lists, first list varying slowest. */
  function Choices(lists: seq<seq<string>>): seq<seq<string>>
  {
    if lists == [] then [[]] else EachThen(lists[0], Choices(lists[1..]))
  }

  /** `q` blocks of `n`, counted without multiplication. */
  function Offset(q: nat, n: nat): nat
  {
    if q == 0 then 0 else Offset(q - 1, n) + n
  }

  lemma {:induction false} OffsetIsProduct(q: nat, n: nat)
    ensures Offset(q, n) == q * n
  {
    if q > 0 {
      OffsetIsProduct(q - 1, n);
      MulStep(q, n);
    }
  }

  /** Position `q * |tails| + r` of `EachThen` is value `q` followed by tail `r`. */
  lemma EachThenAt(values: seq<string>, tails: seq<seq<string>>, q: nat, r: nat)
    requires q < |values| && r < |tails|
    ensures q * |tails| + r < |EachThen(values, tails)|
    ensures EachThen(values, tails)[q * |tails| + r] == [values[q]] + tails[r]
  {
    EachThenAtOffset(values, tails, q, r);
    OffsetIsProduct(q, |tails|);
  }

  lemma {:induction false} EachThenAtOffset(values: seq<string>, tails: seq<seq<string>>, q: nat, r: nat)
    requires q < |values| && r < |tails|
    ensures Offset(q, |tails|) + r < |EachThen(values, tails)|
    ensures EachThen(values, tails)[Offset(q, |tails|) + r] == [values[q]] + tails[r]
  {
    EachThenBound(values, tails, q, r);
    if q == 0 {
      assert EachThen(values, tails) == PrependAll(values[0], tails) + EachThen(values[1..], tails);
    } else {
      EachThenAtOffset(values[1..], tails, q - 1, r);
      EachThenSkip(values, tails, Offset(q - 1, |tails|) + r);
      assert values[1..][q - 1] == values[q];
    }
  }

  /** Past the first block of `|tails|` entries, `EachThen` continues with the
      remaining values. */
  lemma EachThenSkip(values: seq<string>, tails: seq<seq<string>>, k: nat)
    requires values != [] && k < |EachThen(values[1..], tails)|
    ensures |tails| + k < |EachThen(values, tails)|
    ensures EachThen(values, tails)[|tails| + k] == EachThen(values[1..], tails)[k]
  {
    var head := PrependAll(values[0], tails);
    var rest := EachThen(values[1..], tails);
    assert EachThen(values, tails) == head + rest;
    assert (head + rest)[|tails| + k] == rest[k];
  }

  lemma {:induction false} EachThenBound(values: seq<string>, tails: seq<seq<string>>, q: nat, r: nat)
    requires q < |values| && r < |tails|
    ensures Offset(q, |tails|) + r < |EachThen(values, tails)|
  {
    assert |EachThen(values, tails)| == |tails| + |EachThen(values[1..], tails)|;
    if q > 0 {
      EachThenBound(values[1..], tails, q - 1, r);
    }
  }

  /** Every element of `EachThen` is some value followed by some tail. */
  lemma {:induction false} EachThenPick(values: seq<string>, tails: seq<seq<string>>, k: nat) returns (q: nat, r: nat)
    requires k < |EachThen(values, tails)|
    ensures q < |values| && r < |tails| && EachThen(values, tails)[k] == [values[q]] + tails[r]
  {
    if k < |tails| {
      q, r := 0, k;
    } else {
      var q', r' := EachThenPick(values[1..], tails, k - |tails|);
      q, r := q' + 1, r';
    }
  }

  /** The product of the list lengths. */
  function Product(lists: seq<seq<string>>): nat
  {
    if lists == [] then 1 else |lists[0]| * Product(lists[1..])
  }

  /** One variant per combination: the product of the per-option value counts
      (duplicates are not removed). */
  lemma {:induction false} ChoicesCount(lists: seq<seq<string>>)
    ensures |Choices(lists)| == Product(lists)
  {
    if lists != [] {
      ChoicesCount(lists[1..]);
      EachThenLength(lists[0], Choices(lists[1..]));
    }
  }

  /** An option with no values leaves no combinations at all. */
  lemma {:induction false} EmptyListNoChoices(lists: seq<seq<string>>, p: nat)
    requires p < |lists| && lists[p] == []
    ensures Choices(lists) == []
  {
    ChoicesCount(lists);
    ProductZero(lists, p);
  }

  lemma {:induction false} ProductZero(lists: seq<seq<string>>, p: nat)
    requires p < |lists| && lists[p] == []
    ensures Product(lists) == 0
  {
    if p > 0 {
      ProductZero(lists[1..], p - 1);
    }
  }

  /** Ordering: the first option varies slowest. With `N` combinations of the
      remaining options, combination `q * N + r` takes value `q` of the first
      option followed by combination `r` of the rest. */
  lemma ChoicesOrder(lists: seq<seq<string>>, q: nat, r: nat)
    requires lists != [] && q < |lists[0]| && r < |Choices(lists[1..])|
    ensures var n := |Choices(lists[1..])|;
      q * n + r < |Choices(lists)| && Choices(lists)[q * n + r] == [lists[0][q]] + Choices(lists[1..])[r]
  {
    EachThenAt(lists[0], Choices(lists[1..]), q, r);
  }

  // ---------------------------------------------------------------------------
  // From combinations to variants

  /** `{ ...currentOptions, [name]: value }` for each name/value in turn: a later
      name overwrites an earlier equal one. */
  function Assign(current: map<string, string>, names: seq<string>, choice: seq<string>): (m: map<string, string>)
    ensures current.Keys <= m.Keys
    ensures |choice| == |names| && names != [] ==>
      names[|names| - 1] in m && m[names[|names| - 1]] == choice[|choice| - 1]
    decreases |names|
  {
    if names == [] || choice == [] then current else Assign(current[names[0] := choice[0]], names[1..], choice[1..])
  }

  /** The variant for `choice`, starting from the partial name and options. */
  function VariantFor(currentOptions: map<string, string>, currentName: seq<string>,
                      names: seq<string>, choice: seq<string>): Variant
  {
    Variant(Join(currentName + choice, " / "), 0, 0, Assign(currentOptions, names, choice))
  }

  function VariantsFor(currentOptions: map<string, string>, currentName: seq<string>,
                       names: seq<string>, cs: seq<seq<string>>): (vs: seq<Variant>)
    ensures |vs| == |cs|
    ensures forall k :: 0 <= k < |cs| ==> vs[k] == VariantFor(currentOptions, currentName, names, cs[k])
  {
    if cs == [] then [] else [VariantFor(currentOptions, currentName, names, cs[0])] + VariantsFor(currentOptions, currentName, names, cs[1..])
  }

  /** What `generateVariants(options)` returns. */
  function VariantsOf(options: seq<OptionRow>): (vs: seq<Variant>)
    ensures ValidOptions(options) == [] ==> vs == []
    ensures forall k :: 0 <= k < |vs| ==> vs[k].price == 0 && vs[k].stock == 0
  {
    var valid := ValidOptions(options);
    if valid == [] then []
    else VariantsFor(map[], [], Names(valid), Choices(ValueLists(valid)))
  }

  /** `generateCombinations(index, currentOptions, currentName)`: recursion over
      the options, and for each value of the current option a loop that
      appends the combinations of the remaining options. */
  method GenerateCombinations(valid: seq<OptionRow>, index: nat,
                              currentOptions: map<string, string>, currentName: seq<string>)
    returns (combinations: seq<Variant>)
    requires index <= |valid|
    ensures combinations == VariantsFor(currentOptions, currentName, Names(valid)[index..], Choices(ValueLists(valid)[index..]))
    decreases |valid| - index
  {
    if index == |valid| {
      NoOptionsLeft(valid, currentOptions, currentName);
      return [Variant(Join(currentName, " / "), 0, 0, currentOptions)];
    }
    var option := valid[index];
    var values := ParseValues(option.values);
    if |values| == 0 {
      LoopDone(valid, index, currentOptions, currentName, []);
      return [];
    }
    combinations := [];
    for i := 0 to |values|
      invariant combinations == VariantsFor(currentOptions, currentName, Names(valid)[index..],
                                            EachThen(values[..i], Choices(ValueLists(valid)[index + 1..])))
    {
      var value := values[i];
      var more := GenerateCombinations(valid, index + 1, currentOptions[option.name := value], currentName + [value]);
      LoopStep(valid, index, currentOptions, currentName, values, i, combinations, more);
      combinations := combinations + more;
    }
    LoopDone(valid, index, currentOptions, currentName, combinations);
  }

  /** Once every value of the option at `index` has had its turn (or it has
      none), the loop's result is the combinations from `index` on. */
  lemma LoopDone(valid: seq<OptionRow>, index: nat, currentOptions: map<string, string>, currentName: seq<string>,
                 combinations: seq<Variant>)
    requires index < |valid|
    requires var values := ParseValues(valid[index].values);
      combinations == VariantsFor(currentOptions, currentName, Names(valid)[index..],
                                  EachThen(values[..|values|], Choices(ValueLists(valid)[index + 1..])))
    ensures combinations == VariantsFor(currentOptions, currentName, Names(valid)[index..], Choices(ValueLists(valid)[index..]))
  {
    var values := ParseValues(valid[index].values);
    assert values[..|values|] == values;
    RemainingOptions(valid, index);
  }

  /** The loop invariant of `GenerateCombinations` survives appending the
      recursive call's combinations for value `i`. */
  lemma LoopStep(valid: seq<OptionRow>, index: nat, currentOptions: map<string, string>, currentName: seq<string>,
                 values: seq<string>, i: nat, combinations: seq<Variant>, more: seq<Variant>)
    requires index < |valid| && values == ParseValues(valid[index].values) && i < |values|
    requires combinations == VariantsFor(currentOptions, currentName, Names(valid)[index..],
                                         EachThen(values[..i], Choices(ValueLists(valid)[index + 1..])))
    requires more == VariantsFor(currentOptions[valid[index].name := values[i]], currentName + [values[i]],
                                 Names(valid)[index + 1..], Choices(ValueLists(valid)[index + 1..]))
    ensures combinations + more == VariantsFor(currentOptions, currentName, Names(valid)[index..],
                                               EachThen(values[..i + 1], Choices(ValueLists(valid)[index + 1..])))
  {
    RemainingOptions(valid, index);
    CombinationStep(currentOptions, currentName, Names(valid)[index..], values, i, Choices(ValueLists(valid)[index + 1..]));
  }

  /** Past the last option there is exactly one combination, the partial one. */
  lemma NoOptionsLeft(valid: seq<OptionRow>, currentOptions: map<string, string>, currentName: seq<string>)
    ensures VariantsFor(currentOptions, currentName, Names(valid)[|valid|..], Choices(ValueLists(valid)[|valid|..]))
         == [Variant(Join(currentName, " / "), 0, 0, currentOptions)]
  {
    assert ValueLists(valid)[|valid|..] == [];
    assert currentName + [] == currentName;
  }

  /** The options from `index` on are the one at `index` followed by the rest. */
  lemma RemainingOptions(valid: seq<OptionRow>, index: nat)
    requires index < |valid|
    ensures var names := Names(valid)[index..];
      names != [] && names[0] == valid[index].name && names[1..] == Names(valid)[index + 1..]
    ensures Choices(ValueLists(valid)[index..])
         == EachThen(ParseValues(valid[index].values), Choices(ValueLists(valid)[index + 1..]))
  {
    assert ValueLists(valid)[index..][1..] == ValueLists(valid)[index + 1..];
  }

  /** One turn of the loop: the combinations for value `i` are appended. */
  lemma CombinationStep(currentOptions: map<string, string>, currentName: seq<string>,
                        names: seq<string>, values: seq<string>, i: nat, tails: seq<seq<string>>)
    requires names != [] && i < |values|
    ensures VariantsFor(currentOptions, currentName, names, EachThen(values[..i + 1], tails))
         == VariantsFor(currentOptions, currentName, names, EachThen(values[..i], tails))
          + VariantsFor(currentOptions[names[0] := values[i]], currentName + [values[i]], names[1..], tails)
  {
    assert values[..i + 1] == values[..i] + [values[i]];
    EachThenSnoc(values[..i], values[i], tails);
    PrependStep(currentOptions, currentName, names, values[i], tails);
    VariantsForAppend(currentOptions, currentName, names, EachThen(values[..i], tails), PrependAll(values[i], tails));
  }

  lemma {:induction false} EachThenSnoc(values: seq<string>, v: string, tails: seq<seq<string>>)
    ensures EachThen(values + [v], tails) == EachThen(values, tails) + PrependAll(v, tails)
  {
    if values == [] {
      assert values + [v] == [v];
    } else {
      assert (values + [v])[1..] == values[1..] + [v];
      EachThenSnoc(values[1..], v, tails);
    }
  }

  lemma {:induction false} VariantsForAppend(currentOptions: map<string, string>, currentName: seq<string>,
                                             names: seq<string>, a: seq<seq<string>>, b: seq<seq<string>>)
    ensures VariantsFor(currentOptions, currentName, names, a + b)
         == VariantsFor(currentOptions, currentName, names, a) + VariantsFor(currentOptions, currentName, names, b)
  {
    if a == [] {
      assert a + b == b;
    } else {
      assert (a + b)[0] == a[0];
      assert (a + b)[1..] == a[1..] + b;
      VariantsForAppend(currentOptions, currentName, names, a[1..], b);
    }
  }

  /** Fixing the first option to `v` is the same as extending the partial name
      and options by `v`, as the recursive call does. */
  lemma PrependStep(currentOptions: map<string, string>, currentName: seq<string>,
                    names: seq<string>, v: string, tails: seq<seq<string>>)
    requires names != []
    ensures VariantsFor(currentOptions, currentName, names, PrependAll(v, tails))
         == VariantsFor(currentOptions[names[0] := v], currentName + [v], names[1..], tails)
  {
    var l := VariantsFor(currentOptions, currentName, names, PrependAll(v, tails));
    var r := VariantsFor(currentOptions[names[0] := v], currentName + [v], names[1..], tails);
    forall k | 0 <= k < |tails| ensures l[k] == r[k] {
      VariantForStep(currentOptions, currentName, names, v, tails[k]);
    }
  }

  lemma VariantForStep(currentOptions: map<string, string>, currentName: seq<string>,
                       names: seq<string>, v: string, tail: seq<string>)
    requires names != []
    ensures VariantFor(currentOptions, currentName, names, [v] + tail)
         == VariantFor(currentOptions[names[0] := v], currentName + [v], names[1..], tail)
  {
    var c := [v] + tail;
    assert c[0] == v && c[1..] == tail;
    assert Assign(currentOptions, names, c) == Assign(currentOptions[names[0] := v], names[1..], tail);
    assert currentName + c == currentName + [v] + tail;
  }

  /** `generateVariants(options)` */
  method GenerateVariants(options: seq<OptionRow>) returns (variants: seq<Variant>)
    ensures variants == VariantsOf(options)
  {
    var validOptions := ValidOptions(options);
    if |validOptions| == 0 {
      return [];
    }
    variants := GenerateCombinations(validOptions, 0, map[], []);
    assert Names(validOptions)[0..] == Names(validOptions);
    assert ValueLists(validOptions)[0..] == ValueLists(validOptions);
  }

  // ---------------------------------------------------------------------------
  // Properties of the generated list

  /** With no usable option row, or with a usable row whose values are all
      blank, there are no variants; otherwise one per combination. */
  lemma VariantCount(options: seq<OptionRow>)
    ensures var valid := ValidOptions(options);
      |VariantsOf(options)| == if valid == [] then 0 else Product(ValueLists(valid))
    ensures var valid := ValidOptions(options);
      (exists p :: 0 <= p < |valid| && ParseValues(valid[p].values) == []) ==> VariantsOf(options) == []
  {
    var valid := ValidOptions(options);
    if valid != [] {
      ChoicesCount(ValueLists(valid));
      if exists p :: 0 <= p < |valid| && ParseValues(valid[p].values) == [] {
        var p :| 0 <= p < |valid| && ParseValues(valid[p].values) == [];
        EmptyListNoChoices(ValueLists(valid), p);
      }
    }
  }

  /** Each variant is named by its chosen values joined with `" / "` in option
      order, and starts with price 0 and stock 0. */
  lemma VariantShape(options: seq<OptionRow>, k: nat)
    ensures var valid := ValidOptions(options);
      k < |VariantsOf(options)| ==>
      var choice := Choices(ValueLists(valid))[k];
      && valid != []
      && |choice| == |valid|
      && (forall p :: 0 <= p < |valid| ==> choice[p] in ParseValues(valid[p].values))
      && VariantsOf(options)[k] == Variant(Join(choice, " / "), 0, 0, Assign(map[], Names(valid), choice))
  {
    if k < |VariantsOf(options)| {
      var valid := ValidOptions(options);
      var lists := ValueLists(valid);
      var cs := Choices(lists);
      assert valid != [];
      VariantAt(Names(valid), cs, k);
      ChoiceMembers(lists, k);
      var choice := cs[k];
      forall p | 0 <= p < |valid| ensures choice[p] in ParseValues(valid[p].values) {
        assert choice[p] in lists[p];
      }
    }
  }

  /** The `k`-th variant built from no partial choice is the `k`-th combination
      written out. */
  lemma VariantAt(names: seq<string>, cs: seq<seq<string>>, k: nat)
    requires k < |cs|
    ensures VariantsFor(map[], [], names, cs)[k] == Variant(Join(cs[k], " / "), 0, 0, Assign(map[], names, cs[k]))
  {
    assert [] + cs[k] == cs[k];
  }

  /** Every combination picks one value of each option, in option order. */
  lemma {:induction false} ChoiceMembers(lists: seq<seq<string>>, k: nat)
    requires k < |Choices(lists)|
    ensures |Choices(lists)[k]| == |lists|
    ensures forall p :: 0 <= p < |lists| ==> Choices(lists)[k][p] in lists[p]
  {
    if lists != [] {
      var q, r := EachThenPick(lists[0], Choices(lists[1..]), k);
      ChoiceMembers(lists[1..], r);
      var c := Choices(lists)[k];
      forall p | 0 <= p < |lists| ensures c[p] in lists[p] {
        if p > 0 {
          assert c[p] == Choices(lists[1..])[r][p - 1];
        }
      }
    }
  }

  /** In a variant's options map every option name is a key, and its value is
      the one chosen for the LAST option carrying that name. */
  lemma {:induction false} AssignLookup(current: map<string, string>, names: seq<string>, choice: seq<string>, p: nat)
    requires |choice| == |names|
    requires p < |names|
    requires forall q :: p < q < |names| ==> names[q] != names[p]
    ensures names[p] in Assign(current, names, choice)
    ensures Assign(current, names, choice)[names[p]] == choice[p]
    decreases |names|
  {
    if p == 0 {
      AssignUntouched(current[names[0] := choice[0]], names[1..], choice[1..], names[0]);
    } else {
      AssignLookup(current[names[0] := choice[0]], names[1..], choice[1..], p - 1);
    }
  }

  /** A key none of the names mentions keeps its value. */
  lemma {:induction false} AssignUntouched(current: map<string, string>, names: seq<string>, choice: seq<string>, key: string)
    requires |choice| == |names|
    requires key in current
    requires forall q :: 0 <= q < |names| ==> names[q] != key
    ensures key in Assign(current, names, choice) && Assign(current, names, choice)[key] == current[key]
    decreases |names|
  {
    if names != [] {
      AssignUntouched(current[names[0] := choice[0]], names[1..], choice[1..], key);
    }
  }

  /** The options map has exactly the option names as keys (plus what it started with). */
  lemma {:induction false} AssignKeys(current: map<string, string>, names: seq<string>, choice: seq<string>)
    requires |choice| == |names|
    ensures Assign(current, names, choice).Keys == current.Keys + set q | 0 <= q < |names| :: names[q]
    decreases |names|
  {
    if names != [] {
      AssignKeys(current[names[0] := choice[0]], names[1..], choice[1..]);
      var rest := set q | 0 <= q < |names[1..]| :: names[1..][q];
      var all := set q | 0 <= q < |names| :: names[q];
      assert all == {names[0]} + rest by {
        forall x | x in all ensures x in {names[0]} + rest {
          var q :| 0 <= q < |names| && names[q] == x;
          if q > 0 { assert names[1..][q - 1] == x; }
        }
      }
    }
  }

  /** Sizes S, M and colours Red, Blue give four combinations, sizes varying
      slowest, named "S / Red", "S / Blue", "M / Red", "M / Blue". */
  lemma SizeColourExample()
    ensures var cs := Choices([["S", "M"], ["Red", "Blue"]]);
      cs == [["S", "Red"], ["S", "Blue"], ["M", "Red"], ["M", "Blue"]]
      && Join(cs[1], " / ") == "S / Blue"
      && VariantFor(map[], [], ["Size", "Color"], cs[2]).options == map["Size" := "M", "Color" := "Red"]
  {
    SizeColourChoices();
    assert Join(["S", "Blue"], " / ") == "S / Blue" by {
      assert Join(["Blue"], " / ") == "Blue";
    }
    SizeColourOptions();
  }

  lemma SizeColourChoices()
    ensures Choices([["S", "M"], ["Red", "Blue"]]) == [["S", "Red"], ["S", "Blue"], ["M", "Red"], ["M", "Blue"]]
  {
    var lists := [["S", "M"], ["Red", "Blue"]];
    assert lists[1..][1..] == [];
    assert Choices(lists[1..]) == [["Red"], ["Blue"]] by {
      assert ["Red", "Blue"][1..] == ["Blue"] && ["Blue"][1..] == [];
      assert ["Blue"] + [] == ["Blue"] && ["Red"] + [] == ["Red"];
      assert PrependAll("Blue", [[]]) == [["Blue"]];
      assert PrependAll("Red", [[]]) == [["Red"]];
    }
    var tails := [["Red"], ["Blue"]];
    assert ["S", "M"][1..] == ["M"] && ["M"][1..] == [];
    assert ["S"] + ["Red"] == ["S", "Red"] && ["S"] + ["Blue"] == ["S", "Blue"];
    assert ["M"] + ["Red"] == ["M", "Red"] && ["M"] + ["Blue"] == ["M", "Blue"];
    assert PrependAll("S", tails) == [["S", "Red"], ["S", "Blue"]];
    assert PrependAll("M", tails) == [["M", "Red"], ["M", "Blue"]];
  }

  lemma SizeColourOptions()
    ensures VariantFor(map[], [], ["Size", "Color"], ["M", "Red"]).options == map["Size" := "M", "Color" := "Red"]
  {
    var names := ["Size", "Color"];
    var choice := ["M", "Red"];
    assert Assign(map[], names, choice) == Assign(map["Size" := "M"], ["Color"], ["Red"]);
    assert Assign(map["Size" := "M"], ["Color"], ["Red"]) == map["Size" := "M", "Color" := "Red"] by {
      assert ["Color"][1..] == [];
    }
  }

  // ---------------------------------------------------------------------------
  // The form state that holds the generated list

  /** The `hasVariants`, `options` and `variants` state of the add-product form. */
  class AddProductForm {
    var hasVariants: bool
    var options: seq<OptionRow>
    var variants: seq<Variant>

    /** The variant list always reflects the current options while the box is
        ticked, and is empty while it is not. */
    ghost predicate Valid()
      reads this
    {
      variants == if hasVariants then VariantsOf(options) else []
    }

    /** Initial state: unticked, one `Size` row with no values, no variants. */
    constructor ()
      ensures Valid()
      ensures !hasVariants && options == [OptionRow("Size", "")] && variants == []
    {
      hasVariants := false;
      options := [OptionRow("Size", "")];
      variants := [];
    }

    /** `handleOptionsChange`: store the new rows; regenerate only while ticked. */
    method HandleOptionsChange(newOptions: seq<OptionRow>)
      modifies this
      ensures options == newOptions && hasVariants == old(hasVariants)
      ensures variants == if hasVariants then VariantsOf(newOptions) else old(variants)
      ensures old(Valid()) ==> Valid()
    {
      options := newOptions;
      if hasVariants {
        variants := GenerateVariants(newOptions);
      }
    }

    /** The checkbox's `onChange`: ticking regenerates, unticking clears. */
    method HandleHasVariantsChange(checked: bool)
      modifies this
      ensures hasVariants == checked && options == old(options)
      ensures variants == if checked then VariantsOf(options) else []
      ensures Valid()
    {
      hasVariants := checked;
      if checked {
        variants := GenerateVariants(options);
      } else {
        variants := [];
      }
    }
  }
}
