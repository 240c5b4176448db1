/** Filtering records by their string attributes: `FilterableAttribute`,
    the per-class attribute discovery of `FilterableMixin`, and the
    `name:op:value` filter builder. Python reflection over a class is
    replaced by a `ClassInfo` listing what reflection sees in the class
    body (its own annotations and annotated properties, in declaration
    order) together with the attribute tables of its filterable bases. */
module FilterableMixin {
  import opened Wrappers
  import opened JsonValue

  /** An attribute name and its annotation as a string (the code uses
      postponed annotations, so every annotation is its source text). */
  datatype FilterableAttribute = FilterableAttribute(name: string, annotation: string)

  /** A parsed clause: the operator and value are raw strings. */
  datatype FilterPart = FilterPart(name: string, operator: string, value: string)

  /** `FilterableAttribute.operators`. */
  function Operators(annotation: string): (ops: set<string>)
    ensures annotation in {"str", "str | None", "Optional[str]"} ==> ops == {"eq", "ne"}
    ensures annotation in {"list[str]", "set[str]", "frozenset[str]"} ==> ops == {"includes", "excludes"}
    ensures annotation !in {"str", "str | None", "Optional[str]", "list[str]", "set[str]", "frozenset[str]"} ==> ops == {}
  {
    if annotation in {"str", "str | None", "Optional[str]"} then {"eq", "ne"}
    else if annotation in {"list[str]", "set[str]", "frozenset[str]"} then {"includes", "excludes"}
    else {}
  }

  /** Only the four operators exist. */
  lemma {:induction false} OperatorsAreKnown(annotation: string)
    ensures Operators(annotation) <= {"eq", "ne", "includes", "excludes"}
  {
  }

  /** A clause accepted by `build_filter`: the attribute, its operator and
      the raw string value the lambda compares with. */
  datatype Clause = Clause(attr: FilterableAttribute, operator: string, value: string)

  /** `FilterableAttribute.build_filter`: ValueError for an operator the
      attribute does not support. */
  function BuildClause(attr: FilterableAttribute, operator: string, value: string): (r: Result<Clause>)
    ensures r.Ok? <==> operator in Operators(attr.annotation)
    ensures r.Ok? ==> r.value == Clause(attr, operator, value)
    ensures r.Err? ==> r.error.ValueError?
  {
    if operator in Operators(attr.annotation) then Ok(Clause(attr, operator, value))
    else Err(ValueError("Operator is not supported for this attribute"))
  }

  /** Reading an attribute of the filtered object; a property may raise. */
  type Getter = string -> Result<Value>

  /** value occurs in s at index i. */
  predicate OccursAt(s: string, value: string, i: int) {
    0 <= i && i + |value| <= |s| && s[i..i + |value|] == value
  }

  /** Python's `value in container` for a string value. */
  function Contains(container: Value, value: string): (r: Result<bool>)
    ensures container.Set? ==> r == Ok(Str(value) in container.elems)
    ensures container.List? ==> r == Ok(Str(value) in container.items)
  {
    match container
    case Set(elems) => Ok(Str(value) in elems)
    case List(items) => Ok(Str(value) in items)
    case Dict(fields) => Ok(value in fields)
    case Str(s) => Ok(exists i | 0 <= i <= |s| :: OccursAt(s, value, i))
    case _ => Err(TypeError("argument is not iterable"))
  }

  /** What the lambda built for a clause returns for an object. */
  function Eval(c: Clause, x: Getter): (r: Result<bool>)
  {
    var v :- x(c.attr.name);
    if c.operator == "eq" then Ok(Str(c.value) == v)
    else if c.operator == "ne" then Ok(Str(c.value) != v)
    else if c.operator == "includes" then Contains(v, c.value)
    else if c.operator == "excludes" then
      var b :- Contains(v, c.value);
      Ok(!b)
    else Err(ValueError("Unexpected operator"))
  }

  /** `all(part_filter(x) for part_filter in part_filters)`: stops at the
      first clause that rejects or raises. */
  function EvalAll(cs: seq<Clause>, x: Getter): Result<bool>
    decreases |cs|
  {
    if cs == [] then Ok(true)
    else
      var b :- Eval(cs[0], x);
      if !b then Ok(false) else EvalAll(cs[1..], x)
  }

  /** The predicate is the conjunction of its clauses; with no clause it
      accepts everything. */
  lemma {:induction false} EvalAllIsConjunction(cs: seq<Clause>, x: Getter)
    ensures EvalAll(cs, x) == Ok(true) <==> forall i :: 0 <= i < |cs| ==> Eval(cs[i], x) == Ok(true)
    ensures cs == [] ==> EvalAll(cs, x) == Ok(true)
    decreases |cs|
  {
    if cs != [] {
      EvalAllIsConjunction(cs[1..], x);
      assert forall i :: 1 <= i < |cs| ==> cs[i] == cs[1..][i - 1];
    }
  }

  /** eq and ne are each other's negation, and so are includes and excludes. */
  lemma {:induction false} ComplementaryOperators(attr: FilterableAttribute, value: string, x: Getter)
    ensures x(attr.name).Ok? ==>
      Eval(Clause(attr, "ne", value), x) == Ok(!Eval(Clause(attr, "eq", value), x).value)
    ensures Eval(Clause(attr, "includes", value), x).Ok? ==>
      Eval(Clause(attr, "excludes", value), x) == Ok(!Eval(Clause(attr, "includes", value), x).value)
  {
  }

  /** The attribute table of `build_filter`: the first clause whose name is
      not an attribute, or whose operator the attribute does not support,
      raises ValueError. */
  function BuildFilterSpec(attrs: map<string, FilterableAttribute>, parts: seq<FilterPart>): (r: Result<seq<Clause>>)
    ensures r.Ok? ==> |r.value| == |parts|
    decreases |parts|
  {
    if parts == [] then Ok([])
    else
      var last := parts[|parts| - 1];
      var init :- BuildFilterSpec(attrs, parts[..|parts| - 1]);
      if last.name !in attrs then Err(ValueError("Not filterable attribute"))
      else
        var c :- BuildClause(attrs[last.name], last.operator, last.value);
        Ok(init + [c])
  }

  /** A part is usable when it names an attribute with that operator. */
  predicate Usable(attrs: map<string, FilterableAttribute>, p: FilterPart) {
    p.name in attrs && p.operator in Operators(attrs[p.name].annotation)
  }

  /** build_filter succeeds exactly when every part is usable; then the
      i-th clause tests the i-th part's attribute with its operator and raw
      value. */
  lemma {:induction false} BuildFilterSpecProperties(attrs: map<string, FilterableAttribute>, parts: seq<FilterPart>)
    ensures BuildFilterSpec(attrs, parts).Ok? <==> forall i :: 0 <= i < |parts| ==> Usable(attrs, parts[i])
    ensures BuildFilterSpec(attrs, parts).Err? ==> BuildFilterSpec(attrs, parts).error.ValueError?
    ensures BuildFilterSpec(attrs, parts).Ok? ==> forall i :: 0 <= i < |parts| ==>
      BuildFilterSpec(attrs, parts).value[i] == Clause(attrs[parts[i].name], parts[i].operator, parts[i].value)
    decreases |parts|
  {
    if parts != [] {
      var n := |parts| - 1;
      BuildFilterSpecProperties(attrs, parts[..n]);
      assert forall i :: 0 <= i < n ==> parts[..n][i] == parts[i];
    }
  }

  /** An error on a prefix of the parts is the error of all of them. */
  lemma {:induction false} BuildFilterPrefixFails(attrs: map<string, FilterableAttribute>, parts: seq<FilterPart>, k: nat)
    requires k <= |parts| && BuildFilterSpec(attrs, parts[..k]).Err?
    ensures BuildFilterSpec(attrs, parts) == BuildFilterSpec(attrs, parts[..k])
    decreases |parts| - k
  {
    if k < |parts| {
      var n := |parts| - 1;
      assert parts[..n][..k] == parts[..k];
      BuildFilterPrefixFails(attrs, parts[..n], k);
    } else {
      assert parts[..k] == parts;
    }
  }

  /** `build_filter`'s loop over the parts. */
  method BuildFilter(attrs: map<string, FilterableAttribute>, parts: seq<FilterPart>) returns (r: Result<seq<Clause>>)
    ensures r == BuildFilterSpec(attrs, parts)
  {
    var partFilters: seq<Clause> := [];
    for i := 0 to |parts|
      invariant BuildFilterSpec(attrs, parts[..i]) == Ok(partFilters)
    {
      assert parts[..i + 1][..i] == parts[..i];
      var part := parts[i];
      if part.name !in attrs {
        BuildFilterPrefixFails(attrs, parts, i + 1);
        return Err(ValueError("Not filterable attribute"));
      }
      var c := BuildClause(attrs[part.name], part.operator, part.value);
      if c.Err? {
        BuildFilterPrefixFails(attrs, parts, i + 1);
        return Err(c.error);
      }
      partFilters := partFilters + [c.value];
    }
    assert parts[..|parts|] == parts;
    return Ok(partFilters);
  }

  /** The index of the first ':' in s, or |s|. */
  function ColonAt(s: string): (i: nat)
    ensures i <= |s|
    ensures i < |s| ==> s[i] == ':'
    decreases |s|
  {
    if s == [] || s[0] == ':' then 0 else 1 + ColonAt(s[1..])
  }

  /** No colon comes before ColonAt(s): it is the first one. */
  lemma {:induction false} ColonAtFirst(s: string)
    ensures forall k :: 0 <= k < ColonAt(s) ==> s[k] != ':'
    decreases |s|
  {
    if s != [] && s[0] != ':' {
      ColonAtFirst(s[1..]);
      assert forall k :: 1 <= k < ColonAt(s) ==> s[k] == s[1..][k - 1];
    }
  }

  /** `name, operator, value = s.split(":", maxsplit=2)`: ValueError (not
      enough values to unpack) when s has fewer than two colons. */
  function SplitPart(s: string): (r: Result<FilterPart>)
    ensures r.Err? ==> r.error.ValueError?
  {
    var i := ColonAt(s);
    if i == |s| then Err(ValueError("not enough values to unpack"))
    else
      var j := ColonAt(s[i + 1..]);
      if j == |s| - i - 1 then Err(ValueError("not enough values to unpack"))
      else Ok(FilterPart(s[..i], s[i + 1..i + 1 + j], s[i + 2 + j..]))
  }

  /** The three pieces joined with colons give back the clause, and the
      name and operator hold no colon (the value may). */
  lemma {:induction false} SplitPartRejoins(s: string)
    ensures var r := SplitPart(s);
      r.Ok? ==> (r.value.name + ":" + r.value.operator + ":" + r.value.value == s
                 && ':' !in r.value.name && ':' !in r.value.operator)
  {
    var i := ColonAt(s);
    if i < |s| {
      var j := ColonAt(s[i + 1..]);
      if j < |s| - i - 1 {
        SplitPartAt(s, i, j);
        Rejoin(s, i, j);
        ColonAtFirst(s);
        ColonAtFirst(s[i + 1..]);
        assert s[i + 1..i + 1 + j] == s[i + 1..][..j];
      }
    }
  }

  lemma {:induction false} Rejoin(s: string, i: nat, j: nat)
    requires i + 1 + j < |s| && s[i] == ':' && s[i + 1 + j] == ':'
    ensures s[..i] + ":" + s[i + 1..i + 1 + j] + ":" + s[i + 2 + j..] == s
  {
    assert s == s[..i] + [s[i]] + s[i + 1..i + 1 + j] + [s[i + 1 + j]] + s[i + 2 + j..];
  }

  lemma {:induction false} ColonAtPrefix(a: string, b: string)
    requires ':' !in a
    ensures ColonAt(a + ":" + b) == |a|
    decreases |a|
  {
    if a != [] {
      assert (a + ":" + b)[1..] == a[1..] + ":" + b;
      ColonAtPrefix(a[1..], b);
    }
  }

  /** The two sides of a joining colon. */
  lemma {:induction false} ColonPieces(a: string, b: string)
    ensures |a + ":" + b| == |a| + 1 + |b|
    ensures (a + ":" + b)[..|a|] == a && (a + ":" + b)[|a| + 1..] == b
  {
  }

  /** SplitPart once both colons are found. */
  lemma {:induction false} SplitPartAt(s: string, i: nat, j: nat)
    requires i < |s| && ColonAt(s) == i
    requires j < |s| - i - 1 && ColonAt(s[i + 1..]) == j
    ensures SplitPart(s) == Ok(FilterPart(s[..i], s[i + 1..i + 1 + j], s[i + 2 + j..]))
  {
  }

  /** Splitting undoes joining: the value may itself contain colons. */
  lemma {:induction false} SplitPartJoin(name: string, operator: string, value: string)
    requires ':' !in name && ':' !in operator
    ensures SplitPart(name + ":" + operator + ":" + value) == Ok(FilterPart(name, operator, value))
  {
    var rest := operator + ":" + value;
    var s := name + ":" + rest;
    assert name + ":" + operator + ":" + value == s;
    ColonAtPrefix(name, rest);
    ColonPieces(name, rest);
    ColonAtPrefix(operator, value);
    ColonPieces(operator, value);
    var i, j := |name|, |operator|;
    SplitPartAt(s, i, j);
    assert s[i + 1..i + 1 + j] == rest[..j];
    assert s[i + 2 + j..] == rest[j + 1..];
  }

  /** A clause with fewer than two colons cannot be split. */
  lemma {:induction false} SplitPartNeedsTwoColons(s: string)
    requires forall i, j :: 0 <= i < j < |s| ==> !(s[i] == ':' && s[j] == ':')
    ensures SplitPart(s).Err?
  {
  }

  /** `build_str_filter`'s split loop, the first failure wins. */
  function SplitPartsSpec(strParts: seq<string>): (r: Result<seq<FilterPart>>)
    ensures r.Ok? ==> |r.value| == |strParts|
    ensures r.Ok? ==> forall i :: 0 <= i < |strParts| ==> SplitPart(strParts[i]) == Ok(r.value[i])
    ensures r.Err? ==> exists i :: 0 <= i < |strParts| && SplitPart(strParts[i]).Err?
    decreases |strParts|
  {
    if strParts == [] then Ok([])
    else
      var n := |strParts| - 1;
      var init :- SplitPartsSpec(strParts[..n]);
      var p :- SplitPart(strParts[n]);
      Ok(init + [p])
  }

  /** `build_str_filter`: split every clause, then `build_filter`. */
  method BuildStrFilter(attrs: map<string, FilterableAttribute>, strParts: seq<string>) returns (r: Result<seq<Clause>>)
    ensures SplitPartsSpec(strParts).Err? ==> r.Err?
    ensures SplitPartsSpec(strParts).Ok? ==> r == BuildFilterSpec(attrs, SplitPartsSpec(strParts).value)
  {
    var filterParts: seq<FilterPart> := [];
    for i := 0 to |strParts|
      invariant SplitPartsSpec(strParts[..i]) == Ok(filterParts)
    {
      assert strParts[..i + 1][..i] == strParts[..i];
      var p := SplitPart(strParts[i]);
      if p.Err? {
        assert SplitPartsSpec(strParts[..i + 1]).Err?;
        SplitPrefixFails(strParts, i + 1);
        return Err(p.error);
      }
      filterParts := filterParts + [p.value];
    }
    assert strParts[..|strParts|] == strParts;
    r := BuildFilter(attrs, filterParts);
  }

  lemma {:induction false} SplitPrefixFails(strParts: seq<string>, k: nat)
    requires k <= |strParts| && SplitPartsSpec(strParts[..k]).Err?
    ensures SplitPartsSpec(strParts).Err?
  {
    var i :| 0 <= i < k && SplitPart(strParts[..k][i]).Err?;
    assert strParts[..k][i] == strParts[i];
  }

  // ---------------------------------------------------------------------
  // Attribute discovery
  // ---------------------------------------------------------------------

  /** What reflection sees of one class: the attribute tables of its bases
      that are FilterableMixin subclasses (in `__bases__` order), its own
      annotations and its own annotated properties (name, annotation). */
  datatype ClassInfo = ClassInfo(
    filterableBases: seq<map<string, FilterableAttribute>>,
    annotations: seq<(string, string)>,
    properties: seq<(string, string)>)

  predicate Public(name: string) {
    name == [] || name[0] != '_'
  }

  /** Base tables merged left to right: later bases win. */
  function MergeBases(bases: seq<map<string, FilterableAttribute>>): map<string, FilterableAttribute>
    decreases |bases|
  {
    if bases == [] then map[] else MergeBases(bases[..|bases| - 1]) + bases[|bases| - 1]
  }

  /** Own public declarations applied in order: later ones win. */
  function Declare(attrs: map<string, FilterableAttribute>, decls: seq<(string, string)>): map<string, FilterableAttribute>
    decreases |decls|
  {
    if decls == [] then attrs
    else
      var d := decls[|decls| - 1];
      var before := Declare(attrs, decls[..|decls| - 1]);
      if Public(d.0) then before[d.0 := FilterableAttribute(d.0, d.1)] else before
  }

  /** Declaring one more name on top of a declaration list. */
  lemma {:induction false} DeclareSnoc(attrs: map<string, FilterableAttribute>, decls: seq<(string, string)>, d: (string, string))
    ensures Declare(attrs, decls + [d]) ==
      if Public(d.0) then Declare(attrs, decls)[d.0 := FilterableAttribute(d.0, d.1)] else Declare(attrs, decls)
  {
    assert (decls + [d])[..|decls|] == decls;
  }

  /** A single filterable base contributes its own table. */
  lemma {:induction false} MergeOneBase(base: map<string, FilterableAttribute>)
    ensures MergeBases([base]) == base
  {
    assert [base][..0] == [];
  }

  /** Only attributes with some operator remain. */
  function KeepFilterable(attrs: map<string, FilterableAttribute>): (r: map<string, FilterableAttribute>)
    ensures forall k :: k in r <==> k in attrs && Operators(attrs[k].annotation) != {}
    ensures forall k :: k in r ==> r[k] == attrs[k]
  {
    map k | k in attrs && Operators(attrs[k].annotation) != {} :: attrs[k]
  }

  /** Filtering a table after one more declaration. */
  lemma {:induction false} KeepFilterableUpdate(attrs: map<string, FilterableAttribute>, name: string, attr: FilterableAttribute)
    ensures KeepFilterable(attrs[name := attr]) ==
      if Operators(attr.annotation) != {} then KeepFilterable(attrs)[name := attr] else KeepFilterable(attrs) - {name}
  {
  }

  /** A table of filterable attributes is kept whole. */
  lemma {:induction false} KeepFilterableAll(attrs: map<string, FilterableAttribute>)
    requires forall k :: k in attrs ==> Operators(attrs[k].annotation) != {}
    ensures KeepFilterable(attrs) == attrs
  {
  }

  /** `_get_filterable_attributes` on the reflected class. */
  function AttributesSpec(info: ClassInfo): map<string, FilterableAttribute> {
    KeepFilterable(Declare(Declare(MergeBases(info.filterableBases), info.annotations), info.properties))
  }

  /** The entries of a table are keyed by their own name (as the final dict
      comprehension re-keys them), provided the bases' tables are. */
  predicate KeyedByName(attrs: map<string, FilterableAttribute>) {
    forall k :: k in attrs ==> attrs[k].name == k
  }

  lemma {:induction false} DeclareKeyed(attrs: map<string, FilterableAttribute>, decls: seq<(string, string)>)
    requires KeyedByName(attrs)
    ensures KeyedByName(Declare(attrs, decls))
    decreases |decls|
  {
    if decls != [] {
      DeclareKeyed(attrs, decls[..|decls| - 1]);
    }
  }

  lemma {:induction false} MergeBasesKeyed(bases: seq<map<string, FilterableAttribute>>)
    requires forall i :: 0 <= i < |bases| ==> KeyedByName(bases[i])
    ensures KeyedByName(MergeBases(bases))
    decreases |bases|
  {
    if bases != [] {
      MergeBasesKeyed(bases[..|bases| - 1]);
    }
  }

  /** The last public declaration of a name decides its annotation;
      without one the earlier table's entry stays. */
  lemma {:induction false} DeclareLastWins(attrs: map<string, FilterableAttribute>, decls: seq<(string, string)>, name: string)
    ensures (exists i :: 0 <= i < |decls| && decls[i].0 == name && Public(name)) ==>
      name in Declare(attrs, decls) &&
      exists i :: 0 <= i < |decls| && decls[i].0 == name && Declare(attrs, decls)[name] == FilterableAttribute(name, decls[i].1)
        && forall j :: i < j < |decls| ==> decls[j].0 != name
    ensures (forall i :: 0 <= i < |decls| ==> decls[i].0 != name || !Public(name)) ==>
      (name in Declare(attrs, decls) <==> name in attrs) && (name in attrs ==> Declare(attrs, decls)[name] == attrs[name])
    decreases |decls|
  {
    if decls != [] {
      var n := |decls| - 1;
      DeclareLastWins(attrs, decls[..n], name);
      assert forall i :: 0 <= i < n ==> decls[..n][i] == decls[i];
      if decls[n].0 == name && Public(name) {
        assert Declare(attrs, decls)[name] == FilterableAttribute(name, decls[n].1);
      } else if exists i :: 0 <= i < |decls| && decls[i].0 == name && Public(name) {
        var i :| 0 <= i < |decls| && decls[i].0 == name && Public(name);
        assert i < n;
      }
    }
  }

  /** The discovery loops of `_get_filterable_attributes`. */
  method GetFilterableAttributes(info: ClassInfo) returns (attrs: map<string, FilterableAttribute>)
    ensures attrs == AttributesSpec(info)
  {
    var all: map<string, FilterableAttribute> := map[];
    for i := 0 to |info.filterableBases|
      invariant all == MergeBases(info.filterableBases[..i])
    {
      assert info.filterableBases[..i + 1][..i] == info.filterableBases[..i];
      all := all + info.filterableBases[i];
    }
    assert info.filterableBases[..|info.filterableBases|] == info.filterableBases;
    var inherited := all;
    for i := 0 to |info.annotations|
      invariant all == Declare(inherited, info.annotations[..i])
    {
      assert info.annotations[..i + 1][..i] == info.annotations[..i];
      var (name, type_) := info.annotations[i];
      if Public(name) {
        all := all[name := FilterableAttribute(name, type_)];
      }
    }
    assert info.annotations[..|info.annotations|] == info.annotations;
    var annotated := all;
    for i := 0 to |info.properties|
      invariant all == Declare(annotated, info.properties[..i])
    {
      assert info.properties[..i + 1][..i] == info.properties[..i];
      var (name, type_) := info.properties[i];
      if Public(name) {
        all := all[name := FilterableAttribute(name, type_)];
      }
    }
    assert info.properties[..|info.properties|] == info.properties;
    attrs := KeepFilterable(all);
  }

  /** FilterableMixin itself declares nothing reflection can see. */
  const FilterableMixinInfo: ClassInfo := ClassInfo([], [], [])
}
