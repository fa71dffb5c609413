/**
 * The order-description reader: named-object lookup, the attribute checks of
 * one record, the tokenising of one line, the per-line loop that fills the
 * item tables, the attachment of task-machine records to their tasks, the
 * sorted name collections, and the assembly of a job scheduler from the
 * collected tuples.
 *
 * Attribute values are dynamically typed in `parse_orders.py`, so they are the
 * `PVal` datatype here. Every exception it raises (its own
 * `Exception`s and Python's `KeyError`, `ValueError`, `TypeError`) is an `Err`
 * of `ParseError`. Python's `int()` on a string is supplied by the caller as
 * `toInt`, which answers `None` where `int()` would raise.
 */
module ParseOrders {
  import opened Wrappers
  import opened Dicts
  import opened Strings
  import opened Domain
  import opened Seqs
  import JobScheduling
  import CpSat

  /** The converter an allowable parameter names: `str`, `int`, `bool` or `list`. */
  datatype PType = StrType | IntType | BoolType | ListType

  /** An allowable or required parameter: a bare name, or a `(name, type)` tuple. */
  datatype Param = Bare(name: string) | Typed(name: string, ptype: PType)

  /** A task-machine entry `(machine name, duration, value)` of a task record. */
  type TmTriple = (string, PVal, PVal)

  /** An attribute value; `NoValue` is Python's `None`. */
  datatype PVal =
    | Str(s: string)
    | Int(n: int)
    | Bool(b: bool)
    | List(items: seq<string>)
    | NoValue
    | TaskMachines(tms: seq<TmTriple>)

  datatype ParseError =
      /** "Unknown parameter for <type> <name>: <pname>" */
    | UnknownParameter(itemType: string, itemName: string, pname: string)
      /** "Missing parameter for <type> <name>: <pname>" */
    | MissingParameter(itemType: string, itemName: string, pname: string)
      /** "Unknown item: <type>" */
    | UnknownItem(itemType: string)
      /** `int(text)` raised ValueError */
    | NotAnInt(text: string)
      /** the first field of a line has no `:` (IndexError on `parts[0][1]`) */
    | MissingName(field: seq<string>)
      /** a task-machine name that is not `task,machine` (ValueError on unpacking) */
    | BadTaskMachineName(tmName: string)
      /** a dictionary subscript on an absent key (KeyError) */
    | MissingKey(key: string)
      /** an attribute used as a list that holds something else */
    | NotAList(key: string)
      /** a name that `get` does not find among the objects built so far */
    | Unresolved(name: string)

  /** The attributes of one record, by parameter name. */
  type Attrs = Dict<string, PVal>

  /** The records of one item type, by record name. */
  type Records = Dict<string, Attrs>

  /** `items`: item type -> record name -> attributes. */
  type Items = Dict<string, Records>

  // ---------------------------------------------------------------------
  // get, find_param, parse_list

  /** The position of the first element satisfying `p`, or -1. */
  function IndexWhere<T>(s: seq<T>, p: T -> bool): (r: int)
    ensures -1 <= r < |s|
    ensures r >= 0 ==> p(s[r]) && forall j :: 0 <= j < r ==> !p(s[j])
    ensures r == -1 <==> forall j :: 0 <= j < |s| ==> !p(s[j])
  {
    if s == [] then -1
    else if p(s[0]) then 0
    else var r := IndexWhere(s[1..], p); if r == -1 then -1 else r + 1
  }

  /** `get(name, objects)`: the first object called `name`, or None. */
  function GetByName<T>(name: string, objects: seq<T>, nameOf: T -> string): (r: Option<T>)
    ensures r.None? <==> forall i :: 0 <= i < |objects| ==> nameOf(objects[i]) != name
    ensures r.Some? ==> exists i :: 0 <= i < |objects| && objects[i] == r.value && nameOf(objects[i]) == name
                                    && forall j :: 0 <= j < i ==> nameOf(objects[j]) != name
  {
    var i := IndexWhere(objects, (o: T) => nameOf(o) == name);
    if i == -1 then None else Some(objects[i])
  }

  /** The `(name, type)` an allowable entry stands for: a bare name is a `str` parameter. */
  function ParamEntry(p: Param): (string, PType) {
    match p
    case Bare(n) => (n, StrType)
    case Typed(n, t) => (n, t)
  }

  /** The position of the first parameter called `pname`, or -1. */
  function ParamIndex(pname: string, ps: seq<Param>): (r: int)
    ensures -1 <= r < |ps|
    ensures r >= 0 ==> ps[r].name == pname && forall j :: 0 <= j < r ==> ps[j].name != pname
    ensures r == -1 <==> forall j :: 0 <= j < |ps| ==> ps[j].name != pname
  {
    if ps == [] then -1
    else if ps[0].name == pname then 0
    else var r := ParamIndex(pname, ps[1..]); if r == -1 then -1 else r + 1
  }

  /** `find_param(pname, parameters)`, with `(None, None)` as `None`. */
  function FindParam(pname: string, ps: seq<Param>): (r: Option<(string, PType)>)
    ensures r.None? <==> forall i :: 0 <= i < |ps| ==> ps[i].name != pname
    ensures r.Some? ==> exists i :: 0 <= i < |ps| && ps[i].name == pname && r.value == ParamEntry(ps[i])
                                    && forall j :: 0 <= j < i ==> ps[j].name != pname
  {
    var i := ParamIndex(pname, ps);
    if i == -1 then None else Some(ParamEntry(ps[i]))
  }

  /** `parse_list(s)`: the comma-separated pieces, or None for the empty string. */
  function ParseList(s: string): (r: Option<seq<string>>)
    ensures r.None? <==> s == ""
    ensures r.Some? ==> Join(r.value, ',') == s && forall i :: 0 <= i < |r.value| ==> ',' !in r.value[i]
  {
    if s == "" then None
    else
      JoinSplit(s, ',');
      SplitPiecesFree(s, ',');
      Some(Split(s, ','))
  }

  // ---------------------------------------------------------------------
  // parse_attrs

  /** `param[1] if len(param) > 1 else 'True'` */
  function ParamText(param: seq<string>): string {
    if |param| > 1 then param[1] else "True"
  }

  /**
   * `parse_list(s) if ptype == list else ptype(s)`. Python's `bool(s)` is true
   * exactly for a non-empty string, so `bool('False')` is true.
   */
  function Convert(ptype: PType, s: string, toInt: string -> Option<int>): Result<PVal, ParseError> {
    match ptype
    case StrType => Ok(Str(s))
    case BoolType => Ok(Bool(s != ""))
    case IntType => (match toInt(s) case Some(n) => Ok(Int(n)) case None => Err(NotAnInt(s)))
    case ListType => (match ParseList(s) case Some(xs) => Ok(List(xs)) case None => Ok(NoValue))
  }

  /** Every field split from a line has at least one piece. */
  ghost predicate NonEmptyFields(params: seq<seq<string>>) {
    forall i :: 0 <= i < |params| ==> |params[i]| >= 1
  }

  /**
   * The value one field `name[:text]` contributes: its name must be an
   * allowable parameter (an empty name is falsy and counts as unknown), and its
   * text, 'True' when absent, is converted by the parameter's type.
   */
  function FieldValue(itemType: string, name: string, param: seq<string>, allowable: seq<Param>,
                      toInt: string -> Option<int>): Result<PVal, ParseError>
    requires |param| >= 1
  {
    match FindParam(param[0], allowable)
    case None => Err(UnknownParameter(itemType, name, param[0]))
    case Some(found) =>
      if found.0 == "" then Err(UnknownParameter(itemType, name, param[0]))
      else Convert(found.1, ParamText(param), toInt)
  }

  /** What the first loop of parse_attrs leaves in `pvals` after the fields `params`, or the exception it raises. */
  function FillAttrs(itemType: string, name: string, params: seq<seq<string>>, allowable: seq<Param>,
                     toInt: string -> Option<int>): Result<Attrs, ParseError>
    requires NonEmptyFields(params)
  {
    if params == [] then Ok([])
    else
      var last := params[|params| - 1];
      match FillAttrs(itemType, name, params[..|params| - 1], allowable, toInt)
      case Err(e) => Err(e)
      case Ok(pvals) =>
        match FieldValue(itemType, name, last, allowable, toInt)
        case Err(e) => Err(e)
        case Ok(v) => Ok(Put(pvals, last[0], v))
  }

  /** `pvals.get(required) != None` */
  predicate Present(pvals: Attrs, pname: string) {
    Get(pvals, pname).Some? && Get(pvals, pname).value != NoValue
  }

  /** The position of the first required parameter that is absent or None, or -1. */
  function MissingIndex(pvals: Attrs, required: seq<Param>): (k: int)
    ensures -1 <= k < |required|
    ensures k >= 0 ==> !Present(pvals, required[k].name) && forall j :: 0 <= j < k ==> Present(pvals, required[j].name)
    ensures k == -1 <==> forall j :: 0 <= j < |required| ==> Present(pvals, required[j].name)
  {
    if required == [] then -1
    else if !Present(pvals, required[0].name) then 0
    else var k := MissingIndex(pvals, required[1..]); if k == -1 then -1 else k + 1
  }

  /** `parse_attrs(type, name, params, allowable_params, required_params)` */
  function Attributes(itemType: string, name: string, params: seq<seq<string>>, allowable: seq<Param>,
                      required: seq<Param>, toInt: string -> Option<int>): Result<Attrs, ParseError>
    requires NonEmptyFields(params)
  {
    match FillAttrs(itemType, name, params, allowable, toInt)
    case Err(e) => Err(e)
    case Ok(pvals) =>
      var k := MissingIndex(pvals, required);
      if k == -1 then Ok(pvals) else Err(MissingParameter(itemType, name, required[k].name))
  }

  lemma {:induction false} FillAttrsErrSticks(itemType: string, name: string, params: seq<seq<string>>, allowable: seq<Param>,
                                              toInt: string -> Option<int>, n: nat)
    requires NonEmptyFields(params) && n <= |params|
    requires FillAttrs(itemType, name, params[..n], allowable, toInt).Err?
    ensures FillAttrs(itemType, name, params, allowable, toInt) == FillAttrs(itemType, name, params[..n], allowable, toInt)
    decreases |params|
  {
    if n < |params| {
      var init := params[..|params| - 1];
      assert init[..n] == params[..n];
      FillAttrsErrSticks(itemType, name, init, allowable, toInt, n);
    } else {
      assert params[..n] == params;
    }
  }

  /** The first loop of parse_attrs: each field's converted value is stored under its name. */
  method FillParams(itemType: string, name: string, params: seq<seq<string>>, allowable: seq<Param>,
                    toInt: string -> Option<int>) returns (r: Result<Attrs, ParseError>)
    requires NonEmptyFields(params)
    ensures r == FillAttrs(itemType, name, params, allowable, toInt)
  {
    var pvals: Attrs := [];
    for i := 0 to |params|
      invariant FillAttrs(itemType, name, params[..i], allowable, toInt) == Ok(pvals)
    {
      var param := params[i];
      var pname := param[0];
      var found := FindParam(pname, allowable);
      ghost var field := FieldValue(itemType, name, param, allowable, toInt);
      assert params[..i + 1][..i] == params[..i] && params[..i + 1][i] == param;
      if found.None? || found.value.0 == "" {
        assert field == Err(UnknownParameter(itemType, name, pname));
        FillAttrsErrSticks(itemType, name, params, allowable, toInt, i + 1);
        return Err(UnknownParameter(itemType, name, pname));
      }
      var sparam := if |param| > 1 then param[1] else "True";
      var v := Convert(found.value.1, sparam, toInt);
      assert field == v;
      if v.Err? {
        FillAttrsErrSticks(itemType, name, params, allowable, toInt, i + 1);
        return Err(v.error);
      }
      pvals := Put(pvals, pname, v.value);
    }
    assert params[..|params|] == params;
    return Ok(pvals);
  }

  /** parse_attrs: fill the attributes from the fields, then check that every required one is present and not None. */
  method ParseAttrs(itemType: string, name: string, params: seq<seq<string>>, allowable: seq<Param>,
                    required: seq<Param>, toInt: string -> Option<int>) returns (r: Result<Attrs, ParseError>)
    requires NonEmptyFields(params)
    ensures r == Attributes(itemType, name, params, allowable, required, toInt)
  {
    var filled := FillParams(itemType, name, params, allowable, toInt);
    if filled.Err? {
      return Err(filled.error);
    }
    var pvals := filled.value;
    var missing := FirstMissing(pvals, required);
    if missing != -1 {
      return Err(MissingParameter(itemType, name, required[missing].name));
    }
    return Ok(pvals);
  }

  /** The second loop of parse_attrs: the first required parameter whose value is absent or None, or -1. */
  method FirstMissing(pvals: Attrs, required: seq<Param>) returns (k: int)
    ensures k == MissingIndex(pvals, required)
  {
    for i := 0 to |required|
      invariant forall j :: 0 <= j < i ==> Present(pvals, required[j].name)
    {
      var req := required[i].name;
      var v := Get(pvals, req);
      if v.None? || v.value == NoValue {
        return i;
      }
    }
    return -1;
  }

  /** Field `i` is called `n`. */
  predicate Named(params: seq<seq<string>>, i: int, n: string) {
    0 <= i < |params| && |params[i]| >= 1 && params[i][0] == n
  }

  /** The position of the last field called `n`, or -1. */
  function LastField(params: seq<seq<string>>, n: string): (r: int)
    ensures -1 <= r < |params|
    ensures r >= 0 ==> Named(params, r, n) && forall j :: r < j < |params| ==> !Named(params, j, n)
    ensures r == -1 <==> forall j :: 0 <= j < |params| ==> !Named(params, j, n)
  {
    if params == [] then -1
    else if Named(params, |params| - 1, n) then |params| - 1
    else
      var init := params[..|params| - 1];
      var r := LastField(init, n);
      assert forall j :: 0 <= j < |init| ==> (Named(init, j, n) <==> Named(params, j, n));
      r
  }

  /** In a successful fill every field's value converts. */
  lemma {:induction false} FillAttrsFieldsOk(itemType: string, name: string, params: seq<seq<string>>, allowable: seq<Param>,
                                             toInt: string -> Option<int>)
    requires NonEmptyFields(params)
    requires FillAttrs(itemType, name, params, allowable, toInt).Ok?
    ensures forall i :: 0 <= i < |params| ==> FieldValue(itemType, name, params[i], allowable, toInt).Ok?
  {
    forall i | 0 <= i < |params| ensures FieldValue(itemType, name, params[i], allowable, toInt).Ok? {
      FillAttrsFieldOk(itemType, name, params, allowable, toInt, i);
    }
  }

  /** In a successful fill, the `i`-th field converted without error. */
  lemma {:induction false} FillAttrsFieldOk(itemType: string, name: string, params: seq<seq<string>>, allowable: seq<Param>,
                                            toInt: string -> Option<int>, i: int)
    requires NonEmptyFields(params) && 0 <= i < |params|
    requires FillAttrs(itemType, name, params, allowable, toInt).Ok?
    ensures FieldValue(itemType, name, params[i], allowable, toInt).Ok?
    decreases |params|
  {
    var init := params[..|params| - 1];
    if i < |init| {
      assert FillAttrs(itemType, name, init, allowable, toInt).Ok?;
      FillAttrsFieldOk(itemType, name, init, allowable, toInt, i);
      assert init[i] == params[i];
    }
  }

  /** In a successful fill, a name's attribute is the value of the last field with that name, and absent when no field has it. */
  lemma {:induction false} FillAttrsGet(itemType: string, name: string, params: seq<seq<string>>, allowable: seq<Param>,
                                        toInt: string -> Option<int>, n: string)
    requires NonEmptyFields(params)
    requires FillAttrs(itemType, name, params, allowable, toInt).Ok?
    requires forall i :: 0 <= i < |params| ==> FieldValue(itemType, name, params[i], allowable, toInt).Ok?
    ensures Get(FillAttrs(itemType, name, params, allowable, toInt).value, n)
      == (var k := LastField(params, n); if k == -1 then None else Some(FieldValue(itemType, name, params[k], allowable, toInt).value))
  {
    if params != [] {
      var init := params[..|params| - 1];
      var last := params[|params| - 1];
      assert forall i :: 0 <= i < |init| ==> init[i] == params[i];
      FillAttrsGet(itemType, name, init, allowable, toInt, n);
      var pvals0 := FillAttrs(itemType, name, init, allowable, toInt).value;
      var v := FieldValue(itemType, name, last, allowable, toInt).value;
      assert FillAttrs(itemType, name, params, allowable, toInt).value == Put(pvals0, last[0], v);
      if n != last[0] {
        assert LastField(params, n) == LastField(init, n);
      }
    }
  }

  /**
   * parse_attrs succeeds only when every field names an allowable parameter
   * (with a non-empty name) whose text converts, and every required parameter
   * is then present and not None. Its result has an attribute for exactly the
   * names some field has, holding the converted text of the last field with
   * that name.
   */
  lemma AttributesMeaning(itemType: string, name: string, params: seq<seq<string>>, allowable: seq<Param>,
                          required: seq<Param>, toInt: string -> Option<int>)
    requires NonEmptyFields(params)
    requires Attributes(itemType, name, params, allowable, required, toInt).Ok?
    ensures forall i :: 0 <= i < |params| ==> FieldValue(itemType, name, params[i], allowable, toInt).Ok?
    ensures var pvals := Attributes(itemType, name, params, allowable, required, toInt).value;
      && (forall j :: 0 <= j < |required| ==> Present(pvals, required[j].name))
      && (forall n :: Get(pvals, n).Some? <==> exists i :: Named(params, i, n))
      && (forall i :: 0 <= i < |params| && LastField(params, params[i][0]) == i ==>
            Get(pvals, params[i][0]) == Some(FieldValue(itemType, name, params[i], allowable, toInt).value))
  {
    FillAttrsFieldsOk(itemType, name, params, allowable, toInt);
    var pvals := FillAttrs(itemType, name, params, allowable, toInt).value;
    forall n ensures Get(pvals, n).Some? <==> exists i :: Named(params, i, n) {
      FillAttrsGet(itemType, name, params, allowable, toInt, n);
      var k := LastField(params, n);
      if k != -1 {
        assert Named(params, k, n);
      }
    }
    forall i | 0 <= i < |params| && LastField(params, params[i][0]) == i
      ensures Get(pvals, params[i][0]) == Some(FieldValue(itemType, name, params[i], allowable, toInt).value)
    {
      FillAttrsGet(itemType, name, params, allowable, toInt, params[i][0]);
    }
  }

  /**
   * The converse: when every field converts and every required parameter is
   * named by some field whose value is not None, parse_attrs succeeds.
   */
  lemma AttributesSucceed(itemType: string, name: string, params: seq<seq<string>>, allowable: seq<Param>,
                          required: seq<Param>, toInt: string -> Option<int>)
    requires NonEmptyFields(params)
    requires forall i :: 0 <= i < |params| ==> FieldValue(itemType, name, params[i], allowable, toInt).Ok?
    requires FillAttrs(itemType, name, params, allowable, toInt).Ok? ==>
      forall j :: 0 <= j < |required| ==> Present(FillAttrs(itemType, name, params, allowable, toInt).value, required[j].name)
    ensures Attributes(itemType, name, params, allowable, required, toInt).Ok?
  {
    FillAttrsOk(itemType, name, params, allowable, toInt);
  }

  lemma {:induction false} FillAttrsOk(itemType: string, name: string, params: seq<seq<string>>, allowable: seq<Param>,
                                       toInt: string -> Option<int>)
    requires NonEmptyFields(params)
    requires forall i :: 0 <= i < |params| ==> FieldValue(itemType, name, params[i], allowable, toInt).Ok?
    ensures FillAttrs(itemType, name, params, allowable, toInt).Ok?
  {
    if params != [] {
      var init := params[..|params| - 1];
      assert forall i :: 0 <= i < |init| ==> init[i] == params[i];
      FillAttrsOk(itemType, name, init, allowable, toInt);
    }
  }

  /**
   * A field given without a value is converted from the text 'True': a bare
   * (string) parameter then holds "True", a `bool` one holds true, and a
   * field with a value converts that value instead.
   */
  lemma FieldWithoutValue(itemType: string, name: string, pname: string, allowable: seq<Param>,
                          toInt: string -> Option<int>, text: string)
    requires pname != "" && FindParam(pname, allowable).Some?
    ensures var ptype := FindParam(pname, allowable).value.1;
      && FieldValue(itemType, name, [pname], allowable, toInt) == Convert(ptype, "True", toInt)
      && (ptype == StrType ==> FieldValue(itemType, name, [pname], allowable, toInt) == Ok(Str("True")))
      && (ptype == BoolType ==> FieldValue(itemType, name, [pname], allowable, toInt) == Ok(Bool(true)))
      && FieldValue(itemType, name, [pname, text], allowable, toInt) == Convert(ptype, text, toInt)
  {
    var k :| 0 <= k < |allowable| && allowable[k].name == pname && FindParam(pname, allowable).value == ParamEntry(allowable[k]);
    assert FindParam(pname, allowable).value.0 == pname;
  }

  /** A field whose name is not an allowable parameter makes parse_attrs raise. */
  lemma {:induction false} UnknownParameterRaises(itemType: string, name: string, params: seq<seq<string>>, allowable: seq<Param>,
                               required: seq<Param>, toInt: string -> Option<int>, i: int)
    requires NonEmptyFields(params) && 0 <= i < |params|
    requires forall k :: 0 <= k < |allowable| ==> allowable[k].name != params[i][0]
    ensures Attributes(itemType, name, params, allowable, required, toInt).Err?
  {
    if Attributes(itemType, name, params, allowable, required, toInt).Ok? {
      AttributesMeaning(itemType, name, params, allowable, required, toInt);
      assert false;
    }
  }

  /** A required parameter that no field names makes parse_attrs raise. */
  lemma {:induction false} MissingParameterRaises(itemType: string, name: string, params: seq<seq<string>>, allowable: seq<Param>,
                               required: seq<Param>, toInt: string -> Option<int>, k: int)
    requires NonEmptyFields(params) && 0 <= k < |required|
    requires forall i :: 0 <= i < |params| ==> params[i][0] != required[k].name
    ensures Attributes(itemType, name, params, allowable, required, toInt).Err?
  {
    if Attributes(itemType, name, params, allowable, required, toInt).Ok? {
      AttributesMeaning(itemType, name, params, allowable, required, toInt);
      assert false;
    }
  }

  // ---------------------------------------------------------------------
  // The per-line loop of parse_orders

  /** `item_params`: the allowable and the required parameters of each item type. */
  const ItemParams: Dict<string, (seq<Param>, seq<Param>)> := [
    ("Machine", ([Typed("energy", IntType)], [Bare("energy")])),
    ("Tool", ([Typed("num", IntType)], [Bare("num")])),
    ("Part", ([Typed("num", IntType), Typed("cost", IntType)], [Bare("num"), Bare("cost")])),
    ("Task", ([Typed("tools", ListType), Typed("parts", ListType), Bare("made-part"), Typed("quantity", IntType)], [])),
    ("Task-Machine", ([Typed("duration", IntType), Typed("value", IntType)], [Bare("duration"), Bare("value")])),
    ("Job", ([Typed("tasks", ListType)], [Bare("tasks")])),
    ("Order", ([Typed("deadline", IntType), Typed("jobs", ListType), Typed("machines", ListType),
                Typed("use_costs", BoolType), Typed("use_parts", BoolType)],
               [Bare("deadline"), Bare("jobs"), Bare("machines")]))
  ]

  /** `items` before the first line: an empty record table for each item type, in `item_params` order. */
  const EmptyItems: Items := [("Machine", []), ("Tool", []), ("Part", []), ("Task", []), ("Task-Machine", []), ("Job", []), ("Order", [])]

  /** `line.split('#')[0].strip(' \n')` */
  function Uncommented(line: string): string {
    Strip(Split(line, '#')[0], {' ', '\n'})
  }

  /** `[p.strip(' ').split(':') for p in l.replace(' ', '').split(';')]` */
  function Fields(l: string): (parts: seq<seq<string>>)
    ensures |parts| == |Split(Remove(l, ' '), ';')| >= 1
    ensures NonEmptyFields(parts)
  {
    SplitFields(Split(Remove(l, ' '), ';'))
  }

  /** Each `;`-field stripped of blanks and split on `:`. */
  function SplitFields(ps: seq<string>): (parts: seq<seq<string>>)
    ensures |parts| == |ps|
    ensures forall i :: 0 <= i < |ps| ==> parts[i] == Split(Strip(ps[i], {' '}), ':')
  {
    if ps == [] then [] else [Split(Strip(ps[0], {' '}), ':')] + SplitFields(ps[1..])
  }

  /** What one line does to `items`, or the exception it raises. */
  function ParseLine(items: Items, line: string, toInt: string -> Option<int>): Result<Items, ParseError> {
    var l := Uncommented(line);
    if l == "" then Ok(items)
    else
      var parts := Fields(l);
      if |parts[0]| < 2 then Err(MissingName(parts[0]))
      else
        var itemType, name := parts[0][0], parts[0][1];
        match Get(ItemParams, itemType)
        case None => Err(UnknownItem(itemType))
        case Some(ip) =>
          match Attributes(itemType, name, parts[1..], ip.0, ip.1, toInt)
          case Err(e) => Err(e)
          case Ok(pvals) =>
            match Get(items, itemType)
            case None => Err(MissingKey(itemType))
            case Some(records) => Ok(Put(items, itemType, Put(records, name, pvals)))
  }

  /** The item tables after the lines `lines`, or the first exception. */
  function ParseLines(lines: seq<string>, toInt: string -> Option<int>): Result<Items, ParseError> {
    if lines == [] then Ok(EmptyItems)
    else
      match ParseLines(lines[..|lines| - 1], toInt)
      case Err(e) => Err(e)
      case Ok(items) => ParseLine(items, lines[|lines| - 1], toInt)
  }

  /** The body of the per-line loop: records the attributes of one non-blank line under its type and name. */
  method ReadLine(items: Items, line: string, toInt: string -> Option<int>) returns (r: Result<Items, ParseError>)
    ensures r == ParseLine(items, line, toInt)
  {
    var l := Strip(Split(line, '#')[0], {' ', '\n'});
    if l == "" {
      return Ok(items);
    }
    var parts := Fields(l);
    if |parts[0]| < 2 {
      return Err(MissingName(parts[0]));
    }
    var itemType, name := parts[0][0], parts[0][1];
    var itemParam := Get(ItemParams, itemType);
    if itemParam.None? {
      return Err(UnknownItem(itemType));
    }
    var pvals := ParseAttrs(itemType, name, parts[1..], itemParam.value.0, itemParam.value.1, toInt);
    if pvals.Err? {
      return Err(pvals.error);
    }
    var records := Get(items, itemType);
    if records.None? {
      return Err(MissingKey(itemType));
    }
    return Ok(Put(items, itemType, Put(records.value, name, pvals.value)));
  }

  lemma {:induction false} ParseLinesErrSticks(lines: seq<string>, toInt: string -> Option<int>, n: nat)
    requires n <= |lines|
    requires ParseLines(lines[..n], toInt).Err?
    ensures ParseLines(lines, toInt) == ParseLines(lines[..n], toInt)
    decreases |lines|
  {
    if n < |lines| {
      var init := lines[..|lines| - 1];
      assert init[..n] == lines[..n];
      ParseLinesErrSticks(init, toInt, n);
    } else {
      assert lines[..n] == lines;
    }
  }

  /** The per-line loop of parse_orders over the lines of the file. */
  method ReadLines(lines: seq<string>, toInt: string -> Option<int>) returns (r: Result<Items, ParseError>)
    ensures r == ParseLines(lines, toInt)
  {
    var items := EmptyItems;
    for i := 0 to |lines|
      invariant ParseLines(lines[..i], toInt) == Ok(items)
    {
      assert lines[..i + 1][..i] == lines[..i] && lines[..i + 1][i] == lines[i];
      var next := ReadLine(items, lines[i], toInt);
      if next.Err? {
        ParseLinesErrSticks(lines, toInt, i + 1);
        return next;
      }
      items := next.value;
    }
    assert lines[..|lines|] == lines;
    return Ok(items);
  }

  /** The text after the first `#` of a line plays no part. */
  lemma {:induction false} CommentIgnored(items: Items, s: string, comment: string, toInt: string -> Option<int>)
    requires '#' !in s
    ensures ParseLine(items, s + "#" + comment, toInt) == ParseLine(items, s, toInt)
  {
    SplitHead(s, comment, '#');
    SplitFree(s, '#');
    assert Uncommented(s + "#" + comment) == Uncommented(s);
  }

  /** A line holding only blanks before its comment changes nothing. */
  lemma {:induction false} BlankLineSkipped(items: Items, s: string, comment: string, toInt: string -> Option<int>)
    requires forall i :: 0 <= i < |s| ==> s[i] == ' ' || s[i] == '\n'
    ensures ParseLine(items, s + "#" + comment, toInt) == Ok(items)
  {
    assert '#' !in s by {
      forall i | 0 <= i < |s| ensures s[i] != '#' { }
    }
    SplitHead(s, comment, '#');
    StripOnly(s, {' ', '\n'});
  }

  /**
   * One field free of blanks and `;`: its `:` pieces join back to it, and no
   * piece holds a space, `;` or `:`.
   */
  lemma {:induction false} FieldMeaning(f: string)
    requires ' ' !in f && ';' !in f
    ensures Join(Split(f, ':'), ':') == f
    ensures forall j :: 0 <= j < |Split(f, ':')| ==>
      ' ' !in Split(f, ':')[j] && ';' !in Split(f, ':')[j] && ':' !in Split(f, ':')[j]
  {
    JoinSplit(f, ':');
    SplitPiecesFree(f, ':');
    SplitPiecesFrom(f, ':');
  }

  /**
   * Tokenising a line: the spaces are removed, the `;`-separated fields are
   * split on `:`, joining each field's pieces with `:` gives the field back,
   * and no piece holds a space, `;` or `:`.
   */
  lemma {:induction false} FieldsMeaning(l: string)
    ensures var fs := Split(Remove(l, ' '), ';');
      && Join(fs, ';') == Remove(l, ' ')
      && (forall i :: 0 <= i < |fs| ==> Join(Fields(l)[i], ':') == fs[i])
      && (forall i, j :: 0 <= i < |fs| && 0 <= j < |Fields(l)[i]| ==>
            ' ' !in Fields(l)[i][j] && ';' !in Fields(l)[i][j] && ':' !in Fields(l)[i][j])
  {
    var r := Remove(l, ' ');
    JoinSplit(r, ';');
    forall i | 0 <= i < |Split(r, ';')|
      ensures Join(Fields(l)[i], ':') == Split(r, ';')[i]
      ensures forall j :: 0 <= j < |Fields(l)[i]| ==> ' ' !in Fields(l)[i][j] && ';' !in Fields(l)[i][j] && ':' !in Fields(l)[i][j]
    {
      var f := Split(r, ';')[i];
      FieldFree(r, i);
      FieldMeaning(f);
      assert Fields(l)[i] == Split(f, ':') by {
        StripNone(f, {' '});
      }
    }
  }

  /** A `;`-field of a blank-free string holds neither a blank nor `;`. */
  lemma {:induction false} FieldFree(r: string, i: int)
    requires ' ' !in r && 0 <= i < |Split(r, ';')|
    ensures ' ' !in Split(r, ';')[i] && ';' !in Split(r, ';')[i]
  {
    SplitPiecesFree(r, ';');
    SplitPiecesFrom(r, ';');
  }

  /** A line whose first field names no item type raises. */
  lemma {:induction false} UnknownItemRaises(items: Items, line: string, toInt: string -> Option<int>)
    requires Uncommented(line) != ""
    requires |Fields(Uncommented(line))[0]| >= 2
    requires Fields(Uncommented(line))[0][0] !in {"Machine", "Tool", "Part", "Task", "Task-Machine", "Job", "Order"}
    ensures ParseLine(items, line, toInt) == Err(UnknownItem(Fields(Uncommented(line))[0][0]))
  {
    var t := Fields(Uncommented(line))[0][0];
    assert Find(ItemParams, t) == -1 by {
      forall j | 0 <= j < |ItemParams| ensures ItemParams[j].0 != t { }
    }
  }

  /**
   * A non-blank line that parses stores its attributes under its type and
   * name, replacing any earlier record with that type and name, and leaves
   * every other record as it was.
   */
  lemma {:induction false} LineRecord(items: Items, line: string, toInt: string -> Option<int>)
    requires Uncommented(line) != ""
    requires ParseLine(items, line, toInt).Ok?
    ensures var parts := Fields(Uncommented(line));
      && |parts[0]| >= 2
      && var itemType, name, items' := parts[0][0], parts[0][1], ParseLine(items, line, toInt).value;
      && Get(ItemParams, itemType).Some?
      && var ip := Get(ItemParams, itemType).value;
      && Attributes(itemType, name, parts[1..], ip.0, ip.1, toInt).Ok?
      && Get(items, itemType).Some? && Get(items', itemType).Some?
      && Get(Get(items', itemType).value, name) == Some(Attributes(itemType, name, parts[1..], ip.0, ip.1, toInt).value)
      && (forall n :: n != name ==> Get(Get(items', itemType).value, n) == Get(Get(items, itemType).value, n))
      && (forall t :: t != itemType ==> Get(items', t) == Get(items, t))
  {
    var parts := Fields(Uncommented(line));
    assert |parts[0]| >= 2;
    var itemType, name := parts[0][0], parts[0][1];
    assert Get(ItemParams, itemType).Some?;
    var ip := Get(ItemParams, itemType).value;
    var attrs := Attributes(itemType, name, parts[1..], ip.0, ip.1, toInt);
    assert attrs.Ok?;
    assert Get(items, itemType).Some?;
    var records := Get(items, itemType).value;
    var records' := Put(records, name, attrs.value);
    assert ParseLine(items, line, toInt).value == Put(items, itemType, records');
  }

  // ---------------------------------------------------------------------
  // process_task_machines

  /** The `task-machines` list of task `t` in `items`; empty when the task or the list is missing. */
  function TaskMachinesOf(items: Items, t: string): seq<TmTriple> {
    match Get(items, "Task")
    case None => []
    case Some(tasks) =>
      match Get(tasks, t)
      case None => []
      case Some(task) =>
        var current := CurrentTaskMachines(Get(task, "task-machines"));
        if current.Some? then current.value else []
  }

  /** `task.get('task-machines')` as a list: None (absent or None) starts a new one; a value of any other kind is not a list. */
  function CurrentTaskMachines(v: Option<PVal>): Option<seq<TmTriple>> {
    match v
    case None => Some([])
    case Some(NoValue) => Some([])
    case Some(TaskMachines(l)) => Some(l)
    case Some(_) => None
  }

  /**
   * One iteration of process_task_machines: the task-machine record `tmName`
   * (`task,machine`) appends `(machine, duration, value)` to its task's
   * `task-machines`, creating the list when the task has none.
   */
  function AddTaskMachine(items: Items, tmName: string, tm: Attrs): Result<Items, ParseError> {
    var names := Split(tmName, ',');
    if |names| != 2 then Err(BadTaskMachineName(tmName))
    else
      var tname, mname := names[0], names[1];
      match Get(items, "Task")
      case None => Err(MissingKey("Task"))
      case Some(tasks) =>
        match Get(tasks, tname)
        case None => Err(MissingKey(tname))
        case Some(task) =>
          var current := CurrentTaskMachines(Get(task, "task-machines"));
          if current.None? then Err(NotAList("task-machines"))
          else
            match Get(tm, "duration")
            case None => Err(MissingKey("duration"))
            case Some(duration) =>
              match Get(tm, "value")
              case None => Err(MissingKey("value"))
              case Some(value) =>
                var task' := Put(task, "task-machines", TaskMachines(current.value + [(mname, duration, value)]));
                Ok(Put(items, "Task", Put(tasks, tname, task')))
  }

  /** process_task_machines over the task-machine records `tms`, in order. */
  function AddTaskMachines(items: Items, tms: Records): Result<Items, ParseError> {
    if tms == [] then Ok(items)
    else
      match AddTaskMachines(items, tms[..|tms| - 1])
      case Err(e) => Err(e)
      case Ok(items') => AddTaskMachine(items', tms[|tms| - 1].0, tms[|tms| - 1].1)
  }

  /** The triples the records `tms` add to task `t`, in record order. */
  function TriplesFor(t: string, tms: Records): seq<TmTriple> {
    if tms == [] then []
    else
      var last := tms[|tms| - 1];
      var names := Split(last.0, ',');
      TriplesFor(t, tms[..|tms| - 1])
        + (if |names| == 2 && names[0] == t && Get(last.1, "duration").Some? && Get(last.1, "value").Some?
           then [(names[1], Get(last.1, "duration").value, Get(last.1, "value").value)]
           else [])
  }

  /** The records up to `i + 1` apply record `i` to the items the records before it left. */
  lemma AddTaskMachinesStep(items: Items, tms: Records, i: nat, current: Items)
    requires i < |tms| && AddTaskMachines(items, tms[..i]) == Ok(current)
    ensures AddTaskMachines(items, tms[..i + 1]) == AddTaskMachine(current, tms[i].0, tms[i].1)
  {
    assert tms[..i + 1][..i] == tms[..i];
  }

  lemma AddTaskMachinesErrSticks(items: Items, tms: Records, n: nat)
    requires n <= |tms|
    requires AddTaskMachines(items, tms[..n]).Err?
    ensures AddTaskMachines(items, tms) == AddTaskMachines(items, tms[..n])
    decreases |tms|
  {
    if n < |tms| {
      var init := tms[..|tms| - 1];
      assert init[..n] == tms[..n];
      AddTaskMachinesErrSticks(items, init, n);
    } else {
      assert tms[..n] == tms;
    }
  }

  /**
   * process_task_machines: for every task-machine record `T,M`, in order,
   * append `(M, duration, value)` to task T's `task-machines`.
   */
  method ProcessTaskMachines(items: Items) returns (r: Result<Items, ParseError>)
    ensures r == (match Get(items, "Task-Machine")
                  case None => Err(MissingKey("Task-Machine"))
                  case Some(tms) => AddTaskMachines(items, tms))
  {
    var tmRecords := Get(items, "Task-Machine");
    if tmRecords.None? {
      return Err(MissingKey("Task-Machine"));
    }
    var tms := tmRecords.value;
    var current := items;
    for i := 0 to |tms|
      invariant AddTaskMachines(items, tms[..i]) == Ok(current)
    {
      AddTaskMachinesStep(items, tms, i, current);
      var next := AddTaskMachine(current, tms[i].0, tms[i].1);
      if next.Err? {
        AddTaskMachinesErrSticks(items, tms, i + 1);
        return next;
      }
      current := next.value;
    }
    assert tms[..|tms|] == tms;
    return Ok(current);
  }

  /** One record appends its triple to its own task's list and to no other. */
  lemma AddTaskMachineAppends(items: Items, tmName: string, tm: Attrs, t: string)
    requires AddTaskMachine(items, tmName, tm).Ok?
    ensures var names := Split(tmName, ',');
      TaskMachinesOf(AddTaskMachine(items, tmName, tm).value, t)
        == TaskMachinesOf(items, t)
           + (if names[0] == t then [(names[1], Get(tm, "duration").value, Get(tm, "value").value)] else [])
  {
    var names := Split(tmName, ',');
    var tasks := Get(items, "Task").value;
    var task := Get(tasks, names[0]).value;
    var current := CurrentTaskMachines(Get(task, "task-machines")).value;
    var triple := (names[1], Get(tm, "duration").value, Get(tm, "value").value);
    var task' := Put(task, "task-machines", TaskMachines(current + [triple]));
    var tasks' := Put(tasks, names[0], task');
    assert AddTaskMachine(items, tmName, tm) == Ok(Put(items, "Task", tasks'));
    assert Get(Put(items, "Task", tasks'), "Task") == Some(tasks');
    if names[0] == t {
      assert Get(tasks', t) == Some(task');
    } else {
      assert Get(tasks', t) == Get(tasks, t);
    }
  }

  /**
   * After process_task_machines, each task's `task-machines` is its earlier
   * list followed by exactly one triple per `T,M` record for that task, in
   * record order.
   */
  lemma {:induction false} AddTaskMachinesAppend(items: Items, tms: Records, t: string)
    requires AddTaskMachines(items, tms).Ok?
    ensures TaskMachinesOf(AddTaskMachines(items, tms).value, t) == TaskMachinesOf(items, t) + TriplesFor(t, tms)
  {
    if tms != [] {
      var init := tms[..|tms| - 1];
      var last := tms[|tms| - 1];
      assert AddTaskMachines(items, init).Ok?;
      AddTaskMachinesAppend(items, init, t);
      var mid := AddTaskMachines(items, init).value;
      AddTaskMachineAppends(mid, last.0, last.1, t);
    }
  }

  // ---------------------------------------------------------------------
  // collect_tasks, collect_parts, collect_tools

  /**
   * The names record `name` lists under `key`: `records[name][key]` when the
   * attribute is required, `records[name].get(key, {})` when it is optional.
   * A None value cannot be unioned into a set, and neither can a non-list.
   */
  function Referenced(records: Records, name: string, key: string, optional: bool): Result<seq<string>, ParseError> {
    match Get(records, name)
    case None => Err(MissingKey(name))
    case Some(attrs) => NamesIn(Get(attrs, key), key, optional)
  }

  /** The names an attribute lookup gives, when it gives a list. */
  function NamesIn(v: Option<PVal>, key: string, optional: bool): Result<seq<string>, ParseError> {
    match v
    case None => if optional then Ok([]) else Err(MissingKey(key))
    case Some(List(xs)) => Ok(xs)
    case Some(_) => Err(NotAList(key))
  }

  /** The set a collect function has built after the names `names`, or the exception it raises. */
  function Collected(records: Records, names: seq<string>, key: string, optional: bool): Result<set<string>, ParseError> {
    if names == [] then Ok({})
    else
      match Collected(records, names[..|names| - 1], key, optional)
      case Err(e) => Err(e)
      case Ok(acc) =>
        match Referenced(records, names[|names| - 1], key, optional)
        case Err(e) => Err(e)
        case Ok(xs) => Ok(acc + set x | x in xs)
  }

  /** A collected set holds exactly the names that some record of `names` lists. */
  lemma {:induction false} CollectedMeaning(records: Records, names: seq<string>, key: string, optional: bool, x: string)
    requires Collected(records, names, key, optional).Ok?
    ensures forall i :: 0 <= i < |names| ==> Referenced(records, names[i], key, optional).Ok?
    ensures x in Collected(records, names, key, optional).value
      <==> exists i :: 0 <= i < |names| && x in Referenced(records, names[i], key, optional).value
  {
    if names != [] {
      var init := names[..|names| - 1];
      assert Collected(records, init, key, optional).Ok?;
      CollectedMeaning(records, init, key, optional, x);
      assert forall i :: 0 <= i < |init| ==> init[i] == names[i];
      if x in Collected(records, names, key, optional).value && x !in Collected(records, init, key, optional).value {
        assert x in Referenced(records, names[|names| - 1], key, optional).value;
      }
    }
  }

  lemma {:induction false} CollectedErrSticks(records: Records, names: seq<string>, key: string, optional: bool, n: nat)
    requires n <= |names|
    requires Collected(records, names[..n], key, optional).Err?
    ensures Collected(records, names, key, optional) == Collected(records, names[..n], key, optional)
    decreases |names|
  {
    if n < |names| {
      var init := names[..|names| - 1];
      assert init[..n] == names[..n];
      CollectedErrSticks(records, init, key, optional, n);
    } else {
      assert names[..n] == names;
    }
  }

  /** `l = list(s); l.sort()`: the elements of `s`, strictly increasing. */
  method SortedList(s: set<string>) returns (l: seq<string>)
    ensures StrictlySorted(l)
    ensures forall x :: x in l <==> x in s
  {
    l := [];
    var rest := s;
    while rest != {}
      invariant StrictlySorted(l)
      invariant rest <= s
      invariant forall x :: x in l <==> x in s && x !in rest
      decreases |rest|
    {
      var x :| x in rest;
      var l' := InsertSorted(l, x);
      assert forall y :: y in l' <==> y in multiset(l') by {
        forall y ensures y in l' <==> y in multiset(l') { }
      }
      assert forall y :: y in l <==> y in multiset(l) by {
        forall y ensures y in l <==> y in multiset(l) { }
      }
      l := l';
      rest := rest - {x};
    }
  }

  /**
   * The loop shared by collect_tasks, collect_parts and collect_tools: union
   * the names each record of `names` lists under `key`, then sort.
   */
  method CollectNames(records: Records, names: seq<string>, key: string, optional: bool)
    returns (r: Result<seq<string>, ParseError>)
    ensures r.Ok? <==> Collected(records, names, key, optional).Ok?
    ensures r.Ok? ==> StrictlySorted(r.value)
    ensures r.Ok? ==> forall x :: x in r.value <==> x in Collected(records, names, key, optional).value
    ensures r.Err? ==> r.error == Collected(records, names, key, optional).error
  {
    var acc: set<string> := {};
    for i := 0 to |names|
      invariant Collected(records, names[..i], key, optional) == Ok(acc)
    {
      assert names[..i + 1][..i] == names[..i] && names[..i + 1][i] == names[i];
      var xs := Referenced(records, names[i], key, optional);
      if xs.Err? {
        CollectedErrSticks(records, names, key, optional, i + 1);
        return Err(xs.error);
      }
      acc := acc + set x | x in xs.value;
    }
    assert names[..|names|] == names;
    var l := SortedList(acc);
    return Ok(l);
  }

  /** `collect_tasks(jobs, items)`: the tasks of the given jobs. */
  method CollectTasks(jobs: seq<string>, items: Items) returns (r: Result<seq<string>, ParseError>)
    ensures r.Ok? ==> Get(items, "Job").Some?
    ensures r.Ok? ==> forall i :: 0 <= i < |jobs| ==> Referenced(Get(items, "Job").value, jobs[i], "tasks", false).Ok?
    ensures r.Ok? ==> StrictlySorted(r.value)
    ensures r.Ok? ==> forall x :: x in r.value <==>
      exists i :: 0 <= i < |jobs| && x in Referenced(Get(items, "Job").value, jobs[i], "tasks", false).value
  {
    var records := Get(items, "Job");
    if records.None? {
      return Err(MissingKey("Job"));
    }
    r := CollectNames(records.value, jobs, "tasks", false);
    if r.Ok? {
      CollectedMeaning(records.value, jobs, "tasks", false, "");
      forall x ensures x in Collected(records.value, jobs, "tasks", false).value
        <==> exists i :: 0 <= i < |jobs| && x in Referenced(records.value, jobs[i], "tasks", false).value
      {
        CollectedMeaning(records.value, jobs, "tasks", false, x);
      }
    }
  }

  /** `collect_parts(tasks, items)` and `collect_tools(tasks, items)`: the parts or tools the given tasks use. */
  method CollectTaskResources(tasks: seq<string>, items: Items, key: string) returns (r: Result<seq<string>, ParseError>)
    ensures r.Ok? ==> Get(items, "Task").Some?
    ensures r.Ok? ==> forall i :: 0 <= i < |tasks| ==> Referenced(Get(items, "Task").value, tasks[i], key, true).Ok?
    ensures r.Ok? ==> StrictlySorted(r.value)
    ensures r.Ok? ==> forall x :: x in r.value <==>
      exists i :: 0 <= i < |tasks| && x in Referenced(Get(items, "Task").value, tasks[i], key, true).value
  {
    var records := Get(items, "Task");
    if records.None? {
      return Err(MissingKey("Task"));
    }
    r := CollectNames(records.value, tasks, key, true);
    if r.Ok? {
      CollectedMeaning(records.value, tasks, key, true, "");
      forall x ensures x in Collected(records.value, tasks, key, true).value
        <==> exists i :: 0 <= i < |tasks| && x in Referenced(records.value, tasks[i], key, true).value
      {
        CollectedMeaning(records.value, tasks, key, true, x);
      }
    }
  }

  // ---------------------------------------------------------------------
  // create_order

  /**
   * One element of `tasks_list`: `(name, tools, parts, task_machines)` for a
   * plain task, `(name, made_part, quantity, tools, parts, task_machines)` for
   * a task that produces a part.
   */
  datatype TaskEntry =
    | PlainEntry(name: string, toolNames: seq<string>, partNames: seq<string>, tms: seq<(string, int, int)>)
    | ProducingEntry(name: string, madePart: string, quantity: int, toolNames: seq<string>, partNames: seq<string>,
                     tms: seq<(string, int, int)>)

  /** The length of the tuple the entry stands for. */
  function Arity(e: TaskEntry): nat {
    if e.PlainEntry? then 4 else 6
  }

  /** Every name is found by `get`. */
  predicate Resolves<T>(names: seq<string>, objects: seq<T>, nameOf: T -> string) {
    forall i :: 0 <= i < |names| ==> GetByName(names[i], objects, nameOf).Some?
  }

  /** `[get(n, objects) for n in names]`; a name that is not found is an error here. */
  function ResolveAll<T>(names: seq<string>, objects: seq<T>, nameOf: T -> string): (r: Result<seq<T>, ParseError>)
    ensures r.Ok? <==> Resolves(names, objects, nameOf)
    ensures r.Ok? ==> |r.value| == |names|
    ensures r.Ok? ==> forall i :: 0 <= i < |names| ==> r.value[i] == GetByName(names[i], objects, nameOf).value
    ensures r.Ok? ==> forall i :: 0 <= i < |names| ==> nameOf(r.value[i]) == names[i]
  {
    if names == [] then Ok([])
    else
      var init := names[..|names| - 1];
      var last := names[|names| - 1];
      match ResolveAll(init, objects, nameOf)
      case Err(e) =>
        assert !Resolves(init, objects, nameOf);
        Err(e)
      case Ok(xs) =>
        match GetByName(last, objects, nameOf)
        case None => Err(Unresolved(last))
        case Some(x) => Ok(xs + [x])
  }

  /** `[TaskMachine(task, get(m, machines), d, v) for m, d, v in tms]` */
  function TaskMachinesFor(taskName: string, tms: seq<(string, int, int)>, machines: seq<Machine>): (r: Result<seq<TaskMachine>, ParseError>)
    ensures r.Ok? <==> forall i :: 0 <= i < |tms| ==> GetByName(tms[i].0, machines, MachineName).Some?
    ensures r.Ok? ==> |r.value| == |tms|
    ensures r.Ok? ==> forall i :: 0 <= i < |tms| ==>
      && r.value[i].taskName == taskName
      && r.value[i].machine == GetByName(tms[i].0, machines, MachineName).value
      && r.value[i].machine.name == tms[i].0
      && r.value[i].duration == tms[i].1 && r.value[i].value == tms[i].2
  {
    if tms == [] then Ok([])
    else
      var init := tms[..|tms| - 1];
      var last := tms[|tms| - 1];
      AllSnoc(tms, init, (p: (string, int, int)) => GetByName(p.0, machines, MachineName).Some?);
      match TaskMachinesFor(taskName, init, machines)
      case Err(e) => Err(e)
      case Ok(xs) =>
        match GetByName(last.0, machines, MachineName)
        case None => Err(Unresolved(last.0))
        case Some(m) =>
          ZipSnoc(tms, init, xs, TaskMachine(taskName, m, last.1, last.2),
            (p: (string, int, int), x: TaskMachine) =>
              && x.taskName == taskName && GetByName(p.0, machines, MachineName) == Some(x.machine)
              && x.machine.name == p.0 && x.duration == p.1 && x.value == p.2);
          Ok(xs + [TaskMachine(taskName, m, last.1, last.2)])
  }

  /** The task object one entry of `tasks_list` becomes, with its task-machine list attached. */
  function TaskOf(e: TaskEntry, machines: seq<Machine>, parts: seq<Part>, tools: seq<Tool>): Result<Task, ParseError> {
    var made := if e.ProducingEntry? then GetByName(e.madePart, parts, PartName) else None;
    var ts := ResolveAll(e.toolNames, tools, ToolName);
    var ps := ResolveAll(e.partNames, parts, PartName);
    var tms := TaskMachinesFor(e.name, e.tms, machines);
    if e.ProducingEntry? && made.None? then Err(Unresolved(e.madePart))
    else if ts.Err? then Err(ts.error)
    else if ps.Err? then Err(ps.error)
    else if tms.Err? then Err(tms.error)
    else if e.ProducingEntry? then Ok(PartsTask(e.name, ts.value, ps.value, tms.value, made.value, e.quantity))
    else Ok(Task(e.name, ts.value, ps.value, tms.value))
  }

  /**
   * An entry becomes a task exactly when every name in it is found; the task
   * is a producing task exactly when the entry has more than four fields, and
   * it keeps the entry's name, the tools, parts and machines it names (in
   * order) and its durations and values.
   */
  lemma TaskOfMeaning(e: TaskEntry, machines: seq<Machine>, parts: seq<Part>, tools: seq<Tool>)
    ensures var r := TaskOf(e, machines, parts, tools);
      && (r.Ok? <==>
            && (e.ProducingEntry? ==> GetByName(e.madePart, parts, PartName).Some?)
            && Resolves(e.toolNames, tools, ToolName) && Resolves(e.partNames, parts, PartName)
            && forall i :: 0 <= i < |e.tms| ==> GetByName(e.tms[i].0, machines, MachineName).Some?)
      && (r.Ok? ==>
            && r.value.name == e.name
            && (IsPartsTask(r.value) <==> Arity(e) > 4)
            && ToolNames(r.value.tools) == e.toolNames
            && PartNames(r.value.parts) == e.partNames
            && TaskMachinesMatch(r.value.taskMachines, e))
      && (r.Ok? && e.ProducingEntry? ==> r.value.producedPart.name == e.madePart && r.value.quantity == e.quantity)
  {
    var r := TaskOf(e, machines, parts, tools);
    if r.Ok? {
      var ts := ResolveAll(e.toolNames, tools, ToolName).value;
      var ps := ResolveAll(e.partNames, parts, PartName).value;
      assert r.value.tools == ts && r.value.parts == ps;
      assert ToolNames(ts) == e.toolNames;
      assert PartNames(ps) == e.partNames;
      TaskOfMachines(e, machines, parts, tools);
    }
  }

  /** The task-machines of the task keep the entry's machine names, durations and values, in order. */
  ghost predicate TaskMachinesMatch(tms: seq<TaskMachine>, e: TaskEntry) {
    && |tms| == |e.tms|
    && forall i :: 0 <= i < |e.tms| ==>
         tms[i].taskName == e.name && tms[i].machine.name == e.tms[i].0
         && tms[i].duration == e.tms[i].1 && tms[i].value == e.tms[i].2
  }

  lemma TaskOfMachines(e: TaskEntry, machines: seq<Machine>, parts: seq<Part>, tools: seq<Tool>)
    requires TaskOf(e, machines, parts, tools).Ok?
    ensures TaskMachinesMatch(TaskOf(e, machines, parts, tools).value.taskMachines, e)
  {
    var tms := TaskMachinesFor(e.name, e.tms, machines);
    assert TaskOf(e, machines, parts, tools).value.taskMachines == tms.value;
  }

  /** The `tasks` list create_order has built after the entries `entries`. */
  function TasksOf(entries: seq<TaskEntry>, machines: seq<Machine>, parts: seq<Part>, tools: seq<Tool>): (r: Result<seq<Task>, ParseError>)
    ensures r.Ok? ==> |r.value| == |entries|
    ensures r.Ok? ==> forall i :: 0 <= i < |entries| ==> TaskOf(entries[i], machines, parts, tools) == Ok(r.value[i])
  {
    if entries == [] then Ok([])
    else
      var init := entries[..|entries| - 1];
      match TasksOf(init, machines, parts, tools)
      case Err(e) => Err(e)
      case Ok(ts) =>
        match TaskOf(entries[|entries| - 1], machines, parts, tools)
        case Err(e) => Err(e)
        case Ok(t) =>
          ZipSnoc(entries, init, ts, t, (e: TaskEntry, x: Task) => TaskOf(e, machines, parts, tools) == Ok(x));
          Ok(ts + [t])
  }

  lemma {:induction false} TasksOfErrSticks(entries: seq<TaskEntry>, machines: seq<Machine>, parts: seq<Part>, tools: seq<Tool>, n: nat)
    requires n <= |entries|
    requires TasksOf(entries[..n], machines, parts, tools).Err?
    ensures TasksOf(entries, machines, parts, tools) == TasksOf(entries[..n], machines, parts, tools)
    decreases |entries|
  {
    if n < |entries| {
      var init := entries[..|entries| - 1];
      assert init[..n] == entries[..n];
      TasksOfErrSticks(init, machines, parts, tools, n);
    } else {
      assert entries[..n] == entries;
    }
  }

  /** The loop of create_order that builds and appends one task per entry. */
  method BuildTasks(entries: seq<TaskEntry>, machines: seq<Machine>, parts: seq<Part>, tools: seq<Tool>)
    returns (r: Result<seq<Task>, ParseError>)
    ensures r == TasksOf(entries, machines, parts, tools)
  {
    var tasks: seq<Task> := [];
    for i := 0 to |entries|
      invariant TasksOf(entries[..i], machines, parts, tools) == Ok(tasks)
    {
      assert entries[..i + 1][..i] == entries[..i] && entries[..i + 1][i] == entries[i];
      var task := TaskOf(entries[i], machines, parts, tools);
      if task.Err? {
        TasksOfErrSticks(entries, machines, parts, tools, i + 1);
        return Err(task.error);
      }
      tasks := tasks + [task.value];
    }
    assert entries[..|entries|] == entries;
    return Ok(tasks);
  }

  /** `[Job(name, [get(t, tasks) for t in tnames]) for name, tnames in jobs_list]` */
  function JobsOf(jobsList: seq<(string, seq<string>)>, tasks: seq<Task>): (r: Result<seq<Job>, ParseError>)
    ensures r.Ok? <==> forall j :: 0 <= j < |jobsList| ==> Resolves(jobsList[j].1, tasks, TaskName)
    ensures r.Ok? ==> |r.value| == |jobsList|
    ensures r.Ok? ==> forall j :: 0 <= j < |jobsList| ==>
      && r.value[j].name == jobsList[j].0
      && |r.value[j].tasks| == |jobsList[j].1|
      && forall k :: 0 <= k < |jobsList[j].1| ==>
           r.value[j].tasks[k].name == jobsList[j].1[k]
           && r.value[j].tasks[k] == GetByName(jobsList[j].1[k], tasks, TaskName).value
  {
    if jobsList == [] then Ok([])
    else
      var init := jobsList[..|jobsList| - 1];
      var last := jobsList[|jobsList| - 1];
      AllSnoc(jobsList, init, (p: (string, seq<string>)) => Resolves(p.1, tasks, TaskName));
      match JobsOf(init, tasks)
      case Err(e) => Err(e)
      case Ok(js) =>
        match ResolveAll(last.1, tasks, TaskName)
        case Err(e) => Err(e)
        case Ok(ts) =>
          ZipSnoc(jobsList, init, js, Job(last.0, ts),
            (p: (string, seq<string>), x: Job) =>
              && x.name == p.0 && |x.tasks| == |p.1|
              && forall k :: 0 <= k < |p.1| ==>
                   x.tasks[k].name == p.1[k] && GetByName(p.1[k], tasks, TaskName) == Some(x.tasks[k]));
          Ok(js + [Job(last.0, ts)])
  }

  function MachinesOf(machinesList: seq<(string, int)>): (r: seq<Machine>)
    ensures |r| == |machinesList| && forall i :: 0 <= i < |r| ==> r[i] == Machine(machinesList[i].0, machinesList[i].1)
  {
    if machinesList == [] then []
    else MachinesOf(machinesList[..|machinesList| - 1]) + [Machine(machinesList[|machinesList| - 1].0, machinesList[|machinesList| - 1].1)]
  }

  function PartsOf(partsList: seq<(string, int, int)>): (r: seq<Part>)
    ensures |r| == |partsList| && forall i :: 0 <= i < |r| ==> r[i] == Part(partsList[i].0, partsList[i].1, partsList[i].2)
  {
    if partsList == [] then []
    else var p := partsList[|partsList| - 1]; PartsOf(partsList[..|partsList| - 1]) + [Part(p.0, p.1, p.2)]
  }

  function ToolsOf(toolsList: seq<(string, int)>): (r: seq<Tool>)
    ensures |r| == |toolsList| && forall i :: 0 <= i < |r| ==> r[i] == Tool(toolsList[i].0, toolsList[i].1)
  {
    if toolsList == [] then []
    else ToolsOf(toolsList[..|toolsList| - 1]) + [Tool(toolsList[|toolsList| - 1].0, toolsList[|toolsList| - 1].1)]
  }

  /**
   * create_order: builds the machines, parts and tools, then the tasks with
   * their task machines, then the jobs, and hands them to a new scheduler.
   */
  method CreateOrder(orderName: string, deadline: int, machinesList: seq<(string, int)>, tasksList: seq<TaskEntry>,
                     jobsList: seq<(string, seq<string>)>, partsList: seq<(string, int, int)>, toolsList: seq<(string, int)>,
                     useCosts: bool, useParts: bool)
    returns (r: Result<JobScheduling.JobScheduler, ParseError>)
    ensures var tasks := TasksOf(tasksList, MachinesOf(machinesList), PartsOf(partsList), ToolsOf(toolsList));
      r.Ok? <==> tasks.Ok? && JobsOf(jobsList, tasks.value).Ok?
    ensures r.Ok? ==>
      var tasks := TasksOf(tasksList, MachinesOf(machinesList), PartsOf(partsList), ToolsOf(toolsList)).value;
      && fresh(r.value)
      && r.value.name == orderName && r.value.deadline == deadline
      && r.value.machines == MachinesOf(machinesList) && r.value.parts == PartsOf(partsList) && r.value.tools == ToolsOf(toolsList)
      && r.value.tasks == tasks && r.value.jobs == JobsOf(jobsList, tasks).value
      && r.value.useCosts == useCosts && r.value.useParts == useParts
      && r.value.model == CpSat.EmptyModel()
  {
    var machines := MachinesOf(machinesList);
    var parts := PartsOf(partsList);
    var tools := ToolsOf(toolsList);
    var tasks := BuildTasks(tasksList, machines, parts, tools);
    if tasks.Err? {
      return Err(tasks.error);
    }
    var jobs := JobsOf(jobsList, tasks.value);
    if jobs.Err? {
      return Err(jobs.error);
    }
    var order := new JobScheduling.JobScheduler(orderName, deadline, jobs.value, tasks.value, machines,
                                                parts, tools, useCosts, useParts);
    return Ok(order);
  }
}
