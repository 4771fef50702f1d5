/** The local tool registry (`ToolManager`) as values: the schema it infers
    for a function from its parameter list and docstring, the registration
    of a function, and the dispatch of a tool call to a registered function.
    Python's reflection is replaced by an explicit parameter list, and the
    functions themselves by what they return for given arguments. */
module LocalTools {
  import opened Values
  import opened Protocol
  import Text

  /** The plain classes an annotation can name. */
  datatype PyClass = IntCls | FloatCls | BoolCls | StrCls | ListCls | DictCls | NoneCls | OtherCls(name: string)

  /** The `__origin__` of a subscripted typing construct. */
  datatype Origin = ListOrigin | DictOrigin | UnionOrigin | OtherOrigin(name: string)

  /** A parameter's annotation: none (`inspect.Parameter.empty`), a plain
      class, or a typing construct with its origin and arguments. The bare
      `typing.List` and `typing.Dict` are constructs with origin `list` and
      `dict` and no arguments; `Optional[X]` is `Union[X, None]`. */
  datatype Annotation = NoAnnotation | Plain(cls: PyClass) | Generic(origin: Origin, args: seq<Annotation>)

  /** A parameter as `inspect.signature` reports it. */
  datatype Param = Param(name: string, annotation: Annotation, hasDefault: bool)

  /** A registered function: its `__name__`, its docstring (`inspect.getdoc`),
      its parameters, and what calling it with the given keyword arguments
      returns or raises. */
  datatype LocalTool = LocalTool(name: string, doc: Option<string>, params: seq<Param>,
                                 run: map<string, Json> -> Fallible<Json>)

  /** The JSON type names the inference can produce. */
  predicate IsTypeName(t: string) {
    t == "string" || t == "integer" || t == "number" || t == "boolean" || t == "array" || t == "object"
  }

  /** The type chosen by one alternative of a `Union`: `None` skips it, a
      list or dict (plain or subscripted) and the four scalar classes give
      their type, anything else is passed over. */
  function UnionAlternative(a: Annotation): (t: Option<string>)
    ensures t.Some? ==> IsTypeName(t.value)
  {
    match a
    case Plain(ListCls) => Some("array")
    case Generic(ListOrigin, _) => Some("array")
    case Plain(DictCls) => Some("object")
    case Generic(DictOrigin, _) => Some("object")
    case Plain(IntCls) => Some("integer")
    case Plain(FloatCls) => Some("number")
    case Plain(BoolCls) => Some("boolean")
    case Plain(StrCls) => Some("string")
    case _ => None
  }

  /** The loop over a `Union`'s arguments: the first alternative that
      chooses a type, or "string" when none does. */
  function UnionChoice(args: seq<Annotation>): (t: string)
    ensures IsTypeName(t)
  {
    if args == [] then "string"
    else match UnionAlternative(args[0])
      case Some(t) => t
      case None => UnionChoice(args[1..])
  }

  /** The type table of `_generate_tool_schema`. */
  function ParamType(a: Annotation): (t: string)
    ensures IsTypeName(t)
  {
    match a
    case NoAnnotation => "string"
    case Plain(IntCls) => "integer"
    case Plain(FloatCls) => "number"
    case Plain(BoolCls) => "boolean"
    case Plain(ListCls) => "array"
    case Plain(DictCls) => "object"
    case Plain(_) => "string"
    case Generic(ListOrigin, _) => "array"
    case Generic(DictOrigin, _) => "object"
    case Generic(UnionOrigin, args) => UnionChoice(args)
    case Generic(OtherOrigin(_), _) => "string"
  }

  /** A `Union` takes the type of its first alternative that chooses one,
      and is "string" when no alternative does. */
  lemma {:induction false} UnionFirstMatch(args: seq<Annotation>)
    ensures (forall k :: 0 <= k < |args| ==> UnionAlternative(args[k]).None?) ==> UnionChoice(args) == "string"
    ensures forall k :: 0 <= k < |args| && UnionAlternative(args[k]).Some?
                        && (forall j :: 0 <= j < k ==> UnionAlternative(args[j]).None?) ==>
              UnionChoice(args) == UnionAlternative(args[k]).value
  {
    if args != [] {
      UnionFirstMatch(args[1..]);
      assert forall k :: 1 <= k < |args| ==> args[k] == args[1..][k - 1];
      if UnionAlternative(args[0]).None? {
        forall k | 0 <= k < |args| && UnionAlternative(args[k]).Some?
                   && (forall j :: 0 <= j < k ==> UnionAlternative(args[j]).None?)
          ensures UnionChoice(args) == UnionAlternative(args[k]).value
        {
          assert k >= 1;
          assert forall j :: 0 <= j < k - 1 ==> args[1..][j] == args[j + 1];
        }
      }
    }
  }

  /** `Optional[X]`, written either way round, is typed as `X` itself,
      whatever `X` is other than a nested `Union`. */
  lemma OptionalIsItsAlternative(a: Annotation)
    requires a != NoAnnotation && !(a.Generic? && a.origin.UnionOrigin?)
    ensures ParamType(Generic(UnionOrigin, [a, Plain(NoneCls)])) == ParamType(a)
    ensures ParamType(Generic(UnionOrigin, [Plain(NoneCls), a])) == ParamType(a)
  {
    assert [a, Plain(NoneCls)][1..] == [Plain(NoneCls)];
    assert [Plain(NoneCls), a][1..] == [a];
    assert [a][1..] == [];
    assert [Plain(NoneCls)][1..] == [];
    assert UnionChoice([Plain(NoneCls)]) == "string";
    assert UnionChoice([a]) == ParamType(a);
  }

  /** The docstring the schema is made from: `inspect.getdoc(func) or
      f"Function {name}"`. */
  function ToolDoc(tool: LocalTool): (doc: string)
    ensures doc != ""
  {
    StrOr(tool.doc, "Function " + tool.name)
  }

  /** The marker introducing a parameter's description in a docstring. */
  function Marker(param: string): string {
    ":param " + param + ":"
  }

  /** The description used when the docstring has none for a parameter. */
  function DefaultParamDescription(param: string): string {
    param + " parameter"
  }

  /** The docstring parsing of `_generate_tool_schema`: the stripped text
      between the first `:param name:` and the next newline, or the default
      description when the marker is absent or no newline follows it. */
  function ParamDescription(doc: string, param: string): string {
    var marker := Marker(param);
    if doc != "" && Text.Contains(doc, marker) then
      LineFrom(doc, Text.Find(doc, marker, 0) + |marker|, param)
    else DefaultParamDescription(param)
  }

  /** The stripped text from `start` to the next newline, or the default
      description when no newline follows. */
  function LineFrom(doc: string, start: nat, param: string): string
    requires start <= |doc|
  {
    var end := Text.Find(doc, "\n", start);
    if end != -1 then Text.Strip(doc[start..end]) else DefaultParamDescription(param)
  }

  /** A docstring whose first `:param name:` marker starts at `p` and is
      followed by `text` and a newline is read back as `text` stripped,
      whatever comes before the marker. */
  lemma ParamDescriptionReadsLine(doc: string, param: string, p: nat, text: string)
    requires p + |Marker(param)| + |text| < |doc|
    requires Text.OccursAt(doc, Marker(param), p)
    requires forall k :: 0 <= k < p ==> !Text.OccursAt(doc, Marker(param), k)
    requires doc[p + |Marker(param)|..p + |Marker(param)| + |text|] == text && '\n' !in text
    requires doc[p + |Marker(param)| + |text|] == '\n'
    ensures ParamDescription(doc, param) == Text.Strip(text)
  {
    var marker := Marker(param);
    var start := p + |marker|;
    var end := start + |text|;
    Text.FindIs(doc, marker, 0, p);
    NewlineAfter(doc, start, text);
    Text.FindIs(doc, "\n", start, end);
    assert LineFrom(doc, start, param) == Text.Strip(doc[start..end]);
    assert ParamDescription(doc, param) == LineFrom(doc, start, param);
  }

  /** The common case: a marker preceded by no colon is the first one. */
  lemma ParamDescriptionColonFree(doc: string, param: string, p: nat, text: string)
    requires p + |Marker(param)| + |text| < |doc|
    requires ':' !in doc[..p] && doc[p..p + |Marker(param)|] == Marker(param)
    requires doc[p + |Marker(param)|..p + |Marker(param)| + |text|] == text && '\n' !in text
    requires doc[p + |Marker(param)| + |text|] == '\n'
    ensures ParamDescription(doc, param) == Text.Strip(text)
  {
    MarkerFirstAt(doc, doc[..p], Marker(param));
    ParamDescriptionReadsLine(doc, param, p, text);
  }

  /** A parameter documented after other text is still found, as long as
      the first letter of its name shows up nowhere earlier than in its own
      marker (so an earlier `:param` line for another name is skipped). */
  lemma ParamDescriptionAfter(first: string, param: string, text: string)
    requires |param| > 0 && param[0] !in first + ":param " && '\n' !in text
    ensures ParamDescription(first + Marker(param) + text + "\n", param) == Text.Strip(text)
  {
    var doc := first + Marker(param) + text + "\n";
    var p := |first|;
    assert doc[..p + 7] == first + ":param ";
    forall k | 0 <= k < p
      ensures !Text.OccursAt(doc, Marker(param), k)
    {
      assert doc[k + 7] == doc[..p + 7][k + 7];
      MarkerHoldsName(doc, param, k);
    }
    assert doc[p..p + |Marker(param)|] == Marker(param);
    assert doc[p + |Marker(param)|..p + |Marker(param)| + |text|] == text;
    ParamDescriptionReadsLine(doc, param, p, text);
  }

  /** The docstring `:param x: a\n:param y: b\n` describes `y` as `b`. The
      two literal pieces come in as parameters fixed by the `requires`, which
      keeps the verifier from unfolding the functions on a literal string. */
  lemma ParamDescriptionSecondLine(first: string, text: string)
    requires first == ":param x: a\n" && text == " b"
    ensures ParamDescription(first + Marker("y") + text + "\n", "y") == "b"
  {
    ParamDescriptionAfter(first, "y", text);
    assert Text.TrimStart(text) == "b";
  }

  /** The marker for `param` occurs at `k` only where `param` is spelled out
      seven characters later. */
  lemma MarkerHoldsName(doc: string, param: string, k: nat)
    requires |param| > 0 && k + 7 < |doc| && doc[k + 7] != param[0]
    ensures !Text.OccursAt(doc, Marker(param), k)
  {
    if k + |Marker(param)| <= |doc| {
      assert Marker(param)[7] == param[0];
      assert doc[k..k + |Marker(param)|][7] == doc[k + 7];
    }
  }

  /** A marker starting with a colon occurs first right after a prefix without colons. */
  lemma MarkerFirstAt(doc: string, prefix: string, marker: string)
    requires ':' !in prefix && |marker| > 0 && marker[0] == ':'
    requires |prefix| + |marker| <= |doc| && doc[..|prefix|] == prefix && doc[|prefix|..|prefix| + |marker|] == marker
    ensures Text.OccursAt(doc, marker, |prefix|)
    ensures forall k :: 0 <= k < |prefix| ==> !Text.OccursAt(doc, marker, k)
  {
    forall k | 0 <= k < |prefix|
      ensures !Text.OccursAt(doc, marker, k)
    {
      assert doc[k] == prefix[k];
    }
  }

  /** The first newline at or after `start` ends the line `text` written there. */
  lemma NewlineAfter(doc: string, start: nat, text: string)
    requires '\n' !in text && start + |text| < |doc| && doc[start..start + |text|] == text
    requires doc[start + |text|] == '\n'
    ensures Text.OccursAt(doc, "\n", start + |text|)
    ensures forall k :: start <= k < start + |text| ==> !Text.OccursAt(doc, "\n", k)
  {
    assert doc[start + |text|..start + |text| + 1] == "\n";
    forall k | start <= k < start + |text|
      ensures !Text.OccursAt(doc, "\n", k)
    {
      assert doc[k] == text[k - start];
    }
  }

  /** Without the marker, or without a newline after it, the description is the default one. */
  lemma ParamDescriptionDefaults(doc: string, param: string)
    ensures !Text.Contains(doc, Marker(param)) ==> ParamDescription(doc, param) == DefaultParamDescription(param)
    ensures Text.Contains(doc, Marker(param))
            && Text.Find(doc, "\n", Text.Find(doc, Marker(param), 0) + |Marker(param)|) == -1 ==>
              ParamDescription(doc, param) == DefaultParamDescription(param)
  {
  }

  /** The entry of `properties` for one parameter. */
  function PropertyEntry(doc: string, p: Param): Json {
    JObj(map["type" := JStr(ParamType(p.annotation)), "description" := JStr(ParamDescription(doc, p.name))])
  }

  /** The `properties` the loop fills: one entry per parameter other than `self`. */
  function Properties(doc: string, params: seq<Param>): (m: map<string, Json>)
    ensures "self" !in m
  {
    if params == [] then map[]
    else
      var p := params[|params| - 1];
      var m := Properties(doc, params[..|params| - 1]);
      if p.name == "self" then m else m[p.name := PropertyEntry(doc, p)]
  }

  /** The `required` list the loop fills: the names of the parameters
      without a default, other than `self`, in declaration order. */
  function Required(params: seq<Param>): (r: seq<string>)
    ensures |r| <= |params| && "self" !in r
  {
    if params == [] then []
    else
      var p := params[|params| - 1];
      Required(params[..|params| - 1]) + (if p.name != "self" && !p.hasDefault then [p.name] else [])
  }

  /** `properties` has exactly one key per parameter other than `self`. */
  lemma {:induction false} PropertiesKeys(doc: string, params: seq<Param>)
    ensures forall x :: x in Properties(doc, params) <==> exists k :: 0 <= k < |params| && params[k].name == x && x != "self"
  {
    if params != [] {
      var n := |params| - 1;
      var init := params[..n];
      PropertiesKeys(doc, init);
      forall x
        ensures x in Properties(doc, params) <==> exists k :: 0 <= k < |params| && params[k].name == x && x != "self"
      {
        if x in Properties(doc, params) && x in Properties(doc, init) {
          var k :| 0 <= k < |init| && init[k].name == x && x != "self";
          assert params[k] == init[k];
        }
        if exists k :: 0 <= k < |params| && params[k].name == x && x != "self" {
          var k :| 0 <= k < |params| && params[k].name == x && x != "self";
          if k < n {
            assert init[k].name == x;
          }
        }
      }
    }
  }

  /** A parameter not shadowed by a later one of the same name has its own entry. */
  lemma {:induction false} PropertiesEntries(doc: string, params: seq<Param>, k: int)
    requires 0 <= k < |params| && params[k].name != "self"
    requires forall j :: k < j < |params| ==> params[j].name != params[k].name
    ensures params[k].name in Properties(doc, params)
    ensures Properties(doc, params)[params[k].name] == PropertyEntry(doc, params[k])
  {
    var n := |params| - 1;
    var init := params[..n];
    var p := params[n];
    assert Properties(doc, params) == if p.name == "self" then Properties(doc, init)
                                      else Properties(doc, init)[p.name := PropertyEntry(doc, p)];
    if k < n {
      assert init[k] == params[k];
      forall j | k < j < |init|
        ensures init[j].name != init[k].name
      {
        assert init[j] == params[j];
      }
      PropertiesEntries(doc, init, k);
    }
  }

  /** `required` distributes over concatenation of parameter lists, and a
      single parameter is required exactly when it has no default and is
      not `self`: the declaration order is kept. */
  lemma {:induction false} RequiredAppend(a: seq<Param>, b: seq<Param>)
    ensures Required(a + b) == Required(a) + Required(b)
    decreases |b|
  {
    if b == [] {
      assert a + b == a;
    } else {
      var n := |b| - 1;
      assert (a + b)[..|a + b| - 1] == a + b[..n];
      assert (a + b)[|a + b| - 1] == b[n];
      RequiredAppend(a, b[..n]);
    }
  }

  lemma RequiredOne(p: Param)
    ensures Required([p]) == if p.name != "self" && !p.hasDefault then [p.name] else []
  {
    assert [p][..0] == [];
  }

  /** A name is required exactly when some parameter of that name, other
      than `self`, has no default. */
  lemma {:induction false} RequiredMembers(params: seq<Param>)
    ensures forall x :: x in Required(params) <==>
              exists k :: 0 <= k < |params| && params[k].name == x && x != "self" && !params[k].hasDefault
  {
    if params != [] {
      var n := |params| - 1;
      RequiredMembers(params[..n]);
      assert forall k :: 0 <= k < n ==> params[..n][k] == params[k];
      forall x
        ensures x in Required(params) <==>
                exists k :: 0 <= k < |params| && params[k].name == x && x != "self" && !params[k].hasDefault
      {
        if exists k :: 0 <= k < |params| && params[k].name == x && x != "self" && !params[k].hasDefault {
          var k :| 0 <= k < |params| && params[k].name == x && x != "self" && !params[k].hasDefault;
          if k < n {
            assert params[..n][k].name == x;
          }
        }
      }
    }
  }

  /** `_generate_tool_schema`: the function's name, its docstring's first
      line, and an object schema of its parameters. */
  function ToolSchema(tool: LocalTool): (s: FunctionSchema)
    ensures s.kind == "function" && s.name == tool.name
    ensures s.description == Text.FirstLine(ToolDoc(tool)) && '\n' !in s.description
    ensures s.parameters == ObjectSchema(Properties(ToolDoc(tool), tool.params), Required(tool.params))
  {
    var doc := ToolDoc(tool);
    FunctionSchema("function", tool.name, Text.FirstLine(doc),
                   ObjectSchema(Properties(doc, tool.params), Required(tool.params)))
  }

  /** A function without a docstring is described as "Function {name}"
      (cut at its first line, should the name hold a newline). */
  lemma UndocumentedDescription(tool: LocalTool)
    requires tool.doc.None? && '\n' !in tool.name
    ensures ToolSchema(tool).description == "Function " + tool.name
  {
    var d := "Function " + tool.name;
    assert forall i :: 0 <= i < |d| ==> d[i] != '\n' by {
      forall i | 0 <= i < |d|
        ensures d[i] != '\n'
      {
        if i >= 9 {
          assert d[i] == tool.name[i - 9];
        }
      }
    }
  }

  /** A tool call: its id, the tool's name, and its arguments, either as
      the JSON text the model produced or as an already decoded value. A
      decoded string `ArgValue(JStr(s))` is the same Python `str` as
      `ArgText(s)`, and is handled alike. */
  datatype Arguments = ArgText(text: string) | ArgValue(value: Json)
  datatype ToolCall = ToolCall(id: string, name: string, arguments: Arguments)

  /** `isinstance(arguments, str)`: the arguments' text when they are a string. */
  function ArgumentText(a: Arguments): (t: Option<string>)
    ensures t.Some? <==> a.ArgText? || a.value.JStr?
    ensures t.Some? ==> t.value == (if a.ArgText? then a.text else a.value.s)
  {
    match a
    case ArgText(s) => Some(s)
    case ArgValue(JStr(s)) => Some(s)
    case ArgValue(_) => None
  }

  /** `json.loads`: the decoded value, or the text of the decoding error. */
  type Decoder = string -> Fallible<Json>

  /** The argument handling of `execute_tool_call`: a blank string is `{}`,
      another string is decoded, a value that is not a string is used as it
      is, and a falsy result becomes `{}`. */
  function ParseArguments(a: Arguments, decode: Decoder): (r: Fallible<Json>)
    ensures ArgumentText(a).Some? && Text.AllSpace(ArgumentText(a).value) ==> r == Ok(EmptyObject())
    ensures ArgumentText(a).Some? && !Text.AllSpace(ArgumentText(a).value) ==>
              var d := decode(ArgumentText(a).value);
              && (d.Raises? ==> r == Raises(d.msg))
              && (d.Ok? ==> r == Ok(JsonOr(d.value, EmptyObject())))
    ensures ArgumentText(a).None? ==> r == Ok(JsonOr(a.value, EmptyObject()))
    ensures r.Ok? ==> !Falsy(r.value) || r.value == EmptyObject()
  {
    var text := ArgumentText(a);
    Text.StripEmptyIffBlank(if text.Some? then text.value else "");
    var raw := match text
      case Some(s) => if Text.Strip(s) == "" then Ok(EmptyObject()) else decode(s)
      case None => Ok(a.value);
    match raw
    case Raises(m) => Raises(m)
    case Ok(v) => Ok(JsonOr(v, EmptyObject()))
  }

  /** A decoded string is parsed as the same text would be. */
  lemma StringValueIsText(s: string, decode: Decoder)
    ensures ParseArguments(ArgValue(JStr(s)), decode) == ParseArguments(ArgText(s), decode)
  {
  }

  /** Arguments given as the already decoded string `"{}"` are decoded to
      the empty object, so the function runs without arguments. */
  lemma DecodedStringRunsFunction(tool: LocalTool, decode: Decoder)
    requires decode("{}") == Ok(JObj(map[]))
    ensures var r := ExecuteToolCall(map[tool.name := tool], ToolCall("1", tool.name, ArgValue(JStr("{}"))), decode);
            && (tool.run(map[]).Ok? ==> r == tool.run(map[]).value)
            && (tool.run(map[]).Raises? ==> r == JStr(ExecutionError(tool.name, tool.run(map[]).msg)))
  {
    assert !Text.AllSpace("{}") by {
      assert !Text.IsSpace("{}"[0]);
    }
    assert ParseArguments(ArgValue(JStr("{}")), decode) == Ok(JObj(map[]));
  }

  /** The text returned for a call to an unregistered name. */
  function ToolNotFound(name: string): string {
    "Error: Tool '" + name + "' not found"
  }

  /** The text returned when parsing the arguments or running the function raises. */
  function ExecutionError(name: string, msg: string): string {
    "Error executing " + name + ": " + msg
  }

  /** Python's name for the type of a JSON-like value. */
  function TypeName(v: Json): string {
    match v
    case JNull => "NoneType"
    case JBool(_) => "bool"
    case JInt(_) => "int"
    case JStr(_) => "str"
    case JArr(_) => "list"
    case JObj(_) => "dict"
  }

  /** The `TypeError` raised by `func(**args)` when `args` is not a mapping. */
  function NotAMapping(name: string, v: Json): string {
    name + "() argument after ** must be a mapping, not " + TypeName(v)
  }

  /** `execute_tool_call`: the registered function's own value for the
      parsed arguments, returned unchanged; never raises — an unknown name,
      unparsable arguments, arguments that are not an object (which `**`
      refuses before the function runs) and an exception of the function
      each become an error text. */
  function ExecuteToolCall(tools: map<string, LocalTool>, call: ToolCall, decode: Decoder): (r: Json)
    ensures call.name !in tools ==> r == JStr(ToolNotFound(call.name))
    ensures call.name in tools && ParseArguments(call.arguments, decode).Raises? ==>
              r == JStr(ExecutionError(call.name, ParseArguments(call.arguments, decode).msg))
    ensures call.name in tools && ParseArguments(call.arguments, decode).Ok? &&
            !ParseArguments(call.arguments, decode).value.JObj? ==>
              var v := ParseArguments(call.arguments, decode).value;
              r == JStr(ExecutionError(call.name, NotAMapping(call.name, v)))
    ensures call.name in tools && ParseArguments(call.arguments, decode).Ok? &&
            ParseArguments(call.arguments, decode).value.JObj? ==>
              var ran := tools[call.name].run(ParseArguments(call.arguments, decode).value.fields);
              && (ran.Ok? ==> r == ran.value)
              && (ran.Raises? ==> r == JStr(ExecutionError(call.name, ran.msg)))
  {
    if call.name !in tools then JStr(ToolNotFound(call.name))
    else match ParseArguments(call.arguments, decode)
      case Raises(m) => JStr(ExecutionError(call.name, m))
      case Ok(JObj(kwargs)) =>
        (match tools[call.name].run(kwargs)
         case Raises(m) => JStr(ExecutionError(call.name, m))
         case Ok(v) => v)
      case Ok(v) => JStr(ExecutionError(call.name, NotAMapping(call.name, v)))
  }

  /** `execute_tool_calls`: the calls' results, in order. */
  function ExecuteAll(tools: map<string, LocalTool>, calls: seq<ToolCall>, decode: Decoder): (r: seq<Json>)
    ensures |r| == |calls|
  {
    if calls == [] then []
    else ExecuteAll(tools, calls[..|calls| - 1], decode) + [ExecuteToolCall(tools, calls[|calls| - 1], decode)]
  }

  /** One result per call, result i being that of call i. */
  lemma {:induction false} ExecuteAllPerCall(tools: map<string, LocalTool>, calls: seq<ToolCall>, decode: Decoder)
    ensures |ExecuteAll(tools, calls, decode)| == |calls|
    ensures forall i :: 0 <= i < |calls| ==> ExecuteAll(tools, calls, decode)[i] == ExecuteToolCall(tools, calls[i], decode)
  {
    if calls != [] {
      ExecuteAllPerCall(tools, calls[..|calls| - 1], decode);
    }
  }

  /** The registry's state: the `tools` dict (its keys in insertion order
      plus the function of each) and the `tool_schemas` list. */
  datatype LocalRegistry = LocalRegistry(order: seq<string>, tools: map<string, LocalTool>, schemas: seq<FunctionSchema>)

  /** The key order lists each registered name once and nothing else, and
      each name maps to a function of that name. */
  ghost predicate WellFormed(reg: LocalRegistry) {
    && Distinct(reg.order)
    && (forall n :: n in reg.tools <==> n in reg.order)
    && (forall n :: n in reg.tools ==> reg.tools[n].name == n)
  }

  function EmptyRegistry(): (reg: LocalRegistry)
    ensures WellFormed(reg) && reg.tools == map[] && reg.schemas == []
  {
    LocalRegistry([], map[], [])
  }

  /** `register_tool`: the name maps to the new function (replacing an
      earlier one, which keeps its place in the key order) and one schema is
      appended, even for a name registered before. */
  function Register(reg: LocalRegistry, tool: LocalTool): (r: LocalRegistry)
    ensures r.tools == reg.tools[tool.name := tool]
    ensures r.schemas == reg.schemas + [ToolSchema(tool)]
    ensures tool.name in reg.tools ==> r.order == reg.order
    ensures tool.name !in reg.tools ==> r.order == reg.order + [tool.name]
    ensures WellFormed(reg) ==> WellFormed(r)
  {
    var order := if tool.name in reg.tools then reg.order else reg.order + [tool.name];
    assert WellFormed(reg) && tool.name !in reg.tools ==> Distinct(order) by {
      if WellFormed(reg) && tool.name !in reg.tools {
        assert forall i :: 0 <= i < |reg.order| ==> order[i] == reg.order[i];
      }
    }
    LocalRegistry(order, reg.tools[tool.name := tool], reg.schemas + [ToolSchema(tool)])
  }

  /** Registering a name twice leaves one entry, the later function, but
      two schemas; a call of that name then runs the later function. */
  lemma ReRegistering(reg: LocalRegistry, first: LocalTool, second: LocalTool, call: ToolCall, decode: Decoder)
    requires WellFormed(reg) && first.name == second.name && call.name == first.name
    ensures var r := Register(Register(reg, first), second);
            && |r.order| == |Register(reg, first).order|
            && |r.schemas| == |reg.schemas| + 2
            && ExecuteToolCall(r.tools, call, decode) == ExecuteToolCall(map[call.name := second], call, decode)
  {
  }

  /** `parse_tools_to_list`: the schema list, or `None` when it is empty. */
  function ParseToolsToList(reg: LocalRegistry): (r: Option<seq<FunctionSchema>>)
    ensures r.None? <==> reg.schemas == []
    ensures r.Some? ==> r.value == reg.schemas
  {
    if reg.schemas == [] then None else Some(reg.schemas)
  }
}

/** The `ToolManager` object: its `tools` dict, `tool_schemas` list and
    `mcp_clients` dict, updated in place as the `LocalTools` functions say. */
module LocalToolManager {
  import opened Values
  import opened Protocol
  import Text
  import opened LocalTools
  import SimpleClient
  import SimpleMcpClient

  class ToolManager {
    /** The keys of `tools` in insertion order. */
    var toolOrder: seq<string>
    var tools: map<string, LocalTool>
    var toolSchemas: seq<FunctionSchema>
    /** The keys of `mcp_clients` in insertion order. */
    var mcpOrder: seq<string>
    var mcpClients: map<string, SimpleMcpClient.SimpleMCPClient>

    ghost function View(): LocalRegistry
      reads this
    {
      LocalRegistry(toolOrder, tools, toolSchemas)
    }

    /** Both key orders list their dict's keys once each, and no client
        object serves two names. */
    ghost predicate Valid()
      reads this
    {
      && WellFormed(View())
      && Distinct(mcpOrder)
      && (forall n :: n in mcpClients <==> n in mcpOrder)
      && (forall a, b :: a in mcpClients && b in mcpClients && a != b ==> mcpClients[a] != mcpClients[b])
    }

    constructor ()
      ensures Valid() && View() == EmptyRegistry() && mcpClients == map[]
    {
      toolOrder := [];
      tools := map[];
      toolSchemas := [];
      mcpOrder := [];
      mcpClients := map[];
    }

    method RegisterTool(tool: LocalTool)
      requires Valid()
      modifies this
      ensures Valid() && View() == Register(old(View()), tool)
      ensures mcpOrder == old(mcpOrder) && mcpClients == old(mcpClients)
    {
      ghost var target := Register(View(), tool);
      var schema := GenerateToolSchema(tool);
      if tool.name !in tools {
        toolOrder := toolOrder + [tool.name];
      }
      tools := tools[tool.name := tool];
      toolSchemas := toolSchemas + [schema];
      assert View() == target;
    }

    /** Replaces the schema list (the assignment `self.tool_schemas = ...`
        of the manager that extends this one). */
    method SetSchemas(schemas: seq<FunctionSchema>)
      requires Valid()
      modifies this
      ensures Valid() && View() == old(View()).(schemas := schemas)
      ensures mcpOrder == old(mcpOrder) && mcpClients == old(mcpClients)
    {
      toolSchemas := schemas;
    }

    /** `_generate_tool_schema`: the loop over the parameters filling
        `properties` and `required`. */
    static method GenerateToolSchema(tool: LocalTool) returns (schema: FunctionSchema)
      ensures schema == ToolSchema(tool)
    {
      var doc := ToolDoc(tool);
      var params := tool.params;
      var properties: map<string, Json> := map[];
      var required: seq<string> := [];
      var i := 0;
      while i < |params|
        invariant 0 <= i <= |params|
        invariant properties == Properties(doc, params[..i])
        invariant required == Required(params[..i])
      {
        var p := params[i];
        assert params[..i + 1][..i] == params[..i];
        if p.name != "self" {
          var t := ResolveType(p.annotation);
          properties := properties[p.name := JObj(map["type" := JStr(t), "description" := JStr(ParamDescription(doc, p.name))])];
          if !p.hasDefault {
            required := required + [p.name];
          }
        }
        i := i + 1;
      }
      assert params[..i] == params;
      schema := FunctionSchema("function", tool.name, Text.FirstLine(doc), ObjectSchema(properties, required));
    }

    /** The type table, with its early-exit loop over a `Union`'s arguments. */
    static method ResolveType(a: Annotation) returns (t: string)
      ensures t == ParamType(a)
    {
      if !(a.Generic? && a.origin.UnionOrigin?) {
        return ParamType(a);
      }
      var args := a.args;
      t := "string";
      var i := 0;
      while i < |args|
        invariant 0 <= i <= |args|
        invariant UnionChoice(args[i..]) == UnionChoice(args)
      {
        var choice := UnionAlternative(args[i]);
        if choice.Some? {
          t := choice.value;
          break;
        }
        assert args[i..][1..] == args[i + 1..];
        i := i + 1;
      }
    }

    function ParseToolsToList(): (r: Option<seq<FunctionSchema>>)
      reads this
      ensures r == LocalTools.ParseToolsToList(View())
    {
      if toolSchemas == [] then None else Some(toolSchemas)
    }

    function ExecuteToolCall(call: ToolCall, decode: Decoder): (r: Json)
      reads this
      ensures r == LocalTools.ExecuteToolCall(View().tools, call, decode)
    {
      LocalTools.ExecuteToolCall(tools, call, decode)
    }

    /** `execute_tool_calls`: one call after the other, appending each result. */
    method ExecuteToolCalls(calls: seq<ToolCall>, decode: Decoder) returns (results: seq<Json>)
      ensures results == ExecuteAll(tools, calls, decode)
    {
      results := [];
      var i := 0;
      while i < |calls|
        invariant 0 <= i <= |calls|
        invariant results == ExecuteAll(tools, calls[..i], decode)
      {
        assert calls[..i + 1][..i] == calls[..i];
        var r := ExecuteToolCall(calls[i], decode);
        results := results + [r];
        i := i + 1;
      }
      assert calls[..i] == calls;
    }

    /** `cleanup_mcp_servers`: every client is stopped, an exception from one
        being logged and swallowed before the next, and the dict is cleared. */
    method CleanupMcpServers()
      requires Valid()
      modifies this, mcpClients.Values
      ensures Valid() && mcpClients == map[] && mcpOrder == []
      ensures View() == old(View())
      ensures forall n :: n in old(mcpClients) ==>
                old(mcpClients)[n].View() == SimpleClient.Stop(old(mcpClients[n].View())).1
    {
      var i := 0;
      while i < |mcpOrder|
        invariant 0 <= i <= |mcpOrder|
        invariant mcpOrder == old(mcpOrder) && mcpClients == old(mcpClients) && View() == old(View())
        invariant forall k :: 0 <= k < i ==>
                    mcpClients[mcpOrder[k]].View() == SimpleClient.Stop(old(mcpClients[mcpOrder[k]].View())).1
        invariant forall k :: i <= k < |mcpOrder| ==> mcpClients[mcpOrder[k]].View() == old(mcpClients[mcpOrder[k]].View())
      {
        var client := mcpClients[mcpOrder[i]];
        var _ := client.Stop();
        i := i + 1;
      }
      mcpClients := map[];
      mcpOrder := [];
    }
  }
}
