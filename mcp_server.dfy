/**
 * The MCP server of backend/mcp/server.py: the catalog that `list_tools`
 * advertises and the name dispatch of `call_tool` with its error paths.
 * The Odoo handlers (OdooMCPTools) are an oracle passed in as a function from
 * the handler call to what it returned or raised; Python's `str()` of a result
 * is a rendering function passed in as well.
 */
module McpServer {

  datatype Option<T> = None | Some(value: T)

  /** The Python values that travel in tool arguments and handler results. */
  datatype PyValue =
    | PyNone
    | PyBool(b: bool)
    | PyInt(i: int)
    | PyStr(s: string)
    | PyList(items: seq<PyValue>)
    | PyDict(entries: seq<(string, PyValue)>)

  // ---------------------------------------------------------------------------
  // list_tools
  // ---------------------------------------------------------------------------

  /** One entry of an input schema's "properties". */
  datatype Property = Property(name: string, jsonType: string, itemType: Option<string>, description: string)

  /** A tool's JSON input schema: always of type "object". */
  datatype InputSchema = InputSchema(jsonType: string, properties: seq<Property>, required: seq<string>)

  /** A tool descriptor as `list_tools` returns it. */
  datatype Tool = Tool(name: string, description: string, inputSchema: InputSchema)

  /** The OdooMCPTools method a catalogued tool is served by. */
  datatype Handler =
    | ListModules | GetModuleInfo | ListUsers | GetUserDetails
    | SearchRecords | GetDatabaseInfo | GetCompanyInfo | CheckModuleDependencies

  /** The handlers in the order of the catalog. */
  const Handlers: seq<Handler> := [
    ListModules, GetModuleInfo, ListUsers, GetUserDetails,
    SearchRecords, GetDatabaseInfo, GetCompanyInfo, CheckModuleDependencies
  ]

  const NoInput := InputSchema("object", [], [])

  const ModuleNameInput := InputSchema(
    "object",
    [Property("module_name", "string", None, "Technical name of the module")],
    ["module_name"])

  /** The eight tool descriptors, in the order `list_tools` lists them. */
  const Catalog: seq<Tool> := [
    Tool("list_modules", "List all Odoo modules with their state and version", NoInput),
    Tool("get_module_info", "Get detailed information about a specific module", ModuleNameInput),
    Tool("list_users", "List all Odoo users", NoInput),
    Tool("get_user_details", "Get detailed information about a specific user",
      InputSchema("object", [Property("user_id", "integer", None, "ID of the user")], ["user_id"])),
    Tool("search_records", "Search records in any Odoo model",
      InputSchema(
        "object",
        [ Property("model", "string", None, "Model name (e.g., 'res.partner', 'sale.order')"),
          Property("domain", "array", None, "Search domain (Odoo format)"),
          Property("fields", "array", Some("string"), "Fields to retrieve") ],
        ["model", "domain"])),
    Tool("get_database_info", "Get Odoo database and connection information", NoInput),
    Tool("get_company_info", "Get company information from Odoo", NoInput),
    Tool("check_module_dependencies", "Check dependencies for a specific module", ModuleNameInput)
  ]

  function PropertyNames(schema: InputSchema): set<string>
  {
    set p | p in schema.properties :: p.name
  }

  /**
   * list_tools: eight descriptors, one per handler, with pairwise distinct
   * names and object schemas.
   */
  function ListTools(): (tools: seq<Tool>)
    ensures |tools| == |Handlers| == 8
    ensures forall i, j | 0 <= i < j < |tools| :: tools[i].name != tools[j].name
    ensures forall i | 0 <= i < |tools| :: tools[i].inputSchema.jsonType == "object"
  {
    Catalog
  }

  /** Every key a schema lists as required is one of its declared properties. */
  lemma RequiredKeysDeclared(i: int, key: string)
    requires 0 <= i < |Catalog| && key in Catalog[i].inputSchema.required
    ensures key in PropertyNames(Catalog[i].inputSchema)
  {
    var schema := Catalog[i].inputSchema;
    if i == 1 || i == 7 {
      assert schema == ModuleNameInput && key == "module_name";
      assert schema.properties[0].name == key;
    } else if i == 3 {
      assert key == "user_id";
      assert schema.properties[0].name == key;
    } else if i == 4 {
      assert key == "model" || key == "domain";
      assert schema.properties[0].name == "model" && schema.properties[1].name == "domain";
    } else {
      assert false;
    }
  }

  /** Whether `name` is the name of a catalogued tool. */
  predicate IsCatalogued(name: string)
  {
    exists i | 0 <= i < |Catalog| :: Catalog[i].name == name
  }

  // ---------------------------------------------------------------------------
  // call_tool
  // ---------------------------------------------------------------------------

  /** A call of one handler with its positional arguments. */
  datatype Invocation = Invocation(handler: Handler, args: seq<PyValue>)

  /** Where the if/elif chain of `call_tool` ends up, before any handler runs. */
  datatype Route =
    | Call(invocation: Invocation)
    | UnknownTool
    | KeyMissing(key: string)   // `arguments[key]` raised KeyError

  /** `arguments.get(key)`. */
  function Lookup(arguments: map<string, PyValue>, key: string): PyValue
  {
    if key in arguments then arguments[key] else PyNone
  }

  /**
   * The selection of `call_tool`: compare the name with each tool name in
   * turn and read the handler's arguments from the mapping with `[]`, which
   * raises KeyError for a missing key (keys are read left to right).
   */
  function Dispatch(name: string, arguments: map<string, PyValue>): Route
  {
    if name == "list_modules" then Call(Invocation(ListModules, []))
    else if name == "get_module_info" then
      if "module_name" !in arguments then KeyMissing("module_name")
      else Call(Invocation(GetModuleInfo, [arguments["module_name"]]))
    else if name == "list_users" then Call(Invocation(ListUsers, []))
    else if name == "get_user_details" then
      if "user_id" !in arguments then KeyMissing("user_id")
      else Call(Invocation(GetUserDetails, [arguments["user_id"]]))
    else if name == "search_records" then
      if "model" !in arguments then KeyMissing("model")
      else if "domain" !in arguments then KeyMissing("domain")
      else Call(Invocation(SearchRecords, [arguments["model"], arguments["domain"], Lookup(arguments, "fields")]))
    else if name == "get_database_info" then Call(Invocation(GetDatabaseInfo, []))
    else if name == "get_company_info" then Call(Invocation(GetCompanyInfo, []))
    else if name == "check_module_dependencies" then
      if "module_name" !in arguments then KeyMissing("module_name")
      else Call(Invocation(CheckModuleDependencies, [arguments["module_name"]]))
    else UnknownTool
  }

  /** What awaiting a handler gave: its result, or the exception it raised. */
  datatype Outcome = Returned(value: PyValue) | Raised(message: string)

  /** An MCP text content item; `kind` is its "type" field. */
  datatype TextContent = TextContent(kind: string, text: string)

  /** The dictionary built for a name outside the catalog. */
  function UnknownToolResult(name: string): PyValue
  {
    PyDict([("error", PyStr("Unknown tool: " + name))])
  }

  /** `str(e)` of the KeyError raised by `arguments[key]`: the key's repr. */
  function KeyErrorText(key: string): string
  {
    "'" + key + "'"
  }

  /**
   * call_tool: dispatch, then wrap `str(result)` in a single text item; a
   * KeyError or an exception of the handler becomes "Error: <message>".
   */
  function CallTool(
    name: string,
    arguments: map<string, PyValue>,
    handlers: Invocation -> Outcome,
    render: PyValue -> string
  ): (response: seq<TextContent>)
    ensures |response| == 1 && response[0].kind == "text"
  {
    match Dispatch(name, arguments)
    case Call(invocation) =>
      (match handlers(invocation)
       case Returned(result) => [TextContent("text", render(result))]
       case Raised(message) => [TextContent("text", "Error: " + message)])
    case UnknownTool => [TextContent("text", render(UnknownToolResult(name)))]
    case KeyMissing(key) => [TextContent("text", "Error: " + KeyErrorText(key))]
  }

  // ---------------------------------------------------------------------------
  // Dispatch against the catalog
  // ---------------------------------------------------------------------------

  /** The first of the `required` keys that `arguments` lacks, if any. */
  function FirstMissing(required: seq<string>, arguments: map<string, PyValue>): Option<string>
  {
    if required == [] then None
    else if required[0] !in arguments then Some(required[0])
    else FirstMissing(required[1..], arguments)
  }

  /** FirstMissing names a missing required key, and finds none exactly when all are present. */
  lemma {:induction false} FirstMissingSpec(required: seq<string>, arguments: map<string, PyValue>)
    ensures FirstMissing(required, arguments).Some? ==>
      FirstMissing(required, arguments).value in required && FirstMissing(required, arguments).value !in arguments
    ensures FirstMissing(required, arguments).None? <==> forall k | k in required :: k in arguments
  {
    if required != [] && required[0] in arguments {
      FirstMissingSpec(required[1..], arguments);
      assert forall k | k in required :: k == required[0] || k in required[1..];
    }
  }

  /**
   * The dispatch a catalog entry calls for: a KeyError for the first required
   * key that is missing, otherwise the entry's handler called with one
   * argument per declared property, in declaration order (absent optional
   * properties are passed as None).
   */
  function SchemaDispatch(i: int, arguments: map<string, PyValue>): Route
    requires 0 <= i < |Catalog|
  {
    var schema := Catalog[i].inputSchema;
    match FirstMissing(schema.required, arguments)
    case Some(key) => KeyMissing(key)
    case None =>
      Call(Invocation(Handlers[i],
        seq(|schema.properties|, j requires 0 <= j < |schema.properties| => Lookup(arguments, schema.properties[j].name))))
  }

  lemma FirstMissingOfOne(key: string, arguments: map<string, PyValue>)
    ensures FirstMissing([key], arguments) == if key in arguments then None else Some(key)
  {
    assert [key][1..] == [];
  }

  lemma FirstMissingOfTwo(first: string, second: string, arguments: map<string, PyValue>)
    ensures FirstMissing([first, second], arguments)
      == if first !in arguments then Some(first) else if second !in arguments then Some(second) else None
  {
    assert [first, second][1..] == [second];
    FirstMissingOfOne(second, arguments);
  }

  /** Every catalogued tool is dispatched exactly as its descriptor says. */
  lemma DispatchFollowsCatalog(i: int, arguments: map<string, PyValue>)
    requires 0 <= i < |Catalog|
    ensures Dispatch(Catalog[i].name, arguments) == SchemaDispatch(i, arguments)
  {
    var schema := Catalog[i].inputSchema;
    var args := seq(|schema.properties|, j requires 0 <= j < |schema.properties| => Lookup(arguments, schema.properties[j].name));
    if i == 0 || i == 2 || i == 5 || i == 6 {
      assert schema == NoInput;
      assert args == [];
    } else if i == 1 || i == 7 {
      assert schema == ModuleNameInput;
      assert args == [Lookup(arguments, "module_name")];
      FirstMissingOfOne("module_name", arguments);
    } else if i == 3 {
      assert schema.required == ["user_id"];
      assert args == [Lookup(arguments, "user_id")];
      FirstMissingOfOne("user_id", arguments);
    } else {
      assert schema.required == ["model", "domain"];
      assert args == [Lookup(arguments, "model"), Lookup(arguments, "domain"), Lookup(arguments, "fields")];
      FirstMissingOfTwo("model", "domain", arguments);
    }
  }

  /**
   * The keys `call_tool` reads with `[]` are exactly each schema's required
   * keys: a catalogued call fails with KeyError only for a missing required
   * key, and reaches its handler exactly when all required keys are present.
   */
  lemma RequiredKeysChecked(i: int, arguments: map<string, PyValue>)
    requires 0 <= i < |Catalog|
    ensures var route := Dispatch(Catalog[i].name, arguments);
      && !route.UnknownTool?
      && (route.KeyMissing? ==> route.key in Catalog[i].inputSchema.required && route.key !in arguments)
      && (route.Call? <==> forall k | k in Catalog[i].inputSchema.required :: k in arguments)
      && (route.Call? ==> route.invocation.handler == Handlers[i]
                          && |route.invocation.args| == |Catalog[i].inputSchema.properties|)
  {
    DispatchFollowsCatalog(i, arguments);
    FirstMissingSpec(Catalog[i].inputSchema.required, arguments);
  }

  /** Only names outside the catalog reach the "Unknown tool" branch. */
  lemma UnknownIffNotCatalogued(name: string, arguments: map<string, PyValue>)
    ensures Dispatch(name, arguments).UnknownTool? <==> !IsCatalogued(name)
  {
    if IsCatalogued(name) {
      var i :| 0 <= i < |Catalog| && Catalog[i].name == name;
      RequiredKeysChecked(i, arguments);
    } else {
      assert Catalog[0].name != name && Catalog[1].name != name && Catalog[2].name != name;
      assert Catalog[3].name != name && Catalog[4].name != name && Catalog[5].name != name;
      assert Catalog[6].name != name && Catalog[7].name != name;
    }
  }

  /**
   * Every handler call `call_tool` makes is the handler of the catalogued tool
   * whose name was asked for.
   */
  lemma EveryHandlerCatalogued(name: string, arguments: map<string, PyValue>)
    ensures Dispatch(name, arguments).Call? ==>
      exists i | 0 <= i < |Catalog| :: Catalog[i].name == name && Dispatch(name, arguments).invocation.handler == Handlers[i]
  {
    UnknownIffNotCatalogued(name, arguments);
    if Dispatch(name, arguments).Call? {
      var i :| 0 <= i < |Catalog| && Catalog[i].name == name;
      RequiredKeysChecked(i, arguments);
    }
  }

  /**
   * A name outside the catalog gets the rendering of
   * {"error": "Unknown tool: <name>"} whatever the handlers would do: no
   * handler is invoked.
   */
  lemma UnknownToolResponse(
    name: string, arguments: map<string, PyValue>,
    handlers: Invocation -> Outcome, otherHandlers: Invocation -> Outcome, render: PyValue -> string)
    requires !IsCatalogued(name)
    ensures CallTool(name, arguments, handlers, render) == [TextContent("text", render(UnknownToolResult(name)))]
    ensures CallTool(name, arguments, handlers, render) == CallTool(name, arguments, otherHandlers, render)
  {
    UnknownIffNotCatalogued(name, arguments);
  }

  /**
   * Exceptions never escape `call_tool`: for a catalogued tool, the first
   * required key of its schema that is missing yields "Error: '<key>'" without
   * invoking a handler; otherwise the schema's handler call is made, and a
   * raised exception yields "Error: <message>" and a result its rendering.
   */
  lemma ErrorsBecomeText(
    i: int, arguments: map<string, PyValue>,
    handlers: Invocation -> Outcome, render: PyValue -> string)
    requires 0 <= i < |Catalog|
    ensures var name := Catalog[i].name;
      && (FirstMissing(Catalog[i].inputSchema.required, arguments).Some? ==>
            CallTool(name, arguments, handlers, render)
              == [TextContent("text", "Error: '" + FirstMissing(Catalog[i].inputSchema.required, arguments).value + "'")])
      && (SchemaDispatch(i, arguments).Call? && handlers(SchemaDispatch(i, arguments).invocation).Raised? ==>
            CallTool(name, arguments, handlers, render)
              == [TextContent("text", "Error: " + handlers(SchemaDispatch(i, arguments).invocation).message)])
      && (SchemaDispatch(i, arguments).Call? && handlers(SchemaDispatch(i, arguments).invocation).Returned? ==>
            CallTool(name, arguments, handlers, render)
              == [TextContent("text", render(handlers(SchemaDispatch(i, arguments).invocation).value))])
  {
    DispatchFollowsCatalog(i, arguments);
    var missing := FirstMissing(Catalog[i].inputSchema.required, arguments);
    if missing.Some? {
      assert "Error: " + KeyErrorText(missing.value) == "Error: '" + missing.value + "'";
    }
  }

  /** The tools without properties ignore the `arguments` mapping altogether. */
  lemma ZeroArgumentToolsIgnoreArguments(i: int, arguments: map<string, PyValue>, otherArguments: map<string, PyValue>)
    requires 0 <= i < |Catalog| && Catalog[i].inputSchema.properties == []
    ensures Dispatch(Catalog[i].name, arguments) == Dispatch(Catalog[i].name, otherArguments)
    ensures Dispatch(Catalog[i].name, arguments) == Call(Invocation(Handlers[i], []))
  {
    DispatchFollowsCatalog(i, arguments);
    DispatchFollowsCatalog(i, otherArguments);
  }

  /** Removing a key that is not required does not change the first missing required key. */
  lemma {:induction false} FirstMissingIgnoresOptional(required: seq<string>, arguments: map<string, PyValue>, key: string)
    requires key !in required
    ensures FirstMissing(required, arguments - {key}) == FirstMissing(required, arguments)
  {
    if required != [] {
      FirstMissingIgnoresOptional(required[1..], arguments, key);
    }
  }

  /**
   * A declared property that is not required is optional: leaving it out
   * never decides whether the handler is reached, and the handler gets its
   * value in that property's position, or None when it is absent. The one
   * such property in the catalog is `fields` of search_records.
   */
  lemma OptionalArgumentsMayBeOmitted(i: int, j: int, arguments: map<string, PyValue>)
    requires 0 <= i < |Catalog| && 0 <= j < |Catalog[i].inputSchema.properties|
    requires Catalog[i].inputSchema.properties[j].name !in Catalog[i].inputSchema.required
    ensures var name := Catalog[i].name;
      var key := Catalog[i].inputSchema.properties[j].name;
      && (Dispatch(name, arguments).Call? <==> Dispatch(name, arguments - {key}).Call?)
      && (Dispatch(name, arguments).Call? ==>
            && Dispatch(name, arguments).invocation.args[j] == Lookup(arguments, key)
            && Dispatch(name, arguments - {key}).invocation.args[j] == PyNone)
  {
    var key := Catalog[i].inputSchema.properties[j].name;
    DispatchFollowsCatalog(i, arguments);
    DispatchFollowsCatalog(i, arguments - {key});
    FirstMissingIgnoresOptional(Catalog[i].inputSchema.required, arguments, key);
  }
}
