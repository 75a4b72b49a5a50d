/**
Parameters bound late, on the agent. A sensitive one is accepted only where it
cannot show in a command line or a workbook location.
 */
module Bindings {
  import opened Common
  import opened Json
  import opened Templates

  datatype Source = Environment | SecretFile

  datatype Binding = Binding(source: Source, name: string, sensitive: bool)

  /** Environment entries come in key order. */
  datatype Executor =
    | Command(program: string, args: seq<string>, env: seq<(string, string)>, directory: Option<string>)
    | Excel(workbook: string, moduleName: Option<string>, macroName: string, arguments: seq<Value>)

  function Optional(s: Option<string>): seq<string> { if s.Some? then [s.value] else [] }

  /** The parts of an executor other processes can see. */
  function Exposed(e: Executor): seq<string> {
    match e
    case Command(program, args, _, directory) => [program] + args + Optional(directory)
    case Excel(workbook, moduleName, macroName, _) => [workbook] + Optional(moduleName) + [macroName]
  }

  // ----- validation -----

  predicate IsLetter(c: char) { 'a' <= c <= 'z' || 'A' <= c <= 'Z' }

  predicate IsAlphanumeric(c: char) { IsLetter(c) || '0' <= c <= '9' }

  predicate SafeName(s: string, punctuation: set<char>) {
    && 1 <= |s| <= 128 && IsAlphanumeric(s[0]) && IsAlphanumeric(s[|s| - 1])
    && forall i :: 0 <= i < |s| ==> IsAlphanumeric(s[i]) || s[i] in punctuation
  }

  predicate ValidParameterName(name: string) { SafeName(name, {'_', '-'}) && '.' !in name }

  predicate ValidSourceName(b: Binding) {
    match b.source
    case Environment =>
      && 1 <= |b.name| <= 128 && (IsLetter(b.name[0]) || b.name[0] == '_')
      && forall i :: 0 <= i < |b.name| ==> IsAlphanumeric(b.name[i]) || b.name[i] == '_'
    case SecretFile =>
      SafeName(b.name, {'.', '_', '-'}) && b.name != "." && b.name != ".."
      && '/' !in b.name && '\\' !in b.name && ':' !in b.name
  }

  /** No exposed template names the parameter. */
  ghost predicate Conceals(e: Executor, parameter: string) {
    forall i :: 0 <= i < |Exposed(e)| ==> !References(Parse(Exposed(e)[i]).pieces, parameter)
  }

  ghost predicate BindingOk(name: string, b: Binding, e: Executor) {
    ValidParameterName(name) && ValidSourceName(b) && (b.sensitive ==> Conceals(e, name))
  }

  method AnyReferences(templates: seq<string>, parameter: string) returns (r: bool)
    ensures r <==> exists i :: 0 <= i < |templates| && References(Parse(templates[i]).pieces, parameter)
  {
    for i := 0 to |templates|
      invariant forall k :: 0 <= k < i ==> !References(Parse(templates[k]).pieces, parameter)
    {
      var found := TemplateReferences(templates[i], parameter);
      if found {
        return true;
      }
    }
    return false;
  }

  method ValidateParameterBindings(bindings: map<string, Binding>, e: Executor) returns (ok: bool)
    ensures ok <==> forall name :: name in bindings ==> BindingOk(name, bindings[name], e)
  {
    var todo := bindings.Keys;
    while todo != {}
      invariant todo <= bindings.Keys
      invariant forall name :: name in bindings && name !in todo ==> BindingOk(name, bindings[name], e)
      decreases |todo|
    {
      var name :| name in todo;
      var b := bindings[name];
      var prohibited := false;
      if b.sensitive {
        prohibited := AnyReferences(Exposed(e), name);
      }
      assert BindingOk(name, b, e) <==> ValidParameterName(name) && ValidSourceName(b) && !prohibited;
      if !ValidParameterName(name) || !ValidSourceName(b) || prohibited {
        return false;
      }
      todo := todo - {name};
    }
    return true;
  }

  // ----- rendering an executor -----

  datatype ResolveError =
    | CannotRender(error: RenderError)
    | ArgumentNotScalar
    | InvalidExcel
    | UnexpectedValues
    | ValuesDoNotMatch
    | ParametersNotObject
    | SchemaRejects

  function RenderAll(templates: seq<string>, parameters: Value): Result<seq<string>, ResolveError> {
    if templates == [] then Ok([])
    else
      var first := Render(templates[0], parameters);
      if first.Err? then Err(CannotRender(first.error))
      else
        var rest := RenderAll(templates[1..], parameters);
        if rest.Err? then rest else Ok([first.value] + rest.value)
  }

  function RenderEnvironment(env: seq<(string, string)>, parameters: Value): Result<seq<(string, string)>, ResolveError> {
    if env == [] then Ok([])
    else
      var first := Render(env[0].1, parameters);
      if first.Err? then Err(CannotRender(first.error))
      else
        var rest := RenderEnvironment(env[1..], parameters);
        if rest.Err? then rest else Ok([(env[0].0, first.value)] + rest.value)
  }

  function RenderArguments(arguments: seq<Value>, parameters: Value): Result<seq<Value>, ResolveError> {
    if arguments == [] then Ok([])
    else
      var first := RenderValue(arguments[0], parameters);
      if first.Err? then Err(CannotRender(first.error))
      else
        var rest := RenderArguments(arguments[1..], parameters);
        if rest.Err? then rest else Ok([first.value] + rest.value)
  }

  function RenderOptional(template: Option<string>, parameters: Value): Result<Option<string>, ResolveError> {
    if template.None? then Ok(None)
    else
      var text := Render(template.value, parameters);
      if text.Ok? then Ok(Some(text.value)) else Err(CannotRender(text.error))
  }

  predicate Qualified(name: string) { '.' in name || '!' in name }

  predicate ValidExcel(workbook: string, moduleName: Option<string>, macroName: string, arguments: seq<Value>) {
    && Trim(workbook) != "" && Trim(macroName) != "" && |arguments| <= 30
    && (moduleName.Some? ==> Trim(moduleName.value) != "" && !Qualified(moduleName.value) && !Qualified(macroName))
  }

  predicate AllScalar(arguments: seq<Value>) { forall i :: 0 <= i < |arguments| ==> ScalarText(arguments[i]).Some? }

  function RenderCommand(e: Executor, parameters: Value): Result<Executor, ResolveError>
    requires e.Command?
  {
    var args := RenderAll(e.args, parameters);
    if args.Err? then Err(args.error) else
    var env := RenderEnvironment(e.env, parameters);
    if env.Err? then Err(env.error) else
    var directory := RenderOptional(e.directory, parameters);
    if directory.Err? then Err(directory.error) else
    Ok(Command(e.program, args.value, env.value, directory.value))
  }

  function RenderExcel(e: Executor, parameters: Value): Result<Executor, ResolveError>
    requires e.Excel?
  {
    var arguments := RenderArguments(e.arguments, parameters);
    if arguments.Err? then Err(arguments.error) else
    if !AllScalar(arguments.value) then Err(ArgumentNotScalar) else
    var workbook := Render(e.workbook, parameters);
    if workbook.Err? then Err(CannotRender(workbook.error)) else
    var moduleName := RenderOptional(e.moduleName, parameters);
    if moduleName.Err? then Err(moduleName.error) else
    var macroName := Render(e.macroName, parameters);
    if macroName.Err? then Err(CannotRender(macroName.error)) else
    if !ValidExcel(workbook.value, moduleName.value, macroName.value, arguments.value) then Err(InvalidExcel) else
    Ok(Excel(workbook.value, moduleName.value, macroName.value, arguments.value))
  }

  function RenderExecutor(e: Executor, parameters: Value): Result<Executor, ResolveError> {
    if e.Command? then RenderCommand(e, parameters) else RenderExcel(e, parameters)
  }

  // ----- resolving the bindings on the agent -----

  datatype Late = Late(template: Executor, parameters: Value, bindings: map<string, Binding>)

  datatype Snapshot = Snapshot(executor: Executor, late: Option<Late>)

  /** The saved parameters with the bound values put in. */
  function Filled(parameters: Value, values: map<string, Value>): Value
    requires parameters.Obj?
  {
    Obj(parameters.fields + values)
  }

  ghost predicate FilledSoFar(fields: map<string, Value>, parameters: map<string, Value>, values: map<string, Value>,
                              todo: set<string>) {
    && todo <= values.Keys
    && (forall n :: n in fields <==> n in parameters || (n in values && n !in todo))
    && (forall n :: n in fields ==> fields[n] == if n in values && n !in todo then values[n] else parameters[n])
  }

  lemma FillOneMore(fields: map<string, Value>, parameters: map<string, Value>, values: map<string, Value>,
                    todo: set<string>, name: string)
    requires FilledSoFar(fields, parameters, values, todo) && name in todo
    ensures FilledSoFar(fields[name := values[name]], parameters, values, todo - {name})
  {
  }

  method Fill(parameters: Value, values: map<string, Value>) returns (r: Value)
    requires parameters.Obj?
    ensures r == Filled(parameters, values)
  {
    var fields := parameters.fields;
    var todo := values.Keys;
    while todo != {}
      invariant FilledSoFar(fields, parameters.fields, values, todo)
      decreases |todo|
    {
      var name :| name in todo;
      FillOneMore(fields, parameters.fields, values, todo, name);
      fields := fields[name := values[name]];
      todo := todo - {name};
    }
    assert fields == parameters.fields + values;
    return Obj(fields);
  }

  predicate Mismatched(values: map<string, Value>, bindings: map<string, Binding>) {
    || |values| != |bindings|
    || (exists n :: n in bindings && n !in values)
    || (exists n :: n in values && n !in bindings)
  }

  lemma MismatchMeansOtherKeys(values: map<string, Value>, bindings: map<string, Binding>)
    ensures Mismatched(values, bindings) <==> values.Keys != bindings.Keys
  {
    assert |values| == |values.Keys| && |bindings| == |bindings.Keys|;
    if !Mismatched(values, bindings) {
      assert forall n :: n in values.Keys <==> n in bindings.Keys;
    }
  }

  /** What resolving late bindings gives; `accepts` is the schema validator. */
  function ResolvedLate(late: Late, values: map<string, Value>, accepts: Value -> bool): Result<Executor, ResolveError> {
    if values.Keys != late.bindings.Keys then Err(ValuesDoNotMatch)
    else if !late.parameters.Obj? then Err(ParametersNotObject)
    else if !accepts(Filled(late.parameters, values)) then Err(SchemaRejects)
    else RenderExecutor(late.template, Filled(late.parameters, values))
  }

  method ResolveParameterBindings(snapshot: Snapshot, values: map<string, Value>, accepts: Value -> bool)
    returns (r: Result<Executor, ResolveError>)
    ensures snapshot.late.None? ==> r == if values == map[] then Ok(snapshot.executor) else Err(UnexpectedValues)
    ensures snapshot.late.Some? ==> r == ResolvedLate(snapshot.late.value, values, accepts)
  {
    if snapshot.late.None? {
      return if values == map[] then Ok(snapshot.executor) else Err(UnexpectedValues);
    }
    var late := snapshot.late.value;
    MismatchMeansOtherKeys(values, late.bindings);
    if Mismatched(values, late.bindings) {
      return Err(ValuesDoNotMatch);
    }
    if !late.parameters.Obj? {
      return Err(ParametersNotObject);
    }
    var parameters := Fill(late.parameters, values);
    if !accepts(parameters) {
      return Err(SchemaRejects);
    }
    return RenderExecutor(late.template, parameters);
  }

  // ----- what the checker's acceptance means -----

  /** The checker and the renderer read the same parameter out of a path. */
  lemma ReferenceIsFirstComponent(path: string, parameter: string)
    requires '.' !in parameter
    ensures Refers(path, parameter) <==> Split(path)[0] == parameter
  {
    var dot := Find(path, ".");
    if dot.None? {
      if Refers(path, parameter) && path != parameter {
        assert OccursAt(".", path, |parameter|);
        FindsSome(path, ".", 0, |parameter|);
      }
    } else {
      var i := dot.value;
      FindIsFirst(path, ".", i);
      assert path[i..i + 1] == "." && path[i] == '.';
      if Refers(path, parameter) {
        DotOccurs(path, parameter, i);
      }
    }
  }

  lemma DotOccurs(path: string, parameter: string, i: nat)
    requires '.' !in parameter && Refers(path, parameter)
    requires i < |path| && path[i] == '.' && forall j :: 0 <= j < i ==> !OccursAt(".", path, j)
    ensures path[..i] == parameter
  {
    assert path != parameter;
    var n := |parameter|;
    assert path[n..n + 1] == "." && OccursAt(".", path, n);
    assert forall j :: 0 <= j < n ==> path[j] == parameter[j];
    assert i == n;
  }

  /** Two parameter objects that differ only in hidden members. */
  ghost predicate AgreeOutside(p: Value, q: Value, hidden: set<string>) {
    && p.Obj? && q.Obj?
    && forall k :: k !in hidden ==> (k in p.fields <==> k in q.fields) && (k in p.fields ==> p.fields[k] == q.fields[k])
  }

  lemma {:induction false} RenderIgnoresHidden(pieces: seq<Piece>, closed: bool, p: Value, q: Value, hidden: set<string>)
    requires AgreeOutside(p, q, hidden)
    requires forall i :: 0 <= i < |pieces| && pieces[i].Param? ==> Split(pieces[i].path)[0] !in hidden
    ensures Eval(pieces, closed, p) == Eval(pieces, closed, q)
  {
    if pieces != [] {
      RenderIgnoresHidden(pieces[1..], closed, p, q, hidden);
    }
  }

  /** The names whose values must not show. */
  function Sensitive(bindings: map<string, Binding>): set<string> { set n | n in bindings && bindings[n].sensitive }

  /** Two sets of bound values that differ only in sensitive ones. */
  ghost predicate SameOpenValues(bindings: map<string, Binding>, values: map<string, Value>, values': map<string, Value>) {
    && values.Keys == values'.Keys == bindings.Keys
    && forall n :: n in bindings && !bindings[n].sensitive ==> values[n] == values'[n]
  }

  ghost predicate AllOk(bindings: map<string, Binding>, e: Executor) {
    forall name :: name in bindings ==> BindingOk(name, bindings[name], e)
  }

  /** An exposed template renders to the same text, or the same failure, whatever the sensitive values are. */
  lemma ExposedTextIgnoresSecrets(e: Executor, bindings: map<string, Binding>, parameters: Value,
                                  values: map<string, Value>, values': map<string, Value>, i: nat)
    requires AllOk(bindings, e) && parameters.Obj? && SameOpenValues(bindings, values, values') && i < |Exposed(e)|
    ensures Render(Exposed(e)[i], Filled(parameters, values)) == Render(Exposed(e)[i], Filled(parameters, values'))
  {
    var hidden := Sensitive(bindings);
    var parsed := Parse(Exposed(e)[i]);
    forall k | 0 <= k < |parsed.pieces| && parsed.pieces[k].Param? ensures Split(parsed.pieces[k].path)[0] !in hidden {
      var name := Split(parsed.pieces[k].path)[0];
      if name in hidden {
        assert BindingOk(name, bindings[name], e);
        ReferenceIsFirstComponent(parsed.pieces[k].path, name);
        assert References(parsed.pieces, name);
      }
    }
    RenderIgnoresHidden(parsed.pieces, parsed.closed, Filled(parameters, values), Filled(parameters, values'), hidden);
  }

  lemma {:induction false} RenderAllSame(templates: seq<string>, p: Value, q: Value)
    requires forall i :: 0 <= i < |templates| ==> Render(templates[i], p) == Render(templates[i], q)
    ensures RenderAll(templates, p) == RenderAll(templates, q)
  {
    if templates != [] {
      assert Render(templates[0], p) == Render(templates[0], q);
      RenderAllSame(templates[1..], p, q);
    }
  }

  lemma CommandShowsTheSame(e: Executor, p: Value, q: Value)
    requires e.Command? && forall i :: 0 <= i < |Exposed(e)| ==> Render(Exposed(e)[i], p) == Render(Exposed(e)[i], q)
    requires RenderCommand(e, p).Ok? && RenderCommand(e, q).Ok?
    ensures Exposed(RenderCommand(e, p).value) == Exposed(RenderCommand(e, q).value)
  {
    forall i | 0 <= i < |e.args| ensures Render(e.args[i], p) == Render(e.args[i], q) {
      assert Exposed(e)[i + 1] == e.args[i];
    }
    RenderAllSame(e.args, p, q);
    assert e.directory.Some? ==> Exposed(e)[|e.args| + 1] == e.directory.value;
  }

  lemma ExcelShowsTheSame(e: Executor, p: Value, q: Value)
    requires e.Excel? && forall i :: 0 <= i < |Exposed(e)| ==> Render(Exposed(e)[i], p) == Render(Exposed(e)[i], q)
    requires RenderExcel(e, p).Ok? && RenderExcel(e, q).Ok?
    ensures Exposed(RenderExcel(e, p).value) == Exposed(RenderExcel(e, q).value)
  {
    assert Exposed(e)[0] == e.workbook;
    assert e.moduleName.Some? ==> Exposed(e)[1] == e.moduleName.value;
    assert Exposed(e)[|Exposed(e)| - 1] == e.macroName;
  }

  /**
  If validation accepted the bindings, then however the sensitive values differ,
  two resolved executors show the same program, arguments and working directory,
  or the same workbook, module and macro.
   */
  lemma SecretsNeverShow(late: Late, values: map<string, Value>, values': map<string, Value>, accepts: Value -> bool)
    requires AllOk(late.bindings, late.template) && SameOpenValues(late.bindings, values, values')
    requires ResolvedLate(late, values, accepts).Ok? && ResolvedLate(late, values', accepts).Ok?
    ensures Exposed(ResolvedLate(late, values, accepts).value) == Exposed(ResolvedLate(late, values', accepts).value)
  {
    var p, q := Filled(late.parameters, values), Filled(late.parameters, values');
    forall i | 0 <= i < |Exposed(late.template)| ensures Render(Exposed(late.template)[i], p) == Render(Exposed(late.template)[i], q) {
      ExposedTextIgnoresSecrets(late.template, late.bindings, late.parameters, values, values', i);
    }
    if late.template.Command? {
      CommandShowsTheSame(late.template, p, q);
    } else {
      ExcelShowsTheSame(late.template, p, q);
    }
  }
}
