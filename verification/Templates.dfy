/**
The parameter template language. One parse of a template is the reference; the
renderer and the reference checker are separate scanners proved against it.
 */
module Templates {
  import opened Common
  import opened Json

  const OPEN := "{{params."
  const CLOSE := "}}"

  predicate OccursAt(pattern: string, s: string, i: nat) { i + |pattern| <= |s| && s[i..i + |pattern|] == pattern }

  /** Where `pattern` first occurs. */
  function Find(s: string, pattern: string): (r: Option<nat>)
    requires pattern != []
    ensures r.Some? ==> r.value + |pattern| <= |s|
  {
    FindFrom(s, pattern, 0)
  }

  function FindFrom(s: string, pattern: string, i: nat): (r: Option<nat>)
    requires pattern != []
    ensures r.Some? ==> i <= r.value && r.value + |pattern| <= |s|
    decreases |s| - i
  {
    if |s| < i + |pattern| then None
    else if OccursAt(pattern, s, i) then Some(i)
    else FindFrom(s, pattern, i + 1)
  }

  lemma {:induction false} FindsSome(s: string, pattern: string, from: nat, i: nat)
    requires pattern != [] && from <= i && OccursAt(pattern, s, i)
    ensures FindFrom(s, pattern, from).Some? && FindFrom(s, pattern, from).value <= i
    decreases i - from
  {
    if !OccursAt(pattern, s, from) {
      FindsSome(s, pattern, from + 1, i);
    }
  }

  lemma {:induction false} FoundIsThere(s: string, pattern: string, from: nat)
    requires pattern != [] && FindFrom(s, pattern, from).Some?
    ensures OccursAt(pattern, s, FindFrom(s, pattern, from).value)
    decreases |s| - from
  {
    if !OccursAt(pattern, s, from) {
      FoundIsThere(s, pattern, from + 1);
    }
  }

  /** The place found is the first where the pattern occurs. */
  lemma FindIsFirst(s: string, pattern: string, i: nat)
    requires pattern != []
    ensures Find(s, pattern) == Some(i) <==> OccursAt(pattern, s, i) && forall j :: 0 <= j < i ==> !OccursAt(pattern, s, j)
  {
    var found := Find(s, pattern);
    if found.Some? {
      FoundIsThere(s, pattern, 0);
    }
    if found == Some(i) {
      forall j | 0 <= j < i ensures !OccursAt(pattern, s, j) {
        if OccursAt(pattern, s, j) {
          FindsSome(s, pattern, 0, j);
        }
      }
    }
    if OccursAt(pattern, s, i) {
      FindsSome(s, pattern, 0, i);
    }
  }

  /** Unicode white space. */
  predicate IsSpace(c: char) {
    || '\U{9}' <= c <= '\U{D}' || c == '\U{20}' || c == '\U{85}' || c == '\U{A0}' || c == '\U{1680}'
    || '\U{2000}' <= c <= '\U{200A}' || c == '\U{2028}' || c == '\U{2029}' || c == '\U{202F}' || c == '\U{205F}' || c == '\U{3000}'
  }

  function TrimStart(s: string): string { if s != [] && IsSpace(s[0]) then TrimStart(s[1..]) else s }

  function TrimEnd(s: string): string {
    if s != [] && IsSpace(s[|s| - 1]) then TrimEnd(s[..|s| - 1]) else s
  }

  function Trim(s: string): string { TrimEnd(TrimStart(s)) }

  function Split(path: string): (r: seq<string>)
    ensures r != []
  {
    var dot := Find(path, ".");
    if dot.None? then [path] else [path[..dot.value]] + Split(path[dot.value + 1..])
  }

  // ----- lookup -----

  /** Only objects have named members. */
  function Member(v: Value, path: seq<string>): Option<Value> { At(v, path) }

  method Lookup(parameters: Value, path: string) returns (r: Option<Value>)
    ensures r == Member(parameters, Split(path))
  {
    var components := Split(path);
    var value := parameters;
    for i := 0 to |components|
      invariant Member(parameters, components) == Member(value, components[i..])
    {
      assert components[i..][1..] == components[i + 1..];
      if value.Obj? && components[i] in value.fields {
        value := value.fields[components[i]];
      } else {
        return None;
      }
    }
    return Some(value);
  }

  // ----- the reference parse -----

  datatype Piece = Text(text: string) | Param(path: string)

  /** A template that opens a placeholder it never closes is not `closed`. */
  datatype Parsed = Parsed(pieces: seq<Piece>, closed: bool)

  /** One look ahead: no placeholder, one that never closes, or the first one and what follows it. */
  datatype Scan = Plain | Broken(text: string) | Slot(text: string, path: string, after: string)

  function Next(template: string): (r: Scan)
    ensures r.Slot? ==> |r.after| < |template|
  {
    var start := Find(template, OPEN);
    if start.None? then Plain
    else
      var expression := template[start.value + |OPEN|..];
      var end := Find(expression, CLOSE);
      if end.None? then Broken(template[..start.value])
      else Slot(template[..start.value], Trim(expression[..end.value]), expression[end.value + |CLOSE|..])
  }

  function Parse(template: string): Parsed
    decreases |template|
  {
    match Next(template)
    case Plain => Parsed([Text(template)], true)
    case Broken(text) => Parsed([Text(text)], false)
    case Slot(text, path, after) =>
      var rest := Parse(after);
      Parsed([Text(text), Param(path)] + rest.pieces, rest.closed)
  }

  datatype RenderError = Unterminated | Missing(path: string) | NotScalar(path: string)

  function ScalarText(v: Value): Option<string> {
    match v
    case Null => Some("")
    case Bool(flag) => Some(if flag then "true" else "false")
    case Number(digits) => Some(digits)
    case Str(text) => Some(text)
    case Arr(_) => None
    case Obj(_) => None
  }

  function PieceText(p: Piece, parameters: Value): Result<string, RenderError> {
    match p
    case Text(text) => Ok(text)
    case Param(path) =>
      var v := Member(parameters, Split(path));
      if v.None? then Err(Missing(path))
      else if ScalarText(v.value).None? then Err(NotScalar(path))
      else Ok(ScalarText(v.value).value)
  }

  function Prefixed(s: string, r: Result<string, RenderError>): Result<string, RenderError> {
    if r.Ok? then Ok(s + r.value) else r
  }

  /** The first failure wins. */
  function Eval(pieces: seq<Piece>, closed: bool, parameters: Value): Result<string, RenderError> {
    if pieces == [] then (if closed then Ok("") else Err(Unterminated))
    else
      var first := PieceText(pieces[0], parameters);
      if first.Err? then first else Prefixed(first.value, Eval(pieces[1..], closed, parameters))
  }

  function Render(template: string, parameters: Value): Result<string, RenderError> {
    Eval(Parse(template).pieces, Parse(template).closed, parameters)
  }

  /** Some placeholder that a scan reaches names the parameter. */
  predicate References(pieces: seq<Piece>, parameter: string) {
    exists i :: 0 <= i < |pieces| && pieces[i].Param? && Refers(pieces[i].path, parameter)
  }

  predicate Refers(path: string, parameter: string) {
    path == parameter || (parameter <= path && |parameter| < |path| && path[|parameter|] == '.')
  }

  // ----- the two scanners -----

  lemma PrefixTwice(a: string, b: string, r: Result<string, RenderError>)
    ensures Prefixed(a + b, r) == Prefixed(a, Prefixed(b, r))
  {
    if r.Ok? {
      assert (a + b) + r.value == a + (b + r.value);
    }
  }

  lemma PrefixNothing(r: Result<string, RenderError>)
    ensures Prefixed("", r) == r
  {
    if r.Ok? {
      assert "" + r.value == r.value;
    }
  }

  lemma EvalText(text: string, closed: bool, parameters: Value)
    ensures Eval([Text(text)], closed, parameters) == if closed then Ok(text) else Err(Unterminated)
  {
    assert [Text(text)][1..] == [];
    assert text + "" == text;
  }

  lemma EvalSlot(text: string, path: string, rest: seq<Piece>, closed: bool, parameters: Value)
    ensures Eval([Text(text), Param(path)] + rest, closed, parameters) ==
              var v := PieceText(Param(path), parameters);
              if v.Err? then v else Prefixed(text + v.value, Eval(rest, closed, parameters))
  {
    assert ([Text(text), Param(path)] + rest)[1..] == [Param(path)] + rest;
    assert ([Param(path)] + rest)[1..] == rest;
    var v := PieceText(Param(path), parameters);
    if v.Ok? {
      PrefixTwice(text, v.value, Eval(rest, closed, parameters));
    }
  }

  /** Looks a placeholder up and gives its text. */
  method RenderParam(path: string, parameters: Value) returns (r: Result<string, RenderError>)
    ensures r == PieceText(Param(path), parameters)
  {
    var value := Lookup(parameters, path);
    if value.None? {
      return Err(Missing(path));
    }
    match value.value
    case Str(text) => r := Ok(text);
    case Number(digits) => r := Ok(digits);
    case Bool(flag) => r := Ok(if flag then "true" else "false");
    case Null => r := Ok("");
    case _ => r := Err(NotScalar(path));
  }

  lemma RenderUnfolds(template: string, parameters: Value)
    ensures var r := Render(template, parameters);
            match Next(template) {
              case Plain => r == Ok(template)
              case Broken(_) => r == Err(Unterminated)
              case Slot(text, path, after) =>
                var v := PieceText(Param(path), parameters);
                r == if v.Err? then v else Prefixed(text + v.value, Render(after, parameters))
            }
  {
    match Next(template)
    case Plain => EvalText(template, true, parameters);
    case Broken(text) => EvalText(text, false, parameters);
    case Slot(text, path, after) => EvalSlot(text, path, Parse(after).pieces, Parse(after).closed, parameters);
  }

  method RenderString(template: string, parameters: Value) returns (r: Result<string, RenderError>)
    ensures r == Render(template, parameters)
  {
    var output := "";
    var rest := template;
    PrefixNothing(Render(template, parameters));
    var start := Find(rest, OPEN);
    while start.Some?
      invariant start == Find(rest, OPEN)
      invariant Render(template, parameters) == Prefixed(output, Render(rest, parameters))
      decreases |rest|
    {
      RenderUnfolds(rest, parameters);
      var text := rest[..start.value];
      var expression := rest[start.value + |OPEN|..];
      var end := Find(expression, CLOSE);
      if end.None? {
        return Err(Unterminated);
      }
      var value := RenderParam(Trim(expression[..end.value]), parameters);
      if value.Err? {
        return value;
      }
      rest := expression[end.value + |CLOSE|..];
      PrefixTwice(output, text + value.value, Render(rest, parameters));
      output := output + (text + value.value);
      start := Find(rest, OPEN);
    }
    RenderUnfolds(rest, parameters);
    return Ok(output + rest);
  }

  lemma ReferencesAppend(text: string, path: string, rest: seq<Piece>, parameter: string)
    ensures References([Text(text), Param(path)] + rest, parameter) <==> Refers(path, parameter) || References(rest, parameter)
  {
    var pieces := [Text(text), Param(path)] + rest;
    assert pieces[1] == Param(path);
    assert forall i :: 0 <= i < |rest| ==> pieces[i + 2] == rest[i];
  }

  predicate Mentions(template: string, parameter: string) { References(Parse(template).pieces, parameter) }

  lemma MentionsUnfolds(template: string, parameter: string)
    ensures match Next(template) {
              case Plain => !Mentions(template, parameter)
              case Broken(_) => !Mentions(template, parameter)
              case Slot(_, path, after) => Mentions(template, parameter) <==> Refers(path, parameter) || Mentions(after, parameter)
            }
  {
    match Next(template)
    case Plain =>
    case Broken(_) =>
    case Slot(text, path, after) => ReferencesAppend(text, path, Parse(after).pieces, parameter);
  }

  method TemplateReferences(template: string, parameter: string) returns (r: bool)
    ensures r == References(Parse(template).pieces, parameter)
  {
    var remaining := template;
    var start := Find(remaining, OPEN);
    while start.Some?
      invariant start == Find(remaining, OPEN)
      invariant Mentions(template, parameter) == Mentions(remaining, parameter)
      decreases |remaining|
    {
      MentionsUnfolds(remaining, parameter);
      var expression := remaining[start.value + |OPEN|..];
      var end := Find(expression, CLOSE);
      if end.None? {
        return false;
      }
      var path := Trim(expression[..end.value]);
      if path == parameter || (parameter <= path && |parameter| < |path| && path[|parameter|] == '.') {
        return true;
      }
      remaining := expression[end.value + |CLOSE|..];
      start := Find(remaining, OPEN);
    }
    MentionsUnfolds(remaining, parameter);
    return false;
  }

  // ----- whole-value placeholders -----

  /** The template starts with the opening mark and ends with the closing one. */
  function ExactPlaceholder(template: string): Option<string> {
    if |OPEN| + |CLOSE| <= |template| && OccursAt(OPEN, template, 0) && OccursAt(CLOSE, template, |template| - |CLOSE|)
    then Some(Trim(template[|OPEN|..|template| - |CLOSE|]))
    else None
  }

  function RenderValue(v: Value, parameters: Value): Result<Value, RenderError> {
    if !v.Str? then Ok(v)
    else
      var path := ExactPlaceholder(v.text);
      if path.Some? then
        var found := Member(parameters, Split(path.value));
        if found.Some? then Ok(found.value) else Err(Missing(path.value))
      else
        var text := Render(v.text, parameters);
        if text.Ok? then Ok(Str(text.value)) else Err(text.error)
  }

  lemma TakeOfDrop(s: string, i: nat, n: nat)
    requires i + n <= |s|
    ensures s[i..][..n] == s[i..i + n]
  {
    assert forall k :: 0 <= k < n ==> s[i..][..n][k] == s[i + k] == s[i..i + n][k];
  }

  /** A text that starts with one mark and ends with another: the second occurs first at the end, or leaves a remainder. */
  lemma MarkEndsText(t: string, open: string, close: string)
    requires open != [] && close != [] && |open| + |close| <= |t|
    ensures var rest, n := t[|open|..], |t| - |open| - |close|;
            var end := Find(rest, close);
            && rest[..n] == t[|open|..|t| - |close|]
            && (end.Some? ==> (end == Some(n) <==> rest[end.value + |close|..] == ""))
  {
    TakeOfDrop(t, |open|, |t| - |open| - |close|);
  }

  /** Where the first closing mark of such a template is its last two characters, it is one placeholder and nothing else. */
  lemma ExactIsOnePlaceholder(template: string)
    requires ExactPlaceholder(template).Some?
    ensures Find(template[|OPEN|..], CLOSE) == Some(|template| - |OPEN| - |CLOSE|) <==>
              Next(template) == Slot("", ExactPlaceholder(template).value, "")
  {
    FindIsFirst(template, OPEN, 0);
    MarkEndsText(template, OPEN, CLOSE);
    assert template[..0] == "";
  }

  /** What one renderer substitutes as a value the other writes out as its text, failures included. */
  predicate Agree(v: Result<Value, RenderError>, t: Result<string, RenderError>) {
    && (t.Ok? <==> v.Ok? && ScalarText(v.value).Some?)
    && (t.Ok? ==> ScalarText(v.value) == Some(t.value))
    && (v.Err? ==> t == Err(v.error))
  }

  ghost predicate AlwaysAgree(template: string) {
    forall parameters :: Agree(RenderValue(Str(template), parameters), Render(template, parameters))
  }

  lemma OnePlaceholderAgrees(template: string, parameters: Value)
    requires ExactPlaceholder(template).Some?
    requires Find(template[|OPEN|..], CLOSE) == Some(|template| - |OPEN| - |CLOSE|)
    ensures Agree(RenderValue(Str(template), parameters), Render(template, parameters))
  {
    ExactIsOnePlaceholder(template);
    RenderUnfolds(template, parameters);
    RenderUnfolds("", parameters);
    assert Find("", OPEN) == None;
    var v := PieceText(Param(ExactPlaceholder(template).value), parameters);
    if v.Ok? {
      assert "" + v.value == v.value && v.value + "" == v.value;
    }
  }

  // A text cut before a closing mark never trims to the same name as the whole.

  lemma {:induction false} TrimStartStopsAt(a: string, x: string)
    requires x != [] && !IsSpace(x[0])
    ensures TrimStart(a + x) == TrimStart(a) + x
  {
    if a == [] {
      assert a + x == x;
    } else {
      assert (a + x)[1..] == a[1..] + x;
      TrimStartStopsAt(a[1..], x);
    }
  }

  lemma {:induction false} TrimEndStopsAt(b: string, x: string)
    requires x != [] && !IsSpace(x[0])
    ensures |TrimEnd(b + x)| > |b|
  {
    var n := |x| - 1;
    assert (b + x)[..|b + x| - 1] == b + x[..n];
    if n > 0 {
      TrimEndStopsAt(b, x[..n]);
    }
  }

  lemma {:induction false} TrimEndShortens(s: string)
    ensures |TrimEnd(s)| <= |s|
  {
    if s != [] && IsSpace(s[|s| - 1]) {
      TrimEndShortens(s[..|s| - 1]);
    }
  }

  lemma LongerNameStaysLonger(a: string, x: string)
    requires x != [] && !IsSpace(x[0])
    ensures Trim(a) != Trim(a + x)
  {
    TrimStartStopsAt(a, x);
    TrimEndStopsAt(TrimStart(a), x);
    TrimEndShortens(TrimStart(a));
  }

  lemma OccursInDrop(pattern: string, s: string, d: nat, i: nat)
    requires d <= i && OccursAt(pattern, s, i)
    ensures OccursAt(pattern, s[d..], i - d)
  {
    var a, b := s[i..i + |pattern|], s[d..][i - d..i - d + |pattern|];
    assert forall k :: 0 <= k < |pattern| ==> a[k] == s[i + k] == b[k];
    assert a == b;
  }

  lemma OccursStartsWith(pattern: string, s: string, i: nat)
    requires pattern != [] && OccursAt(pattern, s, i)
    ensures s[i] == pattern[0]
  {
    assert s[i..i + |pattern|][0] == s[i];
  }

  lemma SliceOfDrop(s: string, i: nat, e: nat, n: nat)
    requires i + n <= |s| && e < n
    ensures s[i..i + n] == s[i..][..e] + s[i..][e..n] && s[i..][e..n][0] == s[i..][e]
  {
    var rest := s[i..];
    assert rest[..n] == rest[..e] + rest[e..n];
    assert forall k :: 0 <= k < n ==> rest[..n][k] == s[i..i + n][k];
  }

  lemma ShorterNameDiffers(t: string, i: nat, e: nat, n: nat)
    requires i + n <= |t| && e < n && !IsSpace(t[i..][e])
    ensures Trim(t[i..][..e]) != Trim(t[i..i + n])
  {
    SliceOfDrop(t, i, e, n);
    LongerNameStaysLonger(t[i..][..e], t[i..][e..n]);
  }

  lemma EarlyMark(rest: string, close: string, n: nat) returns (e: nat)
    requires close != [] && OccursAt(close, rest, n) && Find(rest, close) != Some(n)
    ensures Find(rest, close) == Some(e) && e < n && rest[e] == close[0]
  {
    FindsSome(rest, close, 0, n);
    e := Find(rest, close).value;
    FoundIsThere(rest, close, 0);
    OccursStartsWith(close, rest, e);
  }

  /** A text between two marks that holds the second one early: the name before it differs from the whole. */
  lemma EarlyMarkNamesOther(t: string, open: string, close: string) returns (e: nat)
    requires open != [] && close != [] && !IsSpace(close[0]) && |open| + |close| <= |t|
    requires OccursAt(open, t, 0) && OccursAt(close, t, |t| - |close|)
    requires Find(t[|open|..], close) != Some(|t| - |open| - |close|)
    ensures Find(t, open) == Some(0) && Find(t[|open|..], close) == Some(e)
    ensures Trim(t[|open|..][..e]) != Trim(t[|open|..|t| - |close|])
  {
    FindIsFirst(t, open, 0);
    var n := |t| - |close| - |open|;
    OccursInDrop(close, t, |open|, |t| - |close|);
    e := EarlyMark(t[|open|..], close, n);
    ShorterNameDiffers(t, |open|, e, n);
    assert |open| + n == |t| - |close|;
  }

  lemma EarlyCloseNamesOther(template: string)
    requires ExactPlaceholder(template).Some?
    requires Find(template[|OPEN|..], CLOSE) != Some(|template| - |OPEN| - |CLOSE|)
    ensures Next(template).Slot? && Next(template).path != ExactPlaceholder(template).value
  {
    var e := EarlyMarkNamesOther(template, OPEN, CLOSE);
  }

  /** The two renderers agree on all parameters if and only if the first closing mark ends the template. */
  lemma WholeValueAgreesExactlyWhenOnePlaceholder(template: string)
    requires ExactPlaceholder(template).Some?
    ensures AlwaysAgree(template) <==> Find(template[|OPEN|..], CLOSE) == Some(|template| - |OPEN| - |CLOSE|)
  {
    if Find(template[|OPEN|..], CLOSE) == Some(|template| - |OPEN| - |CLOSE|) {
      forall parameters ensures Agree(RenderValue(Str(template), parameters), Render(template, parameters)) {
        OnePlaceholderAgrees(template, parameters);
      }
    } else {
      EarlyCloseNamesOther(template);
      RenderUnfolds(template, Obj(map[]));
      assert !Agree(RenderValue(Str(template), Obj(map[])), Render(template, Obj(map[])));
    }
  }

  // ----- an example outside them -----

  /** A placeholder whose name holds no brace, and what follows it. */
  lemma StartsWithPlaceholder(name: string, rest: string)
    requires '}' !in name
    ensures Next(OPEN + name + CLOSE + rest) == Slot("", Trim(name), rest)
  {
    var t, expression := OPEN + name + CLOSE + rest, name + CLOSE + rest;
    assert t[0..0 + |OPEN|] == OPEN;
    FindIsFirst(t, OPEN, 0);
    assert t[|OPEN|..] == expression;
    forall j | 0 <= j < |name| ensures !OccursAt(CLOSE, expression, j) {
      assert expression[j] == name[j];
      assert j + 2 <= |expression| ==> expression[j..j + |CLOSE|][0] == expression[j];
    }
    assert expression[|name|..|name| + |CLOSE|] == CLOSE;
    FindIsFirst(expression, CLOSE, |name|);
    assert expression[..|name|] == name && expression[|name| + |CLOSE|..] == rest && t[..0] == "";
  }

  lemma NothingToTrim(s: string)
    requires s != [] && !IsSpace(s[0]) && !IsSpace(s[|s| - 1])
    ensures Trim(s) == s
  {
  }

  lemma NameOfOne(c: char)
    requires !IsSpace(c) && c != '.'
    ensures Split([c]) == [[c]]
  {
    assert [c][..1][0] == c;
    assert Find([c][1..], ".") == None;
  }

  function Two(a: char, b: char): string { OPEN + [a] + CLOSE + (OPEN + [b] + CLOSE + "") }

  predicate PlainName(c: char) { !IsSpace(c) && c != '.' && c != '}' }

  lemma MemberOfOne(parameters: Value, name: string)
    requires parameters.Obj? && name in parameters.fields
    ensures Member(parameters, [name]) == Some(parameters.fields[name])
  {
    var path := [name];
    assert path[0] == name && path[1..] == [];
    assert At(parameters.fields[name], path[1..]) == Some(parameters.fields[name]);
  }

  lemma OneRenders(c: char, rest: string, parameters: Value, x: string)
    requires PlainName(c) && parameters.Obj? && [c] in parameters.fields && parameters.fields[[c]] == Str(x)
    ensures Render(OPEN + [c] + CLOSE + rest, parameters) == Prefixed(x, Render(rest, parameters))
  {
    StartsWithPlaceholder([c], rest);
    NothingToTrim([c]);
    NameOfOne(c);
    MemberOfOne(parameters, [c]);
    RenderUnfolds(OPEN + [c] + CLOSE + rest, parameters);
    assert "" + x == x;
  }

  lemma TwoRendersBoth(a: char, b: char, parameters: Value, x: string, y: string)
    requires PlainName(a) && PlainName(b) && parameters.Obj?
    requires [a] in parameters.fields && parameters.fields[[a]] == Str(x)
    requires [b] in parameters.fields && parameters.fields[[b]] == Str(y)
    ensures Render(Two(a, b), parameters) == Ok(x + y)
  {
    OneRenders(a, OPEN + [b] + CLOSE + "", parameters, x);
    OneRenders(b, "", parameters, y);
    RenderUnfolds("", parameters);
    assert y + "" == y;
  }

  /** The name the whole-value rule looks up instead. */
  function OddName(a: char, b: char): string { [a] + CLOSE + OPEN + [b] }

  lemma TwoIsExact(a: char, b: char)
    requires PlainName(a) && PlainName(b)
    ensures ExactPlaceholder(Two(a, b)) == Some(OddName(a, b))
    ensures |Split(OddName(a, b))[0]| > 1
  {
    var t, name := Two(a, b), OddName(a, b);
    assert t == OPEN + name + CLOSE;
    assert t[0..0 + |OPEN|] == OPEN;
    assert t[|t| - |CLOSE|..|t| - |CLOSE| + |CLOSE|] == CLOSE;
    assert t[|OPEN|..|t| - |CLOSE|] == name;
    NothingToTrim(name);
    var dot := Find(name, ".");
    if dot.Some? {
      FoundIsThere(name, ".", 0);
      OccursStartsWith(".", name, dot.value);
      assert name[0] == a && name[1] == '}';
    }
  }

  /**
  Two placeholders in one string: rendered as text, the two values one after the
  other; taken as a whole value, a missing parameter with an odd name.
   */
  lemma TwoPlaceholdersAreTakenAsOne()
    ensures var parameters := Obj(map["a" := Str("x"), "b" := Str("y")]);
            && Render(Two('a', 'b'), parameters) == Ok("x" + "y")
            && RenderValue(Str(Two('a', 'b')), parameters) == Err(Missing(OddName('a', 'b')))
  {
    var parameters := Obj(map["a" := Str("x"), "b" := Str("y")]);
    assert "a" == ['a'] && "b" == ['b'];
    TwoRendersBoth('a', 'b', parameters, "x", "y");
    TwoIsExact('a', 'b');
    assert Split(OddName('a', 'b'))[0] !in parameters.fields;
  }
}
