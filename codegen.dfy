/**
 * The property code generator of build/build.rs: a property descriptor is
 * turned into the Rust fragments (return type, getter body, constructor and
 * update initialisers, documentation comment) that the struct templates
 * splice into the plugin's generated sources.
 */
module Codegen {
  import opened Wrappers
  import opened Text

  /** One generated property of a struct. */
  datatype Property = Property(
    name: string,
    typeS: string,
    /** The property is wrapped into a `Result`. */
    result: bool,
    documentation: string,
    initialise: bool,
    /** Code that creates the content of this property. */
    initialisation: Option<string>,
    /** Code that updates the content of this property. */
    update: Option<string>,
    /** An update method is generated for this property. */
    shouldUpdate: bool,
    /** A fixed function that fetches the value. */
    methodName: Option<string>,
    /** The value is fetched as `enumName::valueName`. */
    enumName: string,
    valueName: Option<string>,
    /** Type name to the function that fetches a value of that type. */
    functions: map<string, string>,
    /** Types fetched as an int and transmuted. */
    transmutable: seq<string>,
    /** Arguments passed to the fetch function. */
    defaultArgs: string,
    /** Arguments passed to the fetch function when updating. */
    defaultArgsUpdate: string,
    /** An api getter is generated for this property. */
    apiGetter: bool,
    /** The getter is public. */
    public: bool)

  // -------------------------------------------------------- return type

  /**
   * Types that a getter hands out by reference: String and Permissions are
   * references, the scalar types the generator fetches are not.
   */
  predicate IsRefType(p: Property)
    ensures p.typeS in ["String", "Permissions"] ==> IsRefType(p)
    ensures p.typeS in ["i32", "u64", "u16", "bool", "Duration", "DateTime<Utc>"] ==> !IsRefType(p)
  {
    ScalarStarts(p.typeS);
    p.typeS in ["String", "Permissions"]
    || StartsWith(p.typeS, "Option") || StartsWith(p.typeS, "Map<") || StartsWith(p.typeS, "Vec<")
  }

  /** None of the scalar types begins like `Option`, `Map<` or `Vec<`. */
  lemma ScalarStarts(t: string)
    ensures t in ["i32", "u64", "u16", "bool", "Duration", "DateTime<Utc>"] ==>
              t[0] !in "OMV" && !StartsWith(t, "Option") && !StartsWith(t, "Map<") && !StartsWith(t, "Vec<")
  {
    if t in ["i32", "u64", "u16", "bool", "Duration", "DateTime<Utc>"] {
      assert t[0] in "iubD";
      assert forall pre: string :: pre != [] && StartsWith(t, pre) ==> pre[0] == t[0];
    }
  }

  /** The getter's return type without the `Result` wrapper. */
  function ReturnInner(p: Property): string {
    (if IsRefType(p) then "&" else "") + (if p.typeS == "String" then "str" else p.typeS)
  }

  /** The getter's declared return type. */
  function ReturnType(p: Property): string {
    if p.result then "Result<" + ReturnInner(p) + ", ::Error>" else ReturnInner(p)
  }

  /** `create_return_type`, building the string piece by piece. */
  method CreateReturnType(p: Property) returns (resultType: string)
    ensures resultType == ReturnType(p)
  {
    var isRefType := IsRefType(p);
    resultType := "";
    if p.result {
      resultType := resultType + "Result<";
    }
    if isRefType {
      resultType := resultType + "&";
    }
    if p.typeS == "String" {
      resultType := resultType + "str";
    } else {
      resultType := resultType + p.typeS;
    }
    if p.result {
      resultType := resultType + ", ";
      resultType := resultType + "::Error>";
    }
  }

  /**
   * The declared return type is `Result<inner, ::Error>` exactly when the
   * property is Result-wrapped; `inner` borrows exactly the reference types
   * and hands out `str` for `String`. The first clause pins the order of the
   * pushes of build/build.rs:86-103: wrapper, borrow, type, error type.
   */
  lemma ReturnTypeShape(p: Property)
    requires p.typeS == [] || p.typeS[0] != '&'
    ensures ReturnType(p) == if p.result then "Result<" + ReturnInner(p) + ", ::Error>" else ReturnInner(p)
    ensures StartsWith(ReturnInner(p), "&") <==> IsRefType(p)
    ensures p.typeS == "String" ==> ReturnInner(p) == "&str"
    ensures !IsRefType(p) ==> ReturnInner(p) == p.typeS
    ensures IsRefType(p) && p.typeS != "String" ==> ReturnInner(p) == "&" + p.typeS
  {
    if p.typeS != "String" && !IsRefType(p) && p.typeS != [] {
      assert ReturnInner(p)[..1] == p.typeS[..1];
    }
  }

  // -------------------------------------------------------- getter body

  /** The borrow in front of the field, for a plain reference getter. */
  function GetterBorrow(p: Property): string {
    if !p.result && IsRefType(p) then "&" else ""
  }

  /** The adapters after the field, for a Result-wrapped reference getter. */
  function GetterAdapter(p: Property): string {
    if p.result && IsRefType(p) then
      ".as_ref()" + (if p.typeS == "String" then ".map(|v| v.as_str())" else "") + ".map_err(|e| *e)"
    else ""
  }

  /** `create_getter_body`, building the string piece by piece. */
  method CreateGetterBody(p: Property) returns (body: string)
    ensures body == GetterBorrow(p) + "self." + p.name + GetterAdapter(p)
  {
    var isRefType := IsRefType(p);
    body := "";
    if !p.result && isRefType {
      body := body + "&";
    }
    body := body + "self." + p.name;
    if p.result && isRefType {
      body := body + ".as_ref()";
      if p.typeS == "String" {
        body := body + ".map(|v| v.as_str())";
      }
      body := body + ".map_err(|e| *e)";
    }
  }

  /**
   * A getter body borrows its field exactly when the declared return type
   * is a plain reference, and converts the stored `Result` by reference
   * exactly when the return type is a Result over a reference type.
   */
  lemma {:induction false} GetterAgreesWithReturnType(p: Property)
    requires p.typeS == [] || p.typeS[0] != '&'
    ensures StartsWith(GetterBorrow(p) + "self." + p.name + GetterAdapter(p), "&")
            <==> StartsWith(ReturnType(p), "&")
    ensures GetterAdapter(p) != "" <==> p.result && StartsWith(ReturnInner(p), "&")
  {
    ReturnTypeShape(p);
    var body := GetterBorrow(p) + "self." + p.name + GetterAdapter(p);
    if GetterBorrow(p) == "" {
      assert body[0] == 's';
    }
    if p.result {
      assert ReturnType(p)[0] == 'R';
    }
  }

  // ------------------------------------------------ initialisation code

  /** `format!("{}({}{}::{})", callee, args, enum_name, value_name)`. */
  function Call(callee: string, args: string, enumName: string, valueName: string): string {
    callee + "(" + args + enumName + "::" + valueName + ")"
  }

  /** The enum variant the value is fetched with: explicit, or the Pascal-cased name. */
  function ValueName(p: Property): string {
    if p.valueName.Some? then p.valueName.value else PascalCase(p.name)
  }

  /** The fetch function of `i32`, else of `u64`: the first hit of the loop over `["i32", "u64"]`. */
  function FirstIntFunction(functions: map<string, string>): (r: Option<string>)
    ensures r.Some? <==> "i32" in functions || "u64" in functions
    ensures r.Some? ==> r.value in functions.Values
    ensures "i32" in functions ==> r == Some(functions["i32"])
  {
    if "i32" in functions then Some(functions["i32"])
    else if "u64" in functions then Some(functions["u64"])
    else None
  }

  /** The int fetch function for durations and timestamps: u64, then i32, then the default. */
  function IntFunction(functions: map<string, string>): (r: string)
    ensures r == "get_property_as_int" || r in functions.Values
    ensures "u64" in functions ==> r == functions["u64"]
  {
    if "u64" in functions then functions["u64"]
    else if "i32" in functions then functions["i32"]
    else "get_property_as_int"
  }

  const TransmuteSuffix := ".map(|v| unsafe { transmute(v) })"
  const DurationSuffix := ".map(|d| Duration::seconds(d as i64))"
  const DateTimeSuffix :=
    ".map(|d| DateTime::from_utc(chrono::NaiveDateTime::from_timestamp(d as i64, 0), chrono::Utc))"
  const BoolSuffix := ".map(|v| v != 0)"

  /** The call through the first mapped int function with `suffix` appended, or nothing. */
  function IntCall(functions: map<string, string>, args: string, enumName: string, valueName: string,
                   suffix: string): string {
    match FirstIntFunction(functions)
    case Some(f) => Call(f, args, enumName, valueName) + suffix
    case None => ""
  }

  /** The fetch call generated when no explicit code is given. */
  function GeneratedCall(p: Property, args: string): (r: string)
    ensures p.methodName.Some? ==> r == Call(p.methodName.value, args, p.enumName, ValueName(p))
    ensures r == "" ==> p.methodName.None? && p.typeS !in p.functions
    ensures (p.methodName.None? && p.typeS !in p.functions && p.typeS !in p.transmutable
             && p.typeS !in {"Duration", "DateTime<Utc>", "bool"}) ==> r == ""
  {
    var v := ValueName(p);
    if p.methodName.Some? then Call(p.methodName.value, args, p.enumName, v)
    else if p.typeS in p.functions then Call(p.functions[p.typeS], args, p.enumName, v)
    else if p.typeS in p.transmutable then
      IntCall(p.functions, args, p.enumName, v, TransmuteSuffix)
    else if p.typeS == "Duration" then Call(IntFunction(p.functions), args, p.enumName, v) + DurationSuffix
    else if p.typeS == "DateTime<Utc>" then Call(IntFunction(p.functions), args, p.enumName, v) + DateTimeSuffix
    else if p.typeS == "bool" then
      IntCall(p.functions, args, p.enumName, v, BoolSuffix)
    else ""
  }

  /** `intern_create_initialisation(default_args, update)`. */
  function Initialisation(p: Property, defaultArgs: string, update: bool): (r: string)
    ensures !p.initialise || (update && !p.shouldUpdate) ==> r == ""
    ensures p.initialise && update && p.shouldUpdate && p.update.Some? ==> r == p.update.value
    ensures p.initialise && (update ==> p.shouldUpdate && p.update.None?) && p.initialisation.Some? ==>
              r == p.initialisation.value
  {
    if !p.initialise || (update && !p.shouldUpdate) then ""
    else if update && p.update.Some? then p.update.value
    else if p.initialisation.Some? then p.initialisation.value
    else GeneratedCall(p, defaultArgs)
  }

  /** `intern_create_initialisation`, with its early returns and its loops over `["i32", "u64"]`. */
  method InternCreateInitialisation(p: Property, defaultArgs: string, update: bool) returns (s: string)
    ensures s == Initialisation(p, defaultArgs, update)
  {
    if !p.initialise || (update && !p.shouldUpdate) {
      return "";
    } else if update && p.update.Some? {
      return p.update.value;
    } else if p.initialisation.Some? {
      return p.initialisation.value;
    }
    assert Initialisation(p, defaultArgs, update) == GeneratedCall(p, defaultArgs);
    var pascal := ToPascalCase(p.name);
    var valueName := if p.valueName.Some? then p.valueName.value else pascal;
    assert valueName == ValueName(p);
    s := "";
    if p.methodName.Some? {
      s := Call(p.methodName.value, defaultArgs, p.enumName, valueName);
    } else if p.typeS in p.functions {
      s := Call(p.functions[p.typeS], defaultArgs, p.enumName, valueName);
    } else if p.typeS in p.transmutable {
      s := FirstIntCall(p.functions, defaultArgs, p.enumName, valueName, TransmuteSuffix);
    } else if p.typeS == "Duration" {
      var callee := if "u64" in p.functions then p.functions["u64"]
                      else if "i32" in p.functions then p.functions["i32"]
                      else "get_property_as_int";
      assert callee == IntFunction(p.functions);
      s := Call(callee, defaultArgs, p.enumName, valueName) + DurationSuffix;
    } else if p.typeS == "DateTime<Utc>" {
      var callee := if "u64" in p.functions then p.functions["u64"]
                      else if "i32" in p.functions then p.functions["i32"]
                      else "get_property_as_int";
      assert callee == IntFunction(p.functions);
      s := Call(callee, defaultArgs, p.enumName, valueName) + DateTimeSuffix;
    } else if p.typeS == "bool" {
      s := FirstIntCall(p.functions, defaultArgs, p.enumName, valueName, BoolSuffix);
    }
  }

  /**
   * The loop over `["i32", "u64"]` that both the transmutable and the bool
   * case run: the call through the first int function that is mapped, with
   * `suffix` appended, or nothing when neither is.
   */
  method FirstIntCall(functions: map<string, string>, args: string, enumName: string, valueName: string,
                      suffix: string) returns (s: string)
    ensures s == IntCall(functions, args, enumName, valueName, suffix)
  {
    s := "";
    var candidates := ["i32", "u64"];
    assert candidates[0] == "i32" && candidates[1] == "u64";
    for i := 0 to |candidates|
      invariant s == ""
      invariant forall j :: 0 <= j < i ==> candidates[j] !in functions
    {
      if candidates[i] in functions {
        s := s + Call(functions[candidates[i]], args, enumName, valueName) + suffix;
        break;
      }
    }
  }

  /** `create_initialisation`: a Result-wrapped property starts as `Err(::Error::Ok)`. */
  function CreateInitialisation(p: Property): (r: string)
    ensures p.result ==> r == "Err(::Error::Ok)"
    ensures !p.result && !p.initialise ==> r == ""
  {
    if p.result then "Err(::Error::Ok)" else Initialisation(p, p.defaultArgs, false)
  }

  /** `create_constructor_body`: the initialisation, or the bare name when there is none. */
  function CreateConstructorBody(p: Property): (r: string)
    ensures r == "" ==> p.name == ""
    ensures p.result ==> r == "Err(::Error::Ok)"
    ensures !p.result && !p.initialise ==> r == p.name
  {
    var init := CreateInitialisation(p);
    if init == "" then p.name else init
  }

  /** `create_update_body`. */
  function CreateUpdateBody(p: Property): (r: string)
    ensures !p.initialise || !p.shouldUpdate ==> r == ""
    ensures p.initialise && p.shouldUpdate && p.update.Some? ==> r == p.update.value
  {
    Initialisation(p, p.defaultArgsUpdate, true)
  }

  /** Without `initialise`, or in update mode without `should_update`, nothing is generated (the first early return of build/build.rs:146-147). */
  lemma DisabledGeneratesNothing(p: Property, args: string, update: bool)
    requires !p.initialise || (update && !p.shouldUpdate)
    ensures Initialisation(p, args, update) == ""
  {
  }

  /** In update mode an explicit update is returned verbatim, before anything else (build/build.rs:148-149). */
  lemma ExplicitUpdateIsVerbatim(p: Property, args: string)
    requires p.initialise && p.shouldUpdate && p.update.Some?
    ensures Initialisation(p, args, true) == p.update.value
  {
  }

  /** An explicit initialisation is returned verbatim in both modes, unless an update overrides it (build/build.rs:150-151). */
  lemma ExplicitInitialisationIsVerbatim(p: Property, args: string, update: bool)
    requires p.initialise && p.initialisation.Some?
    requires update ==> p.shouldUpdate && p.update.None?
    ensures Initialisation(p, args, update) == p.initialisation.value
  {
  }

  /**
   * Only when no explicit code applies is a fetch call generated, and then
   * `method_name` wins over the function map, which wins over the
   * transmutable list, which wins over the Duration, DateTime and bool cases:
   * the order of the `if let` chain of build/build.rs:156-173.
   */
  lemma GeneratedCallPriority(p: Property, args: string, update: bool)
    requires p.initialise && (update ==> p.shouldUpdate && p.update.None?) && p.initialisation.None?
    ensures Initialisation(p, args, update) == GeneratedCall(p, args)
    ensures p.methodName.Some? ==>
              GeneratedCall(p, args) == Call(p.methodName.value, args, p.enumName, ValueName(p))
    ensures p.methodName.None? && p.typeS in p.functions ==>
              GeneratedCall(p, args) == Call(p.functions[p.typeS], args, p.enumName, ValueName(p))
    ensures p.methodName.None? && p.typeS !in p.functions && p.typeS in p.transmutable ==>
              GeneratedCall(p, args)
              == if "i32" in p.functions then Call(p.functions["i32"], args, p.enumName, ValueName(p)) + TransmuteSuffix
                 else if "u64" in p.functions then Call(p.functions["u64"], args, p.enumName, ValueName(p)) + TransmuteSuffix
                 else ""
  {
  }

  /** The special types, reached when neither `method_name`, the map nor the transmutable list applies (the `match` of build/build.rs:174-209). */
  lemma SpecialTypes(p: Property, args: string)
    requires p.methodName.None? && p.typeS !in p.functions && p.typeS !in p.transmutable
    ensures p.typeS == "Duration" ==>
              GeneratedCall(p, args) == Call(IntFunction(p.functions), args, p.enumName, ValueName(p)) + DurationSuffix
    ensures p.typeS == "DateTime<Utc>" ==>
              GeneratedCall(p, args) == Call(IntFunction(p.functions), args, p.enumName, ValueName(p)) + DateTimeSuffix
    ensures p.typeS == "bool" ==>
              GeneratedCall(p, args)
              == if "i32" in p.functions then Call(p.functions["i32"], args, p.enumName, ValueName(p)) + BoolSuffix
                 else if "u64" in p.functions then Call(p.functions["u64"], args, p.enumName, ValueName(p)) + BoolSuffix
                 else ""
    ensures p.typeS !in {"Duration", "DateTime<Utc>", "bool"} ==> GeneratedCall(p, args) == ""
  {
  }

  /** Durations and timestamps fall back to `get_property_as_int` when no int function is mapped (build/build.rs:177-183). */
  lemma IntFunctionFallback(functions: map<string, string>)
    ensures "u64" !in functions && "i32" !in functions ==> IntFunction(functions) == "get_property_as_int"
    ensures "u64" in functions ==> IntFunction(functions) == functions["u64"]
    ensures "u64" !in functions && "i32" in functions ==> IntFunction(functions) == functions["i32"]
  {
  }

  /** A defaulted value name is the Pascal-cased property name: it holds no underscore. */
  lemma DefaultValueNameHasNoUnderscore(p: Property)
    requires p.valueName.None?
    ensures ValueName(p) == PascalCase(p.name)
    ensures '_' !in ValueName(p)
  {
    PascalCaseMeaning(p.name);
  }

  /** A Result-wrapped property is constructed as `Err(::Error::Ok)`, whatever its other fields hold (build/build.rs:138-139). */
  lemma ResultPropertyStartsAsErrOk(p: Property)
    requires p.result
    ensures CreateInitialisation(p) == "Err(::Error::Ok)"
    ensures CreateConstructorBody(p) == "Err(::Error::Ok)"
  {
  }

  /** The constructor body is the initialisation, or the property's own name when there is none (build/build.rs:126-130). */
  lemma ConstructorBodyFallsBackToName(p: Property)
    ensures CreateInitialisation(p) == "" ==> CreateConstructorBody(p) == p.name
    ensures CreateInitialisation(p) != "" ==> CreateConstructorBody(p) == CreateInitialisation(p)
    ensures CreateConstructorBody(p) == "" ==> p.name == ""
  {
  }

  /** The update body ignores `result` and uses the update arguments (build/build.rs:133-135, unlike 137-143). */
  lemma UpdateBodyIgnoresResult(p: Property)
    ensures CreateUpdateBody(p) == CreateUpdateBody(p.(result := !p.result))
    ensures p.shouldUpdate && p.update.None? && p.initialisation.None? && p.initialise ==>
              CreateUpdateBody(p) == GeneratedCall(p, p.defaultArgsUpdate)
    ensures !p.shouldUpdate ==> CreateUpdateBody(p) == ""
  {
  }

  // ------------------------------------------------------- to_pascal_case

  /** `to_pascal_case`: one pass over the characters with an `uppercase` flag. */
  method ToPascalCase(text: string) returns (s: string)
    ensures s == PascalCase(text)
  {
    s := "";
    var uppercase := true;
    assert text[0..] == text;
    for i := 0 to |text|
      invariant s + PascalFrom(text[i..], uppercase) == PascalCase(text)
    {
      var c := text[i];
      ghost var before, flag := s, uppercase;
      PascalFromStep(text, i, uppercase);
      if c == '_' {
        uppercase := true;
      } else {
        if uppercase {
          s := s + [Upper(c)];
          uppercase := false;
        } else {
          s := s + [c];
        }
        assert s + PascalFrom(text[i + 1..], uppercase) == before + ([if flag then Upper(c) else c] + PascalFrom(text[i + 1..], false));
      }
    }
    assert text[|text|..] == [];
  }


  // ---------------------------------------------------------------- indent

  /** The prefix `indent` puts in front of a line: `count` tabs, none for an empty line. */
  function TabPrefix(l: string, count: nat): string {
    if l == [] then [] else Repeat("\t", count)
  }

  /** Every line of `ls` behind its tab prefix. */
  function TabIndented(ls: seq<string>, count: nat): (r: seq<string>)
    ensures |r| == |ls|
  {
    seq(|ls|, i requires 0 <= i < |ls| => TabPrefix(ls[i], count) + ls[i])
  }

  /** The value of `indent(s, count)`. */
  function IndentTabs(s: string, count: nat): (r: string)
    ensures r == "" <==> s == ""
    ensures r != "" ==> r[|r| - 1] == '\n'
  {
    TerminatedShape(TabIndented(Lines(s), count));
    Terminated(TabIndented(Lines(s), count))
  }

  /** `indent`: one pass over `s.lines()`, pushing the tabs, the line and a newline. */
  method Indent(s: string, count: nat) returns (result: string)
    ensures result == IndentTabs(s, count)
  {
    var lines := Lines(s);
    result := "";
    assert Terminated(TabIndented(lines[..0], count)) == "";
    for i := 0 to |lines|
      invariant result == Terminated(TabIndented(lines[..i], count))
    {
      result := PushTabbedLine(result, lines[i], count);
      TabIndentedSnoc(lines, i, count);
    }
    assert lines[..|lines|] == lines;
  }

  /** One more line of `indent`'s output. */
  lemma TabIndentedSnoc(ls: seq<string>, i: nat, count: nat)
    requires i < |ls|
    ensures Terminated(TabIndented(ls[..i + 1], count))
            == Terminated(TabIndented(ls[..i], count)) + (TabPrefix(ls[i], count) + ls[i] + "\n")
  {
    assert TabIndented(ls[..i + 1], count) == TabIndented(ls[..i], count) + [TabPrefix(ls[i], count) + ls[i]];
    TerminatedAppend(TabIndented(ls[..i], count), [TabPrefix(ls[i], count) + ls[i]]);
    TerminatedSingle(TabPrefix(ls[i], count) + ls[i]);
  }

  /** The body of `indent`'s loop for one line. */
  method PushTabbedLine(result: string, l: string, count: nat) returns (t: string)
    ensures t == result + (TabPrefix(l, count) + l + "\n")
  {
    t := result;
    if l != [] {
      t := t + Repeat("\t", count);
    }
    t := t + l;
    t := t + "\n";
  }

  /**
   * `indent` yields one '\n'-terminated line per input line: a non-empty
   * line behind exactly `count` tabs, an empty line with no prefix.
   */
  lemma {:induction false} IndentTabsLines(s: string, count: nat)
    ensures Lines(IndentTabs(s, count)) == StripEach(TabIndented(Lines(s), count))
    ensures |Lines(IndentTabs(s, count))| == |Lines(s)|
    ensures forall i :: 0 <= i < |Lines(s)| && Lines(s)[i] != [] ==>
              TabIndented(Lines(s), count)[i] == Repeat("\t", count) + Lines(s)[i]
    ensures forall i :: 0 <= i < |Lines(s)| && Lines(s)[i] == [] ==> TabIndented(Lines(s), count)[i] == []
  {
    var ls := TabIndented(Lines(s), count);
    forall i | 0 <= i < |ls| ensures '\n' !in ls[i] {
      assert '\n' !in Repeat("\t", count);
    }
    LinesOfTerminated(ls);
  }

  // ---------------------------------------------------------- documentation

  lemma DocCommentStart(documentation: string)
    ensures documentation != "" ==> StartsWith(Terminated(Prefixed("/// ", Lines(documentation))), "/// ")
  {
    var ls := Prefixed("/// ", Lines(documentation));
    if documentation != "" {
      assert ls == [ls[0]] + ls[1..];
      TerminatedCons(ls[0], ls[1..]);
      assert ls[0] == "/// " + Lines(documentation)[0];
    }
  }

  /** The documentation as serialised: `"/// " + line + "\n"` for every line. */
  function DocComment(documentation: string): (r: string)
    ensures r == "" <==> documentation == ""
    ensures r != "" ==> StartsWith(r, "/// ") && r[|r| - 1] == '\n'
  {
    DocCommentStart(documentation);
    TerminatedShape(Prefixed("/// ", Lines(documentation)));
    Terminated(Prefixed("/// ", Lines(documentation)))
  }

  /**
   * The serialised documentation reads back, line by line, as the
   * documentation's lines behind `/// `; it is empty exactly when the
   * documentation is.
   */
  lemma {:induction false} DocCommentLines(documentation: string)
    ensures Lines(DocComment(documentation)) == Prefixed("/// ", StripEach(Lines(documentation)))
    ensures DocComment(documentation) == "" <==> documentation == ""
  {
    var ls := Prefixed("/// ", Lines(documentation));
    LinesOfTerminated(ls);
    forall i | 0 <= i < |ls|
      ensures StripEach(ls)[i] == Prefixed("/// ", StripEach(Lines(documentation)))[i]
    {
      var l := Lines(documentation)[i];
      if |l| > 0 && l[|l| - 1] == '\r' {
        assert ("/// " + l)[..|"/// " + l| - 1] == "/// " + l[..|l| - 1];
      }
    }
    if documentation != "" {
      assert NewlineTerminated(ls)[0] == ls[0] + "\n";
      assert DocComment(documentation) == NewlineTerminated(ls)[0] + Concat(NewlineTerminated(ls)[1..]);
    }
  }

  // -------------------------------------------------------------- builders

  /** The clone-and-set builder of a `Property`. */
  datatype PropertyBuilder = PropertyBuilder(
    name: string, typeS: string, result: bool, documentation: string, initialise: bool,
    initialisation: Option<string>, update: Option<string>, shouldUpdate: bool,
    methodName: Option<string>, enumName: string, valueName: Option<string>,
    functions: map<string, string>, transmutable: seq<string>,
    defaultArgs: string, defaultArgsUpdate: string, apiGetter: bool, public: bool)
  {
    /** `PropertyBuilder::new`: initialised, Result-wrapped, updated, with a public api getter. */
    static function New(): (b: PropertyBuilder)
      ensures b.initialise && b.result && b.shouldUpdate && b.apiGetter && b.public
      ensures b.name == "" && b.typeS == "" && b.documentation == "" && b.enumName == ""
      ensures b.initialisation.None? && b.update.None? && b.methodName.None? && b.valueName.None?
      ensures b.functions == map[] && b.transmutable == []
      ensures b.defaultArgs == "" && b.defaultArgsUpdate == ""
    {
      PropertyBuilder("", "", true, "", true, None, None, true, None, "", None, map[], [], "", "", true, true)
    }

    function WithName(name: string): (r: PropertyBuilder)
      ensures r.name == name && r.(name := this.name) == this
    {
      this.(name := name)
    }

    function WithTypeS(typeS: string): (r: PropertyBuilder)
      ensures r.typeS == typeS && r.(typeS := this.typeS) == this
    {
      this.(typeS := typeS)
    }

    function WithResult(result: bool): (r: PropertyBuilder)
      ensures r.result == result && r.(result := this.result) == this
    {
      this.(result := result)
    }

    function WithDocumentation(documentation: string): (r: PropertyBuilder)
      ensures r.documentation == documentation && r.(documentation := this.documentation) == this
    {
      this.(documentation := documentation)
    }

    function WithInitialise(initialise: bool): (r: PropertyBuilder)
      ensures r.initialise == initialise && r.(initialise := this.initialise) == this
    {
      this.(initialise := initialise)
    }

    function WithInitialisation(initialisation: string): (r: PropertyBuilder)
      ensures r.initialisation == Some(initialisation) && r.(initialisation := this.initialisation) == this
    {
      this.(initialisation := Some(initialisation))
    }

    function WithUpdate(update: string): (r: PropertyBuilder)
      ensures r.update == Some(update) && r.(update := this.update) == this
    {
      this.(update := Some(update))
    }

    function WithShouldUpdate(shouldUpdate: bool): (r: PropertyBuilder)
      ensures r.shouldUpdate == shouldUpdate && r.(shouldUpdate := this.shouldUpdate) == this
    {
      this.(shouldUpdate := shouldUpdate)
    }

    function WithMethodName(methodName: string): (r: PropertyBuilder)
      ensures r.methodName == Some(methodName) && r.(methodName := this.methodName) == this
    {
      this.(methodName := Some(methodName))
    }

    function WithEnumName(enumName: string): (r: PropertyBuilder)
      ensures r.enumName == enumName && r.(enumName := this.enumName) == this
    {
      this.(enumName := enumName)
    }

    function WithValueName(valueName: string): (r: PropertyBuilder)
      ensures r.valueName == Some(valueName) && r.(valueName := this.valueName) == this
    {
      this.(valueName := Some(valueName))
    }

    function WithFunctions(functions: map<string, string>): (r: PropertyBuilder)
      ensures r.functions == functions && r.(functions := this.functions) == this
    {
      this.(functions := functions)
    }

    function WithTransmutable(transmutable: seq<string>): (r: PropertyBuilder)
      ensures r.transmutable == transmutable && r.(transmutable := this.transmutable) == this
    {
      this.(transmutable := transmutable)
    }

    function WithDefaultArgs(defaultArgs: string): (r: PropertyBuilder)
      ensures r.defaultArgs == defaultArgs && r.(defaultArgs := this.defaultArgs) == this
    {
      this.(defaultArgs := defaultArgs)
    }

    function WithDefaultArgsUpdate(defaultArgsUpdate: string): (r: PropertyBuilder)
      ensures r.defaultArgsUpdate == defaultArgsUpdate && r.(defaultArgsUpdate := this.defaultArgsUpdate) == this
    {
      this.(defaultArgsUpdate := defaultArgsUpdate)
    }

    function WithApiGetter(apiGetter: bool): (r: PropertyBuilder)
      ensures r.apiGetter == apiGetter && r.(apiGetter := this.apiGetter) == this
    {
      this.(apiGetter := apiGetter)
    }

    function WithPublic(public: bool): (r: PropertyBuilder)
      ensures r.public == public && r.(public := this.public) == this
    {
      this.(public := public)
    }

    /** `finalize`: the property with every field of the builder. */
    function Finalize(): (p: Property)
      ensures p.name == name && p.typeS == typeS && p.result == result
      ensures p.documentation == documentation && p.initialise == initialise
      ensures p.initialisation == initialisation && p.update == update && p.shouldUpdate == shouldUpdate
      ensures p.methodName == methodName && p.enumName == enumName && p.valueName == valueName
      ensures p.functions == functions && p.transmutable == transmutable
      ensures p.defaultArgs == defaultArgs && p.defaultArgsUpdate == defaultArgsUpdate
      ensures p.apiGetter == apiGetter && p.public == public
    {
      Property(name, typeS, result, documentation, initialise, initialisation, update, shouldUpdate,
               methodName, enumName, valueName, functions, transmutable, defaultArgs, defaultArgsUpdate,
               apiGetter, public)
    }
  }

  /** Two builders that finalize to the same property are the same builder. */
  lemma FinalizeIsInjective(a: PropertyBuilder, b: PropertyBuilder)
    ensures a.Finalize() == b.Finalize() ==> a == b
  {
  }

  /**
   * What the defaults decide: a property built from `PropertyBuilder::new`
   * with only a name and a type is Result-wrapped (return type
   * `Result<_, ::Error>`, constructor `Err(::Error::Ok)`) and gets its
   * update body generated.
   */
  lemma DefaultPropertyIsResultWrapped(name: string, typeS: string)
    ensures var p := PropertyBuilder.New().WithName(name).WithTypeS(typeS).Finalize();
            && ReturnType(p) == "Result<" + ReturnInner(p) + ", ::Error>"
            && CreateConstructorBody(p) == "Err(::Error::Ok)"
            && CreateUpdateBody(p) == GeneratedCall(p, "")
  {
  }

  /** The generated struct (its rendering through a template is not modelled). */
  datatype Struct = Struct(
    name: string, apiName: string, documentation: string, properties: seq<Property>,
    extraAttributes: string, extraInitialisation: string, extraCreation: string,
    constructorArgs: string, public: bool,
    doStruct: bool, doImpl: bool, doApiImpl: bool, doUpdate: bool, doConstructor: bool)

  /** The clone-and-set builder of a `Struct`. */
  datatype StructBuilder = StructBuilder(
    name: string, apiName: string, documentation: string, properties: seq<Property>,
    extraAttributes: string, extraInitialisation: string, extraCreation: string,
    constructorArgs: string, public: bool,
    doStruct: bool, doImpl: bool, doApiImpl: bool, doUpdate: bool, doConstructor: bool)
  {
    /** `StructBuilder::new`: public, with struct, impl, constructor and update, without api impl. */
    static function New(): (b: StructBuilder)
      ensures b.public && b.doStruct && b.doImpl && b.doConstructor && b.doUpdate && !b.doApiImpl
      ensures b.name == "" && b.apiName == "" && b.documentation == "" && b.properties == []
      ensures b.extraAttributes == "" && b.extraInitialisation == "" && b.extraCreation == ""
      ensures b.constructorArgs == ""
    {
      StructBuilder("", "", "", [], "", "", "", "", true, true, true, false, true, true)
    }

    function WithName(name: string): (r: StructBuilder)
      ensures r.name == name && r.(name := this.name) == this
    {
      this.(name := name)
    }

    function WithApiName(apiName: string): (r: StructBuilder)
      ensures r.apiName == apiName && r.(apiName := this.apiName) == this
    {
      this.(apiName := apiName)
    }

    function WithDocumentation(documentation: string): (r: StructBuilder)
      ensures r.documentation == documentation && r.(documentation := this.documentation) == this
    {
      this.(documentation := documentation)
    }

    function WithProperties(properties: seq<Property>): (r: StructBuilder)
      ensures r.properties == properties && r.(properties := this.properties) == this
    {
      this.(properties := properties)
    }

    function WithExtraAttributes(extraAttributes: string): (r: StructBuilder)
      ensures r.extraAttributes == extraAttributes && r.(extraAttributes := this.extraAttributes) == this
    {
      this.(extraAttributes := extraAttributes)
    }

    function WithExtraInitialisation(extraInitialisation: string): (r: StructBuilder)
      ensures r.extraInitialisation == extraInitialisation
      ensures r.(extraInitialisation := this.extraInitialisation) == this
    {
      this.(extraInitialisation := extraInitialisation)
    }

    function WithExtraCreation(extraCreation: string): (r: StructBuilder)
      ensures r.extraCreation == extraCreation && r.(extraCreation := this.extraCreation) == this
    {
      this.(extraCreation := extraCreation)
    }

    function WithConstructorArgs(constructorArgs: string): (r: StructBuilder)
      ensures r.constructorArgs == constructorArgs && r.(constructorArgs := this.constructorArgs) == this
    {
      this.(constructorArgs := constructorArgs)
    }

    function WithPublic(public: bool): (r: StructBuilder)
      ensures r.public == public && r.(public := this.public) == this
    {
      this.(public := public)
    }

    function WithDoStruct(doStruct: bool): (r: StructBuilder)
      ensures r.doStruct == doStruct && r.(doStruct := this.doStruct) == this
    {
      this.(doStruct := doStruct)
    }

    function WithDoImpl(doImpl: bool): (r: StructBuilder)
      ensures r.doImpl == doImpl && r.(doImpl := this.doImpl) == this
    {
      this.(doImpl := doImpl)
    }

    function WithDoApiImpl(doApiImpl: bool): (r: StructBuilder)
      ensures r.doApiImpl == doApiImpl && r.(doApiImpl := this.doApiImpl) == this
    {
      this.(doApiImpl := doApiImpl)
    }

    function WithDoUpdate(doUpdate: bool): (r: StructBuilder)
      ensures r.doUpdate == doUpdate && r.(doUpdate := this.doUpdate) == this
    {
      this.(doUpdate := doUpdate)
    }

    function WithDoConstructor(doConstructor: bool): (r: StructBuilder)
      ensures r.doConstructor == doConstructor && r.(doConstructor := this.doConstructor) == this
    {
      this.(doConstructor := doConstructor)
    }

    /** `finalize`: the struct with every field of the builder. */
    function Finalize(): (s: Struct)
      ensures s.name == name && s.apiName == apiName && s.documentation == documentation
      ensures s.properties == properties && s.extraAttributes == extraAttributes
      ensures s.extraInitialisation == extraInitialisation && s.extraCreation == extraCreation
      ensures s.constructorArgs == constructorArgs && s.public == public
      ensures s.doStruct == doStruct && s.doImpl == doImpl && s.doApiImpl == doApiImpl
      ensures s.doUpdate == doUpdate && s.doConstructor == doConstructor
    {
      Struct(name, apiName, documentation, properties, extraAttributes, extraInitialisation,
             extraCreation, constructorArgs, public, doStruct, doImpl, doApiImpl, doUpdate, doConstructor)
    }
  }
}
