/**
 * The older build script, src/build.rs: string generators that write the
 * server and connection structs from `(name, type)` tables, an unused
 * `Struct` model with its in-place builders, `to_pascal_case`, and an
 * `indent` that uses four spaces per level.
 */
module LegacyBuild {
  import opened Text

  /** One row of a generator table: a field name and its Rust type. */
  type Field = (string, string)

  // ------------------------------------------------------------ properties

  datatype Property = Property(name: string, typeS: string, documentation: string)
  {
    /** `Property::new()`: the derived default, every field empty. */
    static function New(): (p: Property)
      ensures p.name == "" && p.typeS == "" && p.documentation == ""
    {
      Property("", "", "")
    }
  }

  /** `PropertyBuilder`: every setter overwrites one field in place and hands back the same builder. */
  class PropertyBuilder {
    var name: string
    var typeS: string
    var documentation: string

    /** `PropertyBuilder::new()`: the derived default. */
    constructor ()
      ensures name == "" && typeS == "" && documentation == ""
    {
      name := "";
      typeS := "";
      documentation := "";
    }

    method SetName(name: string) returns (builder: PropertyBuilder)
      modifies this
      ensures this.name == name
      ensures typeS == old(typeS) && documentation == old(documentation)
      ensures builder == this
    {
      this.name := name;
      builder := this;
    }

    method SetTypeS(typeS: string) returns (builder: PropertyBuilder)
      modifies this
      ensures this.typeS == typeS
      ensures name == old(name) && documentation == old(documentation)
      ensures builder == this
    {
      this.typeS := typeS;
      builder := this;
    }

    method SetDocumentation(documentation: string) returns (builder: PropertyBuilder)
      modifies this
      ensures this.documentation == documentation
      ensures name == old(name) && typeS == old(typeS)
      ensures builder == this
    {
      this.documentation := documentation;
      builder := this;
    }

    /** `finalize`: the property holding exactly the builder's current fields. */
    function Finalize(): (p: Property)
      reads this
      ensures p.name == name && p.typeS == typeS && p.documentation == documentation
    {
      Property(name, typeS, documentation)
    }
  }

  /**
   * A fresh builder driven through all three setters and finalised: every
   * field of the result is the value last given to its setter.
   */
  method BuildProperty(name: string, typeS: string, documentation: string) returns (p: Property)
    ensures p == Property(name, typeS, documentation)
  {
    var builder := new PropertyBuilder();
    var b := builder.SetName(name);
    b := b.SetDocumentation(documentation);
    b := b.SetTypeS(typeS);
    p := b.Finalize();
  }

  // --------------------------------------------------------------- structs

  datatype Struct = Struct(
    name: string,
    documentation: string,
    properties: seq<Property>,
    extraAttributes: string,
    extraInitialisation: string,
    extraCreation: string)
  {
    /**
     * `Struct::create_struct`: every property's documentation (if any) on a
     * line of its own, then `name: type,`, the whole indented one level.
     */
    method CreateStruct() returns (r: string)
      ensures r == IndentSpaces(Concat(MemberBlocks(properties)), 1)
    {
      ghost var pieces := MemberBlocks(properties);
      var s := "";
      for i := 0 to |properties|
        invariant s == Concat(pieces[..i])
      {
        s := WriteMember(s, properties[i]);
        ConcatPrefixStep(pieces, i);
      }
      assert pieces[..|properties|] == pieces;
      r := Indent(s, 1);
    }

    /**
     * `Struct::create_impl`: for every property a getter header and its
     * body line, indented one level; as written it emits no closing brace.
     */
    method CreateImpl() returns (r: string)
      ensures r == IndentSpaces(Concat(GetterBlocks(properties)), 1)
    {
      ghost var pieces := GetterBlocks(properties);
      var s := "";
      for i := 0 to |properties|
        invariant s == Concat(pieces[..i])
      {
        s := WriteGetter(s, properties[i]);
        ConcatPrefixStep(pieces, i);
      }
      assert pieces[..|properties|] == pieces;
      r := Indent(s, 1);
    }

    /** `Struct::constructor_variables`: still a stub that yields nothing. */
    method ConstructorVariables() returns (r: string)
      ensures r == ""
    {
      r := "";
    }
  }

  /** `&` for the types a getter returns by reference, nothing otherwise. */
  function Amp(typeS: string): (a: string)
    ensures a == "&" <==> typeS == "String" || typeS == "Permissions"
    ensures a == "" <==> typeS != "String" && typeS != "Permissions"
  {
    if typeS in ["String", "Permissions"] then "&" else ""
  }

  /** One pass of `Struct::create_struct`'s loop: the documentation and member of `prop` pushed onto `s`. */
  method WriteMember(s: string, prop: Property) returns (t: string)
    ensures t == s + MemberBlock(prop)
  {
    t := s;
    if prop.documentation != "" {
      t := t + prop.documentation;
      t := t + "\n";
    }
    t := t + prop.name + ": " + prop.typeS + ",\n";
  }

  /** One pass of `Struct::create_impl`'s loop: the getter of `prop` pushed onto `s`. */
  method WriteGetter(s: string, prop: Property) returns (t: string)
    ensures t == s + GetterBlock(prop)
  {
    var isRefType := prop.typeS in ["String", "Permissions"];
    t := s;
    t := t + "pub fn get_" + prop.name + "(&self) -> ";
    if isRefType {
      t := t + "&";
    }
    ghost var head := t;
    t := t + prop.typeS + " {\n\t";
    if isRefType {
      t := t + "&";
    }
    t := t + "self." + prop.name + "\n";
    GetterBlockSplit(s, head, t, prop);
  }

  lemma GetterBlockSplit(s: string, head: string, t: string, p: Property)
    requires head == s + ("pub fn get_" + p.name + "(&self) -> " + Amp(p.typeS))
    requires t == head + p.typeS + " {\n\t" + Amp(p.typeS) + "self." + p.name + "\n"
    ensures t == s + GetterBlock(p)
  {
  }

  /** What `Struct::create_struct` writes for one property, before indenting. */
  function MemberBlock(p: Property): string {
    (if p.documentation == "" then "" else p.documentation + "\n") + p.name + ": " + p.typeS + ",\n"
  }

  function MemberBlocks(ps: seq<Property>): (r: seq<string>)
    ensures |r| == |ps|
  {
    seq(|ps|, i requires 0 <= i < |ps| => MemberBlock(ps[i]))
  }

  /** The lines of one property in the struct body: its documentation, if any, then `name: type,`. */
  function MemberLinesOf(p: Property): seq<string> {
    (if p.documentation == "" then [] else [p.documentation]) + [p.name + ": " + p.typeS + ","]
  }

  function MemberLines(ps: seq<Property>): seq<string> {
    if ps == [] then [] else MemberLinesOf(ps[0]) + MemberLines(ps[1..])
  }

  /** What `Struct::create_impl` writes for one property, before indenting. */
  function GetterBlock(p: Property): string {
    "pub fn get_" + p.name + "(&self) -> " + Amp(p.typeS) + p.typeS + " {\n\t"
    + Amp(p.typeS) + "self." + p.name + "\n"
  }

  function GetterBlocks(ps: seq<Property>): (r: seq<string>)
    ensures |r| == |ps|
  {
    seq(|ps|, i requires 0 <= i < |ps| => GetterBlock(ps[i]))
  }

  /** The two lines `Struct::create_impl` gives a property. */
  function GetterLinesOf(p: Property): seq<string> {
    ["pub fn get_" + p.name + "(&self) -> " + Amp(p.typeS) + p.typeS + " {",
     "\t" + Amp(p.typeS) + "self." + p.name]
  }

  function GetterLines(ps: seq<Property>): seq<string> {
    if ps == [] then [] else GetterLinesOf(ps[0]) + GetterLines(ps[1..])
  }

  /** A property whose name, type and documentation each fit on one line. */
  predicate SingleLine(p: Property) {
    '\n' !in p.name && '\n' !in p.typeS && PlainLine(p.documentation)
  }

  /** A property whose name and type each fit on one line; the getters never look at the documentation. */
  predicate GetterFits(p: Property) {
    '\n' !in p.typeS && PlainLine(p.name)
  }

  lemma MemberBlockTerminated(p: Property)
    ensures MemberBlock(p) == Terminated(MemberLinesOf(p))
  {
    var field := p.name + ": " + p.typeS + ",";
    var docs := if p.documentation == "" then "" else p.documentation + "\n";
    TerminatedSingle(field);
    calc {
      MemberBlock(p);
      docs + p.name + ": " + p.typeS + ",\n";
      docs + (field + "\n");
    }
    if p.documentation != "" {
      TerminatedPair(p.documentation, field);
      assert MemberLinesOf(p) == [p.documentation, field];
    } else {
      assert MemberLinesOf(p) == [field];
    }
  }

  lemma {:induction false} MemberBlocksTerminated(ps: seq<Property>)
    ensures Concat(MemberBlocks(ps)) == Terminated(MemberLines(ps))
  {
    if ps == [] {
      assert Terminated([]) == [];
    } else {
      assert MemberBlocks(ps)[1..] == MemberBlocks(ps[1..]);
      MemberBlockTerminated(ps[0]);
      MemberBlocksTerminated(ps[1..]);
      TerminatedAppend(MemberLinesOf(ps[0]), MemberLines(ps[1..]));
    }
  }

  lemma {:induction false} MemberLinesPlain(ps: seq<Property>)
    requires forall i :: 0 <= i < |ps| ==> SingleLine(ps[i])
    ensures forall i :: 0 <= i < |MemberLines(ps)| ==> PlainLine(MemberLines(ps)[i])
  {
    if ps != [] {
      MemberLinesPlain(ps[1..]);
      var p := ps[0];
      var field := p.name + ": " + p.typeS + ",";
      assert field[|field| - 1] == ',';
      assert PlainLine(field);
    }
  }

  /**
   * `Struct::create_struct` writes, for properties whose parts fit on one
   * line, every documentation and every `name: type,` on a line of its own,
   * in order, each behind four spaces and ended by '\n'.
   */
  lemma CreateStructLines(st: Struct)
    requires forall i :: 0 <= i < |st.properties| ==> SingleLine(st.properties[i])
    ensures IndentSpaces(Concat(MemberBlocks(st.properties)), 1)
            == Terminated(Prefixed("    ", MemberLines(st.properties)))
  {
    var ls := MemberLines(st.properties);
    MemberBlocksTerminated(st.properties);
    MemberLinesPlain(st.properties);
    LinesOfPlainTerminated(ls);
    assert Repeat("    ", 1) == "    ";
  }

  lemma GetterBlockTerminated(p: Property)
    ensures GetterBlock(p) == Terminated(GetterLinesOf(p))
  {
    var head := "pub fn get_" + p.name + "(&self) -> " + Amp(p.typeS) + p.typeS;
    GetterBlockJoin(head, Amp(p.typeS), p.name);
    TerminatedPair(head + " {", "\t" + Amp(p.typeS) + "self." + p.name);
  }

  lemma GetterBlockJoin(head: string, amp: string, name: string)
    ensures head + " {\n\t" + amp + "self." + name + "\n"
            == head + " {" + "\n" + ("\t" + amp + "self." + name + "\n")
  {
    assert " {\n\t" == " {" + "\n" + "\t";
  }

  lemma {:induction false} GetterBlocksTerminated(ps: seq<Property>)
    ensures Concat(GetterBlocks(ps)) == Terminated(GetterLines(ps))
  {
    if ps == [] {
      assert Terminated([]) == [];
    } else {
      assert GetterBlocks(ps)[1..] == GetterBlocks(ps[1..]);
      GetterBlockTerminated(ps[0]);
      GetterBlocksTerminated(ps[1..]);
      TerminatedAppend(GetterLinesOf(ps[0]), GetterLines(ps[1..]));
    }
  }

  lemma {:induction false} GetterLinesPlain(ps: seq<Property>)
    requires forall i :: 0 <= i < |ps| ==> GetterFits(ps[i])
    ensures |GetterLines(ps)| == 2 * |ps|
    ensures forall i :: 0 <= i < |GetterLines(ps)| ==> PlainLine(GetterLines(ps)[i])
  {
    if ps != [] {
      GetterLinesPlain(ps[1..]);
      GetterLinesOfPlain(ps[0]);
      PlainLinesAppend(GetterLinesOf(ps[0]), GetterLines(ps[1..]));
    }
  }

  lemma GetterLinesOfPlain(p: Property)
    requires GetterFits(p)
    ensures forall i :: 0 <= i < |GetterLinesOf(p)| ==> PlainLine(GetterLinesOf(p)[i])
  {
    assert '\n' !in Amp(p.typeS);
    var ls := GetterLinesOf(p);
    assert ls[0][|ls[0]| - 1] == '{';
    assert ls[1][|ls[1]| - 1] == if p.name == [] then '.' else p.name[|p.name| - 1];
    assert PlainLine(ls[0]) && PlainLine(ls[1]);
  }

  /**
   * `Struct::create_impl` gives every property two lines, four spaces in:
   * the getter header, returning `&T` exactly for String and Permissions,
   * and the body line that borrows the field in the same cases.
   */
  lemma CreateImplLines(st: Struct)
    requires forall i :: 0 <= i < |st.properties| ==> GetterFits(st.properties[i])
    ensures IndentSpaces(Concat(GetterBlocks(st.properties)), 1)
            == Terminated(Prefixed("    ", GetterLines(st.properties)))
    ensures |GetterLines(st.properties)| == 2 * |st.properties|
  {
    var ls := GetterLines(st.properties);
    GetterBlocksTerminated(st.properties);
    GetterLinesPlain(st.properties);
    LinesOfPlainTerminated(ls);
    assert Repeat("    ", 1) == "    ";
  }

  /** `StructBuilder`: the in-place builder of a `Struct`. */
  class StructBuilder {
    var name: string
    var documentation: string
    var properties: seq<Property>
    var extraAttributes: string
    var extraInitialisation: string
    var extraCreation: string

    /** `StructBuilder::new()`: the derived default, empty strings and no properties. */
    constructor ()
      ensures name == "" && documentation == "" && properties == []
      ensures extraAttributes == "" && extraInitialisation == "" && extraCreation == ""
    {
      name := "";
      documentation := "";
      properties := [];
      extraAttributes := "";
      extraInitialisation := "";
      extraCreation := "";
    }

    function Contents(): Struct
      reads this
    {
      Struct(name, documentation, properties, extraAttributes, extraInitialisation, extraCreation)
    }

    method SetName(name: string) returns (builder: StructBuilder)
      modifies this
      ensures Contents() == old(Contents()).(name := name)
      ensures builder == this
    {
      this.name := name;
      builder := this;
    }

    method SetDocumentation(documentation: string) returns (builder: StructBuilder)
      modifies this
      ensures Contents() == old(Contents()).(documentation := documentation)
      ensures builder == this
    {
      this.documentation := documentation;
      builder := this;
    }

    method SetProperties(properties: seq<Property>) returns (builder: StructBuilder)
      modifies this
      ensures Contents() == old(Contents()).(properties := properties)
      ensures builder == this
    {
      this.properties := properties;
      builder := this;
    }

    method SetExtraAttributes(extraAttributes: string) returns (builder: StructBuilder)
      modifies this
      ensures Contents() == old(Contents()).(extraAttributes := extraAttributes)
      ensures builder == this
    {
      this.extraAttributes := extraAttributes;
      builder := this;
    }

    method SetExtraInitialisation(extraInitialisation: string) returns (builder: StructBuilder)
      modifies this
      ensures Contents() == old(Contents()).(extraInitialisation := extraInitialisation)
      ensures builder == this
    {
      this.extraInitialisation := extraInitialisation;
      builder := this;
    }

    method SetExtraCreation(extraCreation: string) returns (builder: StructBuilder)
      modifies this
      ensures Contents() == old(Contents()).(extraCreation := extraCreation)
      ensures builder == this
    {
      this.extraCreation := extraCreation;
      builder := this;
    }

    /** `finalize`: the struct holding exactly the builder's current fields. */
    function Finalize(): (s: Struct)
      reads this
      ensures s.name == name && s.documentation == documentation && s.properties == properties
      ensures s.extraAttributes == extraAttributes && s.extraInitialisation == extraInitialisation
      ensures s.extraCreation == extraCreation
    {
      Contents()
    }
  }

  /**
   * A fresh builder given a name and properties and finalised: those two
   * fields are set and every other field keeps its empty default.
   */
  method BuildStruct(name: string, properties: seq<Property>) returns (s: Struct)
    ensures s == Struct(name, "", properties, "", "", "")
  {
    var builder := new StructBuilder();
    var b := builder.SetName(name);
    b := b.SetProperties(properties);
    s := b.Finalize();
  }

  // ----------------------------------------------------- table generators

  /** A table whose names and types contain no line break. */
  predicate OneLineFields(data: seq<Field>) {
    forall i :: 0 <= i < |data| ==> '\n' !in data[i].0 && '\n' !in data[i].1
  }

  /** One field of a generated struct, as the free `create_struct` writes it. */
  function FieldDecl(field: Field): string {
    "\n\t" + field.0 + ": " + field.1 + ","
  }

  function FieldDecls(data: seq<Field>): (r: seq<string>)
    ensures |r| == |data|
  {
    seq(|data|, i requires 0 <= i < |data| => FieldDecl(data[i]))
  }

  /** `create_struct(data)`: one `"\n\t" + name + ": " + type + ","` per row, in order. */
  method CreateStruct(data: seq<Field>) returns (s: string)
    ensures s == Concat(FieldDecls(data))
  {
    ghost var pieces := FieldDecls(data);
    s := "";
    for i := 0 to |data|
      invariant s == Concat(pieces[..i])
    {
      var (name, varType) := data[i];
      s := s + "\n\t" + name + ": " + varType + ",";
      ConcatPrefixStep(pieces, i);
    }
    assert pieces[..|data|] == pieces;
  }

  /** The line of a generated struct that declares `field`. */
  function FieldLine(field: Field): string {
    "\t" + field.0 + ": " + field.1 + ","
  }

  function FieldLines(data: seq<Field>): (r: seq<string>)
    ensures |r| == |data|
  {
    seq(|data|, i requires 0 <= i < |data| => FieldLine(data[i]))
  }

  lemma FieldDeclIsLine(field: Field)
    ensures FieldDecl(field) == "\n" + FieldLine(field)
  {
    assert "\n\t" == "\n" + "\t";
    calc {
      FieldDecl(field);
      "\n\t" + (field.0 + (": " + (field.1 + ",")));
      "\n" + ("\t" + (field.0 + (": " + (field.1 + ","))));
    }
  }

  /**
   * Written between `{` and `\n}`, the free `create_struct` puts every
   * field on a line of its own, one tab in, in table order.
   */
  lemma CreateStructFieldLines(data: seq<Field>)
    requires OneLineFields(data)
    ensures Lines(Concat(FieldDecls(data)) + "\n") == [""] + FieldLines(data)
  {
    var ls := FieldLines(data);
    forall i | 0 <= i < |data|
      ensures FieldDecls(data)[i] == Prefixed("\n", ls)[i]
      ensures PlainLine(ls[i])
    {
      FieldDeclIsLine(data[i]);
      assert ls[i][|ls[i]| - 1] == ',';
    }
    assert FieldDecls(data) == Prefixed("\n", ls);
    LinesOfNewlineLed(ls);
  }

  /** Generating two tables one after the other is generating their concatenation. */
  lemma CreateStructAppend(a: seq<Field>, b: seq<Field>)
    ensures Concat(FieldDecls(a + b)) == Concat(FieldDecls(a)) + Concat(FieldDecls(b))
  {
    assert FieldDecls(a + b) == FieldDecls(a) + FieldDecls(b);
    ConcatAppend(FieldDecls(a), FieldDecls(b));
  }

  /** The getter the free `create_impl` writes for `field`. */
  function GetterHeader(field: Field): string {
    "\n\tpub fn get_" + field.0 + "(&self) -> " + Amp(field.1) + field.1
  }

  function GetterBody(field: Field): string {
    " {\n\t\t" + Amp(field.1) + "self." + field.0 + "\n\t}"
  }

  lemma GetterDeclSplit(field: Field)
    ensures GetterDecl(field) == GetterHeader(field) + GetterBody(field)
  {
  }

  function GetterDecl(field: Field): string {
    "\n\tpub fn get_" + field.0 + "(&self) -> " + Amp(field.1) + field.1 + " {\n\t\t"
    + Amp(field.1) + "self." + field.0 + "\n\t}"
  }

  function GetterDecls(data: seq<Field>): (r: seq<string>)
    ensures |r| == |data|
  {
    seq(|data|, i requires 0 <= i < |data| => GetterDecl(data[i]))
  }

  /** One pass of `create_impl`'s loop: the getter of `(name, varType)` pushed onto `s`. */
  method WriteGetterDecl(s: string, name: string, varType: string) returns (t: string)
    ensures t == s + GetterDecl((name, varType))
  {
    var isRefType := varType in ["String", "Permissions"];
    t := WriteGetterHeader(s, name, varType, isRefType);
    t := WriteGetterBody(t, name, isRefType);
    AppendAssoc(s, GetterHeader((name, varType)), GetterBody((name, varType)));
    GetterDeclSplit((name, varType));
  }

  /** The first half of the pass: the signature up to the return type. */
  method WriteGetterHeader(s: string, name: string, varType: string, isRefType: bool) returns (t: string)
    requires isRefType <==> varType in ["String", "Permissions"]
    ensures t == s + GetterHeader((name, varType))
  {
    t := s;
    t := t + "\n\tpub fn get_";
    t := t + name;
    t := t + "(&self) -> ";
    if isRefType {
      t := t + "&";
    }
    t := t + varType;
  }

  /** The second half of the pass: the body returning the field, and the closing brace. */
  method WriteGetterBody(s: string, name: string, isRefType: bool) returns (t: string)
    ensures t == s + " {\n\t\t" + (if isRefType then "&" else "") + "self." + name + "\n\t}"
  {
    t := s;
    t := t + " {\n\t\t";
    if isRefType {
      t := t + "&";
    }
    t := t + "self.";
    t := t + name;
    t := t + "\n\t}";
  }

  /** `create_impl(data)`: one getter per row, in order. */
  method CreateImpl(data: seq<Field>) returns (s: string)
    ensures s == Concat(GetterDecls(data))
  {
    ghost var pieces := GetterDecls(data);
    s := "";
    for i := 0 to |data|
      invariant s == Concat(pieces[..i])
    {
      var (name, varType) := data[i];
      s := WriteGetterDecl(s, name, varType);
      ConcatPrefixStep(pieces, i);
    }
    assert pieces[..|data|] == pieces;
  }

  /** The three lines of the getter the free `create_impl` writes for `field`. */
  function GetterDeclLines(field: Field): seq<string> {
    ["\tpub fn get_" + field.0 + "(&self) -> " + Amp(field.1) + field.1 + " {",
     "\t\t" + Amp(field.1) + "self." + field.0,
     "\t}"]
  }

  /** Every row's three getter lines, in table order. */
  function AllGetterLines(data: seq<Field>): (r: seq<string>)
    ensures |r| == 3 * |data|
  {
    if data == [] then [] else GetterDeclLines(data[0]) + AllGetterLines(data[1..])
  }

  lemma GetterDeclIsLines(field: Field)
    ensures GetterDecl(field) == NewlineLed(GetterDeclLines(field))
  {
    GetterText(field.0, Amp(field.1), field.1);
  }

  lemma GetterText(name: string, amp: string, varType: string)
    ensures "\n\tpub fn get_" + name + "(&self) -> " + amp + varType + " {\n\t\t" + amp + "self." + name + "\n\t}"
            == NewlineLed(["\tpub fn get_" + name + "(&self) -> " + amp + varType + " {",
                           "\t\t" + amp + "self." + name, "\t}"])
  {
    var sig := "pub fn get_" + name + "(&self) -> " + amp + varType;
    var body := amp + "self." + name;
    GetterSignature(sig, name, amp, varType);
    NewlineLedTriple("\t" + sig + " {", "\t\t" + body, "\t}");
    assert "\t\t" + body == "\t\t" + amp + "self." + name;
    GetterDeclJoin("\t" + sig, body);
  }

  lemma GetterSignature(sig: string, name: string, amp: string, varType: string)
    requires sig == "pub fn get_" + name + "(&self) -> " + amp + varType
    ensures "\t" + sig + " {" == "\tpub fn get_" + name + "(&self) -> " + amp + varType + " {"
    ensures "\n\tpub fn get_" + name + "(&self) -> " + amp + varType == "\n" + ("\t" + sig)
  {
    var tail := name + ("(&self) -> " + (amp + varType));
    assert sig == "pub fn get_" + tail;
    TabbedSignature(tail);
  }

  lemma TabbedSignature(tail: string)
    ensures "\t" + ("pub fn get_" + tail) == "\tpub fn get_" + tail
    ensures "\n\tpub fn get_" + tail == "\n" + ("\t" + ("pub fn get_" + tail))
  {
    assert "\tpub fn get_" == "\t" + "pub fn get_";
    assert "\n\tpub fn get_" == "\n" + "\t" + "pub fn get_";
  }

  lemma GetterDeclJoin(head: string, body: string)
    ensures "\n" + head + " {\n\t\t" + body + "\n\t}" == "\n" + (head + " {") + ("\n" + ("\t\t" + body) + ("\n" + "\t}"))
  {
    assert " {\n\t\t" == " {" + "\n" + "\t\t";
    assert "\n\t}" == "\n" + "\t}";
  }

  lemma {:induction false} GetterDeclsNewlineLed(data: seq<Field>)
    ensures Concat(GetterDecls(data)) == NewlineLed(AllGetterLines(data))
  {
    if data == [] {
      assert NewlineLed([]) == [];
    } else {
      assert GetterDecls(data)[1..] == GetterDecls(data[1..]);
      GetterDeclsNewlineLed(data[1..]);
      GetterDeclIsLines(data[0]);
      NewlineLedAppend(GetterDeclLines(data[0]), AllGetterLines(data[1..]));
    }
  }

  lemma {:induction false} AllGetterLinesPlain(data: seq<Field>)
    requires OneLineFields(data)
    requires forall i :: 0 <= i < |data| ==> PlainLine(data[i].0)
    ensures forall j :: 0 <= j < |AllGetterLines(data)| ==> PlainLine(AllGetterLines(data)[j])
  {
    if data != [] {
      AllGetterLinesPlain(data[1..]);
      var f := data[0];
      var ls := GetterDeclLines(f);
      assert '\n' !in Amp(f.1);
      assert ls[0][|ls[0]| - 1] == '{';
      assert ls[1][|ls[1]| - 1] == if f.0 == [] then '.' else f.0[|f.0| - 1];
      assert PlainLine(ls[0]) && PlainLine(ls[1]) && PlainLine(ls[2]);
    }
  }

  /**
   * Written between `{` and `\n}`, the free `create_impl` gives every row
   * exactly its three getter lines, in table order: the header, which
   * returns `&T` exactly for String and Permissions, the body, which
   * borrows in the same cases, and the closing `\t}`.
   */
  lemma CreateImplGetterLines(data: seq<Field>)
    requires OneLineFields(data)
    requires forall i :: 0 <= i < |data| ==> PlainLine(data[i].0)
    ensures Lines(Concat(GetterDecls(data)) + "\n") == [""] + AllGetterLines(data)
  {
    GetterDeclsNewlineLed(data);
    AllGetterLinesPlain(data);
    LinesOfNewlineLed(AllGetterLines(data));
  }

  // ------------------------------------------------ constructor generators

  /**
   * The arguments of `constructor_variables` other than the table: the
   * struct whose fetch functions are called, the properties enum, the map
   * from a type to its fetch function and the leading arguments.
   */
  datatype Fetcher = Fetcher(structName: string, propertiesName: string,
                             functions: map<string, string>, args: string)

  /** A type `constructor_variables` can fetch: a mapped one, Duration or bool. */
  predicate KnownType(functions: map<string, string>, varType: string) {
    varType in functions || varType == "Duration" || varType == "bool"
  }

  /** `struct_name::callee(args + properties_name::PascalName)`: one property fetch. */
  function FetchCall(f: Fetcher, callee: string, name: string): string {
    f.structName + "::" + callee + "(" + f.args + f.propertiesName + "::" + PascalCase(name) + ")"
  }

  /**
   * The expression `constructor_variables` binds to `field`: the mapped
   * function's result, a Duration of seconds, a bool compared against 0,
   * or nothing for a type it does not know.
   */
  function VariableValue(f: Fetcher, field: Field): (v: string)
    ensures v == "" <==> !KnownType(f.functions, field.1)
  {
    if field.1 in f.functions then "try!(" + FetchCall(f, f.functions[field.1], field.0) + ");"
    else if field.1 == "Duration" then
      "Duration::seconds(try!(" + FetchCall(f, "get_property_as_int", field.0) + ") as i64);"
    else if field.1 == "bool" then "try!(" + FetchCall(f, "get_property_as_int", field.0) + ") != 0;"
    else ""
  }

  function LetBinding(f: Fetcher, field: Field): string {
    var value := VariableValue(f, field);
    if value == "" then "" else "\n\t\tlet " + field.0 + " = " + value
  }

  /** The text `constructor_variables` writes for the whole table. */
  function VariablesText(f: Fetcher, data: seq<Field>): string {
    if data == [] then "" else LetBinding(f, data[0]) + VariablesText(f, data[1..])
  }

  /** The body of `constructor_variables`' loop before the push: the value bound to one row. */
  method VariableValueOf(structName: string, propertiesName: string, functions: map<string, string>,
                         args: string, name: string, varType: string) returns (s: string)
    ensures s == VariableValue(Fetcher(structName, propertiesName, functions, args), (name, varType))
  {
    var pascal := ToPascalCase(name);
    s := "";
    if varType in functions {
      s := "try!(" + (structName + "::" + functions[varType] + "(" + args + propertiesName + "::" + pascal + ")")
           + ");";
    } else if varType == "Duration" {
      s := "Duration::seconds(try!("
           + (structName + "::" + "get_property_as_int" + "(" + args + propertiesName + "::" + pascal + ")")
           + ") as i64);";
    } else if varType == "bool" {
      s := "try!(" + (structName + "::" + "get_property_as_int" + "(" + args + propertiesName + "::" + pascal + ")")
           + ") != 0;";
    }
  }

  /** `constructor_variables(...)`: one `let` per row whose type it knows, in order. */
  method ConstructorVariables(structName: string, propertiesName: string, functions: map<string, string>,
                              args: string, data: seq<Field>) returns (result: string)
    ensures result == VariablesText(Fetcher(structName, propertiesName, functions, args), data)
  {
    ghost var f := Fetcher(structName, propertiesName, functions, args);
    result := "";
    assert data[0..] == data;
    for i := 0 to |data|
      invariant result + VariablesText(f, data[i..]) == VariablesText(f, data)
    {
      var (name, varType) := data[i];
      ghost var before := result;
      var s := VariableValueOf(structName, propertiesName, functions, args, name, varType);
      if s != "" {
        result := result + "\n\t\tlet " + name + " = " + s;
      }
      PushBinding(before, result, s, f, data[i]);
      VariablesTextStep(f, data, i);
      AppendAssoc(before, LetBinding(f, data[i]), VariablesText(f, data[i + 1..]));
    }
    assert data[|data|..] == [];
  }

  lemma PushBinding(before: string, after: string, value: string, f: Fetcher, field: Field)
    requires value == VariableValue(f, field)
    requires after == if value != "" then before + "\n\t\tlet " + field.0 + " = " + value else before
    ensures after == before + LetBinding(f, field)
  {
  }

  lemma VariablesTextStep(f: Fetcher, data: seq<Field>, i: nat)
    requires i < |data|
    ensures VariablesText(f, data[i..]) == LetBinding(f, data[i]) + VariablesText(f, data[i + 1..])
  {
    assert data[i..][1..] == data[i + 1..];
  }

  /** The rows of `data` whose type is known, in order. */
  function KnownRows(functions: map<string, string>, data: seq<Field>): (r: seq<Field>)
    ensures |r| <= |data|
  {
    if data == [] then []
    else (if KnownType(functions, data[0].1) then [data[0]] else []) + KnownRows(functions, data[1..])
  }

  /** Rows of unknown types are skipped: only the known rows contribute. */
  lemma {:induction false} UnknownTypesIgnored(f: Fetcher, data: seq<Field>)
    ensures VariablesText(f, data) == VariablesText(f, KnownRows(f.functions, data))
  {
    if data != [] {
      var known := KnownRows(f.functions, data[1..]);
      UnknownTypesIgnored(f, data[1..]);
      if KnownType(f.functions, data[0].1) {
        var k := [data[0]] + known;
        assert k[0] == data[0] && k[1..] == known;
      } else {
        assert KnownRows(f.functions, data) == known;
      }
    }
  }

  /** The line of the generated constructor that binds a known row. */
  function BindingLine(f: Fetcher, field: Field): string {
    "\t\tlet " + field.0 + " = " + VariableValue(f, field)
  }

  /** One binding line for every row of a known type, in table order. */
  function BindingLines(f: Fetcher, data: seq<Field>): seq<string> {
    if data == [] then []
    else (if KnownType(f.functions, data[0].1) then [BindingLine(f, data[0])] else [])
         + BindingLines(f, data[1..])
  }

  lemma {:induction false} VariablesTextNewlineLed(f: Fetcher, data: seq<Field>)
    ensures VariablesText(f, data) == NewlineLed(BindingLines(f, data))
    ensures |BindingLines(f, data)| == |KnownRows(f.functions, data)|
  {
    if data == [] {
      assert NewlineLed([]) == [];
    } else {
      VariablesTextNewlineLed(f, data[1..]);
      VariablesTextNewlineLedStep(f, data);
    }
  }

  lemma VariablesTextNewlineLedStep(f: Fetcher, data: seq<Field>)
    requires data != []
    requires VariablesText(f, data[1..]) == NewlineLed(BindingLines(f, data[1..]))
    requires |BindingLines(f, data[1..])| == |KnownRows(f.functions, data[1..])|
    ensures VariablesText(f, data) == NewlineLed(BindingLines(f, data))
    ensures |BindingLines(f, data)| == |KnownRows(f.functions, data)|
  {
    var rest := BindingLines(f, data[1..]);
    if KnownType(f.functions, data[0].1) {
      NewlineLedCons(BindingLine(f, data[0]), rest);
      LetBindingIsLine(f, data[0]);
    } else {
      assert BindingLines(f, data) == rest;
    }
  }

  /** A known row's binding is its line behind a '\n'. */
  lemma LetBindingIsLine(f: Fetcher, field: Field)
    requires KnownType(f.functions, field.1)
    ensures LetBinding(f, field) == "\n" + BindingLine(f, field)
  {
    var v := VariableValue(f, field);
    assert "\n\t\tlet " + field.0 + " = " + v == "\n" + ("\t\tlet " + field.0 + " = " + v);
  }

  lemma {:induction false} PascalFromKeepsLine(s: string, upper: bool)
    requires '\n' !in s
    ensures '\n' !in PascalFrom(s, upper)
  {
    if s != [] {
      PascalFromKeepsLine(s[1..], s[0] == '_');
    }
  }

  /** Every part of a generated fetch stays on one line. */
  predicate OneLineFetcher(f: Fetcher) {
    && '\n' !in f.structName && '\n' !in f.propertiesName && '\n' !in f.args
    && forall t :: t in f.functions ==> '\n' !in f.functions[t]
  }

  /** A known row's value ends its statement with `;` and, fetched from one-line parts, spans one line. */
  lemma VariableValueOneLine(f: Fetcher, field: Field)
    requires OneLineFetcher(f) && '\n' !in field.0 && KnownType(f.functions, field.1)
    ensures '\n' !in VariableValue(f, field)
    ensures VariableValue(f, field)[|VariableValue(f, field)| - 1] == ';'
  {
    if field.1 in f.functions {
      assert '\n' !in f.functions[field.1];
      FetchCallOneLine(f, f.functions[field.1], field.0);
      StatementOneLine("try!(", FetchCall(f, f.functions[field.1], field.0), ");");
    } else if field.1 == "Duration" {
      FetchCallOneLine(f, "get_property_as_int", field.0);
      StatementOneLine("Duration::seconds(try!(", FetchCall(f, "get_property_as_int", field.0), ") as i64);");
    } else {
      FetchCallOneLine(f, "get_property_as_int", field.0);
      StatementOneLine("try!(", FetchCall(f, "get_property_as_int", field.0), ") != 0;");
    }
  }

  lemma FetchCallOneLine(f: Fetcher, callee: string, name: string)
    requires OneLineFetcher(f) && '\n' !in callee && '\n' !in name
    ensures '\n' !in FetchCall(f, callee, name)
  {
    PascalFromKeepsLine(name, true);
  }

  lemma StatementOneLine(opening: string, call: string, close: string)
    requires '\n' !in opening && '\n' !in call && '\n' !in close
    requires close != [] && close[|close| - 1] == ';'
    ensures '\n' !in opening + call + close
    ensures (opening + call + close)[|opening + call + close| - 1] == ';'
  {
  }

  lemma {:induction false} BindingLinesPlain(f: Fetcher, data: seq<Field>)
    requires OneLineFetcher(f) && OneLineFields(data)
    ensures forall j :: 0 <= j < |BindingLines(f, data)| ==> PlainLine(BindingLines(f, data)[j])
  {
    if data != [] {
      BindingLinesPlain(f, data[1..]);
      if KnownType(f.functions, data[0].1) {
        VariableValueOneLine(f, data[0]);
        var line := BindingLine(f, data[0]);
        assert line[|line| - 1] == ';';
        assert PlainLine(line);
      }
    }
  }

  /**
   * Written between the preceding code and a '\n', `constructor_variables`
   * gives one line per row of a known type, two tabs in, in table order,
   * and nothing for the other rows.
   */
  lemma ConstructorVariablesLines(f: Fetcher, data: seq<Field>)
    requires OneLineFetcher(f) && OneLineFields(data)
    ensures Lines(VariablesText(f, data) + "\n") == [""] + BindingLines(f, data)
    ensures |BindingLines(f, data)| == |KnownRows(f.functions, data)|
  {
    VariablesTextNewlineLed(f, data);
    BindingLinesPlain(f, data);
    LinesOfNewlineLed(BindingLines(f, data));
  }

  function CreationLine(field: Field): string {
    "\n\t\t\t" + field.0 + ": " + field.0 + ","
  }

  function CreationLines(data: seq<Field>): (r: seq<string>)
    ensures |r| == |data|
  {
    seq(|data|, i requires 0 <= i < |data| => CreationLine(data[i]))
  }

  /** `constructor_creation(data)`: `name: name,` for every row, three tabs in. */
  method ConstructorCreation(data: seq<Field>) returns (s: string)
    ensures s == Concat(CreationLines(data))
  {
    ghost var pieces := CreationLines(data);
    s := "";
    for i := 0 to |data|
      invariant s == Concat(pieces[..i])
    {
      var (name, _) := data[i];
      s := s + "\n\t\t\t" + name + ": " + name + ",";
      ConcatPrefixStep(pieces, i);
    }
    assert pieces[..|data|] == pieces;
  }

  /** `constructor_creation` looks only at the names: tables with the same names give the same text. */
  lemma ConstructorCreationIgnoresTypes(a: seq<Field>, b: seq<Field>)
    requires |a| == |b|
    requires forall i :: 0 <= i < |a| ==> a[i].0 == b[i].0
    ensures Concat(CreationLines(a)) == Concat(CreationLines(b))
  {
    assert CreationLines(a) == CreationLines(b);
  }

  /** The field initialiser `name: name,` of the generated struct literal, three tabs in. */
  function InitLine(field: Field): string {
    "\t\t\t" + field.0 + ": " + field.0 + ","
  }

  /** Every row becomes one `name: name,` line of the struct literal, in table order. */
  lemma ConstructorCreationLines(data: seq<Field>)
    requires OneLineFields(data)
    ensures Lines(Concat(CreationLines(data)) + "\n")
            == [""] + seq(|data|, i requires 0 <= i < |data| => InitLine(data[i]))
  {
    var ls := seq(|data|, i requires 0 <= i < |data| => InitLine(data[i]));
    forall i | 0 <= i < |data|
      ensures CreationLines(data)[i] == Prefixed("\n", ls)[i]
      ensures PlainLine(ls[i])
    {
      assert "\n\t\t\t" == "\n" + "\t\t\t";
      var n := data[i].0;
      calc {
        CreationLine(data[i]);
        "\n\t\t\t" + (n + (": " + (n + ",")));
        "\n" + ("\t\t\t" + (n + (": " + (n + ","))));
      }
      assert ls[i][|ls[i]| - 1] == ',';
    }
    assert CreationLines(data) == Prefixed("\n", ls);
    LinesOfNewlineLed(ls);
  }

  // ----------------------------------------------------------- pascal case

  /** `to_pascal_case`, the same loop as build/build.rs has. */
  method ToPascalCase(text: string) returns (s: string)
    ensures s == PascalCase(text)
  {
    s := "";
    var uppercase := true;
    assert text[0..] == text;
    for i := 0 to |text|
      invariant s + PascalFrom(text[i..], uppercase) == PascalCase(text)
    {
      var c := text[i];
      ghost var before, flag := s, uppercase;
      PascalFromStep(text, i, uppercase);
      if c == '_' {
        uppercase := true;
      } else {
        if uppercase {
          s := s + [Upper(c)];
          uppercase := false;
        } else {
          s := s + [c];
        }
        assert s + PascalFrom(text[i + 1..], uppercase) == before + ([if flag then Upper(c) else c] + PascalFrom(text[i + 1..], false));
      }
    }
    assert text[|text|..] == [];
  }

  // ---------------------------------------------------------------- indent

  /** The value of `indent(s, count)`: every line behind `count` times four spaces, then '\n'. */
  function IndentSpaces(s: string, count: nat): (r: string)
    ensures r == "" <==> s == ""
    ensures r != "" ==> r[|r| - 1] == '\n'
  {
    TerminatedShape(Prefixed(Repeat("    ", count), Lines(s)));
    Terminated(Prefixed(Repeat("    ", count), Lines(s)))
  }

  /** `indent`: one pass over `s.lines()`, pushing the spaces, the line and a newline. */
  method Indent(s: string, count: nat) returns (result: string)
    ensures result == IndentSpaces(s, count)
  {
    var lines := Lines(s);
    ghost var pieces := NewlineTerminated(Prefixed(Repeat("    ", count), lines));
    result := "";
    for i := 0 to |lines|
      invariant result == Concat(pieces[..i])
    {
      var l := lines[i];
      var before := result;
      result := result + Repeat("    ", count);
      result := result + l;
      result := result + "\n";
      assert result == before + pieces[i];
      ConcatPrefixStep(pieces, i);
    }
    assert pieces[..|lines|] == pieces;
  }

  /**
   * `indent` yields one '\n'-terminated line per input line, each, empty
   * ones included, starting with exactly `4 * count` spaces.
   */
  lemma IndentSpacesLines(s: string, count: nat)
    ensures |Lines(IndentSpaces(s, count))| == |Lines(s)|
    ensures Lines(IndentSpaces(s, count)) == StripEach(Prefixed(Repeat("    ", count), Lines(s)))
    ensures forall i :: 0 <= i < |Lines(s)| ==>
              StartsWith(Lines(IndentSpaces(s, count))[i], Repeat("    ", count))
  {
    var pad := Repeat("    ", count);
    var ls := Prefixed(pad, Lines(s));
    assert '\n' !in pad && '\r' !in pad;
    forall i | 0 <= i < |ls| ensures '\n' !in ls[i] {
      assert ls[i] == pad + Lines(s)[i];
    }
    LinesOfTerminated(ls);
    forall i | 0 <= i < |Lines(s)|
      ensures StartsWith(StripEach(ls)[i], pad)
    {
      assert ls[i] == pad + Lines(s)[i];
      StripCRKeepsPrefix(pad, Lines(s)[i]);
    }
  }
}
