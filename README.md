# rust-ts3plugin core, modelled in Dafny

The project models the core of the rust-ts3plugin library, which is Rust
bindings for writing TeamSpeak 3 client plugins. The model has three parts.

- **build/build.rs**, the property code generator. A `Property` descriptor
  says what field a generated struct has. It is turned into Rust fragments:
  the getter's return type, the getter body, the constructor initialiser, the
  update initialiser and the documentation comment. Templates then splice
  these into the plugin's sources. The part also holds the clone-and-set
  `PropertyBuilder` and `StructBuilder`, `to_pascal_case` and a tab-based
  `indent`. Module `Codegen`, file `codegen.dfy`.
- **src/build.rs**, the older build script. It writes the server and
  connection structs from `(name, type)` tables:
  - the struct fields
  - the getters
  - the `let` bindings of the constructor
  - the struct literal

  The part also holds an unused `Struct` model with in-place (`&mut self`)
  builders, and an `indent` that uses four spaces per level. Module
  `LegacyBuild`, file `legacy_build.dfy`.
- **src/lib.rs**, the plugin's entities:
  - `Server`, `Channel`, `Connection` and `Client`, with the `PartialEq`
    impls that define their identity;
  - the two getters `get_property_as_string` and `get_property_as_int`,
    which read a server property through the host application's native
    functions;
  - `Server::new`, which makes twenty property reads one after the other and
    stops at the first error.

  Module `Ts3Plugin`, file `ts3plugin.dfy`.

Two modules are shared. `Wrappers` holds Option, and Result with `:-`
standing for `try!`. `Text` holds Rust's `str::lines()`, the meaning of
`to_pascal_case`, and the helpers for the concatenations that the generators
build.

Code that changes a string step by step becomes a `method` with a loop. Each
such method is proved equal to a specification function, and the
specification function is then characterised by lemmas. These methods are:

- `create_return_type`, `create_getter_body` and
  `intern_create_initialisation`, with its loops over `["i32", "u64"]`;
- `to_pascal_case` and `indent`;
- every table generator of src/build.rs.

The builders of build/build.rs return a modified clone, so they are
datatypes with update functions. The builders of src/build.rs update
themselves in place, so they are classes with `modifies` clauses.

The host's native functions are a `Host` value. It holds two functions from
a server id and a property to a result code and an out-parameter value.
`UTC::now()` is a parameter.

## Model

| member | source | states |
|---|---|---|
| Codegen.CreateReturnType | build/build.rs:82-105 | the pushed string is `Result<inner, ::Error>` exactly when the property is Result-wrapped, and plain `inner` otherwise |
| Codegen.IsRefType | build/build.rs:76-80 | String and Permissions are handed out by reference; the scalar types `i32`, `u64`, `u16`, `bool`, `Duration` and `DateTime<Utc>` never are |
| Codegen.ReturnTypeShape | build/build.rs:76-105 | the inner type starts with `&` exactly for the reference types (String, Permissions, `Option…`, `Map<…`, `Vec<…`); String is handed out as `&str`; any other reference type is `&` followed by its name; a non-reference type is kept verbatim |
| Codegen.CreateGetterBody | build/build.rs:107-122 | the body is `self.name`, behind `&` for a plain reference getter, followed by `.as_ref()`, the `as_str` map for String, and `.map_err(\|e\| *e)` for a Result-wrapped reference getter |
| Codegen.GetterAgreesWithReturnType | build/build.rs:82-122 | the getter body borrows exactly when the return type is a plain reference; it converts by reference exactly when the return type is a Result over a reference |
| Codegen.InternCreateInitialisation | build/build.rs:145-212 | the early returns and the generated fetch call equal the specification `Initialisation`, including the first-hit loops over `["i32", "u64"]` |
| Codegen.Initialisation | build/build.rs:145-152 | nothing is generated when the property is disabled for the mode; an explicit update wins in update mode; otherwise an explicit initialisation is returned verbatim |
| Codegen.GeneratedCall | build/build.rs:153-211 | `method_name` is called when given; the call is empty only when neither `method_name` nor a mapped function applies, and always for an unknown type |
| Codegen.FirstIntFunction | build/build.rs:166-172 | a function is found exactly when `i32` or `u64` is mapped; it is a mapped function, and `i32`'s when both are |
| Codegen.IntFunction | build/build.rs:177-183 | the callee is a mapped function or `get_property_as_int`, and `u64`'s whenever that is mapped |
| Codegen.FirstIntCall | build/build.rs:166-172 | the loop over `["i32", "u64"]` calls the first mapped int function with the suffix appended, or yields nothing when neither is mapped |
| Codegen.DisabledGeneratesNothing | build/build.rs:146-147 | without `initialise`, or in update mode without `should_update`, no code is generated |
| Codegen.ExplicitUpdateIsVerbatim | build/build.rs:148-149 | in update mode an explicit `update` is returned unchanged, ahead of every other case |
| Codegen.ExplicitInitialisationIsVerbatim | build/build.rs:150-151 | an explicit `initialisation` is returned unchanged in both modes, unless an update overrides it |
| Codegen.GeneratedCallPriority | build/build.rs:153-172 | a fetch call is generated only when no explicit code applies; `method_name` then wins over the function map, which wins over the transmutable list |
| Codegen.SpecialTypes | build/build.rs:173-210 | Duration and `DateTime<Utc>` use the int function with their conversion suffix; bool uses the first mapped int function compared with 0; every other type yields nothing |
| Codegen.IntFunctionFallback | build/build.rs:177-183 | durations and timestamps use the `u64` function, then the `i32` function, then `get_property_as_int` |
| Codegen.DefaultValueNameHasNoUnderscore | build/build.rs:153 | a defaulted enum value name is the Pascal-cased property name and holds no underscore |
| Codegen.ResultPropertyStartsAsErrOk | build/build.rs:137-143 | a Result-wrapped property is constructed as `Err(::Error::Ok)`, whatever its other fields hold |
| Codegen.CreateInitialisation | build/build.rs:137-143 | a Result-wrapped property starts as `Err(::Error::Ok)`; a plain property without `initialise` gets nothing |
| Codegen.CreateConstructorBody | build/build.rs:124-131 | the body is never empty unless the name is; a Result-wrapped property starts as `Err(::Error::Ok)`; a plain property without `initialise` is initialised from its own name |
| Codegen.CreateUpdateBody | build/build.rs:133-135 | nothing is generated without `initialise` or `should_update`; an explicit update is returned verbatim |
| Codegen.ConstructorBodyFallsBackToName | build/build.rs:124-131 | the constructor body is the initialisation, or the property's name when there is none |
| Codegen.UpdateBodyIgnoresResult | build/build.rs:133-135 | the update body does not depend on `result`; it uses the update arguments and is empty without `should_update` |
| Codegen.ToPascalCase | build/build.rs:616-633 | the loop with the `uppercase` flag computes `PascalCase(text)` |
| Text.PascalCaseMeaning | build/build.rs:616-633 | `to_pascal_case` drops every underscore and keeps the other characters in order; it upper-cases a character exactly when it comes first or follows an underscore |
| Codegen.Indent | build/build.rs:636-648 | the loop over `lines()` yields every line behind its tab prefix, each followed by `\n` |
| Codegen.IndentTabs | build/build.rs:636-648 | the indented text is empty exactly when the input is, and otherwise ends with `\n` |
| Codegen.IndentTabsLines | build/build.rs:636-648 | the output reads back as one line per input line: a non-empty line behind exactly `count` tabs, an empty line unprefixed |
| Codegen.DocCommentLines | build/build.rs:224-226 | the serialised documentation reads back as the documentation's lines behind `/// `; it is empty exactly when the documentation is |
| Codegen.DocComment | build/build.rs:224-226 | the serialised documentation is empty exactly when the documentation is, and otherwise starts with `/// ` and ends with `\n` |
| Codegen.PropertyBuilder.New | build/build.rs:274-282 | a new builder is initialised, Result-wrapped, updated and has a public api getter; every other field is empty |
| Codegen.PropertyBuilder.WithName | build/build.rs:284-288 | the clone has the new name and every other field of the original |
| Codegen.PropertyBuilder.WithTypeS | build/build.rs:290-294 | the clone has the new type and every other field of the original |
| Codegen.PropertyBuilder.WithResult | build/build.rs:296-300 | the clone has the new `result` and every other field of the original |
| Codegen.PropertyBuilder.WithDocumentation | build/build.rs:302-306 | the clone has the new documentation and every other field of the original |
| Codegen.PropertyBuilder.WithInitialise | build/build.rs:308-312 | the clone has the new `initialise` and every other field of the original |
| Codegen.PropertyBuilder.WithInitialisation | build/build.rs:314-318 | the clone has `Some(initialisation)` and every other field of the original |
| Codegen.PropertyBuilder.WithUpdate | build/build.rs:320-324 | the clone has `Some(update)` and every other field of the original |
| Codegen.PropertyBuilder.WithShouldUpdate | build/build.rs:326-330 | the clone has the new `should_update` and every other field of the original |
| Codegen.PropertyBuilder.WithMethodName | build/build.rs:332-336 | the clone has `Some(method_name)` and every other field of the original |
| Codegen.PropertyBuilder.WithEnumName | build/build.rs:338-342 | the clone has the new enum name and every other field of the original |
| Codegen.PropertyBuilder.WithValueName | build/build.rs:344-348 | the clone has `Some(value_name)` and every other field of the original |
| Codegen.PropertyBuilder.WithFunctions | build/build.rs:350-354 | the clone has the new function map and every other field of the original |
| Codegen.PropertyBuilder.WithTransmutable | build/build.rs:356-360 | the clone has the new transmutable list and every other field of the original |
| Codegen.PropertyBuilder.WithDefaultArgs | build/build.rs:362-366 | the clone has the new default arguments and every other field of the original |
| Codegen.PropertyBuilder.WithDefaultArgsUpdate | build/build.rs:368-372 | the clone has the new update arguments and every other field of the original |
| Codegen.PropertyBuilder.WithApiGetter | build/build.rs:374-378 | the clone has the new `api_getter` and every other field of the original |
| Codegen.PropertyBuilder.WithPublic | build/build.rs:380-384 | the clone has the new `public` and every other field of the original |
| Codegen.PropertyBuilder.Finalize | build/build.rs:386-406 | the property carries every field of the builder |
| Codegen.FinalizeIsInjective | build/build.rs:386-406 | two builders that finalise to the same property are equal, so no field is lost |
| Codegen.DefaultPropertyIsResultWrapped | build/build.rs:274-282 | a property built from the defaults with only a name and a type returns `Result<_, ::Error>`, starts as `Err(::Error::Ok)` and gets a generated update body |
| Codegen.StructBuilder.New | build/build.rs:457-466 | a new struct builder is public and generates the struct, the impl, the constructor and the update, but not the api impl |
| Codegen.StructBuilder.WithName | build/build.rs:468-472 | the clone has the new name and every other field of the original |
| Codegen.StructBuilder.WithApiName | build/build.rs:474-478 | the clone has the new api name and every other field of the original |
| Codegen.StructBuilder.WithDocumentation | build/build.rs:480-484 | the clone has the new documentation and every other field of the original |
| Codegen.StructBuilder.WithProperties | build/build.rs:486-490 | the clone has the new properties and every other field of the original |
| Codegen.StructBuilder.WithExtraAttributes | build/build.rs:492-496 | the clone has the new extra attributes and every other field of the original |
| Codegen.StructBuilder.WithExtraInitialisation | build/build.rs:498-502 | the clone has the new extra initialisation and every other field of the original |
| Codegen.StructBuilder.WithExtraCreation | build/build.rs:504-508 | the clone has the new extra creation and every other field of the original |
| Codegen.StructBuilder.WithConstructorArgs | build/build.rs:510-514 | the clone has the new constructor arguments and every other field of the original |
| Codegen.StructBuilder.WithPublic | build/build.rs:516-520 | the clone has the new `public` and every other field of the original |
| Codegen.StructBuilder.WithDoStruct | build/build.rs:522-526 | the clone has the new `do_struct` and every other field of the original |
| Codegen.StructBuilder.WithDoImpl | build/build.rs:528-532 | the clone has the new `do_impl` and every other field of the original |
| Codegen.StructBuilder.WithDoApiImpl | build/build.rs:534-538 | the clone has the new `do_api_impl` and every other field of the original |
| Codegen.StructBuilder.WithDoUpdate | build/build.rs:540-544 | the clone has the new `do_update` and every other field of the original |
| Codegen.StructBuilder.WithDoConstructor | build/build.rs:546-550 | the clone has the new `do_constructor` and every other field of the original |
| Codegen.StructBuilder.Finalize | build/build.rs:552-570 | the struct carries every field of the builder |
| LegacyBuild.Property.New | src/build.rs:20-24 | the derived default property has every field empty |
| LegacyBuild.PropertyBuilder.constructor | src/build.rs:34-36 | a new builder has every field empty |
| LegacyBuild.PropertyBuilder.SetName | src/build.rs:38-41 | the name is overwritten in place, the other fields are unchanged, and the same builder is handed back |
| LegacyBuild.PropertyBuilder.SetTypeS | src/build.rs:43-46 | the type is overwritten in place, the other fields are unchanged, and the same builder is handed back |
| LegacyBuild.PropertyBuilder.SetDocumentation | src/build.rs:48-51 | the documentation is overwritten in place, the other fields are unchanged, and the same builder is handed back |
| LegacyBuild.PropertyBuilder.Finalize | src/build.rs:53-59 | the property holds exactly the builder's current fields |
| LegacyBuild.BuildProperty | src/build.rs:33-59 | a chain of setters through the handed-back builder, then `finalize`, yields the values last given |
| LegacyBuild.StructBuilder.constructor | src/build.rs:88-90 | a new struct builder has empty strings and no properties |
| LegacyBuild.StructBuilder.SetName | src/build.rs:92-95 | only the name changes, and the same builder is handed back |
| LegacyBuild.StructBuilder.SetDocumentation | src/build.rs:97-100 | only the documentation changes, and the same builder is handed back |
| LegacyBuild.StructBuilder.SetProperties | src/build.rs:102-105 | only the properties change, and the same builder is handed back |
| LegacyBuild.StructBuilder.SetExtraAttributes | src/build.rs:107-110 | only the extra attributes change, and the same builder is handed back |
| LegacyBuild.StructBuilder.SetExtraInitialisation | src/build.rs:112-115 | only the extra initialisation changes, and the same builder is handed back |
| LegacyBuild.StructBuilder.SetExtraCreation | src/build.rs:117-120 | only the extra creation changes, and the same builder is handed back |
| LegacyBuild.StructBuilder.Finalize | src/build.rs:122-131 | the struct holds exactly the builder's current fields |
| LegacyBuild.BuildStruct | src/build.rs:87-131 | a fresh builder given a name and properties keeps every other field at its empty default |
| LegacyBuild.Struct.CreateStruct | src/build.rs:135-145 | the loop yields every property's documentation (if any) and `name: type,`, indented one level |
| LegacyBuild.CreateStructLines | src/build.rs:135-145 | for one-line properties the output is every documentation and every `name: type,` as a line of its own, in order, four spaces in |
| LegacyBuild.Struct.CreateImpl | src/build.rs:147-162 | the loop yields every property's getter header and body line, indented one level |
| LegacyBuild.Amp | src/build.rs:150 | a getter borrows exactly for String and Permissions |
| LegacyBuild.CreateImplLines | src/build.rs:147-162 | for properties whose name and type fit on one line, whatever their documentation, every property gets exactly two lines, four spaces in: the header returning `&T` exactly for String and Permissions, and the body borrowing in the same cases |
| LegacyBuild.Struct.ConstructorVariables | src/build.rs:164-167 | the stub yields the empty string |
| LegacyBuild.CreateStruct | src/build.rs:480-486 | the output is one `\n\tname: type,` piece per row, in table order |
| LegacyBuild.CreateStructFieldLines | src/build.rs:480-486 | written after `{` and followed by `\n`, every row is a line of its own, one tab in |
| LegacyBuild.CreateStructAppend | src/build.rs:480-486 | generating two tables one after the other is generating their concatenation |
| LegacyBuild.CreateImpl | src/build.rs:488-508 | the output is one getter per row, in table order |
| LegacyBuild.CreateImplGetterLines | src/build.rs:488-508 | every row gives exactly its three getter lines, in table order: the header returning `&T` exactly for String and Permissions, the body borrowing in the same cases, and the closing brace |
| LegacyBuild.VariableValue | src/build.rs:517-526 | a row's value is empty exactly when its type is neither mapped nor Duration nor bool |
| LegacyBuild.ConstructorVariables | src/build.rs:513-532 | the loop yields one `let` binding per row of a known type, in order |
| LegacyBuild.UnknownTypesIgnored | src/build.rs:517-529 | rows of unknown types contribute nothing |
| LegacyBuild.ConstructorVariablesLines | src/build.rs:513-532 | the output reads back as one line per known row, two tabs in, in table order, with as many lines as known rows |
| LegacyBuild.VariableValueOneLine | src/build.rs:518-523 | a known row's value built from one-line parts is a single line that ends its statement with `;` |
| LegacyBuild.ConstructorCreation | src/build.rs:534-540 | the output is `name: name,` for every row, three tabs in |
| LegacyBuild.ConstructorCreationIgnoresTypes | src/build.rs:534-540 | tables with the same names give the same text, whatever their types |
| LegacyBuild.ConstructorCreationLines | src/build.rs:534-540 | every row becomes one line of the struct literal, in table order |
| LegacyBuild.ToPascalCase | src/build.rs:542-558 | the loop computes `PascalCase(text)` |
| LegacyBuild.Indent | src/build.rs:561-570 | the loop over `lines()` yields every line behind `count` times four spaces, each followed by `\n` |
| LegacyBuild.IndentSpaces | src/build.rs:561-570 | the indented text is empty exactly when the input is, and otherwise ends with `\n` |
| LegacyBuild.IndentSpacesLines | src/build.rs:561-570 | the output reads back as one line per input line; every line, empty ones included, starts with exactly `4 * count` spaces |
| Ts3Plugin.ServerEq | src/lib.rs:141-145 | servers are equal exactly when their ids are |
| Ts3Plugin.ChannelEq | src/lib.rs:238-242 | channels are equal exactly when their servers' ids and their own ids are |
| Ts3Plugin.ConnectionEq | src/lib.rs:246-250 | connections are equal exactly when their servers' ids and their own ids are |
| Ts3Plugin.ClientEq | src/lib.rs:254-258 | clients are equal exactly when their unique identifiers are |
| Ts3Plugin.IdentitiesAreEquivalences | src/lib.rs:141-259 | each of the four identities is reflexive, symmetric and transitive, as the `Eq` impls claim |
| Ts3Plugin.ConnectionIdentityIgnoresClient | src/lib.rs:246-250 | a connection's identity ignores its client and talking state, and follows its server's identity |
| Ts3Plugin.StringProperty | src/lib.rs:149-160 | the string read succeeds exactly when the host reports `Ok`, then with the out-parameter; otherwise the reported code is the error |
| Ts3Plugin.IntProperty | src/lib.rs:162-173 | the int read succeeds exactly when the host reports `Ok`, then with the out-parameter; otherwise the reported code is the error |
| Ts3Plugin.GetPropertyAsString | src/lib.rs:149-160 | the result is the host's string on `Ok` and the host's code otherwise |
| Ts3Plugin.GetPropertyAsInt | src/lib.rs:162-173 | the result is the host's number on `Ok` and the host's code otherwise |
| Ts3Plugin.Read | src/lib.rs:176-202 | one read through the matching getter succeeds exactly when the host reports `Ok`, with the written value; otherwise it fails with the code |
| Ts3Plugin.FetchOrder | src/lib.rs:176-202 | the twenty reads in source order; the string reads are exactly positions 0-4, 6, 7, 10-12 and 18; the banner interval is read ninth and the delete delay eighteenth, and no other read touches `HostbannerGfxInterval` or `ChannelTempDeleteDelayDefault` |
| Ts3Plugin.Assemble | src/lib.rs:204-233 | the struct literal keeps the id and the clock reading, has no optional data, turns the ninth and eighteenth answers into Durations in seconds, and sets the privilege-key flag when the sixteenth answer is nonzero |
| Ts3Plugin.Run | src/lib.rs:176-202 | on success the reads of `try!` in sequence give one answer per read, each the host's written value |
| Ts3Plugin.FirstRefusalMeaning | src/lib.rs:176-202 | there is no refusal exactly when every read is accepted; otherwise the reported code is that of a refused read whose predecessors were all accepted |
| Ts3Plugin.RunAllOrNothing | src/lib.rs:176-202 | the sequence fails exactly when some read is refused, and then with the first refused read's code |
| Ts3Plugin.NewFetching | src/lib.rs:175-234 | a server built from the twenty reads holds its id, the clock reading and every fetched value in its field; the optional data is `None` |
| Ts3Plugin.NewAllOrNothing | src/lib.rs:175-234 | `Server::new` fails exactly when one of its reads is refused, with the code of the first refused read in source order |
| Ts3Plugin.NewSucceedsWhenAllAccepted | src/lib.rs:175-234 | a host that accepts every read for the id makes `Server::new` succeed |
| Ts3Plugin.New | src/lib.rs:175-234 | as written, the banner interval always equals the priority-speaker modifier in seconds, and the delete delay is the privilege-key integer in seconds |
| Ts3Plugin.WrongPropertiesRead | src/lib.rs:191-200 | on a host with a 30-second banner interval and a 60-second delete delay, `Server::new` as written reports 0 for both |
| Ts3Plugin.NewIntended | src/lib.rs:175-234 | with each Duration read from the property it is named after, the server holds the host's banner interval and delete delay |
| Ts3Plugin.IntendedPropertiesRead | src/lib.rs:191-200 | on the same host the corrected `Server::new` reports 30 and 60 seconds |

## Left out

- Template rendering with Tera and the serde serialisation plumbing in build/build.rs are not modelled: `main` and `Struct::create_struct` at 573-614, and the `Serialize` impl apart from the documentation transform. Both are I/O and calls into libraries.
- `create_server`, `create_connection` and `main` in src/build.rs are not modelled. They write hard-coded tables and text to a file. The generators they call are modelled. The tables are data, not logic.
- build/channel.rs, build/server.rs, build/connection.rs, src/plugin.rs and src/ts3interface.rs are not part of this model. They are property tables, callback glue and foreign function declarations.
- `TsApi` (src/lib.rs:264-296) is not modelled. It logs through a native function.
- The host's native functions are the `Host` oracle, and `UTC::now()` is a parameter. Both are foreign calls and a clock.
- Text.Upper: upper-cases ASCII letters only. `char::to_uppercase` also covers other alphabets, and Dafny has no Unicode tables.
- Ts3Plugin.GetPropertyAsString: the host's answer is taken as the already-decoded string. The C string, the pointer and `from_utf8_lossy` are not modelled.
- Ts3Plugin.New: the `transmute` of the codec and mode integers into their enums is kept as the raw integer. Which integers are valid enum values is foreign data.
- `VirtualServerProperties` is limited to the eighteen properties that `Server::new` reads, plus the two that the corrected reads need (`HostbannerGfxInterval` and `ChannelTempDeleteDelayDefault`).
- `OptionalServerData` has all 41 fields of src/lib.rs:42-84. `Server::new` never fills them, and always leaves `optional_data` as `None`.
- Ts3Plugin.New: the `Host` oracle is a pure function of the id and the property, so two reads of the same property give the same answer. This has two consequences. The two reads of `PrioritySpeakerDimmModificator` (src/lib.rs:191-192) agree, which is why the banner interval equals the modifier. The two reads of `AskForPrivilegekey` (src/lib.rs:198 and 200) agree, which is why `askForPrivilegekey` holds exactly when the default channel delete delay is non-zero. Against a live client whose values change between the paired calls, this is an assumption and not a fact.
- Ts3Plugin.GetPropertyAsInt: the `.expect("Functions should be loaded")` panic of src/lib.rs:153 and 166 is not modelled. The model assumes that the host's function table is always loaded. The same holds for Ts3Plugin.GetPropertyAsString.
- Text.Lines: follows `str::lines()` as it was when this code was written. Each piece, including a last piece without `\n`, loses one trailing `\r`.
- LegacyBuild.Struct.CreateImpl: as written, the function emits no closing brace for a getter. The model keeps this.
- Ts3Plugin.Run: the chain of `try!` reads in `Server::new` is a list of reads run in order with early return. This captures the ordering and the short-circuit, but not the `let` names.
- Integer widths of `u64`, `u16` and `i32` are subset types. They cannot overflow here, because the code only copies the host's values. The `as i64` widening in `Duration::seconds` is exact.

## Findings

| source | as written | input that shows it | evidently intended | confidence | as-written member | corrected member |
|---|---|---|---|---|---|---|
| src/lib.rs:191 | `hostbanner_gfx_interval` is read from `PrioritySpeakerDimmModificator` | a host answering 30 for `HostbannerGfxInterval` and 0 for the other ints; `Server::new` reports a 0-second interval | read `HostbannerGfxInterval` | not executed | Ts3Plugin.WrongPropertiesRead | Ts3Plugin.IntendedPropertiesRead |
| src/lib.rs:200 | `channel_temp_delete_delay_default` is read from `AskForPrivilegekey` | a host answering 60 for `ChannelTempDeleteDelayDefault` and 0 for the other ints; `Server::new` reports a 0-second delay | read `ChannelTempDeleteDelayDefault` | not executed | Ts3Plugin.WrongPropertiesRead | Ts3Plugin.IntendedPropertiesRead |
