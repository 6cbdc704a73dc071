# ts-class-gen in Dafny

ts-class-gen generates TypeScript source text. A caller builds a small object
graph in memory and asks the root object to write itself into an append-only
string buffer. The graph holds a file (`CGFile`) with interfaces
(`CGInterface`) and classes (`CGClass`). Classes hold properties
(`CGProperty`) and methods (`CGMethod`), and methods hold parameters
(`CGParameter`). Each object fills its fields and ordered child lists through
push-style adders. Each has a `WriteTo(writer, tab)` that appends its text and
then asks its children to write theirs, in the order they were added.
Formatting goes through the static helpers of `CGHelper` and the
`StringBuilder` buffer.

The project has two layers per entity:

- **Values.** Every entity has a value datatype (`Parameter`, `Property`,
  `Method`, `Interface`, `Class`, `File`). A pure lines function
  (`PropertyLines`, `MethodLines`, `InterfaceLines`, `ClassLines`,
  `FileLines`, ...) says which lines that entity writes. Its text is `Unlines`
  of those lines, so every line ends in a newline. The layout facts are lemmas
  on these functions: clause presence, ordering, a single closing brace, region
  placement, and round trips of the declaration lines.
- **Objects.** Every entity is also a Dafny `class` with the source's fields.
  Child lists hold object references, so the sharing the source allows is kept.
  `Model()` gives an object's current value. The adders are methods whose
  `ensures` give the whole new value. Each `WriteTo` is a method proved to
  leave `writer.ToString() == old(writer.ToString()) + Unlines(XLines(old(Model()), tab))`.
  Its loops carry the invariants, and lemmas show that a child's value is not
  disturbed while its siblings write.

`StringBuilder` is a class over `parts: seq<string>`. `Tab` and `BeautyLine`
are loop methods proved against the `Indent` and `Separator` functions.

The src/ modules are the main model; src/index.ts bundles the same code.
The root-level files are an older variant. The model adds separate members
only where their behaviour differs:

- `LegacyClassDeclaration` is the root-level class declaration, which uses "extends" with a comma.
- `LegacyCGClass` and `LegacyClassLines` model a class with no decorators and with the `Properties` getter.
- `LegacyCGFile` and `LegacyFileLines` model a file with no supplements.

The root-level `StringBuilder` and `CGParameter` differ from the src/ ones only
in the case of their member names, so `Buffer.StringBuilder` and
`Parameters.CGParameter` stand for both copies. The root-level `CGInterface`
has no `ExportAsDefault` field and passes three arguments to
`GetInterfaceDeclaration` (CGInterface.ts:9, 24). `Interfaces.CGInterface`
stands for it too, because `Interfaces.ExportAsDefaultIgnored` shows that the
src/ flag has no effect on the output.

Methods and properties in src/CGMethod.ts and src/CGProperty.ts call the
helpers in camelCase (`getComment`, `appendLine`). The bundled src/index.ts
calls the same helpers in PascalCase, and the model treats the two spellings
as one.

Inputs and outputs:

- `tab` is an `int`, as the source's `number` is used. A level of 0 or below indents by nothing.
- The JavaScript `Date` is the `Date(year, month, day)` fields the helper reads.
- Strings are `seq<char>`.
- No I/O happens anywhere in the core.

## Model

| member | source | states |
|---|---|---|
| Buffer.StringBuilder.constructor | src/StringBuilder.ts:8-10 | a builder made from "" (which also stands for an absent initial string) is empty; otherwise its text is exactly the initial string |
| Buffer.StringBuilder.Length | src/StringBuilder.ts:4-6 | the length is the sum of the fragment lengths, i.e. the length of the concatenated text |
| Buffer.StringBuilder.Append | src/StringBuilder.ts:12-15 | the fragment goes at the end, earlier fragments are untouched, the text grows by exactly `text` (the old text is a prefix), Length grows by its length, and the builder itself is returned |
| Buffer.StringBuilder.AppendLine | src/StringBuilder.ts:17-20 | appends `text` + "\n" as one fragment (just "\n" with the default argument), Length grows by its length plus one, the old text stays a prefix, the builder is returned |
| Buffer.StringBuilder.Clear | src/StringBuilder.ts:26-28 | no fragments remain; the text is "" and Length is 0 |
| Access.CGAccess.Text | src/index.ts:108-112 | the enum's string value; it is "public" exactly for Public |
| Access.TextInjective | src/index.ts:108-112 | the three string values are distinct, so the text determines the access modifier |
| CGHelper.Indent | src/CGHelper.ts:114-120 | four spaces per level for a positive level, nothing for a level <= 0; only spaces |
| CGHelper.Tab | src/CGHelper.ts:114-120 | the loop that adds "    " once per level returns `Indent(tab)` |
| CGHelper.IndentPrefix | src/CGHelper.ts:114-120 | a deeper indentation starts with a shallower one |
| CGHelper.Separator | src/CGHelper.ts:26-33 | "// " followed by exactly fifty '-': 53 characters and no newline |
| CGHelper.BeautyLine | src/CGHelper.ts:26-33 | the fifty appends of "-" into a local builder after "// " produce `Separator()` |
| CGHelper.TwoDigits | src/CGHelper.ts:6-7 | a month or day below 100, zero-padded to two, is exactly two digits that read back as the number |
| CGHelper.FormatDateRoundTrip | src/CGHelper.ts:4-9 | "year-MM-DD" reads back as the same year, month and day (negative years included) whenever month and day have at most two digits |
| CGHelper.FileHeaderFrame | src/CGHelper.ts:12-23 | the header text begins with the separator line and "// Author: a", and ends with "// Version: v", "// Description: c" and the separator, each newline-terminated |
| CGHelper.FileHeaderDateLine | src/CGHelper.ts:12-23 | the header has six lines with a date and five without; a "// Date: " line occurs exactly when a date is given, as the third line, carrying the formatted date |
| CGHelper.GetComment | src/CGHelper.ts:36-38 | indentation, "/** ", the content verbatim, " */" |
| CGHelper.GetClassDecorator | src/CGHelper.ts:40-42 | indentation, "@", the decorator verbatim |
| CGHelper.ClassDeclarationExport | src/CGHelper.ts:45-66 | "export " follows the indentation exactly when exported, "export default " exactly when both flags are set, and an unexported declaration starts with "class " + name |
| CGHelper.LegacyClassDeclarationExport | CGHelper.ts:41-71 | the root-level declaration follows the same export rule |
| CGHelper.LegacyHeritageShape | CGHelper.ts:53-68 | " extends" is written exactly when there is a base class or an interface; base and interfaces are separated by ", " only when both exist; "implements" never appears |
| CGHelper.LegacyDeclarationWithoutInterfaces | CGHelper.ts:53-68 | without interfaces the root-level declaration equals the src/ one |
| CGHelper.InterfaceDeclarationExport | src/CGHelper.ts:69-78 | "export " follows the indentation exactly when exported, "export default " never does, and the line ends with "interface " + name |
| CGHelper.GetPropertyDeclaration | src/CGHelper.ts:81-95 | indentation, the access text unless "public" (no space after it), " static " when static, "name: type", then " = value;" when the default is non-empty and ";" otherwise; prefix, suffix and length together fix the whole text |
| CGHelper.MethodDeclarationShape | src/CGHelper.ts:98-111 | indentation, the access text (always), " static"?, " get"?, " name(", the parameters joined with ", ", "):", then " " and the return type or "void"; prefix, suffix and length together fix the whole text |
| CGHelper.CommentLines | src/CGProperty.ts:22-24 | at most one line; present exactly when the comment has a non-whitespace character; then it is `GetComment(comment, tab)` |
| CGHelper.WriteComment | src/CGInterface.ts:20-22 | appends the comment line when there is one, else nothing |
| CGHelper.OpenBlock | src/CGInterface.ts:20-26 | appends the comment line, then the declaration and " {" as one line |
| CGHelper.BeginCodeBlock | src/CGHelper.ts:123-125 | appends exactly " {\n" as one fragment |
| CGHelper.EndCodeBlock | src/CGHelper.ts:128-130 | appends exactly Tab(tab) + "}\n" as one fragment |
| CGHelper.BeginRegion | src/CGHelper.ts:133-135 | appends exactly Tab(tab) + "// #region " + content + "\n" |
| CGHelper.EndRegion | src/CGHelper.ts:138-140 | appends exactly Tab(tab) + "// #endregion\n" |
| CGHelper.ClosesOnce | src/CGHelper.ts:128-130 | for tab >= 0, a block's closing line cannot occur among comment or decorator lines, the declaration line, or body lines indented one level deeper |
| CGHelper.BlockShape | src/CGInterface.ts:25-34 | for tab >= 0, a block is its head lines, the declaration with " {", the body, and the closing line, which occurs exactly once (multiset count 1) |
| Strings.TrimStartSpec | src/CGProperty.ts:22 | `trimStart` keeps a suffix, everything it drops is whitespace, and what it keeps starts with a non-whitespace character |
| Strings.TrimEndSpec | src/CGProperty.ts:22 | `trimEnd` keeps a prefix, everything it drops is whitespace, and what it keeps ends with a non-whitespace character |
| Strings.HasContentIff | src/CGProperty.ts:22 | `trim().length > 0` exactly when some character is not whitespace |
| Strings.IntRoundTrip | src/CGHelper.ts:5 | an integer's decimal text parses back to the integer |
| Strings.PadStart | src/CGHelper.ts:6-7 | `padStart` reaches the width (or keeps a longer string) and ends with the original string |
| Strings.LeadingZeros | src/CGHelper.ts:6-7 | padding a decimal with '0' keeps it all digits and keeps its value |
| Parameters.FalsyValues | src/CGParameter.ts:16 | the defaults that leave out " = " are exactly undefined, null, "", 0 and false |
| Parameters.ParameterText | src/CGParameter.ts:13-20 | the text starts with "name: type" and is longer exactly when the default is truthy, in which case the rest is " = " and the default's text |
| Parameters.ParameterTextOneLine | src/CGParameter.ts:13-20 | the text has no newline when its parts have none |
| Parameters.TruthyDefaultExample | src/CGParameter.ts:16-18 | a `true` default gives "flag: boolean = true" |
| Parameters.EmptyFieldExamples | src/CGParameter.ts:15 | an empty name gives ": string"; an empty type with a zero default gives "param: " |
| Parameters.CGParameter.constructor | src/CGParameter.ts:5-7 | a new parameter has type "", name "any" and no default |
| Parameters.FreshParameterText | src/CGParameter.ts:5-7 | a new parameter prints as "any: " |
| Parameters.CGParameter.ToString | src/CGParameter.ts:13-20 | the text built in a local buffer is `ParameterText` of the current value |
| Parameters.CGParameter.WriteTo | src/CGParameter.ts:9-11 | appends exactly the parameter text, no newline, whatever tab is |
| Properties.EffectiveType | src/CGProperty.ts:27 | the declared type is never empty; a non-empty type is kept |
| Properties.UntypedIsAny | src/CGProperty.ts:27 | a property with an empty type writes exactly what the same property typed "any" writes |
| Properties.AccessWritten | src/CGHelper.ts:84-86 | the access text is left out exactly for public, and private/protected are written verbatim |
| Properties.PrivateDeclaration | src/CGHelper.ts:81-95 | a private, non-static "testProp" of type string declares "privatetestProp: string;" |
| Properties.PropertyLinesShape | src/CGProperty.ts:20-29 | one line, or two with a comment; the comment line comes first; the last is the declaration; every line carries the indentation |
| Properties.CGProperty.constructor | src/CGProperty.ts:8-18 | new property: no comment, public, not static, type "any", empty name and default |
| Properties.CGProperty.WriteTo | src/CGProperty.ts:20-29 | appends exactly the property's lines; the text already in the buffer is kept as a prefix |
| Properties.PropertyBlocksAt | src/CGInterface.ts:29-31 | the i-th property's lines sit between those of the properties before and after it |
| Properties.PropertyBlocksIndented | src/CGInterface.ts:29-31 | every property line carries the indentation it was written at |
| Properties.WriteProperties | src/CGInterface.ts:29-31 | the loop appends every property's lines in list order and leaves the property values unchanged |
| Methods.ParameterTexts | src/CGMethod.ts:41 | one text per parameter, in order, each its `ToString` |
| Methods.ReturnType | src/CGMethod.ts:40 | the return type is never empty; an empty one becomes "void" and a non-empty one is kept |
| Methods.BodyLines | src/CGMethod.ts:45 | one line per code string, verbatim and in order, after the indentation |
| Methods.MethodLinesShape | src/CGMethod.ts:33-47 | for tab >= 0: after the optional comment, the declaration line starts with access, " static"?, " get"?, name and the joined parameters and ends with "): type {"; the code lines follow in order at tab+1; the one closing line comes last |
| Methods.MethodLinesIndented | src/CGMethod.ts:33-47 | for tab >= 0, every line of a method is indented at least to the method's level |
| Methods.NegativeLevelClosesTwice | src/CGMethod.ts:44-46 | at tab = -1 a body code "}" is written as a second closing line, so the closing line occurs twice; this is why the single-close lemmas require tab >= 0 |
| Methods.CGMethod.constructor | src/CGMethod.ts:9-23 | a new method is public, not static, not read-only, returns "void", and has no name, parameters or code |
| Methods.CGMethod.AppendCodes | src/CGMethod.ts:25-27 | the code lines are appended at the end in argument order, everything else kept |
| Methods.CGMethod.AddParameters | src/CGMethod.ts:29-31 | the parameters are appended at the end in argument order, everything else kept |
| Methods.CGMethod.WriteTo | src/CGMethod.ts:33-47 | appends exactly the method's lines |
| Methods.ParameterStrings | src/CGMethod.ts:41 | the `map(p => p.ToString())` loop gives the texts of the parameters' current values |
| Methods.WriteBody | src/CGMethod.ts:45 | the `forEach` appends one indented line per code string, in order |
| Methods.BodyLinesSnoc | src/CGMethod.ts:45 | the body of the first i+1 codes is the body of the first i followed by the indented code i |
| Methods.MethodBlocksAt | src/CGClass.ts:77-79 | the i-th method's lines sit between those of the methods before and after it |
| Methods.WriteMethods | src/CGClass.ts:77-79 | the loop appends every method's lines in list order and leaves the method values unchanged |
| Interfaces.InterfaceLinesShape | src/CGInterface.ts:18-35 | for tab >= 0: optional comment, the declaration with " {", the properties' lines at tab+1 in order, and the closing line once, at the end; no region markers |
| Interfaces.InterfaceExport | src/CGInterface.ts:25 | "export " appears exactly when the interface is exported; "export default " never does |
| Interfaces.ExportAsDefaultIgnored | src/CGInterface.ts:10-25 | the default-export flag has no effect on the output |
| Interfaces.EmptyInterface | src/CGInterface.ts:26-34 | an interface without properties is its comment, the declaration with " {", and the closing line |
| Interfaces.CGInterface.constructor | src/CGInterface.ts:7-12 | a new interface has no comment, no name, no export flags and no properties |
| Interfaces.CGInterface.AddProperty | src/CGInterface.ts:14-16 | the property is appended at the end |
| Interfaces.CGInterface.WriteTo | src/CGInterface.ts:18-35 | appends exactly the interface's lines |
| Interfaces.WriteMembers | src/CGInterface.ts:28-32 | the guarded loop appends every property's lines, and nothing for an empty list |
| Classes.ClassLinesShape | src/CGClass.ts:37-84 | for tab >= 0: after the comment and decorators the declaration opens the block, the member regions follow, and the closing line occurs once, at the end |
| Classes.ClassDecoratorsInOrder | src/CGClass.ts:44-46 | the decorator lines come right after the optional comment and before the declaration, one per decorator, in add order |
| Classes.PropertiesRegionPresent | src/CGClass.ts:61-67 | for tab >= 0, a "Properties" region start is in the body exactly when there is a property |
| Classes.MethodsRegionPresent | src/CGClass.ts:75-81 | for tab >= 0, a "Methods" region start is in the body exactly when there is a method |
| Classes.BlankLinePresent | src/CGClass.ts:69-71 | for tab >= 0, a blank line is in the body exactly when there are both properties and methods |
| Classes.RegionsInOrder | src/CGClass.ts:61-81 | the body opens with the Properties region wrapping the properties in order, and closes with the Methods region wrapping the methods in order |
| Classes.MarkerLines | src/CGClass.ts:63-80 | region markers are distinct from each other and from every member line |
| Classes.ClassBodyIndented | src/CGClass.ts:61-81 | for tab >= 0, every body line is blank or indented one level deeper than the class |
| Classes.AccessIgnored | src/CGClass.ts:10 | the class's access field does not affect the output |
| Classes.EmptyClass | src/CGClass.ts:59-83 | a class without members is its comment, decorators, declaration with " {", and closing line |
| Classes.LegacyClassLinesShape | CGClass.ts:36-78 | for tab >= 0, the root-level class: optional comment, the root-level declaration (no decorator lines), the same regions, one closing line at the end |
| Classes.LegacyAgreesWithoutInterfaces | CGClass.ts:42-53 | without decorators and interfaces the root-level class writes what the src/ class writes |
| Classes.WriteDecorators | src/CGClass.ts:44-46 | the `forEach` appends one decorator line per decorator, in order |
| Classes.WritePropertiesRegion | src/CGClass.ts:61-72 | appends the Properties region, then the blank line when there are also methods; nothing without properties |
| Classes.WriteMethodsRegion | src/CGClass.ts:75-81 | appends the Methods region; nothing without methods |
| Classes.WriteClassBody | src/CGClass.ts:61-81 | appends exactly the class body lines for the members' current values |
| Classes.WriteClassBlock | src/CGClass.ts:39-83 | appends comment, decorators, declaration with " {", body and closing line |
| Classes.WriteLegacyClassBlock | CGClass.ts:38-77 | appends comment, declaration with " {", body and closing line |
| Classes.CGClass.constructor | src/CGClass.ts:9-19 | a new class is public, unnamed, without base class, export flags, decorators, interfaces or members |
| Classes.CGClass.AddDecorator | src/CGClass.ts:21-23 | the decorator is appended at the end, everything else kept |
| Classes.CGClass.AddImplementInterface | src/CGClass.ts:25-27 | the interface name is appended at the end, everything else kept |
| Classes.CGClass.AddProperty | src/CGClass.ts:29-31 | the property is appended at the end, everything else kept |
| Classes.CGClass.AddMethod | src/CGClass.ts:33-35 | the method is appended at the end, everything else kept |
| Classes.CGClass.WriteTo | src/CGClass.ts:37-84 | appends exactly the class's lines |
| Classes.LegacyCGClass.constructor | CGClass.ts:9-22 | the same defaults as the src/ class |
| Classes.LegacyCGClass.Properties | CGClass.ts:18-20 | the getter returns the property objects, whose values are the class's properties in add order |
| Classes.LegacyCGClass.AddImplementInterface | CGClass.ts:24-26 | the interface name is appended at the end |
| Classes.LegacyCGClass.AddProperty | CGClass.ts:28-30 | the property is appended at the end |
| Classes.LegacyCGClass.AddMethod | CGClass.ts:32-34 | the method is appended at the end |
| Classes.LegacyCGClass.WriteTo | CGClass.ts:36-78 | appends exactly the root-level class's lines |
| Declarations.ClassDeclarationRoundTrip | src/CGHelper.ts:45-66 | reading a class declaration back (split on spaces) gives its level, name, base class, interface list, export flag, and default flag exactly when exported, for names without spaces |
| Declarations.ClassDeclarationKeepsBaseApart | src/CGHelper.ts:57-63 | for every name, base class B and interface list I..., base class B with interfaces I... and no base class with interfaces B, I... give different declarations |
| Declarations.LegacyBaseInterfaceCollision | CGHelper.ts:53-68 | the root-level declaration writes the same text for base class B with interfaces I... and for interfaces B, I... |
| Declarations.InterfaceDeclarationRoundTrip | src/CGHelper.ts:69-78 | reading an interface declaration back gives its level, its name (any characters, spaces included) and its export flag |
| Declarations.ListWordsRoundTrip | src/CGHelper.ts:62 | a non-empty interface list joined with ", ", read as words, gives back the same list |
| Files.FileNameParts | src/CGFile.ts:12-14 | `FileName` is the name, ".", and the extension, and splits back into them |
| Files.FilePathParts | src/CGFile.ts:16-18 | `FilePath` is the directory, "/", and the file name, and splits back into them |
| Files.FileBegins | src/CGFile.ts:48-60 | the file opens with the header lines, a blank line, one "import x;" per import in order, a blank line, the indented supplements in order, and a blank line |
| Files.FileTextStartsWithHeader | src/CGFile.ts:48-49 | the file text (both variants) starts with the header text followed by one more newline |
| Files.InterfacesInOrder | src/CGFile.ts:62-67 | interface k's section sits after the intro and the sections of the interfaces before it, ahead of the later interfaces and of all classes |
| Files.ClassesInOrder | src/CGFile.ts:69-74 | class k's section sits after the intro, all interfaces and the earlier classes, ahead of the later classes |
| Files.InterfaceSectionShape | src/CGFile.ts:63-66 | an interface section is "// #region Interface <name>", the interface's lines, "// #endregion" and a blank line |
| Files.ClassSectionShape | src/CGFile.ts:70-73 | a class section is "// #region Class <name>", the class's lines, "// #endregion" and a blank line |
| Files.EmptyFile | src/CGFile.ts:62-74 | with nothing added, the header is followed by three blank lines (two in the root-level variant) and nothing else |
| Files.SameClassSections | CGFile.ts:58-63 | root-level class sections equal the src/ ones for classes without decorators or interfaces |
| Files.SupplementsBlankLine | CGFile.ts:42-64 | a src/ file without supplements writes the root-level text with one extra blank line after the imports' blank line |
| Files.LegacyFileBegins | CGFile.ts:43-49 | the root-level file opens with the header, a blank line, the imports and a blank line, and has no supplement section |
| Files.WriteImports | src/CGFile.ts:51-53 | the `forEach` appends one "import x;" line per import, in order |
| Files.WriteSupplements | src/CGFile.ts:57-59 | the `forEach` appends one indented line per supplement, in order |
| Files.WriteIntro | src/CGFile.ts:48-60 | appends the header, the blank line, the imports, a blank line, the supplements and a blank line |
| Files.WriteLegacyIntro | CGFile.ts:43-49 | appends the header, the blank line, the imports and a blank line |
| Files.WriteInterfaceSection | src/CGFile.ts:63-66 | appends one interface's section |
| Files.WriteInterfaceSections | src/CGFile.ts:62-67 | the `forEach` appends every interface section in order and leaves the interfaces' values unchanged |
| Files.WriteClassSection | src/CGFile.ts:70-73 | appends one class's section |
| Files.WriteClassSections | src/CGFile.ts:69-74 | the `forEach` appends every class section in order |
| Files.WriteEntities | src/CGFile.ts:62-74 | appends all interface sections, then all class sections |
| Files.WriteLegacyClassSections | CGFile.ts:58-63 | the `forEach` appends every root-level class section in order |
| Files.WriteLegacyEntities | CGFile.ts:51-63 | appends all interface sections, then all root-level class sections |
| Files.InterfaceModelsSnoc | src/CGFile.ts:39-41 | appending an interface object appends its value |
| Files.ClassModelsSnoc | src/CGFile.ts:43-45 | appending a class object appends its value |
| Files.CGFile.constructor | src/CGFile.ts:8-29 | a new file has extension "ts", no date, every other string "" and every list empty |
| Files.CGFile.AddImport | src/CGFile.ts:31-33 | the import is appended at the end, everything else kept |
| Files.CGFile.AddSupplement | src/CGFile.ts:35-37 | the supplement is appended at the end, everything else kept |
| Files.CGFile.AddInterface | src/CGFile.ts:39-41 | the interface is appended at the end, everything else kept |
| Files.CGFile.AddClass | src/CGFile.ts:43-45 | the class is appended at the end, everything else kept |
| Files.CGFile.WriteTo | src/CGFile.ts:47-75 | appends exactly the file's lines: intro, interface sections, class sections |
| Files.LegacyCGFile.constructor | CGFile.ts:8-28 | the same defaults, without supplements |
| Files.LegacyCGFile.AddImport | CGFile.ts:30-32 | the import is appended at the end |
| Files.LegacyCGFile.AddInterface | CGFile.ts:34-36 | the interface is appended at the end |
| Files.LegacyCGFile.AddClass | CGFile.ts:38-40 | the root-level class is appended at the end |
| Files.LegacyCGFile.WriteTo | CGFile.ts:42-64 | appends exactly the root-level file's lines |

## Left out

- JavaScript `Date` is left out, together with its local-time field extraction and time zones. A date is the (year, month, day) the helper reads.
- Pushing non-string values into the buffer, and JavaScript coercion in general, is left out. Strings only. `CGParameter.DefaultValue` is limited to undefined, null, a string, an integer or a boolean.
- Non-integer numbers are left out: floats would have a different decimal text.
- The `ICGGenerator` interface is left out. It is a signature with no behaviour.
- Writing the generated text to `FilePath` is left out. No such code exists in the repository.
- The type-level mismatches are not modelled: src/CGProperty.ts and src/CGMethod.ts call the helpers in camelCase, and src/CGInterface.ts:25 passes a fourth argument. Both are read as the bundled src/index.ts reads them.
- Files.FileName, Files.FilePath: the getters are module functions of the three fields rather than members of `CGFile`, so that both file classes share them.
- `trim()` uses the ECMAScript WhiteSpace and LineTerminator characters, not a shorter list.
- Declarations.ClassDeclarationRoundTrip: it is stated only for names and interface names without spaces. With a space the words cannot be read back: class name "A extends B" without a base class and class name "A" with base class "B" write the same line.
- Declarations.ListWordsRoundTrip: it reads back a list of words, the form the class round trip uses. Turning a line into words by splitting on spaces needs space-free items, which `ListWordsNoSpace` carries; the lemma itself needs only a non-empty list.
- Below level 0 the single-close and indentation lemmas (CGHelper.ClosesOnce, CGHelper.BlockShape, Methods.MethodLinesShape, Methods.MethodLinesIndented, Interfaces.InterfaceLinesShape, Classes.ClassLinesShape, Classes.LegacyClassLinesShape, Classes.PropertiesRegionPresent, Classes.MethodsRegionPresent, Classes.BlankLinePresent, Classes.ClassBodyIndented) are stated only for tab >= 0. A negative level indents nothing at both the block's level and the body's level, so these facts fail there; Methods.NegativeLevelClosesTwice shows it.
- `char` is a Unicode scalar value, while JavaScript's `.length` counts UTF-16 code units. Buffer.StringBuilder.Length therefore counts 1 for a character outside the Basic Multilingual Plane, where src/StringBuilder.ts:4-6 and StringBuilder.ts:5-7 give 2.
- An integer default is written as all its decimal digits (`IntToDecimal`). `${n}` in src/CGParameter.ts:17 writes exponent form from 1e21 up ("1e+21"), and it rounds integers above 2^53; neither is modelled.
- Classes.LegacyCGClass.Properties returns the list of property objects as a `seq` value. The root-level getter (CGClass.ts:18-20) returns the live `mProperties` array, so a caller's `push` on it adds a property to the class; that write path is not modelled.
- CGHelper.ClassDeclarationExport: it says where "export default " starts the line. It does not claim that the word "default" appears nowhere else, since a class name may be "default".
- The test expectation "export default interface" is not produced by the shown helper (src/CGHelper.ts:69-78). The model follows the code: Interfaces.ExportAsDefaultIgnored.
- Members whose contracts use `old` or `unchanged` are stated on the objects and carry the `WriteTo` results. They are twostate lemmas, adders, `WriteTo` methods and constructors. Their values-level partners are the lemmas on the lines functions.
- Aliasing between entities of different levels is not modelled, for example one CGProperty object held by two classes that are written at once. A child is only read during `WriteTo`, so sharing does not change the output.

## Findings

| source | as written | input that shows it | evidently intended | confidence | as-written member | corrected member |
|---|---|---|---|---|---|---|
| CGHelper.ts:53-68 | the root-level class declaration writes " extends" for a base class and also for implemented interfaces, and separates them only by a comma | base class "B" with interfaces ["I"], and no base class with interfaces ["B", "I"], both give "class X extends B, I" | " extends B" for the base class and " implements I" for the interfaces, as src/CGHelper.ts:57-63 writes, so the two inputs stay apart | not executed | Declarations.LegacyBaseInterfaceCollision | Declarations.ClassDeclarationKeepsBaseApart |
