/** A parameter of a generated method (src/CGParameter.ts). */
module Parameters {
  import opened Strings
  import opened Buffer

  /**
   * The untyped `DefaultValue` field, restricted to the JavaScript values a
   * generator assigns to it: absent, null, a string, an integer or a boolean.
   */
  datatype DefaultValue = Undefined | Null | Str(s: string) | Num(n: int) | Bool(b: bool)

  /** JavaScript truthiness, which decides whether " = value" is written. */
  predicate Truthy(v: DefaultValue) {
    match v
    case Undefined => false
    case Null => false
    case Str(s) => s != ""
    case Num(n) => n != 0
    case Bool(b) => b
  }

  /** The falsy values are exactly undefined, null, "", 0 and false. */
  lemma FalsyValues(v: DefaultValue)
    ensures !Truthy(v) <==> v in {Undefined, Null, Str(""), Num(0), Bool(false)}
  {
  }

  /** The value as a template literal `${...}` turns it into text. */
  function DefaultText(v: DefaultValue): string {
    match v
    case Undefined => "undefined"
    case Null => "null"
    case Str(s) => s
    case Num(n) => IntToDecimal(n)
    case Bool(b) => if b then "true" else "false"
  }

  datatype Parameter = Parameter(typeName: string, name: string, defaultValue: DefaultValue)

  /**
   * `ToString`: "name: type", followed by " = " and the default value exactly
   * when the default value is truthy.
   */
  function ParameterText(p: Parameter): (r: string)
    ensures StartsWith(r, p.name + ": " + p.typeName)
    ensures Truthy(p.defaultValue) <==> |r| > |p.name + ": " + p.typeName|
    ensures Truthy(p.defaultValue) ==> r[|p.name + ": " + p.typeName|..] == " = " + DefaultText(p.defaultValue)
  {
    var head := p.name + ": " + p.typeName;
    var r := head + (if Truthy(p.defaultValue) then " = " + DefaultText(p.defaultValue) else "");
    assert r[..|head|] == head;
    r
  }

  /** A parameter's text stays on one line when its parts do. */
  lemma ParameterTextOneLine(p: Parameter)
    requires '\n' !in p.name && '\n' !in p.typeName && '\n' !in DefaultText(p.defaultValue)
    ensures '\n' !in ParameterText(p)
  {
    var head := p.name + ": " + p.typeName;
    var tail := if Truthy(p.defaultValue) then " = " + DefaultText(p.defaultValue) else "";
    assert ParameterText(p) == head + tail;
    assert '\n' !in head;
    assert '\n' !in tail;
  }

  /** A truthy default is written after " = ". */
  lemma TruthyDefaultExample()
    ensures ParameterText(Parameter("boolean", "flag", Bool(true))) == "flag: boolean = true"
  {
  }

  /** Empty fields pass through, and a zero default is left out. */
  lemma EmptyFieldExamples()
    ensures ParameterText(Parameter("string", "", Undefined)) == ": string"
    ensures ParameterText(Parameter("", "param", Num(0))) == "param: "
  {
  }

  class CGParameter {
    var typeName: string
    var name: string
    var defaultValue: DefaultValue

    /** The field initialisers: type "", name "any", no default value. */
    constructor ()
      ensures Model() == Parameter("", "any", Undefined)
    {
      typeName := "";
      name := "any";
      defaultValue := Undefined;
    }

    function Model(): Parameter
      reads this
    {
      Parameter(typeName, name, defaultValue)
    }

    /** `ToString`, built in a buffer of its own. */
    method ToString() returns (s: string)
      ensures s == ParameterText(Model())
    {
      var sb := new StringBuilder("");
      var _ := sb.Append(name + ": " + typeName);
      if Truthy(defaultValue) {
        var _ := sb.Append(" = " + DefaultText(defaultValue));
      }
      s := sb.ToString();
    }

    /** `WriteTo`: the parameter text with no newline; the indentation argument is unused. */
    method WriteTo(writer: StringBuilder, tab: int)
      modifies writer
      ensures writer.ToString() == old(writer.ToString()) + ParameterText(Model())
    {
      var s := ToString();
      var _ := writer.Append(s);
    }
  }

  /** A freshly constructed parameter prints as "any: ". */
  lemma FreshParameterText()
    ensures ParameterText(Parameter("", "any", Undefined)) == "any: "
  {
  }
}
