/**
 * `parseFile`: the lines of the file go through the line handler, and the
 * schema it builds, once the stream closes, through the DDL generator.
 */
module Pipeline {
  import opened Results
  import opened Uml
  import opened Parser
  import opened ParserProperties
  import opened Generator
  import opened GeneratorProperties

  /** Why `parseFile` produces no statement: the line handler threw, or
      the generator did. */
  datatype ConvertError = ParseFailed(parse: ParseError) | GenerateFailed(generate: GenError)

  /** What `parseFile` settles with for a file of `lines`. */
  function Convert(lines: seq<string>): (r: Result<string, ConvertError>)
    ensures Parse(lines).Err? ==> r == Err(ParseFailed(Parse(lines).error))
    ensures r.Ok? ==> Parse(lines).Ok?
  {
    match Parse(lines)
    case Err(e) => Err(ParseFailed(e))
    case Ok(u) =>
      ParsedWellFormed(lines);
      match Generate(u)
      case Err(e) => Err(GenerateFailed(e))
      case Ok(ddl) => Ok(ddl)
  }

  /** `parseFile` over the lines of a file. */
  method ParseFile(lines: seq<string>) returns (r: Result<string, ConvertError>)
    ensures r == Convert(lines)
  {
    var parsed := ParseLines(lines);
    if parsed.Err? {
      return Err(ParseFailed(parsed.error));
    }
    ParsedWellFormed(lines);
    var generated := GenerateDdl(parsed.value);
    if generated.Err? {
      return Err(GenerateFailed(generated.error));
    }
    return Ok(generated.value);
  }

  /** A file converts exactly when the line handler never throws and every
      reference in the schema it builds leads to an existing column. */
  lemma ConvertOk(lines: seq<string>)
    ensures Convert(lines).Ok? <==> Parse(lines).Ok? && AllRefsResolve(Parse(lines).value)
  {
    if Parse(lines).Ok? {
      ParsedWellFormed(lines);
      GenerateOk(Parse(lines).value);
    }
  }

  /** The statements of a converted file are one per table, in the order
      the tables were first declared, each listing the table's columns in
      the order they were first declared. */
  lemma ConvertRenders(lines: seq<string>)
    ensures Convert(lines).Ok? ==>
              var u := Parse(lines).value;
              Shaped(u) && Resolve(u).Ok? && Convert(lines).value == Render(Resolve(u).value, u.keys)
  {
    if Parse(lines).Ok? {
      ParsedWellFormed(lines);
      GenerateRenders(Parse(lines).value);
    }
  }
}
