/**
 * The byte argument: a command argument whose parser reads one token as a
 * signed 8-bit decimal and accepts it only within configured bounds.
 */
module ByteArguments {
  import opened Results
  import opened JavaNumbers
  import opened JavaText
  import opened ArgumentParsers
  import CommandArguments

  /** Parses one token as a byte in [min, max]. */
  datatype ByteParser = ByteParser(min: Byte, max: Byte) {

    /**
     * What a parse does to a queue holding `tokens`: it succeeds exactly when
     * the head token is a byte within [min, max], and then consumes that token
     * and no other; every failure leaves the queue as it was and, on a
     * non-empty queue, reports the head token with the bounds.
     */
    function Apply(tokens: seq<string>): (step: ParseStep<Byte>)
      ensures step.result.Success? <==>
                tokens != [] && ParseByte(tokens[0]).Some? && min <= ParseByte(tokens[0]).value <= max
      ensures step.result.Success? ==> step.result.value == ParseByte(tokens[0]).value && step.rest == tokens[1..]
      ensures step.result.Failure? ==> step.rest == tokens
      ensures step.result.Failure? && tokens == [] ==> step.result.error == NoInputProvided
      ensures step.result.Failure? && tokens != [] ==> step.result.error == ByteParseError(tokens[0], min, max)
    {
      if tokens == [] then
        ParseStep(Failure(NoInputProvided), tokens)
      else
        match ParseByte(tokens[0])
        case None => ParseStep(Failure(ByteParseError(tokens[0], min, max)), tokens)
        case Some(value) =>
          if value < min || value > max then ParseStep(Failure(ByteParseError(tokens[0], min, max)), tokens)
          else ParseStep(Success(value), tokens[1..])
    }

    /**
     * `parse`: peeks at the head of the caller's queue and removes it only
     * when it is a byte within the bounds.
     */
    method Parse(queue: TokenQueue) returns (r: ParseResult<Byte>)
      modifies queue
      ensures ParseStep(r, queue.tokens) == Apply(old(queue.tokens))
      ensures r.Success? ==> old(queue.tokens) != [] && queue.tokens == old(queue.tokens)[1..]
      ensures r.Failure? ==> queue.tokens == old(queue.tokens)
    {
      var input := queue.Peek();
      if input.None? {
        return Failure(NoInputProvided);
      }
      var value := ParseByte(input.value);
      if value.None? {
        return Failure(ByteParseError(input.value, min, max));
      }
      if value.value < min || value.value > max {
        return Failure(ByteParseError(input.value, min, max));
      }
      var _ := queue.Remove();
      return Success(value.value);
    }

    /** A byte parse depends on the token alone. */
    function IsContextFree(): (r: bool)
      ensures r
    {
      true
    }

    /** This parser as the capability a command argument holds. */
    function AsArgumentParser(): (p: ArgumentParser<Byte>)
      ensures forall tokens :: p.parse(tokens) == Apply(tokens)
    {
      ArgumentParser(tokens => Apply(tokens))
    }
  }

  /** The byte parser keeps the parser contract. */
  lemma ByteParserKeepsContract(p: ByteParser)
    ensures ConsumesOnlyOnSuccess(p.AsArgumentParser())
  {
  }

  /** A parser whose minimum exceeds its maximum accepts nothing. */
  lemma InvertedBoundsRejectEverything(p: ByteParser, tokens: seq<string>)
    requires p.min > p.max
    ensures p.Apply(tokens).result.Failure? && p.Apply(tokens).rest == tokens
  {
  }

  /**
   * The string `Byte.toString(n)` parses back to `n`, consuming just itself,
   * whenever `n` lies within the parser's bounds.
   */
  lemma DefaultValueRoundTrip(p: ByteParser, n: Byte, rest: seq<string>)
    requires p.min <= n <= p.max
    ensures p.Apply([ByteToString(n)] + rest) == ParseStep(Success(n), rest)
  {
    ByteToStringRoundTrip(n);
  }

  /**
   * With the default bounds, "42" parses to 42 and "200" fails, naming the
   * token and the bounds; neither bound counts as configured.
   */
  lemma DefaultBoundsExamples(rest: seq<string>)
    ensures ByteParser(-128, 127).Apply(["42"] + rest) == ParseStep(Success(42), rest)
    ensures ByteParser(-128, 127).Apply(["200"] + rest) ==
              ParseStep(Failure(ByteParseError("200", -128, 127)), ["200"] + rest)
    ensures !ByteParseError("200", -128, 127).HasMin() && !ByteParseError("200", -128, 127).HasMax()
  {
    ParseByteExamples();
    ParseByteRejectsOutOfRange();
    assert (["42"] + rest)[0] == "42" && (["42"] + rest)[1..] == rest;
    assert (["200"] + rest)[0] == "200";
  }

  /**
   * A byte argument: a command argument of the byte argument class whose
   * parser is the byte parser for the argument's own bounds.
   */
  class ByteArgument {
    const argument: CommandArguments.CommandArgument<Byte>
    const min: Byte
    const max: Byte

    /** The byte argument's parser is always the byte parser for its bounds. */
    ghost predicate Valid() {
      && argument.argumentClass == CommandArguments.ByteArgumentClass
      && argument.parser == ByteParser(min, max).AsArgumentParser()
    }

    constructor (argument: CommandArguments.CommandArgument<Byte>, min: Byte, max: Byte)
      requires argument.argumentClass == CommandArguments.ByteArgumentClass
      requires argument.parser == ByteParser(min, max).AsArgumentParser()
      ensures this.argument == argument && this.min == min && this.max == max
      ensures Valid()
    {
      this.argument := argument;
      this.min := min;
      this.max := max;
    }

    /**
     * The private constructor: a command argument of the byte argument class
     * with a fresh `ByteParser(min, max)`; it fails as the command argument
     * constructor does, on a name with no ASCII letter or digit.
     */
    static method New(required: bool, name: string, min: Byte, max: Byte, defaultValue: string)
      returns (r: Result<ByteArgument, CommandArguments.ArgumentError>)
      ensures r.Err? <==> !NamePatternFinds(name)
      ensures r.Err? ==> r.error == CommandArguments.NameNotAlphanumeric(name)
      ensures r.Ok? ==> fresh(r.value) && fresh(r.value.argument) && r.value.Valid()
      ensures r.Ok? ==> r.value.min == min && r.value.max == max && r.value.argument.owningCommand == None
      ensures r.Ok? ==> r.value.argument.required == required && r.value.argument.name == name
      ensures r.Ok? ==> r.value.argument.defaultValue == defaultValue
    {
      var argument := CommandArguments.CommandArgument<Byte>.New(
        CommandArguments.ByteArgumentClass, required, name, ByteParser(min, max).AsArgumentParser(), defaultValue);
      match argument
      case Err(e) =>
        return Err(e);
      case Ok(a) =>
        var b := new ByteArgument(a, min, max);
        return Ok(b);
    }
  }

  /**
   * The byte argument builder: the generic builder's state plus the bounds,
   * which start at the byte type's own.
   */
  class Builder {
    const base: CommandArguments.Builder<Byte>
    var min: Byte
    var max: Byte

    /** `ByteArgument.newBuilder(name)`. */
    constructor (name: string)
      ensures fresh(base) && base.name == name && base.manager == None
      ensures base.required && base.parser == None && base.defaultValue == ""
      ensures min == ByteMinValue && max == ByteMaxValue
    {
      base := new CommandArguments.Builder<Byte>(name);
      min := ByteMinValue;
      max := ByteMaxValue;
    }

    method WithMin(min: Byte)
      modifies this`min
      ensures this.min == min && max == old(max)
    {
      this.min := min;
    }

    method WithMax(max: Byte)
      modifies this`max
      ensures this.max == max && min == old(min)
    {
      this.max := max;
    }

    /**
     * `build()`: a byte argument with the builder's flag, name, default and
     * bounds. It always gets the byte parser for those bounds, whatever
     * parser or manager the generic builder was given, and it changes
     * nothing in the builder.
     */
    method Build() returns (r: Result<ByteArgument, CommandArguments.ArgumentError>)
      ensures r.Err? <==> !NamePatternFinds(base.name)
      ensures r.Err? ==> r.error == CommandArguments.NameNotAlphanumeric(base.name)
      ensures r.Ok? ==> fresh(r.value) && fresh(r.value.argument) && r.value.Valid()
      ensures r.Ok? ==> r.value.min == min && r.value.max == max && r.value.argument.owningCommand == None
      ensures r.Ok? ==> r.value.argument.required == base.required && r.value.argument.name == base.name
      ensures r.Ok? ==> r.value.argument.defaultValue == base.defaultValue
    {
      r := ByteArgument.New(base.required, base.name, min, max, base.defaultValue);
    }
  }

  /** `ByteArgument.required(name)`: required, no default, the full byte range. */
  method Required(name: string) returns (r: Result<ByteArgument, CommandArguments.ArgumentError>)
    ensures r.Err? <==> !NamePatternFinds(name)
    ensures r.Err? ==> r.error == CommandArguments.NameNotAlphanumeric(name)
    ensures r.Ok? ==> fresh(r.value) && r.value.Valid() && r.value.min == ByteMinValue && r.value.max == ByteMaxValue
    ensures r.Ok? ==> fresh(r.value.argument) && r.value.argument.owningCommand == None
    ensures r.Ok? ==> r.value.argument.required && r.value.argument.name == name
    ensures r.Ok? ==> r.value.argument.defaultValue == "" && !r.value.argument.HasDefaultValue()
  {
    var builder := new Builder(name);
    builder.base.AsRequired();
    r := builder.Build();
  }

  /** `ByteArgument.optional(name)`: optional, but with no default value. */
  method Optional(name: string) returns (r: Result<ByteArgument, CommandArguments.ArgumentError>)
    ensures r.Err? <==> !NamePatternFinds(name)
    ensures r.Err? ==> r.error == CommandArguments.NameNotAlphanumeric(name)
    ensures r.Ok? ==> fresh(r.value) && r.value.Valid() && r.value.min == ByteMinValue && r.value.max == ByteMaxValue
    ensures r.Ok? ==> fresh(r.value.argument) && r.value.argument.owningCommand == None
    ensures r.Ok? ==> !r.value.argument.required && r.value.argument.name == name
    ensures r.Ok? ==> r.value.argument.defaultValue == "" && !r.value.argument.HasDefaultValue()
  {
    var builder := new Builder(name);
    builder.base.AsOptional();
    r := builder.Build();
  }

  /**
   * `ByteArgument.optional(name, defaultNum)`: optional, with
   * `Byte.toString(defaultNum)` as its default value, which the argument's
   * own parser reads back as `defaultNum`.
   */
  method OptionalWithDefault(name: string, defaultNum: Byte)
    returns (r: Result<ByteArgument, CommandArguments.ArgumentError>)
    ensures r.Err? <==> !NamePatternFinds(name)
    ensures r.Err? ==> r.error == CommandArguments.NameNotAlphanumeric(name)
    ensures r.Ok? ==> fresh(r.value) && r.value.Valid() && r.value.min == ByteMinValue && r.value.max == ByteMaxValue
    ensures r.Ok? ==> fresh(r.value.argument) && r.value.argument.owningCommand == None
    ensures r.Ok? ==> !r.value.argument.required && r.value.argument.name == name
    ensures r.Ok? ==> r.value.argument.defaultValue == ByteToString(defaultNum) && r.value.argument.HasDefaultValue()
    ensures r.Ok? ==> forall rest :: r.value.argument.parser.parse([r.value.argument.defaultValue] + rest)
                                     == ParseStep(Success(defaultNum), rest)
  {
    var builder := new Builder(name);
    builder.base.AsOptionalWithDefault(ByteToString(defaultNum));
    r := builder.Build();
    if r.Ok? {
      forall rest: seq<string>
        ensures r.value.argument.parser.parse([r.value.argument.defaultValue] + rest) == ParseStep(Success(defaultNum), rest)
      {
        DefaultValueRoundTrip(ByteParser(ByteMinValue, ByteMaxValue), defaultNum, rest);
      }
    }
  }
}
