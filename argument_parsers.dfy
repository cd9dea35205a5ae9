/**
 * The argument parser contract: a parser looks at a queue of input tokens and
 * either yields a value, having consumed the tokens that make it up, or
 * fails with a structured error and leaves the queue as it was.
 */
module ArgumentParsers {
  import opened Results
  import opened JavaNumbers

  /** The errors a parse can fail with. */
  datatype ParseError =
    | NoInputProvided      // the queue was empty
    | NoParserSpecified    // the fallback parser of an argument built without one
    | ByteParseError(input: string, min: Byte, max: Byte)
    | OtherError(message: string)  // from a parser given to `withParser` or found in the registry
  {
    /** Whether a byte parse error carries a minimum other than the type's own. */
    function HasMin(): (r: bool)
      requires ByteParseError?
      ensures r <==> min != ByteMinValue
    {
      min != ByteMinValue
    }

    /** Whether a byte parse error carries a maximum other than the type's own. */
    function HasMax(): (r: bool)
      requires ByteParseError?
      ensures r <==> max != ByteMaxValue
    {
      max != ByteMaxValue
    }
  }

  datatype ParseResult<+T> = Success(value: T) | Failure(error: ParseError)

  /** The outcome of one parse together with the queue it leaves behind. */
  datatype ParseStep<+T> = ParseStep(result: ParseResult<T>, rest: seq<string>)

  /**
   * A parser, as the capability an argument holds: what parsing does to a
   * given queue. The command context it is also handed is not modelled.
   */
  datatype ArgumentParser<T> = ArgumentParser(parse: seq<string> -> ParseStep<T>)

  /**
   * The contract every parser is meant to keep: a failure leaves the queue
   * untouched, a success removes some tokens from its front and nothing else.
   */
  ghost predicate ConsumesOnlyOnSuccess<T>(p: ArgumentParser<T>) {
    forall tokens: seq<string> ::
      var step := p.parse(tokens);
      (step.result.Failure? ==> step.rest == tokens) &&
      (step.result.Success? ==> |step.rest| <= |tokens| && step.rest == tokens[|tokens| - |step.rest|..])
  }

  /** A parser whose every parse fails and consumes nothing. */
  ghost predicate AlwaysFails<T>(p: ArgumentParser<T>) {
    forall tokens: seq<string> :: p.parse(tokens).result.Failure? && p.parse(tokens).rest == tokens
  }

  /** The parser an argument builder installs when it was given none and found none. */
  function FailingParser<T>(): (p: ArgumentParser<T>)
    ensures forall tokens :: p.parse(tokens) == ParseStep(Failure(NoParserSpecified), tokens)
  {
    ArgumentParser(tokens => ParseStep(Failure(NoParserSpecified), tokens))
  }

  /** The fallback parser never succeeds and so keeps the parser contract. */
  lemma FailingParserKeepsContract<T>()
    ensures AlwaysFails(FailingParser<T>()) && ConsumesOnlyOnSuccess(FailingParser<T>())
  {
  }

  /** The caller's queue of input tokens, which parsers read and consume in place. */
  class TokenQueue {
    var tokens: seq<string>

    constructor (tokens: seq<string>)
      ensures this.tokens == tokens
    {
      this.tokens := tokens;
    }

    /** `Queue.peek`: the head token, absent when the queue is empty. */
    function Peek(): (head: Option<string>)
      reads this
      ensures head.Some? <==> tokens != []
      ensures head.Some? ==> head.value == tokens[0]
    {
      if tokens == [] then None else Some(tokens[0])
    }

    /** `Queue.remove`: takes off the head token; on an empty queue it fails and changes nothing. */
    method Remove() returns (head: Option<string>)
      modifies this
      ensures head == old(Peek())
      ensures tokens == if old(tokens) == [] then old(tokens) else old(tokens)[1..]
    {
      head := Peek();
      if tokens != [] {
        tokens := tokens[1..];
      }
    }
  }
}
