/**
 * Command arguments: named, typed leaves of a command, each holding a parser,
 * a required flag and a default value, plus a write-once link back to the
 * command that owns it; and the mutable builder that assembles them.
 */
module CommandArguments {
  import opened Results
  import opened JavaNumbers
  import opened JavaText
  import opened ArgumentParsers

  /** A command, by its index among the commands of its manager. */
  type CommandRef = nat

  /**
   * The runtime class of an argument: `equals` compares it, and `compareTo`
   * asks whether it is the static (literal) argument class.
   */
  datatype ArgumentClass =
    | CommandArgumentClass
    | StaticArgumentClass
    | ByteArgumentClass
    | OtherArgumentClass(className: string)
  {
    predicate IsStatic() {
      StaticArgumentClass?
    }
  }

  /** What the source throws while defining arguments. */
  datatype ArgumentError =
    | NameNotAlphanumeric(name: string)  // IllegalArgumentException from the constructor
    | CannotReplaceOwningCommand         // IllegalStateException from a second setOwningCommand

  /**
   * The owning command after offering `offers` to a slot holding `owner`,
   * one `setOwningCommand` call per offer (failed calls change nothing). The
   * slot stays empty only if nothing is ever offered, and it only ever holds
   * the owner it started with or a command that was offered.
   */
  function OwnerAfter(owner: Option<CommandRef>, offers: seq<CommandRef>): (r: Option<CommandRef>)
    ensures r.None? <==> owner.None? && offers == []
    ensures r.Some? ==> r == owner || r.value in offers
    decreases |offers|
  {
    if offers == [] then owner
    else OwnerAfter(if owner.None? then Some(offers[0]) else owner, offers[1..])
  }

  /** Offering one more command continues from the owner the earlier offers left. */
  lemma {:induction false} OwnerAfterAppend(owner: Option<CommandRef>, offers: seq<CommandRef>, command: CommandRef)
    ensures OwnerAfter(owner, offers + [command]) == OwnerAfter(OwnerAfter(owner, offers), [command])
    decreases |offers|
  {
    if offers != [] {
      assert (offers + [command])[1..] == offers[1..] + [command];
      OwnerAfterAppend(if owner.None? then Some(offers[0]) else owner, offers[1..], command);
    }
  }

  /** Once set, the owning command never changes. */
  lemma {:induction false} OwnerIsPermanent(owner: CommandRef, offers: seq<CommandRef>)
    ensures OwnerAfter(Some(owner), offers) == Some(owner)
  {
    if offers != [] {
      OwnerIsPermanent(owner, offers[1..]);
    }
  }

  /** An argument ends up owned by the first command ever offered to it. */
  lemma {:induction false} FirstOwnerWins(offers: seq<CommandRef>)
    requires offers != []
    ensures OwnerAfter(None, offers) == Some(offers[0])
  {
    OwnerIsPermanent(offers[0], offers[1..]);
  }

  class CommandArgument<T> {
    const argumentClass: ArgumentClass
    const required: bool
    const name: string
    const parser: ArgumentParser<T>
    /** Empty when none was supplied. */
    const defaultValue: string
    var owningCommand: Option<CommandRef>

    /** Reached only through `New`, after the name check has passed. */
    constructor (argumentClass: ArgumentClass, required: bool, name: string,
                 parser: ArgumentParser<T>, defaultValue: string)
      requires NamePatternFinds(name)
      ensures this.argumentClass == argumentClass && this.required == required && this.name == name
      ensures this.parser == parser && this.defaultValue == defaultValue
      ensures owningCommand == None
    {
      this.argumentClass := argumentClass;
      this.required := required;
      this.name := name;
      this.parser := parser;
      this.defaultValue := defaultValue;
      owningCommand := None;
    }

    /**
     * The five-argument constructor, as run for an argument of class
     * `argumentClass`: it fails exactly when the name contains no ASCII letter
     * or digit, and otherwise stores what it was given, with no owner yet.
     */
    static method New(argumentClass: ArgumentClass, required: bool, name: string,
                      parser: ArgumentParser<T>, defaultValue: string)
      returns (r: Result<CommandArgument<T>, ArgumentError>)
      ensures r.Err? <==> !NamePatternFinds(name)
      ensures r.Err? ==> r.error == NameNotAlphanumeric(name)
      ensures r.Ok? ==> fresh(r.value) && r.value.owningCommand == None
      ensures r.Ok? ==> r.value.argumentClass == argumentClass && r.value.required == required
      ensures r.Ok? ==> r.value.name == name && r.value.parser == parser && r.value.defaultValue == defaultValue
    {
      if !NamePatternFinds(name) {
        return Err(NameNotAlphanumeric(name));
      }
      var argument := new CommandArgument(argumentClass, required, name, parser, defaultValue);
      return Ok(argument);
    }

    /**
     * The four-argument constructor: the default value is empty, so the
     * argument has no default whether it is required or not.
     */
    static method NewWithoutDefault(argumentClass: ArgumentClass, required: bool, name: string,
                                    parser: ArgumentParser<T>)
      returns (r: Result<CommandArgument<T>, ArgumentError>)
      ensures r.Err? <==> !NamePatternFinds(name)
      ensures r.Err? ==> r.error == NameNotAlphanumeric(name)
      ensures r.Ok? ==> fresh(r.value) && r.value.owningCommand == None
      ensures r.Ok? ==> r.value.argumentClass == argumentClass && r.value.required == required
      ensures r.Ok? ==> r.value.name == name && r.value.parser == parser && r.value.defaultValue == ""
      ensures r.Ok? ==> !r.value.HasDefaultValue()
    {
      r := New(argumentClass, required, name, parser, "");
    }

    /**
     * `hasDefaultValue`: a required argument never has one, and neither does
     * an optional one whose default is empty.
     */
    predicate HasDefaultValue(): (has: bool)
      ensures has ==> !required && |defaultValue| > 0
      ensures !required && |defaultValue| > 0 ==> has
    {
      !required && defaultValue != ""
    }

    /**
     * `setOwningCommand`: fills the slot if it is empty; otherwise fails and
     * keeps the owner it already has.
     */
    method SetOwningCommand(command: CommandRef) returns (r: Outcome<ArgumentError>)
      modifies this`owningCommand
      ensures r.Pass? <==> old(owningCommand) == None
      ensures r.Fail? ==> r.error == CannotReplaceOwningCommand
      ensures owningCommand == OwnerAfter(old(owningCommand), [command])
      ensures owningCommand == if old(owningCommand) == None then Some(command) else old(owningCommand)
    {
      if owningCommand != None {
        return Fail(CannotReplaceOwningCommand);
      }
      owningCommand := Some(command);
      return Pass;
    }

    /**
     * `equals`: the same reference, or else another argument of the same
     * runtime class with the same required flag and the same name. The
     * identity short-cut adds nothing: it is equality of the three fields.
     */
    predicate Equals<U>(that: CommandArgument?<U>): (equal: bool)
      ensures equal <==> that != null && argumentClass == that.argumentClass
                         && required == that.required && name == that.name
    {
      that != null
      && ((this as object) == (that as object)
          || (argumentClass == that.argumentClass && required == that.required && name == that.name))
    }

    /**
     * `hashCode`: `Objects.hash(isRequired(), getName())`, which is
     * 961 + 31 * `Boolean.hashCode` + the name's hash polynomial, truncated
     * once to an `int`.
     */
    function HashCode(): (h: Int32)
      ensures h == ToInt32(961 + 31 * BooleanHash(required) + HashPolynomial(name))
    {
      WrapThenScale(1, HashPolynomial(name), 961 + 31 * BooleanHash(required));
      ObjectsHash2(BooleanHash(required), StringHash(name))
    }

    /**
     * `compareTo`: a static argument comes before every other (-1, and 1 the
     * other way round); two static arguments compare as their names do, 0
     * exactly for equal names; any two non-static arguments compare as 0.
     */
    function CompareTo<U>(that: CommandArgument<U>): (c: int)
      ensures argumentClass.IsStatic() && !that.argumentClass.IsStatic() ==> c == -1
      ensures !argumentClass.IsStatic() && that.argumentClass.IsStatic() ==> c == 1
      ensures !argumentClass.IsStatic() && !that.argumentClass.IsStatic() ==> c == 0
      ensures argumentClass.IsStatic() && that.argumentClass.IsStatic() ==> c == CompareStrings(name, that.name)
      ensures argumentClass.IsStatic() && that.argumentClass.IsStatic() ==> (c == 0 <==> name == that.name)
    {
      if argumentClass.IsStatic() then
        if that.argumentClass.IsStatic() then
          CompareStringsZeroIffEqual(name, that.name);
          CompareStrings(name, that.name)
        else -1
      else
        if that.argumentClass.IsStatic() then 1 else 0
    }
  }

  /** `equals` is an equivalence relation on arguments. */
  lemma EqualsIsEquivalence<T, U, V>(a: CommandArgument<T>, b: CommandArgument<U>, c: CommandArgument<V>)
    ensures a.Equals(a)
    ensures a.Equals(b) ==> b.Equals(a)
    ensures a.Equals(b) && b.Equals(c) ==> a.Equals(c)
  {
  }

  /** Equal arguments have equal hash codes. */
  lemma EqualArgumentsHashAlike<T, U>(a: CommandArgument<T>, b: CommandArgument<U>)
    requires a.Equals(b)
    ensures a.HashCode() == b.HashCode()
  {
  }

  /** `compareTo` is antisymmetric: swapping the operands negates the result. */
  lemma CompareToAntisymmetric<T, U>(a: CommandArgument<T>, b: CommandArgument<U>)
    ensures b.CompareTo(a) == -a.CompareTo(b)
  {
    CompareStringsAntisymmetric(a.name, b.name);
  }

  /** `compareTo` is transitive. */
  lemma CompareToTransitive<T, U, V>(a: CommandArgument<T>, b: CommandArgument<U>, c: CommandArgument<V>)
    requires a.CompareTo(b) < 0 && b.CompareTo(c) < 0
    ensures a.CompareTo(c) < 0
  {
    if a.argumentClass.IsStatic() && b.argumentClass.IsStatic() && c.argumentClass.IsStatic() {
      CompareStringsTransitive(a.name, b.name, c.name);
    }
  }

  /** Arguments that compare as 0 compare alike against every third argument. */
  lemma CompareToZeroSubstitutes<T, U, V>(a: CommandArgument<T>, b: CommandArgument<U>, c: CommandArgument<V>)
    requires a.CompareTo(b) == 0
    ensures Sign(a.CompareTo(c)) == Sign(b.CompareTo(c))
  {
    if a.argumentClass.IsStatic() && b.argumentClass.IsStatic() {
      CompareStringsZeroIffEqual(a.name, b.name);
    }
  }

  /**
   * The registry of the command manager a builder was given, reduced to its
   * answer for the builder's value type: a parser, or none.
   */
  datatype CommandManager<T> = CommandManager(registeredParser: Option<ArgumentParser<T>>)

  /**
   * The parser `build()` settles on: the one supplied, else the one the
   * manager's registry has, else the fallback that always fails.
   */
  function ResolveParser<T>(supplied: Option<ArgumentParser<T>>, manager: Option<CommandManager<T>>)
    : (p: ArgumentParser<T>)
    ensures supplied.Some? ==> p == supplied.value
    ensures supplied.None? && manager.Some? && manager.value.registeredParser.Some? ==>
              p == manager.value.registeredParser.value
    ensures supplied.None? && (manager.None? || manager.value.registeredParser.None?) ==> AlwaysFails(p)
  {
    if supplied.Some? then supplied.value
    else if manager.Some? && manager.value.registeredParser.Some? then manager.value.registeredParser.value
    else FailingParser()
  }

  /** Mutable builder for command arguments; its setters update it in place. */
  class Builder<T> {
    const name: string
    var manager: Option<CommandManager<T>>
    var required: bool
    var parser: Option<ArgumentParser<T>>
    var defaultValue: string

    /** `CommandArgument.ofType(type, name)`: required, no default, no parser, no manager. */
    constructor (name: string)
      ensures this.name == name && manager == None && required && parser == None && defaultValue == ""
    {
      this.name := name;
      manager := None;
      required := true;
      parser := None;
      defaultValue := "";
    }

    method Manager(m: CommandManager<T>)
      modifies this`manager
      ensures manager == Some(m)
    {
      manager := Some(m);
    }

    /** Marks the argument required; the default value is left as it was. */
    method AsRequired()
      modifies this`required
      ensures required && defaultValue == old(defaultValue)
    {
      required := true;
    }

    /** Marks the argument optional; the default value is left as it was. */
    method AsOptional()
      modifies this`required
      ensures !required && defaultValue == old(defaultValue)
    {
      required := false;
    }

    method AsOptionalWithDefault(defaultValue: string)
      modifies this`required, this`defaultValue
      ensures !required && this.defaultValue == defaultValue
    {
      this.defaultValue := defaultValue;
      required := false;
    }

    method WithParser(parser: ArgumentParser<T>)
      modifies this`parser
      ensures this.parser == Some(parser)
    {
      this.parser := Some(parser);
    }

    /**
     * `build()`: settles the builder's parser first (that write stays even
     * when construction then fails on the name), then constructs a plain
     * command argument from the builder's flag, name and default.
     */
    method Build() returns (r: Result<CommandArgument<T>, ArgumentError>)
      modifies this`parser
      ensures parser == Some(ResolveParser(old(parser), manager))
      ensures r.Err? <==> !NamePatternFinds(name)
      ensures r.Err? ==> r.error == NameNotAlphanumeric(name)
      ensures r.Ok? ==> fresh(r.value) && r.value.owningCommand == None
      ensures r.Ok? ==> r.value.argumentClass == CommandArgumentClass && r.value.parser == parser.value
      ensures r.Ok? ==> r.value.required == required && r.value.name == name && r.value.defaultValue == defaultValue
      ensures r.Ok? && old(parser) == None && manager == None ==> AlwaysFails(r.value.parser)
    {
      var resolved := ResolveParser(parser, manager);
      parser := Some(resolved);
      r := CommandArgument<T>.New(CommandArgumentClass, required, name, resolved, defaultValue);
    }
  }
}
