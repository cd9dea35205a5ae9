# Command arguments, the byte argument and predicate permissions

A Dafny model of three pieces of the argument and permission layer of the
cloud command framework:

- **Command arguments** (`CommandArguments`): a named, typed leaf of a command
  holding a parser, a required flag and a default-value string. Construction
  checks the name; `HasDefaultValue` holds for an optional argument with a
  non-empty default; the owning command is a write-once slot; `equals` compares
  runtime class, required flag and name, and `hashCode` is
  `Objects.hash(required, name)`; `compareTo` puts static (literal)
  arguments first. The mutable builder starts required, with an empty default and no
  parser. When it has no parser, `build()` takes one from the manager's registry,
  or else installs a parser that always fails.
- **The byte argument** (`ByteArguments`): `ByteParser.Parse` peeks at the
  head of the caller's token queue, decodes it as a signed 8-bit decimal,
  checks it against `[min, max]`, and removes it only on success. Every failure
  on a non-empty queue carries the token and the bounds; on an empty queue the
  parse fails with `NoInputProvided`. `Apply` is the specification it is proved
  against. The byte builder adds the bounds (default -128 and 127) and always
  installs `ByteParser(min, max)`. The factory `optional(name, n)` stores
  `Byte.toString(n)`, which parses back to `n`.
- **Predicate permissions** (`Permissions`): a leaf permission whose check is
  its stored test applied to the sender, and whose introspection set is itself alone.

The Java library behaviour these rest on is modelled in `JavaText` and
`JavaNumbers`. That covers `String.compareTo`, `String.hashCode`, `Objects.hash`,
the regular-expression search used for names, `Byte.parseByte` and `Byte.toString`.
Thrown exceptions become `Result`/`Outcome` values (module `Results`). The token queue is a
class whose `tokens` field the parser updates in place.

Two points of the source that its names and messages do not show:

- The constructor's exception message (CommandArgument.java line 98) says
  "Name must be alphanumeric", but the test before it (line 97) is
  `NAME_PATTERN.asPredicate()`, which searches rather than matches. A name is
  rejected only when it contains no ASCII letter or digit: `"a-b"` is
  accepted, `""` and `"--"` are not.
- `equals` compares `getClass()` (line 198) as well as the required flag and
  the name, so arguments of different classes are never equal.

## Model

| member | source | states |
|---|---|---|
| JavaText.NamePatternFinds | cloud-core/src/main/java/com/intellectualsites/commands/arguments/CommandArgument.java:50 | the name pattern's test passes iff some character of the name is an ASCII letter or digit (search semantics) |
| JavaText.NamePatternFindsExamples | cloud-core/src/main/java/com/intellectualsites/commands/arguments/CommandArgument.java:97-99 | every fully alphanumeric name passes; "a-b" passes though not alphanumeric; "" and "--" are rejected |
| JavaText.CompareStrings | cloud-core/src/main/java/com/intellectualsites/commands/arguments/CommandArgument.java:214 | `compareTo` on names: the character difference at the first index where the names differ, or the length difference when one is a prefix of the other |
| JavaText.StringHash | cloud-core/src/main/java/com/intellectualsites/commands/arguments/CommandArgument.java:207 | `String.hashCode` of a name is the polynomial s[0]*31^(n-1) + ... + s[n-1] truncated once to an `int` |
| JavaText.BooleanHash | cloud-core/src/main/java/com/intellectualsites/commands/arguments/CommandArgument.java:207 | `Boolean.hashCode` is 1231 for true and 1237 for false |
| JavaText.ObjectsHash2 | cloud-core/src/main/java/com/intellectualsites/commands/arguments/CommandArgument.java:207 | `Objects.hash(x, y)` is 961 + 31 * hash(x) + hash(y) truncated once to an `int` |
| JavaText.CompareStringsAntisymmetric | cloud-core/src/main/java/com/intellectualsites/commands/arguments/CommandArgument.java:214 | comparing names in the other order negates the result |
| JavaText.CompareStringsZeroIffEqual | cloud-core/src/main/java/com/intellectualsites/commands/arguments/CommandArgument.java:214 | two names compare as 0 iff they are equal |
| JavaText.CompareStringsTransitive | cloud-core/src/main/java/com/intellectualsites/commands/arguments/CommandArgument.java:214 | name comparison's "less than" is transitive |
| JavaNumbers.ParseDecimal | cloud-core/src/main/java/com/intellectualsites/commands/arguments/standard/ByteArgument.java:189 | a value exactly for an optional sign followed by one or more ASCII digits, and then the digits' decimal value, negated after a '-' |
| JavaNumbers.ByteToString | cloud-core/src/main/java/com/intellectualsites/commands/arguments/standard/ByteArgument.java:96 | `Byte.toString(n)` starts with '-' iff n < 0, followed by ASCII digits with no leading zero unless n is 0 |
| JavaNumbers.ParseByte | cloud-core/src/main/java/com/intellectualsites/commands/arguments/standard/ByteArgument.java:189 | `Byte.parseByte` succeeds iff the token is a signed decimal whose value lies in -128..127, and then yields that value |
| JavaNumbers.NatToDecimal | cloud-core/src/main/java/com/intellectualsites/commands/arguments/standard/ByteArgument.java:96 | the decimal form of n is non-empty digits without a leading zero and reads back as n |
| JavaNumbers.ByteToStringRoundTrip | cloud-core/src/main/java/com/intellectualsites/commands/arguments/standard/ByteArgument.java:96 | `Byte.parseByte(Byte.toString(n)) == n` for every byte n |
| JavaNumbers.ParseByteRejectsOutOfRange | cloud-core/src/main/java/com/intellectualsites/commands/arguments/standard/ByteArgument.java:189 | "200" and "-129" are not bytes |
| JavaNumbers.ParseByteExamples | cloud-core/src/main/java/com/intellectualsites/commands/arguments/standard/ByteArgument.java:189 | "42", "+007" and "-128" decode; "", "-" and "4x" do not |
| ArgumentParsers.ParseError.HasMin | cloud-core/src/main/java/com/intellectualsites/commands/arguments/standard/ByteArgument.java:236-239 | a byte parse error has a minimum iff its minimum is not -128 |
| ArgumentParsers.ParseError.HasMax | cloud-core/src/main/java/com/intellectualsites/commands/arguments/standard/ByteArgument.java:241-244 | a byte parse error has a maximum iff its maximum is not 127 |
| ArgumentParsers.FailingParser | cloud-core/src/main/java/com/intellectualsites/commands/arguments/CommandArgument.java:362-365 | the fallback parser fails with "no parser specified" on every queue and consumes nothing |
| ArgumentParsers.FailingParserKeepsContract | cloud-core/src/main/java/com/intellectualsites/commands/arguments/CommandArgument.java:363-364 | the fallback parser always fails and keeps the consume-only-on-success contract |
| ArgumentParsers.TokenQueue.Peek | cloud-core/src/main/java/com/intellectualsites/commands/arguments/standard/ByteArgument.java:184 | peek yields the head token, absent iff the queue is empty |
| ArgumentParsers.TokenQueue.Remove | cloud-core/src/main/java/com/intellectualsites/commands/arguments/standard/ByteArgument.java:196 | remove takes off exactly the head token and returns it |
| CommandArguments.OwnerAfter | cloud-core/src/main/java/com/intellectualsites/commands/arguments/CommandArgument.java:186-191 | after a sequence of `setOwningCommand` calls the slot is empty iff it started empty and nothing was offered, and it holds the first owner or an offered command |
| CommandArguments.OwnerAfterAppend | cloud-core/src/main/java/com/intellectualsites/commands/arguments/CommandArgument.java:186-191 | one more `setOwningCommand` call continues from the owner the earlier calls left, so the sequence lemmas apply call by call |
| CommandArguments.OwnerIsPermanent | cloud-core/src/main/java/com/intellectualsites/commands/arguments/CommandArgument.java:186-191 | once the owning command is set, no sequence of further set calls changes it |
| CommandArguments.FirstOwnerWins | cloud-core/src/main/java/com/intellectualsites/commands/arguments/CommandArgument.java:79 | starting unset, the slot ends holding the first command ever offered |
| CommandArguments.CommandArgument.New | cloud-core/src/main/java/com/intellectualsites/commands/arguments/CommandArgument.java:90-103 | construction fails iff the name has no ASCII letter or digit; otherwise it stores class, flag, name, parser and default, with no owner |
| CommandArguments.CommandArgument.NewWithoutDefault | cloud-core/src/main/java/com/intellectualsites/commands/arguments/CommandArgument.java:113-118 | the four-argument constructor fails, with the name error, iff the name check fails; it stores an empty default, so the argument has no default whatever its flag |
| CommandArguments.CommandArgument.HasDefaultValue | cloud-core/src/main/java/com/intellectualsites/commands/arguments/CommandArgument.java:242-245 | an argument has a default value iff it is optional and its default string is non-empty |
| CommandArguments.CommandArgument.Equals | cloud-core/src/main/java/com/intellectualsites/commands/arguments/CommandArgument.java:194-203 | `equals` holds iff the other argument is non-null with the same runtime class, flag and name; the identity short-cut changes no answer |
| CommandArguments.CommandArgument.HashCode | cloud-core/src/main/java/com/intellectualsites/commands/arguments/CommandArgument.java:205-208 | `hashCode` is 961 + 31 * `Boolean.hashCode(required)` + the name's hash polynomial, truncated once to an `int` |
| CommandArguments.CommandArgument.CompareTo | cloud-core/src/main/java/com/intellectualsites/commands/arguments/CommandArgument.java:211-225 | a static argument against a non-static one gives -1, and 1 the other way round; two statics give their names' `compareTo`, 0 iff the names are equal; two non-statics give 0 |
| CommandArguments.CommandArgument.SetOwningCommand | cloud-core/src/main/java/com/intellectualsites/commands/arguments/CommandArgument.java:186-191 | succeeds iff the slot was unset, then holds the command; otherwise fails and keeps the first owner |
| CommandArguments.EqualsIsEquivalence | cloud-core/src/main/java/com/intellectualsites/commands/arguments/CommandArgument.java:194-203 | equality on (class, required, name) is reflexive, symmetric and transitive |
| CommandArguments.EqualArgumentsHashAlike | cloud-core/src/main/java/com/intellectualsites/commands/arguments/CommandArgument.java:205-208 | equal arguments have equal hash codes |
| CommandArguments.CompareToAntisymmetric | cloud-core/src/main/java/com/intellectualsites/commands/arguments/CommandArgument.java:211-225 | `b.compareTo(a) == -a.compareTo(b)` for all arguments |
| CommandArguments.CompareToTransitive | cloud-core/src/main/java/com/intellectualsites/commands/arguments/CommandArgument.java:211-225 | a < b and b < c imply a < c |
| CommandArguments.CompareToZeroSubstitutes | cloud-core/src/main/java/com/intellectualsites/commands/arguments/CommandArgument.java:211-225 | arguments comparing as 0 have the same sign of comparison with every third argument |
| CommandArguments.ResolveParser | cloud-core/src/main/java/com/intellectualsites/commands/arguments/CommandArgument.java:358-365 | the supplied parser wins, else the registry's, else a parser that always fails |
| CommandArguments.Builder.constructor | cloud-core/src/main/java/com/intellectualsites/commands/arguments/CommandArgument.java:269-277 | a new builder is required, with empty default, no parser and no manager |
| CommandArguments.Builder.Manager | cloud-core/src/main/java/com/intellectualsites/commands/arguments/CommandArgument.java:287-290 | sets only the manager |
| CommandArguments.Builder.AsRequired | cloud-core/src/main/java/com/intellectualsites/commands/arguments/CommandArgument.java:302-305 | sets required, leaves the default untouched |
| CommandArguments.Builder.AsOptional | cloud-core/src/main/java/com/intellectualsites/commands/arguments/CommandArgument.java:317-320 | clears required, leaves the default untouched |
| CommandArguments.Builder.AsOptionalWithDefault | cloud-core/src/main/java/com/intellectualsites/commands/arguments/CommandArgument.java:333-337 | clears required and sets the default |
| CommandArguments.Builder.WithParser | cloud-core/src/main/java/com/intellectualsites/commands/arguments/CommandArgument.java:346-349 | sets only the parser |
| CommandArguments.Builder.Build | cloud-core/src/main/java/com/intellectualsites/commands/arguments/CommandArgument.java:357-367 | settles the builder's parser, then builds a plain argument with the builder's flag, name and default, failing iff the name check fails, with the name error; with no parser and no manager its parser always fails |
| ByteArguments.ByteParser.Apply | cloud-core/src/main/java/com/intellectualsites/commands/arguments/standard/ByteArgument.java:181-203 | success iff the head token is a byte in [min, max], consuming exactly that token; failure leaves the queue and reports no input, or the token with min and max |
| ByteArguments.ByteParser.Parse | cloud-core/src/main/java/com/intellectualsites/commands/arguments/standard/ByteArgument.java:181-203 | the in-place parse does to the queue and returns exactly what `Apply` specifies: head removed iff success, otherwise queue untouched |
| ByteArguments.ByteParser.IsContextFree | cloud-core/src/main/java/com/intellectualsites/commands/arguments/standard/ByteArgument.java:206-208 | the byte parser is context-free |
| ByteArguments.ByteParser.AsArgumentParser | cloud-core/src/main/java/com/intellectualsites/commands/arguments/standard/ByteArgument.java:44 | the parser an argument holds parses exactly as `Apply` |
| ByteArguments.ByteParserKeepsContract | cloud-core/src/main/java/com/intellectualsites/commands/arguments/standard/ByteArgument.java:184-201 | the byte parser consumes tokens only on success, and then only a prefix |
| ByteArguments.InvertedBoundsRejectEverything | cloud-core/src/main/java/com/intellectualsites/commands/arguments/standard/ByteArgument.java:190-195 | with min > max every parse fails and leaves the queue |
| ByteArguments.DefaultValueRoundTrip | cloud-core/src/main/java/com/intellectualsites/commands/arguments/standard/ByteArgument.java:189-197 | `Byte.toString(n)` at the head parses to n, consuming just that token, when min <= n <= max |
| ByteArguments.DefaultBoundsExamples | cloud-core/src/main/java/com/intellectualsites/commands/arguments/standard/ByteArgument.java:189-201 | with bounds -128..127, "42" parses to 42 and "200" fails naming "200", -128 and 127, neither bound reported as configured |
| ByteArguments.ByteArgument.constructor | cloud-core/src/main/java/com/intellectualsites/commands/arguments/standard/ByteArgument.java:42-47 | a byte argument pairs a byte-class command argument with the byte parser for its bounds, so it is valid from the start |
| ByteArguments.ByteArgument.New | cloud-core/src/main/java/com/intellectualsites/commands/arguments/standard/ByteArgument.java:42-47 | a byte argument is a byte-class argument whose parser is `ByteParser(min, max)`; fails iff the name check fails |
| ByteArguments.Builder.constructor | cloud-core/src/main/java/com/intellectualsites/commands/arguments/standard/ByteArgument.java:119-124 | bounds start at -128 and 127 on top of the generic builder defaults |
| ByteArguments.Builder.WithMin | cloud-core/src/main/java/com/intellectualsites/commands/arguments/standard/ByteArgument.java:133-136 | overwrites the minimum only |
| ByteArguments.Builder.WithMax | cloud-core/src/main/java/com/intellectualsites/commands/arguments/standard/ByteArgument.java:145-148 | overwrites the maximum only |
| ByteArguments.Builder.Build | cloud-core/src/main/java/com/intellectualsites/commands/arguments/standard/ByteArgument.java:157-159 | always installs `ByteParser(min, max)`, ignoring any parser given; carries over flag, name and default; fails, with the name error, iff the name check fails |
| ByteArguments.Required | cloud-core/src/main/java/com/intellectualsites/commands/arguments/standard/ByteArgument.java:69-71 | a required byte argument over the full range, without default, fresh and with no owner; fails, with the name error, iff the name check fails |
| ByteArguments.Optional | cloud-core/src/main/java/com/intellectualsites/commands/arguments/standard/ByteArgument.java:81-83 | an optional byte argument over the full range, without default, fresh and with no owner; fails, with the name error, iff the name check fails |
| ByteArguments.OptionalWithDefault | cloud-core/src/main/java/com/intellectualsites/commands/arguments/standard/ByteArgument.java:94-97 | optional, fresh and with no owner, default `Byte.toString(n)`, so it has a default, and its own parser reads that default back as n; fails, with the name error, iff the name check fails |
| Permissions.PredicatePermission.HasPermission | cloud-core/src/main/java/cloud/commandframework/permission/PredicatePermission.java:63-65 | granted exactly when the stored test accepts this sender |
| Permissions.PredicatePermission.GetPermissions | cloud-core/src/main/java/cloud/commandframework/permission/PredicatePermission.java:68-70 | exactly one leaf, the permission itself |
| Permissions.Of | cloud-core/src/main/java/cloud/commandframework/permission/PredicatePermission.java:53-55 | stores the given test unchanged |
| Permissions.OfGrantsExactly | cloud-core/src/main/java/cloud/commandframework/permission/PredicatePermission.java:42-44 | `of(p).hasPermission(s) == p(s)` for every sender |
| Permissions.LeavesAgreeWithPermission | cloud-core/src/main/java/cloud/commandframework/permission/PredicatePermission.java:68-70 | every listed leaf grants exactly what the permission grants |

## Left out

- `ByteParser.suggestions`: it delegates to `IntegerArgument.IntegerParser.getSuggestions`, which is not part of this model.
- The parser registry lookup in `build()`: the manager is reduced to its registry's answer for the value type, an optional parser (`CommandManager.registeredParser`).
- Generics, `Class<T>` value types, `getValueType`, the command context handed to `parse` (the byte parser ignores it), and the `Command`/`CommandManager` types: value types are type parameters; an owning command is an index (`CommandRef`).
- `StaticArgument` is not part of this model: the runtime class is the tag `ArgumentClass`, and "static" is its `StaticArgumentClass` case.
- Inheritance: `ByteArgument` and its builder wrap a `CommandArgument` and a generic builder instead of extending them. Builder setters return nothing instead of `this` for chaining.
- Null checks (`Objects.requireNonNull`) and null names, parsers or senders: Dafny values are never null.
- `toString` formatting, the getters that only return a field, and the exception messages.
- JavaNumbers.ParseByte: digits are ASCII only, where `Character.digit` also accepts other Unicode decimal digits. The 32-bit overflow check of `Integer.parseInt` is not made, because every value it rejects is outside the byte range anyway.
- JavaText.CompareStrings and JavaText.StringHash treat a Dafny `char` as one UTF-16 unit. Names with characters outside the Basic Multilingual Plane compare and hash differently in Java.
- `isContextFree` of parsers other than the byte parser: the interface default is not part of this model, so the generic parser record holds only `parse`.
- A Java `Predicate` may have side effects or throw; a permission's test here is a total, pure function of the sender.
- `PipelineException` is not part of this model: it only forwards a message and a cause to `RuntimeException`.
