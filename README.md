# Noir front end and interpreter, modelled in Dafny

This project models the core of a small interpreter for the Noir teaching
language, written in Python. The core has six parts:

- a hand-written lexer (`noir_lexer.py`);
- a recursive-descent parser with block tracking and error recovery (`noir_parser.py`);
- a type vocabulary with generic annotations (`noir_types.py`);
- a type checker that decides subtyping, assignments and casts (`noir_type_checker.py`);
- a tree-walking interpreter over a chain of scopes (`noir_interpreter.py`);
- a pretty-printer for the syntax tree (`ast_printer.py`).

The four Python classes that work by changing their own fields are modelled
as Dafny classes with those fields. Most methods are proved equal to a pure
specification function, and the properties are proved about those functions;
the parser methods that have no such function are named below.

- **`Lexer.Lexer`** keeps `pos`, `line`, `column` and `tokens`.
  - Every scanning method performs one `Step` of the pure lexer (`Lexer.Step`).
  - `Tokenize` returns exactly `Lexed(source)`.
  - `LexerProperties` proves the promised properties of `Lexed`: the token shapes, the positions, the literals and the error conditions.
- **`Parser.Parser`** keeps `tokens`, `current`, the block stack and the list of reported errors.
  - Most parsing methods yield what the matching `*At` function of `Grammar`, `StatementGrammar` or `BlockGrammar` yields, and leave `current` where that function stops.
  - `BlockGrammar` gives declarations, blocks, terminated loop bodies and the loop of `parse`. `Parse` ends with the statements and reported errors that `ProgramFrom` reads.
  - `EnumDeclaration` has no such function. Its contract states its outcomes directly.
  - The `*At` functions take a token list and a position. They return `Done(value, next)` or `Failed(error, next)`.
  - The error messages of `ParseError` are the constructors of `Grammar.Message`; `Text()` gives the source's wording.
- **`Interpreter.Interpreter`** keeps the scope chain (a sequence of frames, outermost first) and the output.
  - Every `Evaluate*`/`Execute*` method ends in exactly the state and result that `Semantics` gives.
  - `Semantics` is a fuel-bounded big-step semantics over `Environment.State`.
  - A `Signal` is the non-local exit of a step. It is one of:
    - a runtime fault the interpreter reports;
    - a `return` on its way to the caller;
    - a Python exception that escapes `interpret`;
    - a float or formatting detail the model does not compute (`NotModelled`);
    - the end of the `fuel` that bounds the depth of calls and loops (`OutOfFuel`).
- **`AstPrinter.ASTPrinter`** keeps `indentLevel`.
  - Every `Print*` method returns the text of a pure `*Text` function at the level it was called with.
  - Every `Print*` method leaves `indentLevel` unchanged.

Three facts of the source shape the model.

- **`declaration` is fatal on most tokens.** It looks up `TokenType.ENUM`, which the token enumeration does not define. So every token other than an identifier followed by `:`, or `func`, ends `parse` with an AttributeError; the model calls this `InternalError`. Statements, `enum` and `protocol` are therefore reachable only through their own routines. The model keeps those routines and proves them on their own.
- **Comment lexemes start with three slashes.** `scan_comment` is entered with the first `/` still unread. It starts its lexeme with `"//"` and then appends every character from that first `/` up to the newline. The COMMENT token therefore holds `"/" + text` (for example `///x` for `//x`), and its column is one left of the comment.
- **Scoping is dynamic.** A function call makes its scope a child of the caller's scope, not of the scope where the function was defined. `CallerVariablesVisible` proves that a body sees the caller's variables.

## Model

| member | source | states |
|---|---|---|
| Tokens.WordKind | noir_lexer.py:238 | a word lexes to its keyword kind when it is one of the keywords, and to IDENTIFIER otherwise |
| Common.NatToStringRoundTrip | noir_type_checker.py:115 | the decimal text of a natural number reads back as that number (the `str`/`int` pair the conversions rely on) |
| Common.ToLower | noir_type_checker.py:122 | lower-casing keeps the length and maps each character on its own (`value.lower()` in the Bool conversion) |
| Lexer.Lexer.constructor | noir_lexer.py:93-126 | a new lexer starts at position 0, line 1, column 1, with no tokens |
| Lexer.Lexer.Advance | noir_lexer.py:134-148 | consumes one character when one is left, else returns ""; a newline moves to the next line at column 1, anything else moves one column right |
| Lexer.Lexer.AddToken | noir_lexer.py:150-152 | appends one token with the given kind and value at the current line and column |
| Lexer.Lexer.ScanNumber | noir_lexer.py:166-187 | performs exactly `NumberStep` from the starting position: same tokens, same end position, same error |
| Lexer.Lexer.ScanStringPiece | noir_lexer.py:195-207 | one character or escape of a string body; its text followed by what the rest of the body scans to is what the body scans to from the start |
| Lexer.Lexer.ScanString | noir_lexer.py:189-213 | performs exactly `StringStep` |
| Lexer.Lexer.ScanChar | noir_lexer.py:215-228 | performs exactly `CharStep` |
| Lexer.Lexer.ScanIdentifier | noir_lexer.py:230-239 | performs exactly `IdentifierStep` |
| Lexer.Lexer.ScanComment | noir_lexer.py:241-249 | performs exactly `CommentStep` |
| Lexer.Lexer.ScanToken | noir_lexer.py:253-355 | one turn of the tokenize loop performs exactly `Step` |
| Lexer.Lexer.Tokenize | noir_lexer.py:251-359 | the token list (or the error) is exactly `Lexed(source)` |
| Lexer.Lex | noir_lexer.py:361 | `lex` returns exactly `Lexed(source)` |
| Lexer.WordEnd | noir_lexer.py:234-235 | an identifier runs over word characters up to the first non-word character or the end |
| Lexer.LineEnd | noir_lexer.py:246-247 | a comment runs up to, not including, the next newline or the end |
| Lexer.NumberStop | noir_lexer.py:172-182 | the number scan stops inside the source |
| Lexer.StringBody | noir_lexer.py:194-210 | a closed body ends at a double quote inside the source; a bad escape is reported past the start |
| LexerProperties.KeywordKinds | noir_lexer.py:101-126 | keyword lookup never yields EOF and always yields a kind the lexer emits |
| LexerProperties.StepEmits | noir_lexer.py:253-355 | the tokens of one step are ordinary: never EOF and always of an emittable kind |
| LexerProperties.LexFromShape | noir_lexer.py:253-359 | lexing from any position keeps the tokens already made and ends with one EOF token at the end of the source |
| Lexer.Lexed | noir_lexer.py:251-359 | the token list of a whole source, or the first error; LexedShape states that a success ends with exactly one EOF at the end of the source |
| LexerProperties.LexedShape | noir_lexer.py:357-359 | a successful lex ends with exactly one EOF, at the line and column of the end of the source, after only ordinary tokens |
| LexerProperties.PositionAcross | noir_lexer.py:134-148 | across text without newlines the line stays and the column grows by the number of characters |
| LexerProperties.NewlinePosition | noir_lexer.py:139-141 | after a newline the line is one more and the column is 1 |
| LexerProperties.StepTokenStartsAtPos | noir_lexer.py:267-352 | a number, word or operator step emits one token, stamped with its first character's line and column |
| LexerProperties.CommentToken | noir_lexer.py:288-290 | `//` gives one COMMENT token up to the newline, with lexeme "/" followed by the source text and column one left of the first slash |
| LexerProperties.NumberKindOfDecimal | noir_lexer.py:178-187 | digits alone are INTEGER_LIT; `a.b` is DOUBLE_LIT iff `a` has at least 8 digits or `b` at least 9, else FLOAT_LIT |
| LexerProperties.NumberStopDots | noir_lexer.py:172-176 | the number scan never passes two dots and stops only at a non-number character or a second dot |
| LexerProperties.NumberFormatError | noir_lexer.py:173-175 | a number fails with "Invalid number format" iff its run of digits and dots reaches a second dot; the error is at that dot |
| LexerProperties.StringBodyOfEscape | noir_lexer.py:194-207 | an escaped text followed by a quote scans back to exactly that text |
| LexerProperties.StringLiteralRoundTrip | noir_lexer.py:189-213 | escaping any text and quoting it lexes to one STRING_LIT holding that text, then EOF |
| LexerProperties.StringBodyCloses | noir_lexer.py:194-210 | a body closes iff a double quote follows a well-formed body (no bare quote, only known escapes) |
| LexerProperties.StringLiteralError | noir_lexer.py:189-213 | a string literal succeeds iff a closing quote follows a well-formed body; else the error is an unknown escape or an unterminated string |
| LexerProperties.BadEscapeNamed | noir_lexer.py:204-205 | an invalid escape names the character after the backslash (or nothing at the end) |
| LexerProperties.CharLiteralShape | noir_lexer.py:215-228 | a char literal succeeds iff a quote closes it after exactly one character; else it is unterminated (end of source) or invalid |
| LexerProperties.TwoCharWins | noir_lexer.py:296-330 | `::`, `->`, `==`, `!=`, `<=`, `>=` are one token, not two |
| LexerProperties.LoneBangRejected | noir_lexer.py:314-355 | a `!` not followed by `=` is an invalid character |
| LexerProperties.InvalidCharacterRejected | noir_lexer.py:350-355 | a step fails with InvalidCharacter iff the character is outside the recognised set (and is not the `!` of `!=`); the error names that character |
| LexerProperties.WhitespaceSkipped | noir_lexer.py:257-259 | spaces, tabs and carriage returns advance without a token |
| Types.MakeAnnotation | noir_types.py:49-57 | with parameters the kind is GENERIC iff one is a type parameter, else INSTANTIATED; without, a one-letter upper-case name is PARAMETER and any other keeps the requested kind |
| Types.MakeAnnotationIdempotent | noir_types.py:49-57 | deriving the kind again from a derived annotation changes nothing |
| Types.KindTestsExclusive | noir_types.py:59-69 | `is_generic`, `is_instantiated` and `is_primitive` never hold together, and none holds for a PARAMETER |
| Types.Instantiate | noir_types.py:71-82 | succeeds iff the type is generic and the argument count matches; the result keeps the name, holds the arguments and is INSTANTIATED; otherwise the error says which check failed |
| Types.SubstituteKeepsShape | noir_types.py:84-94 | substitution keeps the name, the kind, the number of parameters and every type parameter |
| Types.SubstituteEmpty | noir_types.py:84-94 | substituting nothing changes nothing |
| Types.SubstituteParameter | noir_types.py:86-87 | a type parameter is replaced by its binding, or kept when it has none |
| Types.IsSatisfiedBy | noir_types.py:28-40 | a type satisfies a parameter iff it meets every subtype, supertype and equals constraint |
| Types.PredefinedTypes | noir_types.py:96-121 | List, Set, OrderedSet and Dictionary are generic over T (or K and V) and well formed; substitution leaves List and Dictionary unchanged |
| TypeChecker.IsSubtype | noir_type_checker.py:61-66 | a type is a subtype iff it is equal to the other or reaches it through the table Int→Float/Double, Float→Double, Char→String |
| TypeChecker.SubtypeIsPartialOrder | noir_type_checker.py:53-66 | subtyping is reflexive, antisymmetric and transitive |
| TypeChecker.CanImplicitlyConvert | noir_type_checker.py:68-76 | the implicit conversions are exactly Int→Float, Int→Double and Char→String |
| TypeChecker.ImplicitConversionsAreStrictSubtypes | noir_type_checker.py:68-76 | the implicit conversions are the strict subtypes except Float→Double |
| TypeChecker.CanExplicitlyConvert | noir_type_checker.py:78-102 | whether an explicit conversion is allowed; CanExplicitlyConvertCases states its answer for every pair of type names |
| TypeChecker.CanExplicitlyConvertCases | noir_type_checker.py:78-102 | same type is allowed; for ASCII text, String→Int iff the text with its leading and trailing dashes stripped is non-empty ASCII digits, and never when it holds an ASCII non-digit; String→Char iff length 1; the only errors are String→Float and String→Int on a value without a known text or on non-ASCII text |
| TypeChecker.ConvertValue | noir_type_checker.py:104-131 | the conversion of a value to a type name; ConvertValueCases and IntStringRoundTrip state its results |
| TypeChecker.ConvertValueCases | noir_type_checker.py:104-131 | conversion to String is `str`, to Char needs exactly one character, to Bool is non-zero or a true word; any other target is refused |
| TypeChecker.IntStringRoundTrip | noir_type_checker.py:104-131 | converting an integer to String and back gives the same integer |
| TypeChecker.GetTypeName | noir_type_checker.py:133-146 | the name is one of Int, Float, Char, String, Unknown; a bool is Int; a string is Char iff it has length 1 |
| TypeChecker.IsValidInstantiation | noir_type_checker.py:26-50 | a valid instantiation is of a generic by an instantiated type with the same name and parameter count |
| TypeChecker.InstantiateIsValid | noir_type_checker.py:26-50 | instantiating an unconstrained generic with the right number of arguments gives a valid instantiation |
| TypeChecker.AreTypesCompatible | noir_type_checker.py:181-197 | whether a value's type fits a target; PrimitiveCompatibility and InstantiatedNeverCompatible state the answer |
| TypeChecker.PrimitiveCompatibility | noir_type_checker.py:181-197 | two primitive types are compatible iff the value's type is a subtype of the target |
| TypeChecker.InstantiatedNeverCompatible | noir_type_checker.py:185-190 | an instantiated target is never compatible, even with its own name, because the generic check runs on the target |
| TypeChecker.ValidateAssignment | noir_type_checker.py:148-179 | the checked and converted value of an assignment; ValidateAssignmentCases, AssignmentDecision and NumericAssignments state its outcomes |
| TypeChecker.ValidateAssignmentCases | noir_type_checker.py:148-179 | a generic target is checked for compatibility; equal primitive types pass the value through; any other non-primitive pair is refused |
| TypeChecker.AssignmentDecision | noir_type_checker.py:155-179 | for different primitive types the assignment is allowed iff the value's type is a subtype or the target is Bool from a number, and the value is then converted |
| TypeChecker.NumericAssignments | noir_type_checker.py:155-179 | an Int is accepted into a Float; a Float is refused for an Int |
| TypeChecker.ValidateTypeCast | noir_type_checker.py:199-218 | the checked and converted value of a cast; ValidateTypeCastCases states its outcomes |
| TypeChecker.ValidateTypeCastCases | noir_type_checker.py:199-218 | a generic side needs a valid instantiation; between two primitives the cast is refused as "cannot cast" exactly when explicit conversion says no; any other pair is an unsupported cast |
| TypeChecker.CastByName | noir_type_checker.py:199-204 | a cast given type names, which become primitive annotations; IdentityCastToUnknownFails, RefusedCasts and StringToIntCast state its outcomes |
| TypeChecker.IdentityCastToUnknownFails | noir_type_checker.py:199-218 | casting a value of unknown type to Unknown fails as an unsupported conversion |
| TypeChecker.RefusedCasts | noir_type_checker.py:78-102 | a string of length other than 1 cannot be cast to Char, and an Int cannot be cast to String |
| TypeChecker.StringToIntCast | noir_type_checker.py:199-218 | the text of an integer of two or more characters is typed String and casts back to that integer |
| Values.Truthy | noir_interpreter.py:144 | `if` truth: a number is true iff non-zero, a string or list iff non-empty, None is false |
| Values.PyEqualsReflexive | noir_interpreter.py:236-237 | `==` holds between a float-free value and itself |
| Values.StrLessIrreflexive | noir_interpreter.py:240-241 | no string is less than itself |
| Values.PyCompare | noir_interpreter.py:240-247 | integers (and bools) compare as integers, strings lexicographically and lists element by element |
| Values.IntListsCompareLexicographically | noir_interpreter.py:240-247 | `<` on two lists of integers is the lexicographic order: the first differing element decides, and a proper prefix is smaller |
| Values.IntListSuffixes | noir_interpreter.py:240-247 | comparing two integer lists from index `i` on is the lexicographic order of their suffixes from `i` |
| Operators.EvalLiteral | noir_interpreter.py:188-204 | integer text becomes its number, string and char text a string, a boolean a bool, `empty` the empty list |
| Operators.FloorDivision | noir_interpreter.py:234-235 | Python's `%` leaves a remainder with the sign of the divisor |
| Operators.IntegerArithmetic | noir_interpreter.py:224-235 | `+`, `-`, `*` and `%` on integers are the integer operations |
| Operators.IntegerComparisons | noir_interpreter.py:236-247 | `==`, `!=`, `<`, `>=` on integers give the integer comparison |
| Operators.ApplyBinary | noir_interpreter.py:218-249 | one operator on two evaluated operands; its meaning is stated by IntegerArithmetic, IntegerComparisons, DivideByZero, DivideByNonZero, MixedFloatArithmetic, LogicalOperatorsUnknown and StringAndUnaryOperators |
| Operators.ApplyUnary | noir_interpreter.py:251-261 | one unary operator on an evaluated operand; StringAndUnaryOperators states that `-` negates an integer and `!` is the negated truth |
| Operators.DivideByZero | noir_interpreter.py:230-235 | `/` by an integer zero is the runtime error "Division by zero" whatever the dividend; `%` by zero escapes as a Python exception |
| Operators.DivideByNonZero | noir_interpreter.py:230-233 | `/` by a non-zero integer yields a float when the dividend is an integer a float holds exactly, or a float with a divisor a float holds exactly; a larger integer operand gives `NotModelled`, where Python rounds or raises OverflowError |
| Operators.MixedFloatArithmetic | noir_interpreter.py:224-229 | `+`, `-`, `*` with a float operand yield a float when every integer operand is one a float holds exactly, and `NotModelled` (Python's rounding or OverflowError) otherwise |
| Operators.LogicalOperatorsUnknown | noir_interpreter.py:249 | `and`/`or` reach "Unknown binary operator" |
| Operators.StringAndUnaryOperators | noir_interpreter.py:224-259 | strings concatenate and repeat; unary minus negates an integer; `!` is the negated truth |
| Operators.RepeatLength | noir_interpreter.py:228-229 | repeating a string n times gives n times its length |
| Environment.Resolve | noir_interpreter.py:69-75 | finds the innermost scope that holds the name, or none when no scope does |
| Environment.LookupNearest | noir_interpreter.py:55-67 | `get` and `get_type` succeed iff some scope holds the name, read the innermost such scope, and otherwise fail with "Undefined variable" |
| Environment.DefineIn | noir_interpreter.py:33-36 | `define` changes only the current scope |
| Environment.DefineThenGet | noir_interpreter.py:33-36 | after a definition the name reads back its value and type, and other names are unchanged |
| Environment.AssignIn | noir_interpreter.py:38-53 | a successful assignment keeps every scope's names and types |
| Environment.AssignUpdatesResolvedScope | noir_interpreter.py:38-53 | an unknown name fails with "Undefined variable"; otherwise only the resolved scope's value changes, to the checked value |
| Environment.AssignKeepsOthers | noir_interpreter.py:38-53 | assignment leaves every other name's value and every type unchanged |
| Environment.ValidateByName | noir_interpreter.py:43-47 | `validate_assignment` against a type name and the value's own type name; AssignSameType states that a value of the recorded type is stored unchanged |
| Environment.AssignSameType | noir_interpreter.py:43-49 | assigning a value of the variable's own type stores exactly that value |
| Environment.ShapeAfterStore | noir_interpreter.py:49 | storing a value with the same type keeps the names and types of every scope |
| Semantics.Eval | noir_interpreter.py:98-103 | evaluating any expression keeps the scopes' names and types |
| Semantics.EvalBinary | noir_interpreter.py:218-249 | a binary operation keeps the scopes' names and types |
| Semantics.EvalList | noir_interpreter.py:263-265 | a list of expressions yields one value per expression |
| Semantics.EvalCall | noir_interpreter.py:315-328 | a call keeps the caller's scopes' names and types |
| Semantics.CallFunction | noir_interpreter.py:269-310 | the function scope is gone after the call, and the caller's scopes keep their names and types |
| Semantics.Exec | noir_interpreter.py:91-96 | after a statement the outer scopes keep their names and types, and the current scope keeps every name it had |
| Semantics.ExecBlock | noir_interpreter.py:105-110 | a block runs in the current scope: outer scopes keep their names and types, and the current scope only gains names |
| Semantics.ExecVariableDecl | noir_interpreter.py:112-132 | a declaration only adds to the current scope; outer scopes keep their names and types |
| Semantics.InitialValue | noir_interpreter.py:114-127 | computing the initial value keeps the scopes' names and types |
| Semantics.ExecIf | noir_interpreter.py:139-154 | an `if` keeps the outer scopes' names and types, and the current scope only gains names |
| Semantics.ExecElifs | noir_interpreter.py:146-154 | the elif chain keeps the outer scopes' names and types, and the current scope only gains names |
| Semantics.WhileFrom | noir_interpreter.py:156-159 | a `while` keeps the outer scopes' names and types, and the current scope only gains names |
| Semantics.ExecFor | noir_interpreter.py:161-182 | a `for` loop leaves the scopes' names and types as they were |
| Semantics.ForScope | noir_interpreter.py:171-182 | the loop scope is removed on every exit |
| Semantics.ForFrom | noir_interpreter.py:176-180 | the iterations keep the outer scopes' names and types, and the loop scope only gains names |
| Semantics.InterpretFrom | noir_interpreter.py:83-89 | running the program keeps the number of scopes |
| Interpreter.Interpreter.constructor | noir_interpreter.py:78-81 | a new interpreter has one scope that holds only `print`, typed Function |
| Interpreter.Interpreter.Define | noir_interpreter.py:33-36 | the scopes become `DefineIn` of the old ones and the output is unchanged |
| Interpreter.Interpreter.AssignExisting | noir_interpreter.py:38-53 | the scopes become `AssignIn` of the old ones on success, and are unchanged on failure |
| Interpreter.Interpreter.Get | noir_interpreter.py:55-60 | returns `Lookup` of the current scopes |
| Interpreter.Interpreter.GetType | noir_interpreter.py:62-67 | returns `TypeOf` of the current scopes |
| Interpreter.Interpreter.EvaluateIdentifier | noir_interpreter.py:206-216 | the loop over the scope chain returns `Lookup` of the name |
| Interpreter.Interpreter.Evaluate | noir_interpreter.py:98-103 | result and new state are exactly `Eval` |
| Interpreter.Interpreter.EvaluateBinary | noir_interpreter.py:218-249 | result and new state are exactly `EvalBinary` |
| Interpreter.Interpreter.EvaluateUnary | noir_interpreter.py:251-261 | result and new state are exactly `Eval` of the unary node |
| Interpreter.Interpreter.EvaluateList | noir_interpreter.py:263-265 | result and new state are exactly `EvalList` |
| Interpreter.Interpreter.EvaluateCall | noir_interpreter.py:315-328 | result and new state are exactly `EvalCall` |
| Interpreter.Interpreter.Call | noir_interpreter.py:269-310 | result and new state are exactly `CallFunction` |
| Interpreter.Interpreter.BindParameters | noir_interpreter.py:278-285 | the parameter scope is exactly `BindArguments` |
| Interpreter.Interpreter.EvaluateTypeCast | noir_interpreter.py:343-353 | result and new state are exactly `Eval` of the cast |
| Interpreter.Interpreter.EvaluateAssignment | noir_interpreter.py:337-341 | result and new state are exactly `Eval` of the assignment |
| Interpreter.Interpreter.Execute | noir_interpreter.py:91-96 | result and new state are exactly `Exec` |
| Interpreter.Interpreter.ExecuteBlock | noir_interpreter.py:105-110 | result and new state are exactly `ExecBlock` |
| Interpreter.Interpreter.ExecuteVariableDecl | noir_interpreter.py:112-132 | result and new state are exactly `ExecVariableDecl` |
| Interpreter.Interpreter.ExecuteAssignment | noir_interpreter.py:134-137 | result and new state are exactly `Exec` of the assignment |
| Interpreter.Interpreter.ExecuteReturn | noir_interpreter.py:330-335 | result and new state are exactly `Exec` of the return |
| Interpreter.Interpreter.ExecuteIf | noir_interpreter.py:139-154 | result and new state are exactly `ExecIf` |
| Interpreter.Interpreter.ExecuteElifs | noir_interpreter.py:146-154 | result and new state are exactly `ExecElifs` |
| Interpreter.Interpreter.ExecuteWhile | noir_interpreter.py:156-159 | result and new state are exactly `WhileFrom` |
| Interpreter.Interpreter.ExecuteFor | noir_interpreter.py:161-182 | result and new state are exactly `ExecFor` |
| Interpreter.Interpreter.IterateInScope | noir_interpreter.py:171-182 | result and new state are exactly `ForScope` |
| Interpreter.Interpreter.Iterate | noir_interpreter.py:176-180 | result and new state are exactly `ForFrom` |
| Interpreter.Interpreter.Interpret | noir_interpreter.py:83-89 | report and new state are exactly `InterpretFrom` |
| InterpreterProperties.IntegerRange | noir_interpreter.py:165-180 | on integers the exclusive end moves one toward the start, the loop test is `i <= end` (or `>=` for a negative step), and the counter grows by the step |
| InterpreterProperties.RangeFrom | noir_interpreter.py:176-180 | the range is empty exactly when the start has passed the end in the direction of the step, and otherwise begins at the start |
| InterpreterProperties.RangeFromValues | noir_interpreter.py:176-180 | the iterated values are `start + j*step`, between start and end in either direction of the step, and every such value not past the end is visited |
| InterpreterProperties.PrintedValues | noir_interpreter.py:81 | printing a sequence of integers records one single-argument call per value, in order |
| InterpreterProperties.NameArgument | noir_interpreter.py:324 | an identifier argument evaluates to the variable's value without changing the state |
| InterpreterProperties.PrintStep | noir_interpreter.py:315-328 | `print(x)` appends x's value to the output and changes nothing else |
| InterpreterProperties.StoreIterator | noir_interpreter.py:178 | storing an integer into the Int iterator succeeds, and print stays visible |
| InterpreterProperties.ForStep | noir_interpreter.py:177-180 | one iteration assigns the counter, runs the body and continues from counter + step |
| InterpreterProperties.PrintRunPrints | noir_interpreter.py:176-180 | a run of print iterations appends the printed range to the output |
| InterpreterProperties.PrintingLoop | noir_interpreter.py:176-180 | with enough fuel the loop of print iterations finishes normally with that run's output |
| InterpreterProperties.PrintingLoopScope | noir_interpreter.py:171-182 | the loop scope around the print iterations is dropped at the end |
| InterpreterProperties.PrintingForLoop | noir_interpreter.py:161-182 | `for i in a to/thru b [by s]: print(i)` prints every value of the range in order, counting up for a positive step and down for a negative one, with `to` stopping one short of the end, and leaves the scopes unchanged |
| InterpreterProperties.ForDeclarationsVanish | noir_interpreter.py:171-182 | a name unknown before a `for` loop is still unknown after it |
| InterpreterProperties.BlockDeclaresInCurrentScope | noir_interpreter.py:105-132 | a declaration inside a block lands in the current scope and stays visible after the block |
| InterpreterProperties.ElifStep | noir_interpreter.py:148-151 | with literal conditions, a true elif runs its body and a false one moves on |
| InterpreterProperties.FirstTrue | noir_interpreter.py:148-151 | the first elif whose condition is true, when there is one |
| InterpreterProperties.FirstTrueElifRuns | noir_interpreter.py:146-154 | exactly the first true elif runs, or the else branch when none is true |
| InterpreterProperties.LaterBranchesIgnored | noir_interpreter.py:148-151 | once an elif is true, the later branches are not evaluated |
| InterpreterProperties.WrongArgumentCount | noir_interpreter.py:270-271 | a call with the wrong number of arguments fails with "Expected n arguments but got m" and changes nothing |
| InterpreterProperties.MissingReturnValue | noir_interpreter.py:299-301 | a typed function that returns nothing fails with "Function did not return a value" |
| InterpreterProperties.ReturnReachesCall | noir_interpreter.py:293-308 | an untyped function returns its `return` value, None when it falls off the end, and passes other errors on |
| InterpreterProperties.ResolveBelow | noir_interpreter.py:69-75 | a name absent from the innermost scope resolves as in the enclosing scopes |
| InterpreterProperties.CallerVariablesVisible | noir_interpreter.py:274 | a function body reads the caller's variables (dynamic scoping) |
| InterpreterProperties.BlockSequence | noir_interpreter.py:109-110 | running two statement lists one after the other is running their concatenation |
| InterpreterProperties.ReturnLeavesWhile | noir_interpreter.py:156-159 | a `return` inside a `while` ends the loop at once |
| InterpreterProperties.InterpretStopsAtFirstError | noir_interpreter.py:83-89 | the program stops at the first statement that fails; later statements do not run |
| InterpreterProperties.TopLevelReturnEscapes | noir_interpreter.py:83-89 | a top-level `return` is not a runtime error and escapes `interpret` |
| InterpreterProperties.UnhandledNodes | noir_interpreter.py:91-103 | method calls and array access are unknown expressions; enum and protocol declarations are unknown statements |
| InterpreterProperties.DivideByLiteralZero | noir_interpreter.py:230-232 | dividing by the literal 0 is "Division by zero" |
| InterpreterProperties.InitialBindings | noir_interpreter.py:78-81 | initially only `print` is defined, typed Function |
| Grammar.ConsumeAt | noir_parser.py:78-82 | consumes the token iff it has the expected kind; otherwise fails with the message at the current token |
| Grammar.AnnotationAt | noir_parser.py:296-379 | a parsed annotation advances; it is never GENERIC, its parameters are concrete annotations, and with parameters it is INSTANTIATED |
| Grammar.BracketAnnotationAt | noir_parser.py:299-316 | `[T]` is an Array of one parameter and `[K: V]` a Dict of two |
| Grammar.DictTailAt | noir_parser.py:302-309 | the value type after `:` completes a two-parameter Dict |
| Grammar.Shaped | noir_parser.py:305-316 | a bracket annotation gets the kind its parameters give, whatever kind is requested |
| Grammar.NamedAnnotationAt | noir_parser.py:319-355 | a named annotation always advances and is well shaped |
| Grammar.WithArguments | noir_parser.py:343-352 | a named type with arguments keeps its name and its arguments |
| Grammar.TypeArgumentsAt | noir_parser.py:328-352 | a type-argument list ends at `>` and yields a well-shaped annotation |
| Grammar.SetAnnotationAt | noir_parser.py:363-377 | a Set or OSet annotation always advances |
| Grammar.SetElementAt | noir_parser.py:367-374 | a set type keeps its base name and has one element type |
| Grammar.AnnotationListAt | noir_parser.py:332-338 | a comma-separated annotation list yields at least one more annotation |
| Grammar.BracketAnnotation | noir_parser.py:299-316 | an annotation that starts with `[` is Array with one parameter or Dict with two |
| Grammar.SetWithoutElementTypeRefused | noir_parser.py:376-377 | a Set without `<` fails with "Set types must specify their element type" |
| Grammar.NotATypeName | noir_parser.py:379 | any other token fails with "Expected type name" |
| Grammar.TypeParameterAnnotation | noir_parser.py:319-325 | a one-letter upper-case name is a type parameter |
| Grammar.ExpressionAt | noir_parser.py:591-593 | a parsed expression consumes at least one token |
| Grammar.AssignmentAt | noir_parser.py:595-608 | an assignment consumes at least one token |
| Grammar.AssignmentShape | noir_parser.py:595-606 | `x = e` nests to the right; a target that is not a name fails with "Invalid assignment target" at the `=` |
| Grammar.NoAssignment | noir_parser.py:608 | without `=` the expression is the operand itself |
| Grammar.OperandAt | noir_parser.py:610-675 | an operand of a precedence level consumes at least one token |
| Grammar.BinaryAt | noir_parser.py:610-675 | a binary level consumes at least one token |
| Grammar.BinaryLoopAt | noir_parser.py:614-619 | without an operator of the level the left operand is returned unchanged |
| Grammar.BinaryLoopLeftNested | noir_parser.py:614-619 | a chain of operators of one level nests to the left |
| Grammar.BinaryLeftNested | noir_parser.py:610-675 | when an operator of the level follows the first operand, the root is the last such operator and its right child is one operand: `a op b op c` is `(a op b) op c` |
| Grammar.UnaryAt | noir_parser.py:677-684 | a unary expression consumes at least one token |
| Grammar.CastAt | noir_parser.py:686-694 | a cast expression consumes at least one token |
| Grammar.ElementsAt | noir_parser.py:708-717 | an element list that starts at the closing token is empty |
| Grammar.ExpressionListAt | noir_parser.py:712-715 | a comma-separated expression list yields at least one more expression |
| Grammar.ArgumentsAt | noir_parser.py:742-750 | an argument list consumes at least its parenthesis |
| Grammar.PrimaryAt | noir_parser.py:696-759 | a primary expression consumes at least one token |
| Grammar.CompoundAt | noir_parser.py:708-757 | an array literal, name or grouping consumes at least one token |
| Grammar.ArrayLiteralAt | noir_parser.py:708-717 | `[ … ]` yields an array literal |
| Grammar.IdentifierTailAt | noir_parser.py:719-752 | a name followed by none of `.`, `[`, `(` is the identifier itself |
| Grammar.MethodCallAt | noir_parser.py:723-733 | `x.m(…)` yields a method call on x |
| Grammar.IndexAt | noir_parser.py:736-739 | `x[e]` yields an array access on x |
| Grammar.GroupingAt | noir_parser.py:754-757 | a parenthesised expression consumes at least its parenthesis |
| Grammar.SkipFrom | noir_parser.py:90-91 | skipping stops at the first token not in the set |
| Grammar.SyncFrom | noir_parser.py:765-783 | recovery stops inside the token list |
| Grammar.SyncFromStops | noir_parser.py:761-783 | recovery stops at the first point that is the end, just after a `::`, or a token that starts a statement (if, for, while, return, identifier); after a `::` it also skips the newlines |
| Grammar.SyncStopProgress | noir_parser.py:761-763 | recovery always moves forward unless already at the end |
| StatementGrammar.VariableDeclAt | noir_parser.py:280-294 | a declaration keeps the name and always has an initializer |
| StatementGrammar.InitializerAt | noir_parser.py:284-294 | after the type, a declaration without `=` is refused; with it, the declaration keeps the name and the type read and carries an initializer |
| StatementGrammar.VariableDeclarationRefused | noir_parser.py:117-118 | entered at the colon, a variable declaration always fails with "Expected type name" at that colon |
| StatementGrammar.ParameterAt | noir_parser.py:393-396 | a parameter is `name : Type`, at least three tokens, and keeps the name of its identifier |
| StatementGrammar.ParameterListAt | noir_parser.py:391-399 | a parameter list consumes at least one token |
| StatementGrammar.ParameterListAfter | noir_parser.py:398-399 | without a comma after a parameter the list ends there, with the parameters read so far |
| StatementGrammar.ParametersAt | noir_parser.py:386-401 | the parenthesised parameters consume at least the parentheses |
| StatementGrammar.ReturnTypeAt | noir_parser.py:404-406 | without `->` there is no return type; a return type is read only after `->` |
| StatementGrammar.SignatureAt | noir_parser.py:386-408 | a signature consumes at least one token |
| StatementGrammar.SignatureTailAt | noir_parser.py:401-408 | the return type and colon complete the signature with the given parameters |
| StatementGrammar.ForHeaderAt | noir_parser.py:511-530 | the for header names the iterator from the first token |
| StatementGrammar.ForRangeAt | noir_parser.py:514-522 | the range keeps the iterator |
| StatementGrammar.ForEndAt | noir_parser.py:524-530 | the end expression keeps the iterator, the start and the inclusiveness |
| StatementGrammar.StepAt | noir_parser.py:527-528 | without `by` there is no step; a step is read only after `by` |
| StatementGrammar.With | noir_parser.py:233-260 | a property joins the properties and a method joins the methods |
| StatementGrammar.MemberAt | noir_parser.py:227-262 | a member is a property iff `:` follows the name; any other token fails with "Expected ':' or '(' after member name" |
| StatementGrammar.MembersAt | noir_parser.py:214-270 | the members end at `::` or the end |
| StatementGrammar.ProtocolAt | noir_parser.py:193-278 | a protocol keeps its name and ends at `::` |
| StatementGrammar.ProtocolBodyAt | noir_parser.py:200-278 | the protocol body ends at `::` |
| StatementGrammar.VariantsAt | noir_parser.py:167-183 | never fails; extends the variants read so far and stops before the first token that is not an identifier |
| StatementGrammar.EnumBodyAt | noir_parser.py:154-191 | an enum keeps its name and conformance |
| StatementGrammar.EnumBodyCloses | noir_parser.py:154-191 | an enum that parses consumed its colon and ends just after a `::` |
| BlockGrammar.DeclarationAt | noir_parser.py:113-139 | a declaration stays within the tokens, and one that parses or fails with a ParseError has consumed at least one token |
| BlockGrammar.FunctionDeclarationAt | noir_parser.py:123-128 | the same bounds and progress for `func` and its name |
| BlockGrammar.FunctionAt | noir_parser.py:381-420 | a parsed function has consumed tokens and carries the name it was given |
| BlockGrammar.FunctionBodyAt | noir_parser.py:408-413 | a parsed function body ends just after a `::` |
| BlockGrammar.BlockAt | noir_parser.py:569-589 | a parsed block stops at `::` or at the end |
| BlockGrammar.BlockLoopAt | noir_parser.py:577-587 | the loop of `block` stops at `::` or at the end |
| BlockGrammar.TerminatedAt | noir_parser.py:531-539 | a terminated loop body ends just after a `::` |
| BlockGrammar.WhileAt | noir_parser.py:543-560 | a parsed `while` is a while loop and has consumed at least one token |
| BlockGrammar.ForAt | noir_parser.py:506-541 | a parsed `for` is a for loop and has consumed at least one token |
| BlockGrammar.TurnAt | noir_parser.py:88-107 | a turn of the parse loop that does not end it consumes at least one token; what it reports is a ParseError, and what ends it is an internal error |
| BlockGrammar.OpenAfter | noir_parser.py:381-383 | a reported turn leaves at most one more function block open |
| BlockGrammar.DeclarationOutcomes | noir_parser.py:113-139 | `name :` fails with "Expected type name" at the colon; `func` without a name fails with "Expected function name"; any other token ends in the AttributeError of `TokenType.ENUM` without moving; a parsed declaration is a function named by the token after `func` |
| BlockGrammar.BlockLoopKeeps | noir_parser.py:569-589 | a parsed block keeps, in order, the declarations read before |
| BlockGrammar.TerminatedOutcomes | noir_parser.py:531-539 | a terminated body fails as its block does, fails with "Missing '::' terminator" and the previous token's line when no `::` follows, and otherwise is the block with the `::` consumed |
| BlockGrammar.WhileOutcomes | noir_parser.py:543-560 | `while` fails as its condition does, fails with "Expected ':' after while condition" without the colon, fails as its body does, or is the loop of the condition and the body, ending where its terminated body does |
| BlockGrammar.ForOutcomes | noir_parser.py:506-541 | `for` fails as its header does, fails as its body does, or is the loop of the header's parts and the body, ending where its terminated body does |
| BlockGrammar.IfAt | noir_parser.py:453-504 | a parsed `if` is an if statement and has consumed at least one token |
| BlockGrammar.IfThenAt | noir_parser.py:465-504 | the rest of an `if` after its `:` keeps the condition it was given |
| BlockGrammar.ElseTailAt | noir_parser.py:476-497 | a parsed else tail has at most one elif branch, and none beside an else block |
| BlockGrammar.ElseIfAt | noir_parser.py:478-486 | a parsed `else if` stops at a `::` it leaves unread, or at the end |
| BlockGrammar.ElifBodyAt | noir_parser.py:484-486 | the body of an `else if` keeps its condition and stops at a `::` it leaves unread, or at the end |
| BlockGrammar.ElseBlockAt | noir_parser.py:487-497 | a parsed `else` block ends just after a `::` |
| BlockGrammar.ElseBodyAt | noir_parser.py:493-496 | the body of an `else` ends just after a `::` |
| BlockGrammar.ReturnAt | noir_parser.py:562-567 | a parsed `return` has no value exactly when `::` follows it |
| BlockGrammar.ExpressionStatementAt | noir_parser.py:439-451 | a parsed expression statement has consumed tokens and no newline follows it |
| BlockGrammar.StatementAt | noir_parser.py:422-433 | a parsed statement is of the kind the keyword before it selects |
| BlockGrammar.IfOutcomes | noir_parser.py:453-463 | `if` fails as its condition does, fails with "Expected ':' after if condition" without the colon, or goes on after the colon and its newlines |
| BlockGrammar.IfThenOutcomes | noir_parser.py:465-504 | after the `:`, an `if` fails as its then-block does, fails with "Missing '::' terminator" and the previous token's line when no `::` follows, fails as its else tail does, or is the statement of the condition, the then-block and the tail, ending where the tail does |
| BlockGrammar.ElseTailOutcomes | noir_parser.py:476-497 | no `else` reads nothing; `else if` gives one elif branch and stops at an unread `::` or the end; `else` gives the else block and stops just after its `::`; each fails as its part does |
| BlockGrammar.ElseBlockCloses | noir_parser.py:487-497 | a parsed `else` block ends just after `::`; a body without `::` after it fails with "Expected '::' after else block" where the body stopped |
| BlockGrammar.ProgramFrom | noir_parser.py:84-111 | the loop of `parse` as a function of the tokens; ProgramKeepsStatements, ProgramReportsParseErrors and ProgramEnds state what it keeps, reports and returns |
| BlockGrammar.ProgramEnds | noir_parser.py:87 | at EOF the loop of `parse` stops and returns the statements, reports and open blocks it has so far |
| BlockGrammar.ProgramKeepsStatements | noir_parser.py:84-111 | the loop of `parse` keeps, in order, the declarations it has read |
| BlockGrammar.ProgramReportsParseErrors | noir_parser.py:84-111 | the loop of `parse` keeps what it has reported, reports only ParseErrors, and is ended only by a failure that is not a ParseError |
| BlockGrammar.UnterminatedFunctionFails | noir_parser.py:381-413 | `func NAME ( ) :` before EOF begins a function block and fails with "Expected '::' after function body" at EOF |
| BlockGrammar.UnterminatedFunctionLeftOpen | noir_parser.py:84-111 | the loop of `parse` over `func NAME ( ) :` and EOF reports that one error, reads no statement and leaves one function block open |
| BlockGrammar.EmptySignature | noir_parser.py:386-408 | `( ) :` is a signature with no parameters and no return type |
| BlockGrammar.BodyAtEnd | noir_parser.py:408-413 | a function body at EOF is an empty block followed by the missing-`::` error |
| StatementGrammar.EnumCloseAt | noir_parser.py:186-191 | the enum is complete at `::` |
| Parser.PushedAbove | noir_parser.py:25-33 | blocks pushed above a record keep the stack below it |
| BlockGrammar.ReportedTransitive | noir_parser.py:104-107 | reported errors only accumulate |
| Parser.Parser.constructor | noir_parser.py:20-23 | a new parser starts at token 0 with an empty block stack |
| Parser.Parser.Peek | noir_parser.py:44-48 | the current token, or EOF past the end |
| Parser.Parser.Previous | noir_parser.py:50-52 | the token before the current one (the last one at position 0, as Python's `[-1]`) |
| Parser.Parser.Check | noir_parser.py:72-76 | holds only for a token of that kind that is not the end |
| Parser.Parser.Advance | noir_parser.py:54-58 | moves one token forward unless at the end |
| Parser.Parser.Match | noir_parser.py:64-70 | consumes one token iff it has one of the kinds |
| Parser.Parser.Consume | noir_parser.py:78-82 | yields exactly `ConsumeAt` |
| Parser.Parser.Skip | noir_parser.py:90-91 | stops exactly where `SkipFrom` does |
| Parser.Parser.BeginBlock | noir_parser.py:25-27 | pushes one record of the block kind, line and column |
| Parser.Parser.EndBlock | noir_parser.py:29-33 | pops the innermost record; an empty stack stays empty and fails with "Unexpected '::'" at the current token |
| Parser.Parser.UnclosedBlocks | noir_parser.py:35-42 | fails iff the stack is not empty, naming the innermost block's kind, line and column |
| Parser.Parser.ParseTypeAnnotation | noir_parser.py:296-379 | yields exactly `AnnotationAt` |
| Parser.Parser.BracketAnnotation | noir_parser.py:299-316 | yields exactly `BracketAnnotationAt` |
| Parser.Parser.DictTail | noir_parser.py:302-309 | yields exactly `DictTailAt` |
| Parser.Parser.NamedAnnotation | noir_parser.py:319-355 | yields exactly `NamedAnnotationAt` |
| Parser.Parser.TypeArguments | noir_parser.py:328-352 | yields exactly `TypeArgumentsAt` |
| Parser.Parser.SetAnnotation | noir_parser.py:363-377 | yields exactly `SetAnnotationAt` |
| Parser.Parser.SetElement | noir_parser.py:367-374 | yields exactly `SetElementAt` |
| Parser.Parser.AnnotationList | noir_parser.py:332-338 | yields exactly `AnnotationListAt` |
| Parser.Parser.Expression | noir_parser.py:591-593 | yields exactly `ExpressionAt` |
| Parser.Parser.Assignment | noir_parser.py:595-608 | yields exactly `AssignmentAt` |
| Parser.Parser.Operand | noir_parser.py:610-675 | yields exactly `OperandAt` |
| Parser.Parser.Binary | noir_parser.py:610-675 | yields exactly `BinaryAt` |
| Parser.Parser.ExtendBinary | noir_parser.py:615-617 | one turn of a binary level's loop: the operator just matched and the operand after it extend the tree on the left, consuming at least one more token, and the loop's outcome is unchanged; a failing operand is the outcome of the whole loop |
| Parser.Parser.Unary | noir_parser.py:677-684 | yields exactly `UnaryAt` |
| Parser.Parser.TypeCastExpr | noir_parser.py:686-694 | yields exactly `CastAt` |
| Parser.Parser.Primary | noir_parser.py:696-759 | yields exactly `PrimaryAt` |
| Parser.Parser.Compound | noir_parser.py:708-757 | yields exactly `CompoundAt` |
| Parser.Parser.ArrayLiteralTail | noir_parser.py:708-717 | yields exactly `ArrayLiteralAt` |
| Parser.Parser.IdentifierTail | noir_parser.py:719-752 | yields exactly `IdentifierTailAt` |
| Parser.Parser.MethodCallTail | noir_parser.py:723-733 | yields exactly `MethodCallAt` |
| Parser.Parser.IndexTail | noir_parser.py:736-739 | yields exactly `IndexAt` |
| Parser.Parser.Grouping | noir_parser.py:754-757 | yields exactly `GroupingAt` |
| Parser.Parser.Arguments | noir_parser.py:742-750 | yields exactly `ArgumentsAt` |
| Parser.Parser.Elements | noir_parser.py:708-717 | yields exactly `ElementsAt` |
| Parser.Parser.ExpressionList | noir_parser.py:712-715 | yields exactly `ExpressionListAt` |
| Parser.Parser.Synchronize | noir_parser.py:761-783 | stops exactly where `SyncStop` does |
| Parser.Parser.FunctionParameter | noir_parser.py:393-396 | yields exactly `ParameterAt` |
| Parser.Parser.ParameterList | noir_parser.py:391-399 | yields exactly `ParameterListAt` |
| Parser.Parser.NextParameter | noir_parser.py:392-399 | one turn of the parameter loop continues `ParameterListAt` |
| Parser.Parser.ParameterSeparator | noir_parser.py:398-399 | consumes a comma exactly when one follows; with it the list goes on from the next token, without it the list ends where it stands |
| Parser.Parser.Parameters | noir_parser.py:386-401 | yields exactly `ParametersAt` |
| Parser.Parser.ReturnType | noir_parser.py:404-406 | yields exactly `ReturnTypeAt` |
| Parser.Parser.FunctionSignature | noir_parser.py:386-408 | yields exactly `SignatureAt` |
| Parser.Parser.SignatureTail | noir_parser.py:401-408 | yields exactly `SignatureTailAt` |
| Parser.Parser.Declaration | noir_parser.py:113-139 | yields exactly `DeclarationAt`, and a parsed declaration holds only function declarations; a failed declaration that began with `func` and a name leaves the block stack grown, with function blocks only; any other declaration leaves it as it was |
| Parser.Parser.VariableAhead | noir_parser.py:115-121 | true exactly for an identifier followed by `:`, leaving the identifier consumed; otherwise nothing is consumed |
| Parser.Parser.FunctionDeclaration | noir_parser.py:123-128 | yields exactly `FunctionDeclarationAt`; after `func` and a name a failure leaves the block stack grown, with function blocks only; without them the stack is as it was |
| Parser.Parser.RefusedVariableDeclaration | noir_parser.py:117-118 | a variable declaration fails with "Expected type name" at the colon |
| Parser.Parser.FinishVariableDeclaration | noir_parser.py:280-294 | yields exactly `VariableDeclAt` |
| Parser.Parser.FinishFunctionDeclaration | noir_parser.py:381-420 | yields exactly `FunctionAt`; a parsed function pops its block; a failed signature leaves its block open |
| Parser.Parser.FunctionParts | noir_parser.py:386-413 | with the function block on top, yields exactly `FunctionAt` and pops that block on success |
| Parser.Parser.FunctionBody | noir_parser.py:408-413 | yields exactly `FunctionBodyAt` and pops the function block on success |
| Parser.Parser.Block | noir_parser.py:569-589 | yields exactly `BlockAt`, with the block stack as it was, and holds only function declarations |
| Parser.Parser.BlockStatement | noir_parser.py:578-587 | one turn of the block loop continues `BlockLoopAt`, consuming at least one token, or is the loop's failure |
| Parser.Parser.TopLevelDeclaration | noir_parser.py:88-107 | one turn of the parse loop does exactly what `TurnAt` says: skips, declares, reports a ParseError and recovers, or fails with an internal error; a reported turn grows the block stack exactly when `TurnAt` marks it as leaving a function block open |
| Parser.Parser.NextDeclaration | noir_parser.py:87-107 | one turn of the parse loop continues `ProgramFrom`, counting one more open function block exactly when the block stack grows, or is the internal error that ends it |
| Parser.Parser.RecoveringDeclaration | noir_parser.py:101-107 | a ParseError is reported and followed by recovery; a failure after `func` and a name leaves the block stack grown, and any other declaration leaves it as it was |
| Parser.Parser.Recover | noir_parser.py:104-107 | recovery records the error and stops where `SyncStop` does |
| Parser.Parser.Parse | noir_parser.py:35-111 | the statements and reported errors are those `ProgramFrom` reads; without an internal error it succeeds exactly when it started with no open block and no reported failure left a function block open; success means every token was read, no block is open and every declaration is a function holding only functions; a ParseError at the end is the unclosed-block error, for a function block when it started with none; errors reported only accumulate; from an empty stack with no errors reported, only an internal error can fail it |
| Parser.ParseUnterminatedFunction | noir_parser.py:35-111 | `parse` over `func NAME ( ) :` and EOF reports "Expected '::' after function body" and then fails with the unclosed function-block error instead of returning no statements |
| Parser.OpenStep | noir_parser.py:25-27 | a turn of `parse` that grows the block stack only when it reports keeps the count of open function blocks |
| Parser.Parser.Statement | noir_parser.py:422-437 | returns the statement `StatementAt` parses and stops where it does; when that routine fails with a ParseError, returns "no statement" and stops where `SyncStop` does from the failure; any other failure is passed on unchanged; a statement it returns matches the keyword before it |
| Parser.Parser.ExpressionStatement | noir_parser.py:439-451 | yields exactly `ExpressionStatementAt` |
| Parser.Parser.ReturnStatement | noir_parser.py:562-567 | yields exactly `ReturnAt` |
| Parser.Parser.WhileStatement | noir_parser.py:543-560 | yields exactly `WhileAt`, with the block stack as it was on success |
| Parser.Parser.TerminatedBody | noir_parser.py:531-539 | yields exactly `TerminatedAt` and pops its block on success |
| Parser.Parser.Terminator | noir_parser.py:534-539 | a `::` is consumed and pops the block; otherwise the error is "Missing '::' terminator" with the line of the previous token, and nothing moves |
| Parser.Parser.ForStatement | noir_parser.py:506-541 | yields exactly `ForAt`, with the block stack as it was on success |
| Parser.Parser.ForLoopHeader | noir_parser.py:511-530 | yields exactly `ForHeaderAt` |
| Parser.Parser.ForRange | noir_parser.py:514-522 | yields exactly `ForRangeAt` |
| Parser.Parser.ForEnd | noir_parser.py:524-530 | yields exactly `ForEndAt` |
| Parser.Parser.Step | noir_parser.py:527-528 | yields exactly `StepAt` |
| Parser.Parser.IfStatement | noir_parser.py:453-504 | yields exactly `IfAt`, whose condition is the expression after `if`; at most one elif and no else beside it; an elif leaves its block on the stack, any other parsed `if` leaves the stack as it was, and a failure leaves it grown |
| Parser.Parser.IfThen | noir_parser.py:465-504 | with the if block on top, yields exactly `IfThenAt`; the if block is popped on success, and an elif leaves its own block on the stack |
| Parser.Parser.ElseTail | noir_parser.py:476-497 | yields exactly `ElseTailAt`; no `else` gives no branches and moves nothing; `else if` gives one elif whose condition is the expression after `if`, its block left open; `else:` gives the else block and leaves the block stack as it was |
| Parser.Parser.ElseClause | noir_parser.py:477-497 | after the `else`, yields exactly `ElseTailAt` from the `else`, with the same block stack outcomes as `ElseTail` |
| Parser.Parser.ElseIfTail | noir_parser.py:478-486 | yields exactly `ElseIfAt`; success leaves exactly one else-if record pushed and the condition is the expression read; a failure leaves the stack grown above what it was |
| Parser.Parser.ElseBlockTail | noir_parser.py:487-497 | yields exactly `ElseBlockAt`; success pushes and pops the else record, leaving the stack as it was; a failure leaves the stack grown above what it was |
| Parser.Parser.EnumDeclaration | noir_parser.py:141-191 | after the name, the lookup of `TokenType.CONFORMANCE` ends in an AttributeError; without a name it fails with "Expected enum name" |
| Parser.Parser.EnumBody | noir_parser.py:154-191 | yields exactly `EnumBodyAt`, and pushes the enum block only where the source does |
| Parser.Parser.Variants | noir_parser.py:167-183 | reads exactly the variants `VariantsAt` gives |
| Parser.Parser.ProtocolDeclaration | noir_parser.py:193-278 | yields exactly `ProtocolAt` |
| Parser.Parser.ProtocolBody | noir_parser.py:200-278 | yields exactly `ProtocolBodyAt` |
| Parser.Parser.ProtocolMembers | noir_parser.py:214-270 | yields exactly `MembersAt` |
| Parser.Parser.NextMember | noir_parser.py:214-270 | one turn of the member loop continues `MembersAt` |
| Parser.Parser.NamedMember | noir_parser.py:227-266 | a named member continues `MembersAt` after it |
| Parser.Parser.Member | noir_parser.py:230-262 | yields exactly `MemberAt` |
| AstPrinter.Spaces | ast_printer.py:15-17 | n spaces |
| AstPrinter.PaddingNests | ast_printer.py:15-17 | one level deeper is two more spaces, and shallower padding is a prefix of deeper padding |
| AstPrinter.JoinEndsWithLast | ast_printer.py:110 | a newline-joined text ends with the last part's last character |
| AstPrinter.QuoteFor | ast_printer.py:38-40 | `repr` uses double quotes iff the text has a single quote and no double quote |
| AstPrinter.Repr | ast_printer.py:38-40 | `repr` starts and ends with its quote |
| AstPrinter.ReprNoBreakSpace | ast_printer.py:38-40 | `repr` writes the no-break space U+00A0 as `\xa0`, as Python does |
| AstPrinter.ReprRoundTrip | ast_printer.py:38-40 | `repr` of a string can be read back to that string |
| AstPrinter.ReprOneLine | ast_printer.py:38-40 | `repr` never contains a newline |
| AstPrinter.ElifSections | ast_printer.py:97-103 | one section per elif, each the section of that branch |
| AstPrinter.ConcatInOrder | ast_printer.py:97-103 | concatenated four-line sections keep their order |
| AstPrinter.ElifPartsInOrder | ast_printer.py:97-103 | the k-th elif prints as ELIF_CONDITION, its condition, ELIF_BODY, its body, in order |
| AstPrinter.IfSections | ast_printer.py:87-110 | an if prints IF_STATEMENT, CONDITION, THEN, then the elif sections, then ELSE when present |
| AstPrinter.TypeText | ast_printer.py:46-51 | the printout of a type annotation; TypeWithTwoParameters and TypeArgTextsInOrder state its shape |
| AstPrinter.ExprText | ast_printer.py:19-236 | the printout of an expression; ExprTextEnd and ExprTextsInOrder state how it ends and how its operands are listed |
| AstPrinter.StmtText | ast_printer.py:19-192 | the printout of a statement; IfSections, ForKeywords, BlockNests and StmtTextsInOrder state its layout |
| AstPrinter.ExprTextEnd | ast_printer.py:19-25 | every printed expression ends with `)`, the `:` of ARGUMENTS or the `L` of ARRAY_LITERAL, never with a newline |
| AstPrinter.ForKeywords | ast_printer.py:112-125 | a for loop prints ten newline-joined parts, each possibly of several lines; THROUGH iff inclusive, TO otherwise; DEFAULT iff no step |
| AstPrinter.BlockNests | ast_printer.py:31-36 | a block's statements print one level deeper; an empty block prints nothing |
| AstPrinter.TypeWithTwoParameters | ast_printer.py:46-51 | a type annotation prints as `TYPE(name<p1, p2>)` |
| AstPrinter.UnhandledNodes | ast_printer.py:19-29 | None prints the invalid-statement text; a type parameter or a plain string prints `<unknown node type: Name>` |
| AstPrinter.UnprintedDeclarations | ast_printer.py:19-29 | enum and protocol declarations print as unknown nodes |
| AstPrinter.TypeArgTextsInOrder | ast_printer.py:46-51 | entry i of the printed type parameters is the printout of parameter i |
| AstPrinter.ExprTextsInOrder | ast_printer.py:168-178 | entry i of printed arguments or elements is the printout of expression i |
| AstPrinter.ParamTextsInOrder | ast_printer.py:152-153 | entry i of the printed parameters is the printout of parameter i |
| AstPrinter.StmtTextsInOrder | ast_printer.py:31-36 | entry i of the printed statements is the printout of statement i |
| AstPrinter.ProgramText | ast_printer.py:238-241 | the printout of a whole program; ProgramAppend states that it is the statements' texts joined by newlines |
| AstPrinter.ProgramAppend | ast_printer.py:238-241 | the program text is the statements' texts joined by newlines |
| AstPrinter.ASTPrinter.constructor | ast_printer.py:11-13 | a new printer starts at indent level 0 |
| AstPrinter.ASTPrinter.Indent | ast_printer.py:15-17 | two spaces per indent level |
| AstPrinter.ASTPrinter.PrintAst | ast_printer.py:19-25 | the text is `NodeText` at the current level, and the level is restored |
| AstPrinter.ASTPrinter.PrintUnknown | ast_printer.py:27-29 | the unknown-node text |
| AstPrinter.ASTPrinter.PrintIdentifier | ast_printer.py:42-44 | the IDENTIFIER text |
| AstPrinter.ASTPrinter.PrintTypeAnnotation | ast_printer.py:46-51 | the TYPE text |
| AstPrinter.ASTPrinter.PrintTypeArg | ast_printer.py:46-51 | a type parameter prints as its own node, an annotation as TYPE |
| AstPrinter.ASTPrinter.PrintFunctionParam | ast_printer.py:137-143 | the PARAM text |
| AstPrinter.ASTPrinter.PrintExpr | ast_printer.py:19-25 | the text is `ExprText`, and the level is restored |
| AstPrinter.ASTPrinter.PrintOperands | ast_printer.py:203-226 | the operands print as `ExprTexts` at the current level, which is left unchanged |
| AstPrinter.ASTPrinter.PrintFunctionCall | ast_printer.py:168-178 | the FUNCTION_CALL text, and the level is restored |
| AstPrinter.ASTPrinter.PrintMethodCall | ast_printer.py:212-226 | the METHOD_CALL text, and the level is restored |
| AstPrinter.ASTPrinter.PrintArrayLiteral | ast_printer.py:203-210 | the ARRAY_LITERAL text, and the level is restored |
| AstPrinter.ASTPrinter.PrintStmt | ast_printer.py:19-25 | the text is `StmtText`, and the level is restored |
| AstPrinter.ASTPrinter.PrintBlock | ast_printer.py:31-36 | the BLOCK text, and the level is restored |
| AstPrinter.ASTPrinter.PrintIfStatement | ast_printer.py:87-110 | the IF_STATEMENT text, and the level is restored |
| AstPrinter.ASTPrinter.PrintElifSections | ast_printer.py:97-103 | the lines of every elif section in order |
| AstPrinter.ASTPrinter.PrintElifSection | ast_printer.py:98-103 | the four lines of one elif section |
| AstPrinter.ASTPrinter.PrintForLoop | ast_printer.py:112-125 | the FOR_LOOP text, and the level is restored |
| AstPrinter.ASTPrinter.PrintFunctionDecl | ast_printer.py:145-166 | the FUNCTION_DECL text, and the level is restored |
| AstPrinter.PrintProgram | ast_printer.py:238-241 | the whole program's text is `ProgramText` |

## Left out

- Values.Truthy, Values.PyCompare, Operators.StringAndUnaryOperators: floats are opaque (`VFloat`). Any truth test, comparison or arithmetic that needs a float's value gives `NotModelled`, and so does the String→Float conversion in TypeChecker.ConvertValue.
- Operators.ApplyBinary: an integer operand beyond 2^53 in magnitude gives `NotModelled` when `+`, `-` or `*` combines it with a float, when it is divided by or divides a float, and when it is the dividend of `/` between integers. Python then rounds it to a float, and raises OverflowError (which `interpret` does not catch) once the integer or the quotient is beyond the float range; that exact threshold is not modelled. Operators.DivideByNonZero and Operators.MixedFloatArithmetic state these cases.
- Operators.ApplyBinary: repeating a string or list by an integer too large for the host's index size raises OverflowError or MemoryError in Python; the model repeats it, since the host's memory is not modelled.
- Operators.IntegerArithmetic: `%` with a string on the left is printf-style formatting in Python; the model gives `NotModelled` for it.
- Lexer.WordEnd: `isalpha`, `isdigit`, `isupper` and `lower` are modelled on ASCII letters and digits only, and so are Types.MakeAnnotation and Common.ToLower.
- TypeChecker.CanExplicitlyConvert: `str.isdigit` is decided only for text that is all ASCII or holds an ASCII non-digit; other text, which may hold Unicode digits such as U+0661, gives a "not modelled" error, since Unicode's digit table is not part of this model. TypeChecker.CanExplicitlyConvertCases states that error case.
- Types.Instantiate: a missing parameter list (`None`) is the empty sequence here. Python raises a TypeError at `len(self.parameters)` (noir_types.py:75), where the model goes on as for an empty list.
- TypeChecker.IsValidInstantiation: a missing parameter list is handled as an empty one; Python raises a TypeError at noir_type_checker.py:34.
- TypeChecker.IsValidInstantiation: a 'subtype' or 'supertype' constraint is evaluated with the subtype table. Python passes the class `TypeChecker` (noir_type_checker.py:42), so the unbound `is_subtype` raises a TypeError there.
- TypeChecker.ValidateAssignment: `validate_type_parameters` (noir_type_checker.py:13-23) is not modelled. It only walks the parameters and returns nothing, so it has no observable effect.
- Semantics.Eval: Python's recursion limit is replaced by a `fuel` bound that every call spends. Running out gives `OutOfFuel`.
- InterpreterProperties.PrintStep: the output of `print` is recorded as the list of argument values of each call, not as the text Python writes. Float formatting, `repr` of lists and the "Runtime Error:" line of `interpret` are not rendered.
- Interpreter.Interpreter.Call: functions are values that name their declaration, so function identity and `callable` on other objects are not modelled. As in the source, the frame of a call is a child of the scopes current at the call (noir_interpreter.py:274).
- InterpreterProperties.PrintingForLoop: a zero step with the start not short of the last value is left out. The source's loop then never ends, and the fuel-bounded semantics only runs out of fuel.
- Parser.Parser.Statement: requires a non-empty token list, like Parser.Parser.Synchronize, Parser.Parser.IfStatement, Parser.Parser.WhileStatement and Parser.Parser.ForStatement. Python raises an IndexError in `previous()` on an empty list, and `lex` always ends the list with EOF.
- Parser.Parser.Parse: the "Parse error: …" line that `parse` prints for each caught error is not modelled; the errors are kept in the `reported` field instead.
- AstPrinter.Repr: `repr` is modelled for the two forms a literal's value takes here, its token text and a boolean; `repr` of other Python objects is not.
- AstPrinter.Repr: characters above U+00FF are written as they are. Python escapes those its Unicode database does not count as printable (as `\uXXXX` or `\UXXXXXXXX`); that table is not part of this model. Up to U+00FF the escapes are Python's.
- Lexer.Lex: the example programs under `if __name__ == "__main__"` at the end of noir_lexer.py, noir_parser.py, noir_interpreter.py and ast_printer.py only print demonstrations, and are not modelled.
- I/O: reading files and the command line (main.py) are not part of this model. noir_ast.py is modelled only as the datatypes in `Ast`.
