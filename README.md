# Language-processing exercises, modelled in Dafny

The repository is a teaching corpus of small, independent language-processing exercises. This project models their algorithmic core, one Dafny module per source file or per group of files with the same code:

- **Reaching-definitions dataflow engine** (`23_DataFlow`).
  - `DataFlowLang` models the instruction graph. Instructions live in an arena keyed by ID, with an ID counter. `nexts` and `preds` are kept as inverse edge lists. It also models def/use sets, the stack-shaped `Env` and the interpreter.
  - `DataFlow` models the reaching-definitions equations, their generator and the round-robin solver `abstract_interp`. The solver is proved to stop at the least solution of the equations.
- **Expression languages.**
  - Evaluators, type checkers and type propagators (`TypeChecking`, `TypeCheckingState`, `TypeVerification`, `TypeInference`, `PyValue`, `PyInt`).
  - Evaluators with closures and recursive functions, statically and dynamically scoped (`RecFun`, `RecFunDynamic`, `RecFunPrograms`).
  - Store- and location-based `let`/assign languages (`LetStore`, `Aggregates`) and the let-name classifier (`MemoryClassifier`).
  - Printers, size functions and the constant-folding optimiser (`ArithPrinters`, `ArithRepresentation`, `LetArith`, `VarBinding`, `VisitorsOptimize`).
- **Lexers and parsers.**
  - The arithmetic lexers and their postfix/prefix evaluators (`ArithLexer`, `ArithLexer1`, `ArithDfaLexer`, `Tokens`).
  - The parenthesis lexer and prefix tree builder (`ParenLexer`).
    - `parse_infix` in 3_ParsingArithExp/Parser0.py has the same body as `compute_prefix` in 4_bottomUp/Lexer.py, and `ParenLexer.PrefixTree` models both.
    - The lexer module that Parser0.py imports is not part of this model.
  - The recursive-descent arithmetic parsers (`OneLevelParser`, `RightAssocParser`, `LeftAssocParser`, over `ParseState`, `InfixTree` and `InfixExamples`).
    - They import `Lexer` from a Lexer.py in their own directory, which is not part of this model. `ParenLexer`, the lexer of 4_bottomUp/Lexer.py, stands in for it.
  - The LL recogniser (`LhplDescent`), the two LR recognisers (`LhplShiftReduce`, `FerStateMachine`) and the Dyck recognisers (`Dyck`).
- **Heap allocators in C** (`HeapBlocks`, `HeapV1`, `HeapV2`, `HeapV3`).
  - The heap is a map from byte offset to block header, and walking the `next` links gives a sequence of blocks.
  - Each operation is proved against a function on that sequence. The block chain covers the heap exactly, in increasing offsets.
- **C/C++ kernels** (`Restrict`, `Gcd`, `Collatz`, `Factorials`, `FunctionFact`, `BoundedList`, over the 32-bit `CInt`).

Some source files carry the same code. Where that is so, one module models all of them and the table below cites each file at least once:

- 8_TypeVerification/ExpPythonTypes.py is the same file as 8_TypeVerification/Exp6.py.
- 9_TypeInference/Exp7.py differs from 10_TypeInference/Exp7.py only in docstrings.
- 6_VarBiding/Exp1.py differs from 6_LetBinding/Exp1.py only in annotations and docstrings.

How the model renders the source:

- Python exceptions and `sys.exit` become `Err` values of `Wrappers.Result`. `:-` propagates them as an exception would.
- Mutable objects become classes whose methods carry `modifies` clauses. Examples are the lexers' position fields, the parsers' current token, the LR stack, the heap headers, `EvalVisitor`, `Store` and `TypeChecker`.
- Python's unbounded integers are `int`. The C `int` is the 32-bit `CInt.Int32`, and `uint8_t` and `size_t` are written out with their wrap-around where it matters.

## Model

| member | source | states |
|---|---|---|
| DataFlowLang.WithPred | 23_DataFlow/lang.py:133-147 | appending a predecessor adds exactly that ID to `preds` and leaves the targets, the definitions and the uses unchanged |
| DataFlowLang.WithNext | 23_DataFlow/lang.py:414-425 | `add_next` on a binary operation appends to `nexts`; on a branch it overwrites slot 1 (false) and changes nothing else; the new target is among the targets afterwards |
| DataFlowLang.WithTrueNext | 23_DataFlow/lang.py:401-412 | `add_true_next` makes the target one of the branch's targets and adds no other target |
| DataFlowLang.Graph.constructor | 23_DataFlow/lang.py:125 | a fresh arena is empty, and the ID counter starts at 0 |
| DataFlowLang.Graph.NewBinOp | 23_DataFlow/lang.py:127-131 | a new binary instruction takes the current counter as its ID, which no existing instruction has, and the counter then goes up by one |
| DataFlowLang.Graph.NewBt | 23_DataFlow/lang.py:383-393 | a new branch gets both slots set, and it is registered among the predecessors of each target that is present |
| DataFlowLang.Graph.AddNext | 23_DataFlow/lang.py:133-147 | after `add_next(src, dst)`, `dst` is a target of `src` and `src` is a predecessor of `dst`; no other instruction changes, and the arena stays closed |
| DataFlowLang.Graph.AddTrueNext | 23_DataFlow/lang.py:401-412 | after `add_true_next`, `dst` is in the branch's true slot and `src` is registered as a predecessor of `dst` |
| DataFlowLang.Graph.Eval | 23_DataFlow/lang.py:280-281 | `eval` of an instruction updates the graph and the binding stack as `ExecInst` says; the ID counter is untouched |
| DataFlowLang.AddPred | 23_DataFlow/lang.py:146-147 | registering `p` with a target adds `p` to that target's predecessor set only; the keys and the targets stay the same |
| DataFlowLang.LinkKeepsValid | 23_DataFlow/lang.py:133-147 | linking two instructions keeps the arena closed and keeps every edge registered in its target's `preds` |
| DataFlowLang.NewBtKeepsValid | 23_DataFlow/lang.py:383-393 | creating a branch keeps the arena closed and keeps every edge registered |
| DataFlowLang.FirstBindingIsNearest | 23_DataFlow/lang.py:52-78 | the lookup finds a binding exactly when the variable is bound, and the one it finds is the nearest to the top of the stack |
| DataFlowLang.GetIn | 23_DataFlow/lang.py:52-78 | `get` returns a value other than None, or raises LookupError when the variable is absent or bound to None |
| DataFlowLang.GetAfterSet | 23_DataFlow/lang.py:80-94 | after `set(x, v)`, `get(x)` gives `v` and `get` of any other name is unchanged |
| DataFlowLang.Env.constructor | 23_DataFlow/lang.py:45-50 | the initial pairs are pushed in order, so the stack holds them reversed |
| DataFlowLang.Env.Set | 23_DataFlow/lang.py:80-94 | `set` pushes a single binding on top and keeps the older bindings below it |
| DataFlowLang.ExecInst | 23_DataFlow/lang.py:280-446 | evaluating an instruction succeeds exactly when every variable it uses is bound, and otherwise raises the LookupError of `get` |
| DataFlowLang.ExecWritesDefinition | 23_DataFlow/lang.py:247-251 | evaluating an instruction writes only what `definition()` names: a binary operation pushes one binding for `dst`; a branch changes no binding, only its chosen slot |
| DataFlowLang.ExecReadsUses | 23_DataFlow/lang.py:395-399 | evaluating an instruction reads only what `uses()` names: two stacks that agree on those variables give the same outcome and the same pushed value |
| DataFlowLang.NextOf | 23_DataFlow/lang.py:193-208 | `get_next` of a binary operation is its first successor, or None; for a branch it is the recorded slot, and it fails before the branch's first evaluation |
| DataFlowLang.NextAfterExec | 23_DataFlow/lang.py:427-449 | after a successful evaluation, `get_next` never fails, and the targets and predecessors stay the same |
| DataFlowLang.Run | 23_DataFlow/lang.py:458-490 | `interp` keeps the arena closed and leaves its set of IDs unchanged |
| DataFlowLang.RunKeepsOldBindings | 23_DataFlow/lang.py:458-490 | running a program only pushes bindings, so the initial stack stays at the bottom |
| DataFlowLang.RunKeepsEdges | 23_DataFlow/lang.py:458-490 | running a program changes no edge: every instruction keeps its targets and its predecessors |
| DataFlowLang.Interp | 23_DataFlow/lang.py:458-490 | the recursive `interp` over the graph object and the environment object ends in the state that `Run` computes |
| DataFlowLang.InterpExample | 23_DataFlow/lang.py:474-483 | the doctest: `p = n < m` holds, the branch takes `answer = n + zero`, and `answer` is 2 |
| DataFlow.NamesDistinct | 23_DataFlow/dataflow.py:104-159 | an IN key never equals an OUT key, and two IDs give the same IN (or OUT) key only when they are equal |
| DataFlow.NameExamples | 23_DataFlow/dataflow.py:109-112 | the doctests: `name_in(0)` is "IN_0" and `name_out(0)` is "OUT_0" |
| DataFlow.UnionOuts | 23_DataFlow/dataflow.py:322-327 | the union over `preds` fails only with a KeyError, and a successful union contains the OUT set of every predecessor, each of whose keys is present |
| DataFlow.UnionOutsDefined | 23_DataFlow/dataflow.py:322-327 | the union over `preds` succeeds exactly when every predecessor's OUT key is present, and otherwise raises the KeyError of the first absent one |
| DataFlow.UnionOutsContents | 23_DataFlow/dataflow.py:322-327 | a successful union holds a fact exactly when some predecessor's OUT set holds it |
| DataFlow.UnionOutsErrorSticks | 23_DataFlow/dataflow.py:323-325 | once the loop fails on a prefix of `preds`, the whole loop fails with that same KeyError |
| DataFlow.EvalAuxDefined | 23_DataFlow/dataflow.py:180-327 | `eval_aux` raises a KeyError exactly when a key it reads is absent from the environment |
| DataFlow.BinOutGenKill | 23_DataFlow/dataflow.py:207-210 | binary OUT rule: `(dst, ID)` is the only fact about `dst` in OUT, and a fact about another variable is in OUT exactly when it is in IN |
| DataFlow.BinOutExample | 23_DataFlow/dataflow.py:200-204 | the doctest: IN {('x', 1), ('y', 2)} gives OUT {('x', 0), ('y', 2)} |
| DataFlow.BtOutIdentity | 23_DataFlow/dataflow.py:264-267 | branch OUT rule: OUT equals IN whenever IN is present |
| DataFlow.InEqExample | 23_DataFlow/dataflow.py:312-320 | the doctest: OUT_0 = {('x', 0)} and OUT_1 = {('x', 1)} join to IN_2 = {('x', 0), ('x', 1)} |
| DataFlow.InEqNoPreds | 23_DataFlow/dataflow.py:322-327 | an instruction without predecessors has the empty IN set |
| DataFlow.EvalAuxMonotone | 23_DataFlow/dataflow.py:207-210 | every rule is monotone: a larger environment (by key and by set inclusion) gives a larger result, still defined |
| DataFlow.EvalAuxInUniverse | 23_DataFlow/dataflow.py:207-210 | from an environment whose sets lie in the universe of `(dst, ID)` pairs of the binary OUT equations, every rule's result lies in it too |
| DataFlow.EvalEq | 23_DataFlow/dataflow.py:96-101 | evaluating an equation fails only with a KeyError, and a successful evaluation leaves the set of keys in the environment as it was |
| DataFlow.EvalEqWritesName | 23_DataFlow/dataflow.py:96-101 | `eval` stores `eval_aux(env)` under `name()`, leaves every other key as it was, and reports a change exactly when the new set differs from the old one |
| DataFlow.EvalEqDefined | 23_DataFlow/dataflow.py:96-101 | `eval` raises a KeyError exactly when its own key or a key its rule reads is absent |
| DataFlow.InitEnvInvariants | 23_DataFlow/dataflow.py:419 | the starting environment (every key bound to the empty set) lies below every solution, within the universe, and below its own right-hand sides |
| DataFlow.StoreKeepsInvariants | 23_DataFlow/dataflow.py:96-101 | storing an equation's value in a post-fixed environment only grows it, and keeps it post-fixed, within the universe and below every solution |
| DataFlow.MissingShrinks | 23_DataFlow/dataflow.py:421-424 | growing the environment within the universe never adds a missing (key, fact) pair, and a key that grows removes one, so the solver terminates |
| DataFlow.EvalEqMethod | 23_DataFlow/dataflow.py:96-101 | `eval` with the IN rule's loop over `preds` gives the same outcome as the functional rule |
| DataFlow.Pass | 23_DataFlow/dataflow.py:423 | one pass raises a KeyError exactly when some key an equation reads is never written; otherwise it only grows the environment, a pass that changed something leaves strictly fewer missing (key, fact) pairs, and a pass that changed nothing stands at a solution |
| DataFlow.AbstractInterp | 23_DataFlow/dataflow.py:388-426 | the solver raises a KeyError exactly when some equation reads a key no equation writes; otherwise it returns a solution within the finite universe that lies below every solution, i.e. the least fixpoint |
| DataFlow.OutEqsMembers | 23_DataFlow/dataflow.py:381-382 | the OUT equations are exactly one per instruction, of that instruction's kind |
| DataFlow.Generate | 23_DataFlow/dataflow.py:381-385 | the generator emits exactly two equations, an IN and an OUT one, per instruction |
| DataFlow.GenerateOrder | 23_DataFlow/dataflow.py:381-385 | the generator emits the binary OUT equations, then the branch OUT equations, then one IN equation per instruction, each group in input order |
| DataFlow.GenerateMembers | 23_DataFlow/dataflow.py:381-385 | every generated equation belongs to one input instruction and has that instruction's kind |
| DataFlow.GenerateNames | 23_DataFlow/dataflow.py:381-385 | the generated keys are the IN and the OUT key of every instruction |
| DataFlow.GenerateConsistent | 23_DataFlow/dataflow.py:381-385 | instructions with distinct IDs give equations that share a key only when they are the same equation |
| DataFlow.GenerateWellKeyed | 23_DataFlow/dataflow.py:381-385 | every key the generated equations read is written by one of them exactly when every predecessor of every instruction is itself among the instructions |
| DataFlow.GenerateExample | 23_DataFlow/dataflow.py:369-378 | the doctest: with Add c a b and Mul d c a both flowing into Lth e c d, the first equation writes OUT_0 and the last writes IN_2 |
| DataFlow.ExampleSolutionSolves | 23_DataFlow/dataflow.py:408-415 | the doctest's expected sets (IN_0 empty, OUT_0 = {('c', 0)}) solve its system |
| DataFlow.ExampleSolutionOnly | 23_DataFlow/dataflow.py:408-415 | any solution of the doctest's system is that one |
| DataFlow.ExampleGenerates | 23_DataFlow/dataflow.py:408-412 | the doctest's two instructions generate a consistent, well-keyed system |
| DataFlow.AbstractInterpExample | 23_DataFlow/dataflow.py:408-415 | the doctest built as the source builds it, in a fresh arena, yields IN_0 = {} and OUT_0 = {('c', 0)} |
| DataFlow.UnionOutsMeaning | 23_DataFlow/dataflow.py:322-327 | the union of the predecessors' OUT sets succeeds exactly when every OUT key is present, then holds exactly the facts of some predecessor's OUT set, and otherwise names the first absent key |
| DataFlow.UnionOutsMonotone | 23_DataFlow/dataflow.py:322-327 | a larger environment gives a larger union of the predecessors' OUT sets |
| DataFlow.Lookup | 23_DataFlow/dataflow.py:96-101 | reading `data_flow_env[key]` succeeds exactly when the key is present, with its value, and otherwise raises a KeyError naming the key |
| DataFlow.InitEnv | 23_DataFlow/dataflow.py:419 | the starting environment binds exactly the names of the equations |
| DataFlow.StoreKeepsPassInv | 23_DataFlow/dataflow.py:421-424 | evaluating one more equation of a pass keeps the pass invariant |
| DataFlow.PassEnd | 23_DataFlow/dataflow.py:421-424 | a complete pass read only known keys, and a pass that changed nothing ends at a solution |
| DataFlow.BinOutEqs | 23_DataFlow/dataflow.py:381 | the binary OUT list holds only binary OUT equations |
| DataFlow.BtOutEqs | 23_DataFlow/dataflow.py:382 | the branch OUT list holds only branch OUT equations |
| DataFlow.GroupEqsAre | 23_DataFlow/dataflow.py:381-382 | the generator's two OUT lists are the binary group and the branch group, in input order |
| DataFlow.RankGrows | 23_DataFlow/dataflow.py:381-382 | among the instructions of one group, a later one has more group members before it |
| DataFlow.GroupPlaced | 23_DataFlow/dataflow.py:381-382 | in its group's list, the instruction with k group members before it has the k-th equation |
| DataFlow.GroupSize | 23_DataFlow/dataflow.py:381-382 | each group lists one equation per member |
| DataFlow.GenerateOutPlaced | 23_DataFlow/dataflow.py:381-385 | in the generator's output the binary OUT equations come first in instruction order, then the branch OUT equations in instruction order |
| DataFlow.ExampleSolutionValues | 23_DataFlow/dataflow.py:408-415 | every solution of the doctest's system binds IN_0 to {}, OUT_0 to {('c', 0)}, IN_1 to {('c', 0)} and OUT_1 to {('c', 0), ('d', 1)} |
| DataFlow.ExampleEquations | 23_DataFlow/dataflow.py:408-412 | the doctest's two instructions generate its four equations |
| PyValue.EnsureType | 9_TypeChecking/Exp6.py:1365-1371 | `ensure_type` passes exactly when the value's class is exactly the expected one, returns the value unchanged, and otherwise raises a TypeError |
| PyValue.BoolIsNotInt | 9_TypeChecking/Exp6.py:1365-1371 | a bool is rejected where an int is expected, although Python's own `+` would accept it as 0 or 1 |
| PyValue.PyFloorDiv | 9_TypeChecking/Exp6.py:1328-1333 | `//` raises ZeroDivisionError exactly when the divisor is 0 (or False) and otherwise gives the floor quotient |
| PyInt.FloorDivIsFloor | 9_TypeChecking/Exp6.py:1333 | `a // b` is the quotient rounded towards negative infinity, for either sign of the divisor |
| PyInt.FloorDivUnique | 9_TypeChecking/Exp6.py:1333 | any integer within the floor bounds is `a // b` |
| Decimal.ParsePrinted | 23_DataFlow/dataflow.py:125 | reading back the decimal text that `str(n)` prints gives `n` |
| Decimal.PrintInjective | 23_DataFlow/dataflow.py:125 | distinct numbers print as distinct decimal texts |
| TypeChecking.TypeCheck | 9_TypeChecking/Exp6.py:676-1269 | the checker only ever raises TypeError; Num is int and Bln is bool; a variable is typed exactly when bound; an operator yields its result type; an accepted `let` has a definition of the declared type; an accepted `if` has a bool condition and equal branch types |
| TypeChecking.Eval | 9_TypeChecking/Exp6.py:1294-1363 | the type-safe evaluator fails only with a TypeError, a zero divisor, or an exit for an unbound variable |
| TypeChecking.DynamicallyTypeSafeEval | 9_TypeChecking/Exp6.py:1373-1396 | evaluating with the type errors caught lets only a ZeroDivisionError or an exit escape |
| TypeChecking.StaticallyTypeSafeEval | 9_TypeChecking/Exp6.py:1398-1423 | checking first and then evaluating with the type errors caught lets only a ZeroDivisionError or an exit escape |
| TypeChecking.CatchTypeError | 9_TypeChecking/Exp6.py:1392-1396 | a value is returned, a TypeError is printed (and None returned), and every other exception propagates |
| TypeChecking.Soundness | 9_TypeChecking/Exp6.py:1398-1423 | an expression the checker accepts, evaluated where every variable holds a value of its checked type, yields a value of exactly the checked type or divides by zero |
| TypeChecking.StaticDriverSafe | 9_TypeChecking/Exp6.py:1398-1423 | `statically_type_safe_eval` of an accepted closed program returns a value of the checked type or raises ZeroDivisionError, and never prints a run-time TypeError |
| TypeChecking.StaticAgreesWithDynamic | 9_TypeChecking/Exp6.py:1373-1423 | where the static driver returns a value, the dynamic driver returns the same value |
| TypeChecking.AndShortCircuits | 9_TypeChecking/Exp6.py:1335-1342 | `and` with a false left operand gives False without evaluating its right operand |
| TypeChecking.IfEvaluatesOneBranch | 9_TypeChecking/Exp6.py:1351-1357 | `if` with a true condition gives the value of its then-branch, whatever the else-branch would do |
| TypeChecking.LetScopesItsType | 9_TypeChecking/Exp6.py:1191-1203 | an accepted `let` checks its body with the name given the declared type, in a copy of the environment |
| TypeChecking.DynamicSumExample | 9_TypeChecking/Exp6.py:1378-1381 | the doctest: `let v: int = 40 in let w: int = 2 in v + w` returns 42 |
| TypeChecking.DynamicAndExample | 9_TypeChecking/Exp6.py:1383-1386 | the doctest: `v and w` on ints prints "Type error in And: expected bool, got int" |
| TypeChecking.DynamicIfExample | 9_TypeChecking/Exp6.py:1388-1390 | the doctest: `if True then 0 else False` returns 0 when evaluated directly |
| TypeChecking.StaticSumExample | 9_TypeChecking/Exp6.py:1403-1406 | the doctest: the static driver also returns 42 |
| TypeChecking.StaticAndExample | 9_TypeChecking/Exp6.py:1408-1411 | the doctest: the checker rejects `v and w` with "Type error: <class 'int'> and <class 'int'>" |
| TypeChecking.StaticIfExample | 9_TypeChecking/Exp6.py:1413-1415 | the doctest: the checker rejects the mixed `if` with the then/else branch message |
| TypeChecking.CheckerAddExample | 9_TypeChecking/Exp6.py:816-821 | the checker rejects `1 + True` with "Type error: <class 'int'> + <class 'bool'>" |
| TypeChecking.CheckerLetExample | 9_TypeChecking/Exp6.py:1170-1203 | a `let` whose definition does not have the declared type is rejected with the "Type error in let" message |
| TypeChecking.CheckerVarExample | 9_TypeChecking/Exp6.py:700-719 | an unbound variable is rejected with "Variable x is not defined" |
| TypeCheckingState.CheckFrom | 8_TypeChecking/Exp6.py:144-241 | the checker raises only TypeError, and an expression it accepts leaves the environment as it found it |
| TypeCheckingState.TypeOf | 8_TypeChecking/Exp6.py:144-241 | the string-typed rules: Num is 'int', Bln is 'bool', a variable is typed exactly when bound, operators yield their result types and an accepted `if` has a 'bool' condition and equal branch types |
| TypeCheckingState.CheckFromMatchesTypeOf | 8_TypeChecking/Exp6.py:213-226 | the checker that saves, extends and restores its `env` field computes the same type as the copying rules, and a successful check leaves the field as it found it |
| TypeCheckingState.LetErrorLeaksBinding | 8_TypeChecking/Exp6.py:213-226 | an error in a `let` body is not undone: the binding stays in the field |
| TypeCheckingState.TypeChecker.constructor | 8_TypeChecking/Exp6.py:139-142 | a new checker starts with an empty environment |
| TypeCheckingState.TypeChecker.Check | 8_TypeChecking/Exp6.py:144-241 | checking an expression gives the result and the final field that the reference `CheckFrom` gives from the old field |
| TypeCheckingState.CheckWithFreshChecker | 8_TypeChecking/Exp6.py:144-241 | a checker object whose field starts at `env` returns the same type as the copying rules |
| TypeVerification.Eval | 8_TypeVerification/Exp6.py:133-199 | Python's evaluation fails only by dividing by zero or exiting on an unbound variable |
| TypeVerification.TypeSafeEval | 8_TypeVerification/Exp6.py:204-281 | the type-safe evaluation fails only with a zero divisor, an exit or a TypeError |
| TypeVerification.TypeSafeRefinesEval | 8_TypeVerification/Exp6.py:133-281 | where the type-safe evaluator returns a value, Python's evaluation returns the same value; where it fails other than by a TypeError, Python's fails too, by a zero divisor exactly when it does |
| TypeVerification.AndChecksRightOnlyAfterTrue | 8_TypeVerification/Exp6.py:245-252 | the type-safe `and` with a False left operand gives False without evaluating its right operand |
| TypeVerification.AndReturnsOperand | 8_TypeVerification/Exp6.py:177-181 | Python's `True and 7` is 7, while `type_safe_eval` prints the And type error |
| TypeVerification.BoolOperandRejected | 8_TypeVerification/Exp6.py:217-222 | Python's `True + 1` is 2, while `type_safe_eval` prints "Type error in Addition: expected int, got bool" |
| TypeVerification.EvalLetExample | 8_TypeVerification/Exp6.py:138-141 | the doctest: `let v = 42 in v` is 42 |
| TypeVerification.EvalNestedLetExample | 8_TypeVerification/Exp6.py:143-146 | the doctest: `let v = 40 in let w = 2 in v + w` is 42 |
| TypeVerification.EvalSquareExample | 8_TypeVerification/ExpPythonTypes.py:148-151 | the doctest: `let v = 40 + 2 in v * v` is 1764 |
| TypeInference.Eval | 10_TypeInference/Exp7.py:206-260 | the evaluator fails only by exiting on an unbound variable |
| TypeInference.Infer | 10_TypeInference/Exp7.py:262-321 | the propagator only raises TypeError; Num and Add give int; Bln, And and Lth give bool; a variable is typed exactly when bound; an accepted `if` has a bool condition and equal branch types and takes the then-type |
| TypeInference.InferenceSound | 10_TypeInference/Exp7.py:262-321 | an expression the propagator types, evaluated where each variable holds a value of its inferred class, evaluates without failing to a value of exactly the inferred class |
| TypeInference.BadConditionMessage | 10_TypeInference/Exp7.py:306-315 | a non-bool condition is reported with the branch-types message, even when both branches are int |
| TypeInference.FindTypeSumExample | 10_TypeInference/Exp7.py:329-332 | the doctest: `let v = 40 in let w = 2 in v + w` has type int |
| TypeInference.FindTypeAndExample | 9_TypeInference/Exp7.py:224-227 | the doctest: `let v = False in let w = True in v and w` has type bool |
| TypeInference.FindTypeIfExample | 9_TypeInference/Exp7.py:229-231 | the doctest: `if True then 0 else 42` has type int |
| TypeInference.EvalExamples | 10_TypeInference/Exp7.py:112-194 | the doctests: And gives False, Add 8, Lth True, Let 10 and If 1 |
| TypeInference.EvalNestedLetExample | 10_TypeInference/Exp7.py:216-219 | the doctest: the nested `let` gives 42 |
| PyValue.TypeOf | 9_TypeChecking/Exp6.py:1365-1371 | `type(v)` is int exactly for an integer value, so a bool is never of type int |
| PyValue.TruthyMeaning | 9_TypeChecking/Exp6.py:1334-1341 | a bool is truthy exactly when it is True, an int exactly when it is not 0 |
| PyValue.PyAdd | 9_TypeChecking/Exp6.py:1307-1312 | `+` on ints and bools gives the int sum of their integer values (True counts as 1) |
| PyValue.PySub | 9_TypeChecking/Exp6.py:1314-1319 | `-` on ints and bools gives the int difference of their integer values |
| PyValue.PyMul | 9_TypeChecking/Exp6.py:1321-1326 | `*` on ints and bools gives the int product of their integer values |
| PyValue.PyLt | 9_TypeChecking/Exp6.py:1344-1349 | `<` on ints and bools compares their integer values |
| TypeChecking.Apply | 9_TypeChecking/Exp6.py:1307-1349 | once both operands are ints, an operator can fail only by a division by zero |
| Decimal.NatToString | 23_DataFlow/dataflow.py:125 | `str(n)` of a non-negative int is a non-empty run of digits without a leading zero |
| Decimal.IntToString | 23_DataFlow/dataflow.py:125 | `str(i)` of a negative int is a minus sign before the digits of its magnitude |
| TypeVerification.BinRefines | 8_TypeVerification/ExpPythonTypes.py:201-281 | an operator node whose operands' type-safe results agree with Python's agrees with Python's too |
| RecFun.EvalErrorKinds | 12_RecFun/Exp11.py:643-1000 | evaluation fails only with a TypeError, with the ValueError of the raising dialect, with the exit of the exiting dialect, or when the call bound runs out |
| RecFun.PyAdd | 12_RecFun/Exp11.py:741-766 | `+` succeeds exactly when neither operand is a function, adding ints and bools as ints; a function operand raises TypeError |
| RecFun.PyLt | 12_RecFun/Exp11.py:800-828 | `<` succeeds exactly when neither operand is a function and compares ints and bools as ints |
| RecFun.CallEnv | 12_RecFun/Exp11.py:987-998 | a call runs the body in a copy of the closure's environment with the formal bound to the argument and, for a recursive function, its name bound to the function itself, and nothing else added |
| RecFun.FuelMonotone | 12_RecFun/Exp11.py:950-1000 | the call bound only cuts runs short: once an evaluation finishes, with a value or a genuine error, any larger bound gives the same outcome |
| RecFun.DialectsAgree | 12_RecFun/Exp10.py:250-335 | the evaluator that calls `sys.exit` and the one that raises compute the same values and fail on the same programs |
| RecFun.CallIgnoresCallSite | 12_RecFun/Exp11.py:987-998 | static scoping: what a call computes depends on the closure and the argument, not on the environment at the call site |
| RecFunPrograms.SumRangeClosedForm | 12_RecFun/Exp11.py:1003-1060 | twice the sum of the range [a, b) is (b - a)(a + b - 1) |
| RecFunPrograms.RangeBodySums | 12_RecFun/Exp11.py:1003-1060 | the body of `range` adds up [a, b) with one call per element, and with less fuel than that it runs out |
| RecFunPrograms.ArithmeticSumResult | 12_RecFun/Exp11.py:1003-1060 | `create_arithmetic_sum(a, b)` evaluates to the sum of [a, b) given one call per element and one more, in either dialect |
| RecFunPrograms.ArithmeticSumExamples | 12_RecFun/Exp11.py:1030-1039 | the doctests: (2, 7) gives 20 and (1, 8) gives 28 |
| RecFunPrograms.LoopBodyComputes | 12_RecFun/Exp11.py:1062-1155 | the body of `loop` computes the arithmetic loop `Loop`, one iteration per unit of fuel |
| RecFunPrograms.LoopProgramComputes | 12_RecFun/Exp11.py:1120-1155 | a loop program computes `Loop` on its end, its step and its begin |
| RecFunPrograms.IterateClosedForm | 12_RecFun/Exp11.py:1120-1155 | k increments add k, and k doublings multiply by 2^k |
| RecFunPrograms.LoopBelowTwo | 12_RecFun/Exp10.py:437-482 | stopping below two, `loop n f a` applies f exactly n - 1 times and needs n - 1 turns |
| RecFunPrograms.LoopBelowAccumulatorIncrement | 12_RecFun/Exp11.py:1120-1155 | stopping below the accumulator with the increment, the loop ends after (n - a)/2 + 1 turns |
| RecFunPrograms.LoopBelowAccumulatorDoubleDiverges | 12_RecFun/Exp11.py:1120-1155 | stopping below the accumulator with doubling, a negative accumulator not above n never stops |
| RecFunPrograms.ForLoopDiverges | 12_RecFun/Exp11.py:1120-1155 | `create_for_loop(-1, 10, double)` exhausts any fuel |
| RecFunPrograms.CreateLoopExample | 12_RecFun/Exp11.py:1087-1090 | the doctest: `create_loop(10)` gives 11 |
| RecFunPrograms.ForLoopBelowTwoExamples | 12_RecFun/Exp10.py:443-452 | the doctests of the version stopping below two: (2, 10, inc) gives 11 and (2, 10, double) gives 1024 |
| RecFunPrograms.ForLoopBelowAccumulatorExamples | 12_RecFun/Exp11.py:1141-1155 | the doctests: (4, 10, inc) gives 8, (2, 10, inc) gives 7 and (2, 10, double) gives 16 |
| RecFunPrograms.ApplyAnonymousExample | 12_RecFun/Exp11.py:486-490 | the doctest: `(fn v => v + v) (40 + 2)` is 84 |
| RecFunPrograms.ClosureSeesLetExample | 12_RecFun/Exp11.py:492-496 | the doctest: `let w = 3 in (fn v => v + w) 2` is 5 |
| RecFunPrograms.NamedAnonymousExample | 12_RecFun/Exp11.py:498-501 | the doctest: `let f = fn x => x + 1 in f 1` is 2 |
| RecFunPrograms.StaticScopeExample | 12_RecFun/Exp11.py:503-508 | the doctest: the function sees the `w` of its definition (2), not that of its call site, so the result is 3 |
| RecFunPrograms.NamedDoubleExample | 12_RecFun/Exp10.py:320-325 | the doctest: `let f = fun f v => v + v in f 2` is 4 |
| RecFunPrograms.NamedIncrementExample | 12_RecFun/Exp11.py:975-979 | the doctest: `let f = fun f v => v + 1 in f 2` is 3 |
| RecFunPrograms.CurriedExample | 12_RecFun/Exp11.py:987-998 | a recursive function returned from a `let` keeps its captured argument: `(let g = fun f x => fn y => y + x in g) 3 4` is 7 |
| RecFunDynamic.Eval | 12_RecFun/Exp8.py:234-283 | evaluation fails only with a TypeError, with an exit, or when the call bound runs out |
| RecFunDynamic.PyAdd | 12_RecFun/Exp8.py:246-247 | `+` succeeds exactly when neither operand is a function, adding ints and bools as ints |
| RecFunDynamic.CallSeesCallSite | 12_RecFun/Exp8.py:276-283 | dynamic scoping: a call evaluates the body in the caller's whole environment extended only with the parameter |
| RecFunDynamic.TriangleClosedForm | 12_RecFun/Exp8.py:285-311 | twice 0 + 1 + ... + n is n(n + 1) |
| RecFunDynamic.LoopBodySums | 12_RecFun/Exp8.py:285-311 | the body of `loop` finds `loop` at its call site and adds up 0..x, one call per positive number |
| RecFunDynamic.CreateLoopSums | 12_RecFun/Exp8.py:285-311 | `create_loop(n)` evaluates to 0 + 1 + ... + n given enough fuel |
| RecFunDynamic.CreateLoopExample | 12_RecFun/Exp8.py:302-305 | the doctest: `create_loop(5)` is 15 |
| RecFunDynamic.ClosureLosesBinding | 12_RecFun/Exp8.py:313-339 | every `create_closure` program exits with "Variavel inexistente x", whatever the fuel |
| RecFunDynamic.ArithmeticSumLosesBinding | 12_RecFun/Exp8.py:342-389 | every `create_arithmetic_sum` program exits on the unbound n0, whatever its range and fuel |
| RecFunDynamic.DynamicScopeExample | 12_RecFun/Exp8.py:181-186 | the doctest: the function reads the `w` of its call site, so the result is 4 |
| RecFunDynamic.PyLt | 12_RecFun/Exp8.py:255-258 | `<` succeeds exactly when neither operand is a function, comparing integer values, and otherwise raises a TypeError |
| RecFunDynamic.Call | 12_RecFun/Exp8.py:276-283 | a call whose function and argument have been evaluated evaluates the body in the caller's environment with the formal bound to the argument, one nesting level deeper |
| Arith.Apply | 6_LetBinding/Exp3.py:237-260 | `+ - * //` on ints: only a division by zero fails, with ZeroDivisionError, and `//` rounds towards negative infinity for either sign of the divisor |
| Arith.SymbolInjective | 6_Visitors/Exp5.py:89-126 | distinct operators print as distinct symbols |
| MemoryClassifier.GlobalsAreOutsideLets | 17_MemoryAllocation/Exp.py:337-401 | the classifier reports a name exactly when some `let` lying outside every function body binds it |
| MemoryClassifier.GlobalsAreLetNames | 19_MemoryAllocation/MemoryClassifier.py:63-121 | every reported name is a `let` name, and in a program without functions every `let` name is reported |
| MemoryClassifier.ClassifierExamples | 17_MemoryAllocation/Exp.py:340-401 | the doctests: Var, Num and Fn give nothing; `let v = 0 in v` gives {v}; a `let` whose parts are functions gives only its own name; the application example gives {v, x} |
| Aggregates.EvalFrom | 18_Aggregates/Exp.py:214-308 | evaluation never lowers the location counter and never removes a name from the environment or a location from the store |
| Aggregates.EvalKeepsWellFormed | 18_Aggregates/Exp.py:214-308 | the location counter only grows and every bound name keeps a location below it that holds a value, so locations are never reused |
| Aggregates.BoundNamesReadable | 18_Aggregates/Exp.py:224-235 | reading a variable succeeds exactly when it is bound, and `!&x` reads the same value as `x` |
| Aggregates.LetTakesFreshLocation | 18_Aggregates/Exp.py:247-259 | a `let` binds its name to the next location, which no bound name has yet, stores the definition's value there and evaluates the body in that state |
| Aggregates.LetLeavesBinding | 18_Aggregates/Exp.py:247-259 | the binding a `let` makes is not undone when the `let` ends |
| Aggregates.AssignWritesOnlyTarget | 18_Aggregates/Exp.py:261-272 | an assignment returns the value and writes the target location and no other |
| Aggregates.DereferenceUninitialised | 18_Aggregates/Exp.py:284-296 | reading a location nothing has written raises ValueError "Location n not initialized" and changes nothing |
| Aggregates.EvalVisitor.constructor | 18_Aggregates/Exp.py:205-212 | a new evaluator has no bindings, an empty store and the counter at 0 |
| Aggregates.EvalVisitor.FreshLocation | 18_Aggregates/Exp.py:214-222 | `fresh_location` returns the counter, increments it and changes nothing else |
| Aggregates.EvalVisitor.Accept | 18_Aggregates/Exp.py:224-308 | visiting an expression gives the result and the new fields that the reference `EvalFrom` gives from the old fields |
| Aggregates.Evaluate | 18_Aggregates/Exp.py:162-212 | a fresh evaluator computes what `EvalFrom` gives from empty fields |
| Aggregates.LetExamples | 18_Aggregates/Exp.py:167-188 | the doctests: 10, 0 (the first location), 42 and 2 |
| Aggregates.AssignThroughAddressExample | 18_Aggregates/Exp.py:191-195 | the doctest: assigning through `&x` changes x, so the sum is 4 |
| Aggregates.AssignThroughNumberExample | 18_Aggregates/Exp.py:198-202 | the doctest: x got location 0, so assigning to the number 0 changes x too and the sum is 4 |
| LetStore.AllocFresh | 6_LetBinding/Exp3.py:32-49 | `allocate` returns a location not in use, stores the value there, keeps the store sane and leaves every other location as it was |
| LetStore.UpdChangesOnlyTarget | 6_LetBinding/Exp3.py:51-70 | `update` succeeds exactly on a location in the store, raising KeyError otherwise; it changes that location alone, and a lookup there reads the new value |
| LetStore.EvalNeverMissesLocation | 6_LetBinding/Exp3.py:126-171 | with every bound name located in a sane store, evaluation keeps the store sane, drops no location, never moves the counter back and never raises KeyError |
| LetStore.Store.constructor | 6_LetBinding/Exp3.py:28-30 | a new store is empty with the counter at 0 |
| LetStore.Store.Allocate | 6_LetBinding/Exp3.py:32-49 | `allocate` changes the store as `Alloc` says and returns the new location |
| LetStore.Store.Update | 6_LetBinding/Exp3.py:51-70 | `update` on a stored location writes it; on a missing one it raises KeyError and changes nothing |
| LetStore.Store.Lookup | 6_LetBinding/Exp3.py:72-86 | `lookup` returns the stored value, or KeyError for a missing location |
| LetStore.Eval | 6_LetBinding/Exp3.py:103-297 | evaluation against the shared store gives the result and the new store that `EvalIn` gives |
| LetStore.LetExamples | 6_LetBinding/Exp3.py:274-284 | the doctests: 42, 42 and 1764 |
| LetStore.AssignExample | 6_LetBinding/Exp3.py:152-157 | the doctest: `let x = 5 in x := 10` returns 10 and leaves the store as {0: 10} |
| LetArith.ToStrIsStr | 7_Visitors/Exp4.py:272-302 | `to_str(e)` equals `str(e)` on every tree, its `let` case included |
| LetArith.SizeFromLeaves | 7_Visitors/Exp3.py:52-349 | the size counts one per name, number and operator and two per `let`, so a tree with k leaves has size 2k - 1 plus one per `let` |
| LetArith.Eval | 7_Visitors/Exp3.py:28-329 | evaluation fails only by dividing by zero or exiting on an unbound name |
| LetArith.EvalBinIsPython | 7_Visitors/Exp3.py:158-277 | the operators agree with Python's `+ - * //` on ints and bools, a zero divisor raising ZeroDivisionError |
| LetArith.EvalIntsStayInts | 7_Visitors/Exp3.py:85-329 | only a name can produce a bool: a number, an operation or a `let` of those evaluates to an int |
| LetArith.EvalReadsOnlyFreeVars | 6_LetBinding/Exp2.py:297-319 | `let` extends a copy of the environment, so two environments that agree on the free names give the same outcome, errors included |
| LetArith.StrLetExample | 7_Visitors/Exp3.py:353-355 | the doctest: "let v = 42 in v end" |
| LetArith.StrNestedLetExample | 7_Visitors/Exp3.py:357-359 | the doctest: "let v = 40 in let w = 2 in (v + w) end end" |
| LetArith.StrSquareExample | 7_Visitors/Exp3.py:361-363 | the doctest: "let v = (40 + 2) in (v * v) end" |
| LetArith.SizeExamples | 7_Visitors/Exp3.py:57-346 | the doctests: sizes 1, 1 and 3 for a name, a number and `x + 2`, and 4, 9 and 8 for the three `let` programs |
| LetArith.EvalOperatorExamples | 7_Visitors/Exp3.py:39-274 | the doctests: a name reads its binding (42, True), 3 + 4 = 7, 3 - 4 = -1, 3 * 4 = 12, 28 / 4 = 7 and 22 / 4 = 5 |
| LetArith.EvalLetExamples | 7_Visitors/Exp3.py:314-323 | the doctests: 42, 42 and 1764 |
| LetArith.EvalEnvExamples | 6_LetBinding/Exp2.py:162-271 | the doctests that read names: 12, 10, 49 and (0 - 10) // (0 - 5) = 2 |
| LetArith.StrOperatorExamples | 7_Visitors/Exp3.py:66-284 | the doctests: "var", "3", "(3 + 4)", "(3 - 4)", "(3 * 4)" and "(28 / 4)" |
| VisitorsOptimize.Optimize | 6_Visitors/Exp5.py:201-227 | the optimiser raises nothing but ZeroDivisionError |
| VisitorsOptimize.ConstantsFold | 6_Visitors/Exp5.py:201-227 | a constant expression optimises to the number it evaluates to, or raises the ZeroDivisionError its evaluation raises |
| VisitorsOptimize.OptimizeSound | 6_Visitors/Exp5.py:128-227 | whenever the optimiser returns a tree, that tree evaluates exactly as the original in every environment, errors included |
| VisitorsOptimize.OptimizeFailsOnlyOnFailingPrograms | 6_Visitors/Exp5.py:201-227 | the optimiser raises only ZeroDivisionError, and only on programs whose evaluation fails in every environment |
| VisitorsOptimize.OptimizeIdempotent | 6_Visitors/Exp5.py:195-232 | the optimised tree has nothing left to fold, so optimising it again changes nothing |
| VisitorsOptimize.FoldedIsFixpoint | 6_Visitors/Exp5.py:195-232 | a tree with nothing to fold comes back unchanged |
| VisitorsOptimize.StrOptimizedExamples | 6_Visitors/Exp5.py:181-192 | the doctests print "42" and "let v = 2 in (40 + v) end" |
| VisitorsOptimize.OptimizeExamples | 6_Visitors/Exp5.py:181-192 | the doctests: `40 + 2` folds to 42, and the `let` keeps its name with its definition folded to 2; folding a division by zero raises |
| VarBinding.Comparison | 5_varBiding/Exp2.py:84-225 | `==`, `<=` and `<` compare the integer values of ints and bools |
| VarBinding.Eval | 5_varBiding/Exp2.py:16-306 | evaluation fails only by dividing by zero or exiting on an unbound name |
| VarBinding.ComparisonsAgree | 5_varBiding/Exp2.py:171-225 | `a <= b` holds exactly when `a < b` or `a == b` does, and `a < b` excludes `a == b` |
| VarBinding.DoubleNegation | 5_varBiding/Exp2.py:239-275 | negating twice gives the integer value back, and `not` twice gives the truth value back |
| VarBinding.EmbedAgrees | 5_varBiding/Exp2.py:101-306 | on programs of the arithmetic `let` language this evaluator and that one agree on every outcome |
| VarBinding.CompareExamples | 5_varBiding/Exp2.py:87-225 | the doctests of `==`, `<=` and `<` on 3 and 4 |
| VarBinding.OperatorExamples | 5_varBiding/Exp2.py:19-275 | the doctests of names, booleans, the four operators, negation and `not` |
| VarBinding.LetExamples | 5_varBiding/Exp2.py:288-306 | the `let` doctests: 42, 42 and 1764 |
| ArithPrinters.Eval | 6_LetBinding/Exp1.py:271-297 | evaluation fails only with ZeroDivisionError, raised by a zero divisor of `//` |
| ArithPrinters.RenderAppend | 6_LetBinding/Exp1.py:335-428 | the printed text of pieces and their numbers distribute over concatenation |
| ArithPrinters.PrefixListsLeavesInOrder | 6_LetBinding/Exp1.py:335-364 | the prefix text is "op left right" recursively, and the numbers it prints are the tree's leaves left to right |
| ArithPrinters.InfixPiecesRender | 6_LetBinding/Exp1.py:367-396 | the infix text is "(left) op (right)" recursively |
| ArithPrinters.InfixListsLeavesInOrder | 6_LetBinding/Exp1.py:367-396 | the numbers printed in infix are the tree's leaves left to right |
| ArithPrinters.PostfixPiecesRender | 6_LetBinding/Exp1.py:399-428 | the postfix text is "left right op" recursively |
| ArithPrinters.PostfixListsLeavesInOrder | 6_LetBinding/Exp1.py:399-428 | the numbers printed in postfix are the tree's leaves left to right |
| ArithPrinters.PrintedNode | 6_LetBinding/Exp1.py:359-364 | an operator node prints as its symbol and its operands' texts in prefix, infix and postfix order |
| ArithPrinters.EvalExamples | 6_LetBinding/Exp1.py:132-297 | the documented evaluations: 3, 3+4 = 7, 5+(3+4) = 12, 3-4 = -1, 5-(3-4) = 6, 3*4 = 12, (3+4)*(3*4) = 84, 28//4 = 7, 22//4 = 5, (0-10)//(0-5) = 2, 7*4 = 28 |
| ArithPrinters.SmallTreeExamples | 6_LetBinding/Exp1.py:341-347 | (28 / 4) * 5 evaluates to 35 and prints as "* / 28 4 5", "((28) / (4)) * (5)" and "28 4 / 5 *" |
| ArithPrinters.LargeTreeExamples | 6_LetBinding/Exp1.py:349-356 | (50 / (28 / 4)) * (28 / 4) evaluates to 49 and prints as "* / 50 / 28 4 / 28 4", "((50) / ((28) / (4))) * ((28) / (4))" and "50 28 4 / / 28 4 / *" |
| ArithRepresentation.IntOf | 2_ArithRepresentation/Exp0.py:26 | `int(value)` of an int is itself; a string of digits gives the number it spells; a failure is a ValueError on a string |
| ArithRepresentation.IntOfLabelText | 2_ArithRepresentation/Exp0.py:26 | an operand's printed text reads back as the operand: `int(str(value)) == int(value)` |
| Decimal.ParseInt | 2_ArithRepresentation/Exp0.py:26 | `int(text)` either gives a number or raises a ValueError naming the text |
| Decimal.ParseDigits | 3_ParsingArithExp/Parser1.py:86 | `int(text)` of a non-empty run of digits is the number the digits spell, leading zeros allowed |
| Decimal.ParseIntToString | 2_ArithRepresentation/Exp0.py:26 | `int(str(i)) == i` for every int, negative ones included |
| Decimal.ParseIntIgnoresSpace | 2_ArithRepresentation/Exp0.py:26 | white space at either end changes neither whether `int(text)` succeeds nor its value |
| Decimal.ParseIntSignExamples | 2_ArithRepresentation/Exp0.py:26 | `int` reads "-5" as -5 and "+3" as 3 |
| Decimal.ParseIntSpaceExamples | 2_ArithRepresentation/Exp0.py:26 | `int` reads " 7 " as 7 |
| Decimal.ParseIntUnderscoreExample | 2_ArithRepresentation/Exp0.py:26 | `int` reads "1_0" as 10 |
| Decimal.ParseIntZerosExample | 2_ArithRepresentation/Exp0.py:26 | `int` reads "007" as 7 |
| Decimal.ParseIntRejectsGrouping | 2_ArithRepresentation/Exp0.py:26 | `int` rejects "", "1__0", "_1" and "1_" |
| Decimal.ParseIntRejectsText | 2_ArithRepresentation/Exp0.py:26 | `int` rejects "- 5" and "x" |
| ArithRepresentation.Combine | 2_ArithRepresentation/Exp0.py:31-36 | arithmetic on two results succeeds exactly when neither is None, and otherwise raises TypeError |
| ArithRepresentation.Evaluate | 2_ArithRepresentation/Exp0.py:8-39 | None evaluates to 0, and None comes out only from an inner node whose operator is not "+", "-" or "*" |
| ArithRepresentation.CompleteEvaluates | 2_ArithRepresentation/Exp0.py:8-39 | every complete expression evaluates, without error, to its arithmetic value |
| ArithRepresentation.SpacedAppend | 2_ArithRepresentation/Exp0.py:67-89 | spacing a walk distributes over concatenation |
| ArithRepresentation.PostfixIsPostOrder | 2_ArithRepresentation/Exp0.py:67-89 | the postfix text is the post-order walk of the tree, each value followed by one space |
| ArithRepresentation.PostOrderRunsOnStack | 2_ArithRepresentation/Exp0.py:67-89 | running the post-order walk of a complete expression on a stack machine pushes exactly its value |
| ArithRepresentation.PostfixEvaluates | 2_ArithRepresentation/Exp0.py:8-89 | the postfix text of a complete expression, run on an empty stack, leaves exactly the value `evaluate` gives |
| ArithRepresentation.CountAppend | 2_ArithRepresentation/Exp0.py:41-64 | counting a character distributes over concatenation |
| ArithRepresentation.InfixParenthesisesInnerNodes | 2_ArithRepresentation/Exp0.py:41-64 | the infix text has exactly one "(" and one ")" per inner node |
| ArithRepresentation.PrintInfixAsWritten | 2_ArithRepresentation/Exp1.py:176-192 | `print_infix` as written returns only the operator symbol for a binary expression, and the number's text for a number |
| ArithRepresentation.PrintInfixDropsOperands | 2_ArithRepresentation/Exp1.py:176-192 | `print_infix` as written prints an operator node as one character, while the recursive infix printer prints at least nine |
| ArithRepresentation.PrintInfixExample | 2_ArithRepresentation/Exp1.py:181-186 | the documented call prints "*" as written, not "((28) / (4)) * (5)" |
| ArithRepresentation.EvaluateExamples | 2_ArithRepresentation/Exp0.py:13-20 | 23 + 19 evaluates to 42 and 20 - (23 - 19) to 16 |
| ArithRepresentation.InfixExamples | 2_ArithRepresentation/Exp0.py:46-53 | the two trees print as "(23+19)" and "(20-(23-19))" |
| ArithRepresentation.PostfixExamples | 2_ArithRepresentation/Exp0.py:72-79 | the two trees print as "23 19 + " and "20 23 19 - - " |
| ArithPrinters.InfixBinRender | 6_VarBiding/Exp1.py:270-295 | the infix text of an operator node is its operands' infix texts, each in parentheses, around the operator |
| ArithPrinters.PostfixBinRender | 6_VarBiding/Exp1.py:298-323 | the postfix text of an operator node is its operands' postfix texts followed by the operator |
| ArithPrinters.QuotientPrinted | 6_VarBiding/Exp1.py:242-323 | 28 / 4 prints as "/ 28 4", "(28) / (4)" and "28 4 /" |
| ArithPrinters.LeftPrinted | 6_VarBiding/Exp1.py:255-262 | 50 / (28 / 4) prints as "/ 50 / 28 4", "(50) / ((28) / (4))" and "50 28 4 / /" |
| Tokens.KindNames | 1_ArithLexing/Lexer.py:4-17 | an f-string prints the kinds the parsers check as "TokenType.EOF", "TokenType.LPR", "TokenType.RPR" and "TokenType.NUM" |
| Tokens.OpOf | 1_ArithLexing/Lexer.py:152-161 | an operator token stands for the arithmetic operator whose token kind it is |
| Tokens.SymbolLexes | 1_ArithLexing/Lexer.py:107-118 | the first character of an operator's symbol is neither a space nor a digit, and lexes as that operator's token |
| Tokens.DigitRunEnd | 1_ArithLexing/Lexer.py:96-104 | a number token runs over ASCII digits exactly up to the first other character or the end |
| Tokens.AlnumRunEnd | 1_ArithLexing/Lexer1.py:157-164 | an identifier runs over ASCII letters and digits exactly up to the first other character or the end |
| Tokens.DigitRunEndAt | 1_ArithLexing/Lexer.py:96-104 | a digit run ends at the first position that does not continue it (digits are ASCII '0'..'9') |
| ArithLexer.Scan | 1_ArithLexing/Lexer.py:71-123 | `getToken` never fails, always advances unless it returns EOF at the end, gives EOF only at the end, and a NUM token is a non-empty run of ASCII digits |
| ArithLexer.SkipUnknown | 1_ArithLexing/Lexer.py:120-123 | the unknown characters stepped over are exactly those before the first known one (known: an ASCII digit, an operator, a space or a newline) |
| ArithLexer.ScanFromFirstKnown | 1_ArithLexing/Lexer.py:71-123 | from the first known character: end of input is EOF; a space or newline is WSP or NLN, or EOF when it is the last character; an ASCII digit run is one NUM; an operator character is its token |
| ArithLexer.NextValid | 1_ArithLexing/Lexer.py:53-60 | `next_valid_token` never returns WSP or NLN, and otherwise keeps the guarantees of `getToken` |
| ArithLexer.TokensFrom | 1_ArithLexing/Lexer.py:62-69 | the token stream holds only digit runs and operators |
| ArithLexer.PostfixFrom | 1_ArithLexing/Lexer.py:126-166 | `compute_postfix` succeeds only after consuming the whole input |
| ArithLexer.PostfixFromIsRunOverTokens | 1_ArithLexing/Lexer.py:140-166 | evaluating while lexing gives the same result as running the reverse Polish machine over the full token list |
| ArithLexer.PrefixFrom | 1_ArithLexing/Lexer.py:169-205 | `compute_prefix` never moves the lexer backwards |
| ArithLexer.Lexer.constructor | 1_ArithLexing/Lexer.py:43-51 | a new lexer holds the input at position 0 |
| ArithLexer.Lexer.GetToken | 1_ArithLexing/Lexer.py:71-123 | the imperative `getToken` returns the token `Scan` describes (ASCII digit class) and moves the position to where `Scan` stops |
| ArithLexer.Lexer.NextValidToken | 1_ArithLexing/Lexer.py:53-60 | the recursive skip of spaces and newlines returns `NextValid`'s token and position |
| ArithLexer.Lexer.AllTokens | 1_ArithLexing/Lexer.py:62-69 | draining `tokens()` yields exactly `TokensFrom` and leaves the lexer at the end of the input |
| ArithLexer.ComputePostfix | 1_ArithLexing/Lexer.py:126-166 | the stack loop returns `PostfixFrom`'s result and leaves the lexer where it stops |
| ArithLexer.ComputePrefix | 1_ArithLexing/Lexer.py:169-205 | the recursive evaluator returns `PrefixFrom`'s result and leaves the lexer where it stops |
| ArithLexer.ScanAgrees | 1_ArithLexing/Lexer.py:96-118 | on a digit or an operator the tolerant and the strict lexer read the same token and stop at the same place |
| ArithLexer.SpaceAgrees | 1_ArithLexing/Lexer.py:84-93 | both lexers pass over a space or a newline before reading on |
| ArithLexer.TokensAgree | 1_ArithLexing/Lexer.py:62-123 | on text of known characters the strict lexer never fails and both lexers list the same tokens |
| ArithLexer.NextValidAgrees | 1_ArithLexing/Lexer.py:53-60 | on text of known characters both lexers hand out the same next valid token |
| ArithLexer.RunPostfixAgrees | 1_ArithLexing/Lexer.py:140-166 | the two reverse Polish evaluators have the same outcome on every token list, up to the wording of a ValueError |
| ArithLexer.PrefixAgrees | 1_ArithLexing/Lexer.py:169-205 | the two Polish evaluators have the same outcome on text of known characters and stop at the same place |
| ArithLexer.CleanJoined | 1_ArithLexing/Lexer.py:71-123 | joining the texts of lexed tokens with spaces gives text of known characters only |
| ArithLexer.PostfixRoundTrip | 1_ArithLexing/Lexer.py:126-166 | for an expression whose numbers are non-negative, `compute_postfix` on its postfix printout gives the expression's value, errors included |
| ArithLexer.PrefixRoundTrip | 1_ArithLexing/Lexer.py:169-205 | for an expression whose numbers are non-negative, `compute_prefix` on its prefix printout gives the expression's value, errors included |
| ArithLexer.PostfixFirstExample | 1_ArithLexing/Lexer.py:132-134 | "3 4 + 2 * 7 /" evaluates to 2 |
| ArithLexer.PostfixSecondExample | 1_ArithLexing/Lexer.py:136-138 | "4 2 5 * + 1 3 2 * + /" evaluates to 2 |
| ArithLexer.PrefixFirstExample | 1_ArithLexing/Lexer.py:175-177 | "+ 3 * 4 2" evaluates to 11 |
| ArithLexer.PrefixSecondExample | 1_ArithLexing/Lexer.py:179-181 | "+ * 3 4 2" evaluates to 14 |
| ArithLexer.MissingOperandTokens | 1_ArithLexing/Lexer.py:78-93 | in "+ 3" the lexer reads "+", then "3", then EOF |
| ArithLexer.PrefixMissingOperand | 1_ArithLexing/Lexer.py:205 | "+ 3" fails with "Unexpected token in expression: TokenType.EOF." |
| ArithLexer1.OneChar | 1_ArithLexing/Lexer1.py:167-186 | the branches after the digit and letter tests: a character is accepted exactly when it is an operator, a space or a newline, and becomes a one-character token of that kind; any other is a ValueError. The tests before them are ASCII (see Left out) |
| ArithLexer1.ScanAsWritten | 1_ArithLexing/Lexer1.py:129-186 | `getToken` as written never reads past the input and always moves on unless at the end, and fails only with the NameError on `tokText` or a ValueError |
| ArithLexer1.ScanAsWrittenFailsOnWords | 1_ArithLexing/Lexer1.py:157-165 | `getToken` as written fails with a NameError on every word that starts with an ASCII letter, and everywhere else reads what the corrected lexer reads |
| ArithLexer1.Scan | 1_ArithLexing/Lexer1.py:129-186 | EOF comes exactly at the end of the input, every other read advances, and a NUM token is the whole run of ASCII digits at that place |
| ArithLexer1.NextValid | 1_ArithLexing/Lexer1.py:97-110 | `next_valid_token` never returns a space or a newline |
| ArithLexer1.PrefixedTwice | 1_ArithLexing/Lexer1.py:112-127 | placing tokens in front of a stream twice is placing their concatenation once |
| ArithLexer1.TokensFrom | 1_ArithLexing/Lexer1.py:112-127 | `tokens()` yields no EOF, space or newline token |
| ArithLexer1.Finish | 1_ArithLexing/Lexer1.py:252-255 | the postfix evaluation ends well exactly when one value is left on the stack |
| ArithLexer1.PostfixFromIsRunOverTokens | 1_ArithLexing/Lexer1.py:189-255 | evaluating tokens as they are lexed gives what evaluating the full token list gives, whenever the input lexes |
| ArithLexer1.PrefixFrom | 1_ArithLexing/Lexer1.py:258-310 | `compute_prefix` never moves the lexer backwards |
| ArithLexer1.Lexer.constructor | 1_ArithLexing/Lexer1.py:86-95 | a new lexer holds the input at position 0 |
| ArithLexer1.Lexer.GetToken | 1_ArithLexing/Lexer1.py:129-186 | the imperative `getToken` returns `Scan`'s token (ASCII classes) and moves the position to where `Scan` stops |
| ArithLexer1.Lexer.NextValidToken | 1_ArithLexing/Lexer1.py:97-110 | the recursive skip returns `NextValid`'s token and position |
| ArithLexer1.Lexer.AllTokens | 1_ArithLexing/Lexer1.py:112-127 | draining `tokens()` gives `TokensFrom`, or the first lexing error |
| ArithLexer1.ComputePostfix | 1_ArithLexing/Lexer1.py:189-255 | the stack loop returns `PostfixFrom`'s result |
| ArithLexer1.ComputePrefix | 1_ArithLexing/Lexer1.py:258-310 | the recursive evaluator returns `PrefixFrom`'s result and leaves the lexer where it stops |
| ArithLexer1.ScanShift | 1_ArithLexing/Lexer1.py:129-186 | the lexer reads a text the same whether or not other text comes before it |
| ArithLexer1.TokensShift | 1_ArithLexing/Lexer1.py:112-127 | the token stream of a text does not depend on text before it |
| ArithLexer1.ScanLexeme | 1_ArithLexing/Lexer1.py:146-177 | a digit run or an operator symbol followed by nothing or a space is read back as itself |
| ArithLexer1.JoinedAppend | 1_ArithLexing/Lexer1.py:179-180 | joining two token lists with spaces is joining each and putting a space between |
| ArithLexer1.TokensAfterSpace | 1_ArithLexing/Lexer1.py:123-127 | text after a space is lexed as if it stood alone |
| ArithLexer1.LexemeThenSpace | 1_ArithLexing/Lexer1.py:123-127 | a lexeme, a space and more text: the lexeme is the first token and the rest follows |
| ArithLexer1.LexJoined | 1_ArithLexing/Lexer1.py:112-186 | lexing a space-separated list of lexemes gives the list back |
| ArithLexer1.PostfixTokens | 1_ArithLexing/Lexer1.py:189-255 | the postfix token list of an expression is non-empty and made of lexemes |
| ArithLexer1.PrefixTokens | 1_ArithLexing/Lexer1.py:258-310 | the prefix token list of an expression is non-empty and made of lexemes |
| ArithLexer1.PostfixIsJoined | 6_LetBinding/Exp1.py:399-428 | the postfix printout is the postfix tokens joined with spaces |
| ArithLexer1.PrefixIsJoined | 6_LetBinding/Exp1.py:335-364 | the prefix printout is the prefix tokens joined with spaces |
| ArithLexer1.PostfixLexes | 1_ArithLexing/Lexer1.py:112-186 | the lexer turns the postfix printout of an expression into exactly its tokens |
| ArithLexer1.PrefixLexes | 1_ArithLexing/Lexer1.py:112-186 | the lexer turns the prefix printout of an expression into exactly its tokens |
| ArithLexer1.RunPostfixOperator | 1_ArithLexing/Lexer1.py:229-246 | an operator over two stacked values pushes `a op b`, or stops with ZeroDivisionError |
| ArithLexer1.PostfixTokensPushValue | 1_ArithLexing/Lexer1.py:189-255 | the postfix tokens of an expression push its value on the stack, or stop with the division by zero it contains |
| ArithLexer1.PostfixRoundTrip | 1_ArithLexing/Lexer1.py:189-255 | for an expression whose numbers are non-negative, `compute_postfix` on its postfix printout gives its value, errors included |
| ArithLexer1.RunPrefix | 1_ArithLexing/Lexer1.py:258-310 | reading one Polish expression never leaves more tokens than it was given |
| ArithLexer1.NextValidOverTokens | 1_ArithLexing/Lexer1.py:97-127 | `next_valid_token` hands out the listed tokens one by one, then EOF |
| ArithLexer1.PrefixFromIsRunOverTokens | 1_ArithLexing/Lexer1.py:258-310 | lazy Polish reading gives the value of reading the token list, and leaves the same tokens unread |
| ArithLexer1.PrefixTokensReadValue | 1_ArithLexing/Lexer1.py:258-310 | the prefix tokens of an expression read back as its value, and nothing after them is read |
| ArithLexer1.PrefixRoundTrip | 1_ArithLexing/Lexer1.py:258-310 | for an expression whose numbers are non-negative, `compute_prefix` on its prefix printout gives its value, errors included |
| ArithLexer1.PostfixFirstExample | 1_ArithLexing/Lexer1.py:211-213 | "3 4 + 2 * 7 /" evaluates to 2 |
| ArithLexer1.PostfixSecondExample | 1_ArithLexing/Lexer1.py:215-217 | "4 2 5 * + 1 3 2 * + /" evaluates to 2 |
| ArithLexer1.PrefixFirstExample | 1_ArithLexing/Lexer1.py:279-281 | "+ 3 * 4 2" evaluates to 11 |
| ArithLexer1.PrefixSecondExample | 1_ArithLexing/Lexer1.py:283-285 | "+ * 3 4 2" evaluates to 14 |
| ArithLexer1.KeyWordExamples | 1_ArithLexing/Lexer1.py:47-68 | "add" becomes "+", "sub" becomes "-", and any other word a VAR token of its own text |
| ArithDfaLexer.RunEnd | 1_ArithLexing/Lexer2.py:100-126 | a number state consumes digits of its base exactly up to the first other character or the end (ASCII digits) |
| ArithDfaLexer.AfterZero | 1_ArithLexing/Lexer2.py:87-98 | after a leading '0', a token read is the source text from its start to where reading stopped |
| ArithDfaLexer.ReadToken | 1_ArithLexing/Lexer2.py:48-74 | `q0` advances on every character it accepts, and a token it returns is the source text it consumed (white space is `str.isspace()`, digits are ASCII) |
| ArithDfaLexer.LexFrom | 1_ArithLexing/Lexer2.py:39-45 | `getTokens` succeeds only after reading the whole input |
| ArithDfaLexer.PrefixedTwice | 1_ArithLexing/Lexer2.py:40-45 | appending collected tokens in two steps is appending them in one |
| ArithDfaLexer.Lexer.constructor | 1_ArithLexing/Lexer2.py:22-26 | a new lexer stands on the first character of its source |
| ArithDfaLexer.Lexer.NextChar | 1_ArithLexing/Lexer2.py:28-33 | `nextChar` moves one character on |
| ArithDfaLexer.Lexer.MakeToken | 1_ArithLexing/Lexer2.py:35-37 | a token's text is the source from its start up to the current character |
| ArithDfaLexer.Lexer.QAdd | 1_ArithLexing/Lexer2.py:77-78 | the accepting state for '+' makes an ADD token of the text read |
| ArithDfaLexer.Lexer.QSub | 1_ArithLexing/Lexer2.py:79-80 | the accepting state for '-' makes a SUB token of the text read |
| ArithDfaLexer.Lexer.QMul | 1_ArithLexing/Lexer2.py:81-82 | the accepting state for '*' makes a MUL token of the text read |
| ArithDfaLexer.Lexer.QDiv | 1_ArithLexing/Lexer2.py:83-84 | the accepting state for '/' makes a DIV token of the text read |
| ArithDfaLexer.Lexer.Q2 | 1_ArithLexing/Lexer2.py:100-105 | `q2` stops at the end of the ASCII decimal run and makes an INT token of the text read |
| ArithDfaLexer.Lexer.Q3 | 1_ArithLexing/Lexer2.py:107-112 | `q3` stops at the end of the octal run and makes an OCT token |
| ArithDfaLexer.Lexer.Q4 | 1_ArithLexing/Lexer2.py:114-119 | `q4` stops at the end of the hexadecimal run, letters in either case, and makes a HEX token |
| ArithDfaLexer.Lexer.Q6 | 1_ArithLexing/Lexer2.py:121-126 | `q6` stops at the end of the binary run and makes a BIN token |
| ArithDfaLexer.Lexer.Q1 | 1_ArithLexing/Lexer2.py:87-98 | the imperative `q1` returns `AfterZero`'s token or error and stops where it does |
| ArithDfaLexer.Lexer.Q0 | 1_ArithLexing/Lexer2.py:48-74 | the imperative `q0` returns `ReadToken`'s result and stops where it does |
| ArithDfaLexer.Lexer.GetTokens | 1_ArithLexing/Lexer2.py:39-45 | the loop of `getTokens` returns `LexFrom`'s tokens or error |
| ArithDfaLexer.Q0TokenShape | 1_ArithLexing/Lexer2.py:48-126 | every token `q0` reads has the shape of its type and is maximal: the next character could not have continued it |
| ArithDfaLexer.Q0Errors | 1_ArithLexing/Lexer2.py:49-98 | `q0` fails exactly on a character no state accepts (not `str.isspace()`, not an ASCII digit, not an operator) or on a '0' that ends the input, and the second is the TypeError of testing None against a string |
| ArithDfaLexer.LexFromWellFormed | 1_ArithLexing/Lexer2.py:39-45 | every token `getTokens` returns has the shape its type promises |
| ArithDfaLexer.StrippedSplit | 1_ArithLexing/Lexer2.py:51-53 | removing the `str.isspace()` characters keeps a stretch without white space whole |
| ArithDfaLexer.NoSpaceInToken | 1_ArithLexing/Lexer2.py:48-126 | no character of a token `q0` reads is a `str.isspace()` character |
| ArithDfaLexer.TextsAreStrippedSource | 1_ArithLexing/Lexer2.py:39-126 | laid end to end, the token texts spell the input with its `str.isspace()` characters removed |
| ArithDfaLexer.MixedBasesExample | 1_ArithLexing/Lexer2.py:54-119 | "0x1F+017" reads as HEX "0x1F", ADD and OCT "017" |
| ArithDfaLexer.BinaryStopsExample | 1_ArithLexing/Lexer2.py:121-126 | "0b102" reads as BIN "0b10" and INT "2" |
| ArithDfaLexer.TrailingZeroExample | 1_ArithLexing/Lexer2.py:87-88 | "1 0" fails with the TypeError of `None in "01234567"` |
| ArithDfaLexer.UnexpectedCharacterExample | 1_ArithLexing/Lexer2.py:73-74 | "2 $ 3" fails with "Unexpected character: $" |
| ArithLexer1.Lexer.ReadDigits | 1_ArithLexing/Lexer1.py:146-155 | the digit loop of `getToken` stops at the end of the run of ASCII digits and returns exactly the text it passed over |
| ArithLexer1.Lexer.ReadWord | 1_ArithLexing/Lexer1.py:157-164 | the word loop of `getToken` stops at the end of the run of ASCII letters and digits and returns exactly the text it passed over |
| ArithLexer1.ScanSame | 1_ArithLexing/Lexer1.py:129-187 | `getToken` reads the same token, of the same length, wherever the same text follows |
| ArithLexer1.TokensSame | 1_ArithLexing/Lexer1.py:112-127 | `tokens()` yields the same stream wherever the same text follows |
| ArithLexer1.SkipSpace | 1_ArithLexing/Lexer1.py:122-127 | a space before the text changes nothing in the token stream |
| ParenLexer.OneChar | 4_bottomUp/Lexer.py:185-210 | the branches after the digit test: a character is accepted exactly when it is an operator, a parenthesis, a space or a newline, and any other raises "Unexpected character: c". The digit test before them is ASCII (see Left out) |
| ParenLexer.Scan | 4_bottomUp/Lexer.py:148-210 | EOF comes exactly at the end and leaves the position; every other read advances, a NUM token is the whole ASCII digit run at that place, and any other token is the one character read |
| ParenLexer.ScanAgrees | 4_bottomUp/Lexer.py:148-210 | away from letters and parentheses this lexer reads as the key-word lexer of 1_ArithLexing/Lexer1.py does, and a letter, a word there, is an error here |
| ParenLexer.NextValid | 4_bottomUp/Lexer.py:103-124 | `next_valid_token` never returns a space or a newline, returns EOF only at the end, and otherwise advances |
| ParenLexer.PrependTwice | 4_bottomUp/Lexer.py:126-145 | placing tokens before a stream in two steps is placing them in one |
| ParenLexer.Read | 4_bottomUp/Lexer.py:103-124 | a read from a stream takes its first token, gives EOF once it is used up and no error cut it short, and otherwise gives that error |
| ParenLexer.NextValidReadsStream | 4_bottomUp/Lexer.py:103-124 | `next_valid_token` is one read from the stream of the remaining input, and leaves the stream's rest |
| ParenLexer.ScanStep | 4_bottomUp/Lexer.py:148-210 | one `getToken` call moves the stream of the remaining input along by that token |
| ParenLexer.Listed | 4_bottomUp/Lexer.py:126-145 | `list(tokens())` succeeds exactly when no bad character cuts the stream short |
| ParenLexer.TokensAgree | 4_bottomUp/Lexer.py:126-145 | on text without letters and parentheses the token list is the one the key-word lexer of 1_ArithLexing/Lexer1.py produces |
| ParenLexer.PrefixTree | 4_bottomUp/Lexer.py:213-261 | `compute_prefix` never moves the lexer backwards, and every tree it builds has non-negative numbers |
| ParenLexer.Lexer.constructor | 4_bottomUp/Lexer.py:87-101 | a new lexer holds the input at position 0 |
| ParenLexer.Lexer.GetToken | 4_bottomUp/Lexer.py:148-210 | the imperative `getToken` returns `Scan`'s token (ASCII digit class) and moves the position to where `Scan` stops |
| ParenLexer.Lexer.NextValidToken | 4_bottomUp/Lexer.py:103-124 | the recursive skip returns `NextValid`'s token and position |
| ParenLexer.Lexer.AllTokens | 4_bottomUp/Lexer.py:126-145 | draining `tokens()` gives the listed stream, or the error that stops it |
| ParenLexer.ComputePrefix | 4_bottomUp/Lexer.py:213-261 | the recursive tree builder returns `PrefixTree`'s tree and leaves the lexer where it stops |
| ParenLexer.ScanShift | 4_bottomUp/Lexer.py:148-210 | `getToken` reads a text the same whether or not other text comes before it |
| ParenLexer.NextValidShift | 4_bottomUp/Lexer.py:103-124 | `next_valid_token` reads a text the same whether or not other text comes before it |
| ParenLexer.LexAllShift | 4_bottomUp/Lexer.py:103-145 | the stream of a text does not depend on text before it |
| ParenLexer.LexAllAlike | 4_bottomUp/Lexer.py:103-145 | two positions with the same next valid token and alike rests have the same stream |
| ParenLexer.ScanPLexeme | 4_bottomUp/Lexer.py:173-201 | a digit run, an operator or a parenthesis followed by nothing or a space is read back as itself |
| ParenLexer.PLexemeThenSpace | 4_bottomUp/Lexer.py:126-145 | a printed token, a space and more text: the token heads the stream of the rest |
| ParenLexer.LexJoined | 4_bottomUp/Lexer.py:126-210 | lexing a space-separated list of printed tokens gives the list back, with no error |
| ParenLexer.ScanPLexemeBefore | 4_bottomUp/Lexer.py:173-201 | a printed token followed by a character that cannot continue it is read back as itself |
| ParenLexer.LexSpaced | 4_bottomUp/Lexer.py:126-210 | lexing tokens written with one space between them, none after '(' and none before ')', gives the list back with no error |
| ParenLexer.PrefixTreeReads | 4_bottomUp/Lexer.py:213-261 | on a stream that starts with the prefix tokens of a tree, `compute_prefix` builds that tree and leaves exactly the tokens after them |
| ParenLexer.PrefixRoundTrip | 4_bottomUp/Lexer.py:213-261 | `compute_prefix` reads the prefix printout of a tree with non-negative numbers back as the same tree |
| ParenLexer.PrefixFirstExample | 4_bottomUp/Lexer.py:230-233 | "+ 3 * 4 2" builds a tree that evaluates to 11 |
| ParenLexer.PrefixSecondExample | 4_bottomUp/Lexer.py:235-238 | "+ * 3 4 2" builds a tree that evaluates to 14 |
| ParenLexer.LexThreePlusTwo | 4_bottomUp/Lexer.py:138-140 | any text spelled "(3 + 2)" lexes as '(', '3', '+', '2', ')' with no error |
| ParenLexer.TokensExample | 4_bottomUp/Lexer.py:138-140 | `tokens()` on "(3 + 2)" yields '(', '3', '+', '2', ')' |
| ParenLexer.NextValidSame | 4_bottomUp/Lexer.py:103-124 | `next_valid_token` reads the same token, as far on, wherever the same text follows |
| ParenLexer.ScanSame | 4_bottomUp/Lexer.py:148-210 | `getToken` reads the same token, of the same length, wherever the same text follows |
| ParenLexer.LexAllSame | 4_bottomUp/Lexer.py:126-145 | the lexer hands out the same stream wherever the same text follows |
| ParenLexer.PrefixTreeNumber | 3_ParsingArithExp/Parser0.py:35-37 | a number token at the head of the stream is read as a leaf holding its value, and the stream goes on after it |
| ParenLexer.OperatorHead | 3_ParsingArithExp/Parser0.py:33 | an operator token at the head of the stream is the next valid token, and the stream goes on after it |
| ParenLexer.OperatorBuilds | 3_ParsingArithExp/Parser0.py:39-51 | after an operator token, the next two complete prefix expressions become its left and right operands |
| ParenLexer.PrefixTreeOf | 3_ParsingArithExp/Parser0.py:5-30 | a text that spells out the prefix tokens of a tree is parsed back into that tree, so "+ 3 * 4 2" and "+ * 3 4 2" read as the documented trees |
| ParseState.Advance | 3_ParsingArithExp/Parser1.py:62-66 | moving to the next valid token fails exactly when the lexer has no token left and has hit a bad character, and otherwise never lengthens what is left to read |
| ParseState.AfterConsume | 4_bottomUp/LL_LHPL.py:75-79 | `consume` succeeds only on the expected kind, raises "Expected K, got K'" otherwise, and always makes progress |
| ParseState.Start | 3_ParsingArithExp/Parser1.py:58-60 | building a parser fails exactly when the first read of the lexer hits a bad character |
| ParseState.AdvanceStateOf | 3_ParsingArithExp/Parser1.py:62-66 | advancing over a list of well-formed tokens moves to the rest of the list |
| ParseState.LeadingOpens | 4_bottomUp/LL_LHPL.py:94-97 | the count of leading '(' tokens covers exactly the run before the first token of another kind |
| ParseState.LeadingOpensAt | 4_bottomUp/LL_LHPL.py:94-97 | the leading run of '(' ends at the first token of another kind |
| ParseState.ParenTokens | 4_bottomUp/Lexer.py:197-201 | a text of parentheses has one token per character, '(' as LPR and ')' as RPR |
| ParseState.LexParens | 4_bottomUp/Lexer.py:126-210 | a text of parentheses lexes, with no error, into one token per character |
| ParseState.StartOnParens | 4_bottomUp/Lexer.py:103-124 | a parser over a text of parentheses starts at the first of its tokens |
| InfixTree.Eval | 3_ParsingArithExp/Parser1.py:82-93 | evaluation fails only by division by zero or by calling `eval` on a missing operand, and a tree without holes fails only by division by zero |
| InfixTree.AfterEat | 3_ParsingArithExp/Parser1.py:62-66 | `eat` succeeds only on the current token's kind, raises "Unexpected token: K" otherwise, and makes progress |
| InfixTree.EatStateOf | 3_ParsingArithExp/Parser1.py:62-66 | eating the first of a list of well-formed tokens moves on to the rest |
| InfixTree.AtomTokens | 3_ParsingArithExp/Parser1.py:82-93 | the fully parenthesised printout of a tree starts with a number or '(' and prints a number as its numeral |
| InfixTree.NumTokenValue | 3_ParsingArithExp/Parser1.py:86 | `int(token.text)` reads a non-negative number back from the NUM token printed for it |
| InfixTree.OpTokenKind | 3_ParsingArithExp/Parser1.py:117-135 | each operator token has its operator's kind, which maps back to the operator, and is additive exactly for `+` and `-` |
| InfixTree.ChainHead | 3_ParsingArithExp/Parser1.py:115-138 | a parser standing on a chain looks at the chain's first operator, or past the chain when it is empty |
| InfixTree.AtomHead | 3_ParsingArithExp/Parser1.py:82-93 | a parser standing on a printed tree looks at a number or at '(' |
| OneLevelParser.ReadE | 3_ParsingArithExp/Parser1.py:68-93 | E never moves backwards, and returns None without reading when the current token is neither a number nor '(' |
| OneLevelParser.ReadF | 3_ParsingArithExp/Parser1.py:95-138 | F never moves backwards, and returns its left operand untouched when no operator follows |
| OneLevelParser.Parser.Create | 3_ParsingArithExp/Parser1.py:58-60 | `Parser(lexer)` reads the first token, giving the parser `Start` describes or the lexer's error |
| OneLevelParser.Parser.Eat | 3_ParsingArithExp/Parser1.py:62-66 | the imperative `eat` fails or succeeds as `AfterEat` says, and moves to the state it gives |
| OneLevelParser.Parser.E | 3_ParsingArithExp/Parser1.py:68-93 | the imperative E builds `ReadE`'s tree, or raises its error, and ends in its state |
| OneLevelParser.Parser.F | 3_ParsingArithExp/Parser1.py:95-138 | the imperative F builds `ReadF`'s tree, or raises its error, and ends in its state |
| OneLevelParser.FStep | 3_ParsingArithExp/Parser1.py:115-135 | F on an operator reads E, builds the node and goes on with F from it |
| OneLevelParser.ParenStep | 3_ParsingArithExp/Parser1.py:89-93 | E on '(' reads E, eats ')' and goes on with F from the group |
| OneLevelParser.AtomThenF | 3_ParsingArithExp/Parser1.py:82-93 | E reads a printed tree and hands it to F, whatever follows it |
| OneLevelParser.EReadsChain | 3_ParsingArithExp/Parser1.py:68-138 | E reads a printed tree followed by a chain of any operators as the chain grouped to the right, and stops at the first token that is not an operator |
| OneLevelParser.FReadsChain | 3_ParsingArithExp/Parser1.py:95-138 | F extends its left operand by a chain, grouped to the right |
| OneLevelParser.RightChains | 3_ParsingArithExp/Parser1.py:11-18 | with one precedence level, every chain is read grouped to the right |
| OneLevelParser.ParsesPrinted | 3_ParsingArithExp/Parser1.py:68-138 | the parser reads the fully parenthesised printout of a tree back as that tree |
| OneLevelParser.ParseOfTokens | 3_ParsingArithExp/Parser1.py:58-93 | `Parser(Lexer(s)).E()` is the tree E reads from the tokens of `s` |
| OneLevelParser.SumExample | 3_ParsingArithExp/Parser1.py:21-25 | "2 + 3 + 4" is read as 2 + (3 + 4), which is 9 |
| OneLevelParser.ProductExample | 3_ParsingArithExp/Parser1.py:27-31 | "2 * 3 * 4" is read as 2 * (3 * 4), which is 24 |
| OneLevelParser.MixedExample | 3_ParsingArithExp/Parser1.py:11-18 | with one precedence level "2 * 3 + 4" is read as 2 * (3 + 4), which is 14 |
| OneLevelParser.GroupTimesExample | 3_ParsingArithExp/Parser1.py:33-37 | the tokens of "(2 + 3) * 4" are read as (2 + 3) * 4, which is 20 |
| OneLevelParser.TimesGroupExample | 3_ParsingArithExp/Parser1.py:39-43 | the tokens of "4 * (2 + 3)" are read as 4 * (2 + 3), which is 20 |
| OneLevelParser.GroupPlusExample | 3_ParsingArithExp/Parser1.py:45-49 | the tokens of "(2 * 3) + 4" are read as (2 * 3) + 4, which is 10 |
| OneLevelParser.GroupsExample | 3_ParsingArithExp/Parser1.py:51-55 | the tokens of "(2 - 3) - (4 - 10)" are read as that tree, which is 5 |
| RightAssocParser.ReadE | 3_ParsingArithExp/Parser2.py:66-94 | `E()` reads a term and, on '+' or '-', a whole expression to its right; it never moves the reader backwards |
| RightAssocParser.ReadT | 3_ParsingArithExp/Parser2.py:96-124 | `T()` reads a factor and, on '*' or '/', a whole term to its right; it never moves the reader backwards |
| RightAssocParser.ReadF | 3_ParsingArithExp/Parser2.py:126-150 | `F()` reads a number or a parenthesised expression, and on any other token returns None having read nothing |
| RightAssocParser.Parser.Create | 3_ParsingArithExp/Parser2.py:56-58 | building the parser reads the first valid token, and fails exactly when that read fails |
| RightAssocParser.Parser.Eat | 3_ParsingArithExp/Parser2.py:60-64 | `eat` advances on the expected kind and raises "Unexpected token" otherwise, leaving the parser's state as the reference step says |
| RightAssocParser.Parser.E | 3_ParsingArithExp/Parser2.py:66-94 | the method builds the tree `ReadE` describes and leaves the lexer where `ReadE` stops |
| RightAssocParser.Parser.T | 3_ParsingArithExp/Parser2.py:96-124 | the method builds the tree `ReadT` describes and leaves the lexer where `ReadT` stops |
| RightAssocParser.Parser.F | 3_ParsingArithExp/Parser2.py:126-150 | the method builds the tree `ReadF` describes and leaves the lexer where `ReadF` stops |
| RightAssocParser.SumStep | 3_ParsingArithExp/Parser2.py:78-94 | E on `l + r` is the node of the term before the operator and the expression after it |
| RightAssocParser.ProductStep | 3_ParsingArithExp/Parser2.py:108-124 | T on `l * r` is the node of the factor before the operator and the term after it |
| RightAssocParser.TermOnly | 3_ParsingArithExp/Parser2.py:82-94 | a term with no '+' or '-' after it is the whole expression |
| RightAssocParser.FactorOnly | 3_ParsingArithExp/Parser2.py:112-124 | a factor with no '*' or '/' after it is the whole term |
| RightAssocParser.FReadsAtom | 3_ParsingArithExp/Parser2.py:126-150 | F reads the fully parenthesised printout of any tree back as that tree, whatever tokens follow |
| RightAssocParser.FReadsNum | 3_ParsingArithExp/Parser2.py:142-144 | F reads a number token as that number |
| RightAssocParser.FReadsParens | 3_ParsingArithExp/Parser2.py:146-150 | F reads '(' l op r ')' as the node E reads inside the parentheses |
| RightAssocParser.ParenStep | 3_ParsingArithExp/Parser2.py:146-150 | F on '(' E ')' gives the tree read inside and the state after the ')' |
| RightAssocParser.TReadsAtom | 3_ParsingArithExp/Parser2.py:96-124 | T reads a printout back when no '*' or '/' follows it |
| RightAssocParser.EReadsAtom | 3_ParsingArithExp/Parser2.py:66-94 | E reads a printout back when no operator follows it |
| RightAssocParser.EReadsBin | 3_ParsingArithExp/Parser2.py:66-150 | E reads two printed operands with an operator between them as that operator's node |
| RightAssocParser.ParsesPrinted | 3_ParsingArithExp/Parser2.py:66-150 | round trip: the parser reads the fully parenthesised printout of every tree back as that tree, with nothing left over |
| RightAssocParser.EChainFolds | 3_ParsingArithExp/Parser2.py:84-93 | a chain of '+' and '-' is grouped to the right (the right fold of its operands) |
| RightAssocParser.TChainFolds | 3_ParsingArithExp/Parser2.py:114-123 | a chain of '*' and '/' is grouped to the right |
| RightAssocParser.RightChains | 3_ParsingArithExp/Parser2.py:11-16 | any chain of operators of one precedence level is read as its right fold |
| RightAssocParser.ProductTermThen | 3_ParsingArithExp/Parser2.py:96-124 | T reads `a * b` as one term when no '*' or '/' follows |
| RightAssocParser.ProductThenSum | 3_ParsingArithExp/Parser2.py:11-16 | `a * b + c` is read as `(a * b) + c`: '*' binds tighter |
| RightAssocParser.TermThenSum | 3_ParsingArithExp/Parser2.py:84-88 | a term followed by '+' or '-' and a printed atom is one operator node |
| RightAssocParser.SumThenProduct | 3_ParsingArithExp/Parser2.py:11-16 | `a + b * c` is read as `a + (b * c)` |
| RightAssocParser.ParseOfTokens | 3_ParsingArithExp/Parser2.py:56-94 | `Parser(Lexer(s)).E()` is what E builds from the tokens the lexer reads from `s` |
| RightAssocParser.ParsesChain | 3_ParsingArithExp/Parser2.py:11-16 | any text the lexer reads as a one-level chain parses to the chain grouped to the right |
| RightAssocParser.ParsesProductThenSum | 3_ParsingArithExp/Parser2.py:42-46 | any text the lexer reads as `a * b + c` parses to `(a * b) + c` |
| RightAssocParser.SumExample | 3_ParsingArithExp/Parser2.py:18-22 | "2 + 3 + 4" parses to `2 + (3 + 4)` and evaluates to 9 |
| RightAssocParser.ProductExample | 3_ParsingArithExp/Parser2.py:24-28 | "2 * 3 * 4" parses to `2 * (3 * 4)` and evaluates to 24 |
| RightAssocParser.DifferenceExample | 3_ParsingArithExp/Parser2.py:48-52 | "2 - 3 - 4" parses to `2 - (3 - 4)` and evaluates to 3, where the docstring shows -5 (see Findings) |
| RightAssocParser.MixedExample | 3_ParsingArithExp/Parser2.py:42-46 | "2 * 3 + 4" parses to `(2 * 3) + 4` and evaluates to 10 |
| RightAssocParser.GroupTimesExample | 3_ParsingArithExp/Parser2.py:30-34 | the tokens of "(2 + 3) * 4" parse to `(2 + 3) * 4`, which evaluates to 20 |
| RightAssocParser.TimesGroupExample | 3_ParsingArithExp/Parser2.py:36-40 | the tokens of "4 * (2 + 3)" parse to `4 * (2 + 3)`, which evaluates to 20 |
| LeftAssocParser.ReadE | 3_ParsingArithExp/Parser3.py:74-86 | `E()` is a term handed to EE; it never moves the reader backwards |
| LeftAssocParser.ReadEE | 3_ParsingArithExp/Parser3.py:88-121 | `EE(left)` extends the tree so far with each '+' or '-' and the term after it, and returns `left` unchanged, reading nothing, on any other token |
| LeftAssocParser.ReadT | 3_ParsingArithExp/Parser3.py:123-134 | `T()` is a factor handed to TT |
| LeftAssocParser.ReadTT | 3_ParsingArithExp/Parser3.py:136-168 | `TT(left)` extends the tree so far with each '*' or '/' and the factor after it, and returns `left` unchanged on any other token |
| LeftAssocParser.ReadF | 3_ParsingArithExp/Parser3.py:170-194 | `F()` reads a number or a parenthesised expression, and on any other token returns None having read nothing |
| LeftAssocParser.Parser.Create | 3_ParsingArithExp/Parser3.py:64-66 | building the parser reads the first valid token, and fails exactly when that read fails |
| LeftAssocParser.Parser.Eat | 3_ParsingArithExp/Parser3.py:68-72 | `eat` advances on the expected kind and raises "Unexpected token" otherwise |
| LeftAssocParser.Parser.E | 3_ParsingArithExp/Parser3.py:74-86 | the method builds the tree `ReadE` describes and leaves the lexer where it stops |
| LeftAssocParser.Parser.EE | 3_ParsingArithExp/Parser3.py:88-121 | the method builds the tree `ReadEE` describes |
| LeftAssocParser.Parser.T | 3_ParsingArithExp/Parser3.py:123-134 | the method builds the tree `ReadT` describes |
| LeftAssocParser.Parser.TT | 3_ParsingArithExp/Parser3.py:136-168 | the method builds the tree `ReadTT` describes |
| LeftAssocParser.Parser.F | 3_ParsingArithExp/Parser3.py:170-194 | the method builds the tree `ReadF` describes |
| LeftAssocParser.FReadsAtom | 3_ParsingArithExp/Parser3.py:170-194 | F reads the fully parenthesised printout of any tree back as that tree, whatever follows |
| LeftAssocParser.FReadsNum | 3_ParsingArithExp/Parser3.py:186-188 | F reads a number token as that number |
| LeftAssocParser.FReadsParens | 3_ParsingArithExp/Parser3.py:190-194 | F reads '(' l op r ')' as the node E reads inside |
| LeftAssocParser.ParenStep | 3_ParsingArithExp/Parser3.py:190-194 | F on '(' E ')' gives the tree read inside and the state after the ')' |
| LeftAssocParser.TReadsAtom | 3_ParsingArithExp/Parser3.py:123-168 | T reads a printout back when no '*' or '/' follows it |
| LeftAssocParser.EReadsBin | 3_ParsingArithExp/Parser3.py:74-194 | E reads two printed operands with any operator between them as that operator's node |
| LeftAssocParser.EReadsSum | 3_ParsingArithExp/Parser3.py:108-118 | for `l + r`, T stops at the operator and EE builds the node |
| LeftAssocParser.EReadsProduct | 3_ParsingArithExp/Parser3.py:155-165 | for `l * r`, TT builds the node inside T |
| LeftAssocParser.SumStep | 3_ParsingArithExp/Parser3.py:110-113 | E on `l + r` from the states between the pieces |
| LeftAssocParser.ProductStep | 3_ParsingArithExp/Parser3.py:157-160 | T and E on `l * r` from the states between the pieces |
| LeftAssocParser.EReadsAtom | 3_ParsingArithExp/Parser3.py:74-121 | E reads a printout back when no operator follows it, leaving what follows unread |
| LeftAssocParser.ParsesPrinted | 3_ParsingArithExp/Parser3.py:74-194 | round trip: the parser reads the fully parenthesised printout of every tree back as that tree |
| LeftAssocParser.TTFolds | 3_ParsingArithExp/Parser3.py:136-168 | TT folds a chain of '*' and '/' to the left onto the tree so far |
| LeftAssocParser.EEFolds | 3_ParsingArithExp/Parser3.py:88-121 | EE folds a chain of '+' and '-' to the left onto the tree so far |
| LeftAssocParser.LeftChains | 3_ParsingArithExp/Parser3.py:11-24 | any chain of operators of one precedence level is read as its left fold |
| LeftAssocParser.TermThenRest | 3_ParsingArithExp/Parser3.py:74-86 | E is T followed by EE |
| LeftAssocParser.FactorThenRest | 3_ParsingArithExp/Parser3.py:123-134 | E on a term alone: F, then TT, with no '+' or '-' after it |
| LeftAssocParser.EEStep | 3_ParsingArithExp/Parser3.py:108-118 | EE on one '+' or '-' and the term after it |
| LeftAssocParser.TTStep | 3_ParsingArithExp/Parser3.py:155-165 | TT on one '*' or '/' and the factor after it |
| LeftAssocParser.ProductThenSum | 3_ParsingArithExp/Parser3.py:11-24 | `a * b + c` is read as `(a * b) + c` |
| LeftAssocParser.ProductTermThen | 3_ParsingArithExp/Parser3.py:123-168 | T reads `a * b` as one term when no '*' or '/' follows |
| LeftAssocParser.TermThenSum | 3_ParsingArithExp/Parser3.py:108-121 | a term followed by '+' or '-' and a printed atom is one operator node |
| LeftAssocParser.ProductTerm | 3_ParsingArithExp/Parser3.py:123-168 | T reads `b * c` as one term |
| LeftAssocParser.SumThenTerm | 3_ParsingArithExp/Parser3.py:108-121 | an atom, '+' or '-', and tokens T reads whole form one operator node |
| LeftAssocParser.SumThenProduct | 3_ParsingArithExp/Parser3.py:11-24 | `a + b * c` is read as `a + (b * c)` |
| LeftAssocParser.ParseOfTokens | 3_ParsingArithExp/Parser3.py:64-86 | `Parser(Lexer(s)).E()` is what E builds from the tokens the lexer reads from `s` |
| LeftAssocParser.ParsesChain | 3_ParsingArithExp/Parser3.py:11-24 | any text the lexer reads as a one-level chain parses to the chain grouped to the left |
| LeftAssocParser.ParsesProductThenSum | 3_ParsingArithExp/Parser3.py:50-54 | any text the lexer reads as `a * b + c` parses to `(a * b) + c` |
| LeftAssocParser.SumExample | 3_ParsingArithExp/Parser3.py:26-30 | "2 + 3 + 4" parses to `(2 + 3) + 4` and evaluates to 9 |
| LeftAssocParser.ProductExample | 3_ParsingArithExp/Parser3.py:32-36 | "2 * 3 * 4" parses to `(2 * 3) * 4` and evaluates to 24 |
| LeftAssocParser.DifferenceExample | 3_ParsingArithExp/Parser3.py:56-60 | "2 - 3 - 4" parses to `(2 - 3) - 4` and evaluates to -5, as the docstring shows |
| LeftAssocParser.MixedExample | 3_ParsingArithExp/Parser3.py:50-54 | "2 * 3 + 4" parses to `(2 * 3) + 4` and evaluates to 10 |
| LeftAssocParser.GroupTimesExample | 3_ParsingArithExp/Parser3.py:38-42 | the tokens of "(2 + 3) * 4" parse to `(2 + 3) * 4`, which evaluates to 20 |
| LeftAssocParser.TimesGroupExample | 3_ParsingArithExp/Parser3.py:44-48 | the tokens of "4 * (2 + 3)" parse to `4 * (2 + 3)`, which evaluates to 20 |
| LeftAssocParser.MissingOperandExample | 3_ParsingArithExp/Parser3.py:170-194 | after "2 +" F returns None: E still returns a tree, whose `eval` raises AttributeError |
| LeftAssocParser.UnclosedExample | 3_ParsingArithExp/Parser3.py:190-194 | in "(2" the ')' is missing and eating it at EOF raises ValueError |
| OneLevelParser.NumThenF | 3_ParsingArithExp/Parser1.py:84-87 | E on a number token hands `Num(n)` to F |
| OneLevelParser.ParensThenF | 3_ParsingArithExp/Parser1.py:89-93 | E on '(' l op r ')' hands the node read inside the parentheses to F |
| OneLevelParser.ParsesChain | 3_ParsingArithExp/Parser1.py:11-18 | any text the lexer reads as a chain of operators parses to that chain grouped to the right, whatever the operators |
| InfixExamples.ChainLexes | 4_bottomUp/Lexer.py:126-210 | every text spelled `a o1 b o2 c` with one-digit numbers and single spaces lexes into the tokens of its first operand and its two-link chain |
| InfixTree.FoldsTwo | 3_ParsingArithExp/Parser2.py:84-93 | a two-link chain grouped to the right is `a o1 (b o2 c)` and grouped to the left is `(a o1 b) o2 c` |
| Dyck.AfterS | 4_bottomUp/dickLang.py:83-108 | `S()` takes the '(' S ')' S alternative exactly when the current token is '(', never moves backwards, and stops on a token other than '(' |
| Dyck.Recognize | 4_bottomUp/dickLang.py:36-113 | building the parser and parsing succeeds only with EOF as the current token |
| Dyck.AfterParse | 4_bottomUp/dickLang.py:110-113 | `parse()` succeeds only with EOF as the current token, and raises "Unexpected token" otherwise |
| Dyck.Parser.Create | 4_bottomUp/dickLang.py:36-50 | building the parser reads the first valid token, and fails exactly when that read fails |
| Dyck.Parser.Consume | 4_bottomUp/dickLang.py:52-81 | `consume` advances on the expected kind and raises "Expected K, got K'" otherwise |
| Dyck.Parser.S | 4_bottomUp/dickLang.py:83-108 | the method succeeds or fails as `AfterS` says and leaves the lexer where `AfterS` stops |
| Dyck.Parser.Parse | 4_bottomUp/dickLang.py:110-113 | the method succeeds or fails as `AfterParse` says |
| Dyck.WalkFrom | 4_bottomUp/dickLang.py:9-12 | the depth walk over a list of parentheses either drops below zero at a position inside the list or ends at a depth |
| Dyck.WalkBelowShift | 4_bottomUp/dickLang.py:104-108 | starting `d + 1` deeper, a walk that dropped below zero at `k` has come back to depth `d` there and continues as from `k + 1` |
| Dyck.WalkEndsShift | 4_bottomUp/dickLang.py:104-108 | starting deeper, a walk that ends ends deeper by as much |
| Dyck.SAfterGroup | 4_bottomUp/dickLang.py:104-108 | after '(' S ')' the walk continues from where the inner S stopped |
| Dyck.SGroupStep | 4_bottomUp/dickLang.py:104-108 | S on '(' S ')' S, when the inner S stops at the ')' closing the first '(', does what the walk says |
| Dyck.SOpenEnds | 4_bottomUp/dickLang.py:104-107 | S on '(' S whose inner S reaches EOF fails because the ')' is missing |
| Dyck.SOnWalk | 4_bottomUp/dickLang.py:83-108 | on every list of parentheses S stops at the first unpartnered ')', reads everything when the walk ends at zero, or fails at EOF missing a ')' |
| Dyck.ParseOnWalk | 4_bottomUp/dickLang.py:110-113 | `parse` on a list of parentheses succeeds exactly when the list is balanced |
| Dyck.RecognizesBalanced | 4_bottomUp/dickLang.py:9-12 | on every text of parentheses the parser accepts exactly the balanced ones, in both directions; an unmatched ')' is reported as an unexpected token and a missing ')' as ')' expected at EOF |
| Dyck.WalkByDepths | 4_bottomUp/dickLang.py:9-12 | a walk that keeps to a list of depths never below zero ends at the last of them |
| Dyck.WalkBelowAt | 4_bottomUp/dickLang.py:110-113 | a walk that keeps to its depths up to `k` and meets ')' at depth zero there drops below zero at `k` |
| Dyck.AcceptsBalanced | 4_bottomUp/dickLang.py:18-25 | every balanced text of parentheses is accepted |
| Dyck.RejectsMissingClose | 4_bottomUp/dickLang.py:27-33 | every text of parentheses that leaves a '(' open fails at EOF expecting ')' |
| Dyck.RejectsExtraClose | 4_bottomUp/Dick.py:28-31 | every text of parentheses whose walk drops below zero fails with "Unexpected token" at the extra ')' |
| Dyck.PairExample | 4_bottomUp/dickLang.py:19-21 | "()" is accepted |
| Dyck.NestedExample | 4_bottomUp/dickLang.py:127-128 | "((()))" is accepted |
| Dyck.SequenceExample | 4_bottomUp/dickLang.py:121-122 | "()()()" is accepted |
| Dyck.MixedExample | 4_bottomUp/dickLang.py:124-125 | "(()())" is accepted |
| Dyck.ShortOpenExample | 4_bottomUp/dickLang.py:27-33 | "(()" fails with ')' expected at EOF |
| Dyck.LongOpenExample | 4_bottomUp/Dick.py:53-54 | "((())" fails with ')' expected at EOF |
| Dyck.ExtraCloseExample | 4_bottomUp/Dick.py:50-51 | "(()))" fails with "Unexpected token" on ')' |
| Dyck.EmptyExample | 4_bottomUp/Dick.py:47-48 | the empty text is accepted |
| Dyck.ConsumeOpenExample | 4_bottomUp/dickLang.py:63-67 | `consume(LPR)` on "(" moves to EOF |
| Dyck.ConsumeCloseExample | 4_bottomUp/dickLang.py:69-75 | `consume(LPR)` on ")" fails with "Expected LPR, got RPR" |
| LhplDescent.AfterP | 4_bottomUp/LL_LHPL.py:99-123 | `P()` reads '(' P ')' when the current token is '(' and nothing otherwise; it never moves backwards |
| LhplDescent.AfterS | 4_bottomUp/LL_LHPL.py:81-97 | `S()` reads '(' S when the current token is '(', and P in either case; it never moves backwards |
| LhplDescent.AfterParse | 4_bottomUp/LL_LHPL.py:125-134 | `parse()` succeeds only with EOF as the current token |
| LhplDescent.Parser.Create | 4_bottomUp/LL_LHPL.py:34-48 | building the parser reads the first valid token, and fails exactly when that read fails |
| LhplDescent.Parser.Consume | 4_bottomUp/LL_LHPL.py:50-79 | `consume` advances on the expected kind and raises "Expected K, got K'" otherwise |
| LhplDescent.Parser.S | 4_bottomUp/LL_LHPL.py:81-97 | the method succeeds or fails as `AfterS` says and leaves the lexer where it stops |
| LhplDescent.Parser.P | 4_bottomUp/LL_LHPL.py:99-123 | the method succeeds or fails as `AfterP` says and leaves the lexer where it stops |
| LhplDescent.Parser.Parse | 4_bottomUp/LL_LHPL.py:125-134 | the method succeeds or fails as `AfterParse` says |
| LhplDescent.SReadsOpens | 4_bottomUp/LL_LHPL.py:94-97 | S consumes exactly the leading run of '(' and stops at the first other token, since P then sees no '(' |
| LhplDescent.CloseGap | 4_bottomUp/LL_LHPL.py:123 | the first of `m` positions that does not hold ')', or `m` when all do |
| LhplDescent.CloseRunOnTokens | 4_bottomUp/LL_LHPL.py:123 | `m` consumes of ')' succeed exactly when the next `m` tokens are ')', and otherwise name the first other kind |
| LhplDescent.PReadsNested | 4_bottomUp/LL_LHPL.py:120-123 | P reads the leading run of `n` '(' and then expects `n` ')' |
| LhplDescent.PMatchesNested | 4_bottomUp/LL_LHPL.py:99-123 | on its own, P accepts `(`^n `)`^n and stops there, or names the token found where a ')' was expected |
| LhplDescent.RecognizesOpens | 4_bottomUp/LL_LHPL.py:137-163 | on every text of parentheses the parser accepts exactly the texts with no ')', the empty text included, and otherwise reports the ')' as an unexpected token |
| LhplDescent.OpenExamples | 4_bottomUp/LL_LHPL.py:17-23 | "(" and "((" are accepted |
| LhplDescent.ClosedExamples | 4_bottomUp/LL_LHPL.py:145-149 | "()" and "(()" are rejected with "Unexpected token" on ')' |
| LhplDescent.MoreClosedExamples | 4_bottomUp/LL_LHPL.py:25-31 | "(())" and "(()))" are rejected with "Unexpected token" on ')' |
| LhplDescent.PExamples | 4_bottomUp/LL_LHPL.py:107-118 | P alone accepts "(())" and, on "(()", expects ')' at EOF |
| LhplShiftReduce.ActionFor | 4_bottomUp/LR_LHPL.py:56-63 | the action table accepts exactly on state 2 with EOF, reduces exactly on state 2 with ')', and shifts only on '(' or ')' from state 0 or 1 |
| LhplShiftReduce.GotoFor | 4_bottomUp/LR_LHPL.py:65-69 | the goto table has an entry exactly for (0, S) and (1, P) |
| LhplShiftReduce.Run | 4_bottomUp/LR_LHPL.py:71-118 | the loop returns only with EOF as the current token |
| LhplShiftReduce.TurnOf | 4_bottomUp/LR_LHPL.py:79-118 | one turn of the loop either stops with a result or continues, having shifted a token or reduced on the stack |
| LhplShiftReduce.LRParser.Create | 4_bottomUp/LR_LHPL.py:39-69 | building the parser reads the first valid token and starts from the stack [0], and fails exactly when that read fails |
| LhplShiftReduce.LRParser.Parse | 4_bottomUp/LR_LHPL.py:71-118 | the loop ends in the token state and stack `Run` describes, or raises the error `Run` names |
| LhplShiftReduce.LRParser.Step | 4_bottomUp/LR_LHPL.py:79-118 | one pass of the loop does exactly what `TurnOf` says of the token state and stack before it: stops with its outcome, leaving the state alone when it accepts, or goes on from the state and stack `TurnOf` names |
| LhplShiftReduce.OpenedTop | 4_bottomUp/LR_LHPL.py:58-59 | a stack of shifted '(' has odd length and state 0 on top exactly when nothing was shifted, state 1 otherwise |
| LhplShiftReduce.OpenedAlternates | 4_bottomUp/LR_LHPL.py:90-94 | a stack of shifted '(' alternates states and symbols |
| LhplShiftReduce.ReachableAlternates | 4_bottomUp/LR_LHPL.py:79-118 | every stack the parser reaches from [0] alternates states and symbols with a state on top |
| LhplShiftReduce.TurnKeepsReachable | 4_bottomUp/LR_LHPL.py:96-110 | one turn keeps the stack reachable, and the four pops of a reduction and the look at the new top never run out of stack (no IndexError) |
| LhplShiftReduce.RunKeepsReachable | 4_bottomUp/LR_LHPL.py:79-118 | from a reachable stack the loop ends on a reachable stack, or raises an error other than IndexError |
| LhplShiftReduce.OpenStack | 4_bottomUp/LR_LHPL.py:90-94 | the stack after shifting `k` '(' has `2k + 1` entries, state 1 on top when `k > 0` |
| LhplShiftReduce.RunOpens | 4_bottomUp/LR_LHPL.py:58-59 | each '(' of the leading run is shifted, moving to state 1 |
| LhplShiftReduce.RunEnd | 4_bottomUp/LR_LHPL.py:83-88 | EOF after the '(' run has no action and the loop returns |
| LhplShiftReduce.RunStrayClose | 4_bottomUp/LR_LHPL.py:83-86 | a ')' with no '(' before it has no action in state 0: "Unexpected token: RPR" |
| LhplShiftReduce.RunFirstClose | 4_bottomUp/LR_LHPL.py:60 | the first ')' after some '(' is shifted, moving to state 2 |
| LhplShiftReduce.RunClosedEnd | 4_bottomUp/LR_LHPL.py:62 | EOF in state 2 accepts |
| LhplShiftReduce.RunClosedOpen | 4_bottomUp/LR_LHPL.py:83-86 | '(' in state 2 has no action: "Unexpected token: LPR" |
| LhplShiftReduce.RunClosedClose | 4_bottomUp/LR_LHPL.py:96-110 | ')' in state 2 reduces P ::= ( P ) without consuming it, until the stack is back at state 0, where there is no goto on P: "Unexpected reduction" |
| LhplShiftReduce.AfterOpens | 4_bottomUp/LR_LHPL.py:79-118 | after the leading '(' run, the rest of a text of parentheses decides the outcome |
| LhplShiftReduce.RecognizeFromOpens | 4_bottomUp/LR_LHPL.py:145-148 | building the parser and running it on a text of parentheses shifts the '(' run first |
| LhplShiftReduce.RecognizesRunAndClose | 4_bottomUp/LR_LHPL.py:122-151 | on every text of parentheses the parser accepts exactly a run of '(' optionally followed by one ')' after at least one '('; a leading ')' and a '(' after the first ')' are unexpected tokens, and a second ')' an unexpected reduction |
| LhplShiftReduce.PairExample | 4_bottomUp/LR_LHPL.py:127-128 | "()" is accepted |
| LhplShiftReduce.OpenPairExample | 4_bottomUp/LR_LHPL.py:130-131 | "(()" is accepted |
| LhplShiftReduce.OpenExample | 4_bottomUp/LR_LHPL.py:133-134 | "(" is accepted |
| LhplShiftReduce.ExtraCloseExample | 4_bottomUp/LR_LHPL.py:136-137 | "())" fails with "Unexpected reduction" |
| LhplShiftReduce.NestedCloseExample | 4_bottomUp/LR_LHPL.py:139-140 | "(()))" fails with "Unexpected reduction" |
| LhplShiftReduce.TwoPairsExample | 4_bottomUp/LR_LHPL.py:142-143 | "()()" fails with "Unexpected token: LPR" |
| FerStateMachine.MatchPop | 4_bottomUp/LR_Fer.py:4-31 | `match_and_pop` leaves the stack untouched when it does not match |
| FerStateMachine.MatchPopSuffix | 4_bottomUp/LR_Fer.py:26-31 | for a non-empty pattern, `match_and_pop` matches exactly when the stack ends with the pattern, and then removes exactly that suffix |
| FerStateMachine.MatchPopEmpty | 4_bottomUp/LR_Fer.py:26-31 | the empty pattern matches only the empty stack, because `stack[-0:]` is the whole list |
| FerStateMachine.MatchAndPop | 4_bottomUp/LR_Fer.py:4-31 | the in-place method returns the match flag and leaves the stack as `MatchPop` says |
| FerStateMachine.ShiftZero | 4_bottomUp/LR_Fer.py:38-73 | `shift_0` goes to state 0 or 1, and consumes a token unless the input is already at EOF |
| FerStateMachine.ReduceOne | 4_bottomUp/LR_Fer.py:76-109 | `reduce_1` returns -1, 1 or 2, or raises "Reduce error" |
| FerStateMachine.ShiftTwo | 4_bottomUp/LR_Fer.py:112-143 | `shift_2` always goes to state 1 and consumes a token unless at EOF, where it pushes nothing |
| FerStateMachine.Act | 4_bottomUp/LR_Fer.py:146 | the dispatch table returns a state between -1 and 2 and never un-reads a token |
| FerStateMachine.ReduceOneWeight | 4_bottomUp/LR_Fer.py:97-107 | every successful reduction decreases a weight of the stack, so the driver loop ends |
| FerStateMachine.Shift0 | 4_bottomUp/LR_Fer.py:38-73 | the in-place method pushes and returns what `ShiftZero` says |
| FerStateMachine.Reduce1 | 4_bottomUp/LR_Fer.py:76-109 | the in-place method edits the stack and returns what `ReduceOne` says |
| FerStateMachine.Shift2 | 4_bottomUp/LR_Fer.py:112-143 | the in-place method pushes and returns what `ShiftTwo` says |
| FerStateMachine.TestParser | 4_bottomUp/LR_Fer.py:175-184 | the driver loop over a fresh lexer and an empty stack returns the verdict of `Verdict` |
| FerStateMachine.DriveStep | 4_bottomUp/LR_Fer.py:179-181 | one turn of the driver loop |
| FerStateMachine.MatchOnTop | 4_bottomUp/LR_Fer.py:28-30 | a stack that ends with the pattern matches it and keeps what lies below |
| FerStateMachine.NoMatchAt | 4_bottomUp/LR_Fer.py:28-31 | a stack that differs from the pattern somewhere near the top does not match |
| FerStateMachine.DriveOpens | 4_bottomUp/LR_Fer.py:62-64 | a run of `n` '(' is pushed in state 0 |
| FerStateMachine.FoldStarts | 4_bottomUp/LR_Fer.py:103-107 | with S on top of any number of '(' the run accepts |
| FerStateMachine.DriveEnd | 4_bottomUp/LR_Fer.py:69-71 | at EOF, state 0 pushes S and the run accepts |
| FerStateMachine.DriveStrayClose | 4_bottomUp/LR_Fer.py:65-68 | a ')' with no '(' below it leaves [P, ')'], which no reduction matches: "Reduce error" |
| FerStateMachine.DriveFirstClose | 4_bottomUp/LR_Fer.py:97-99 | the first ')' after some '(' reduces with one of them to P, and state 2 follows |
| FerStateMachine.DriveClosedEnd | 4_bottomUp/LR_Fer.py:140-141 | EOF in state 2 turns the P on top into S and the run accepts |
| FerStateMachine.DriveClosedMore | 4_bottomUp/LR_Fer.py:136-143 | any token after the first ')' fails with "Reduce error" |
| FerStateMachine.DriveAfterOpens | 4_bottomUp/LR_Fer.py:175-184 | after the run of `n` '(' the verdict is valid exactly when nothing follows, or `n > 0` and exactly one ')' follows |
| FerStateMachine.VerdictOnParens | 4_bottomUp/LR_Fer.py:149-184 | on every text of parentheses, `test_parser` reports valid exactly for a run of '(' optionally followed by one ')' after at least one '('; every failure is reported as invalid |
| FerStateMachine.AgreesWithTables | 4_bottomUp/LR_LHPL.py:71-118 | on every text of parentheses the state machine and the table-driven parser accept the same texts |
| FerStateMachine.MatchPopExamples | 4_bottomUp/LR_Fer.py:15-24 | popping [4, 5] off [1, 2, 3, 4, 5] leaves [1, 2, 3]; [3, 4] is not on top and nothing changes |
| FerStateMachine.ActionExamples | 4_bottomUp/LR_Fer.py:52-59 | the single steps the docstrings show for `shift_0`, `reduce_1` and `shift_2` |
| FerStateMachine.PairExample | 4_bottomUp/LR_Fer.py:154-155 | "()" is valid |
| FerStateMachine.OpenPairExample | 4_bottomUp/LR_Fer.py:157-158 | "(()" is valid |
| FerStateMachine.OpenExample | 4_bottomUp/LR_Fer.py:160-161 | "(" is valid |
| FerStateMachine.ExtraCloseExample | 4_bottomUp/LR_Fer.py:163-164 | "())" is invalid |
| FerStateMachine.NestedExtraCloseExample | 4_bottomUp/LR_Fer.py:166-167 | "(()))" is invalid |
| FerStateMachine.TwoPairsExample | 4_bottomUp/LR_Fer.py:169-170 | "()()" is invalid |
| FerStateMachine.CloseOpenExample | 4_bottomUp/LR_Fer.py:172-173 | ")(" is invalid |
| HeapBlocks.TilesCover | 21_HeapAllocation/v2_heap.c:9-13 | a chain that tiles the heap covers it exactly: blocks and headers add up to the bytes from the first header to the end |
| HeapBlocks.TilesOrdered | 21_HeapAllocation/v2_heap.c:9-13 | along a tiling chain offsets strictly increase and every block lies inside the heap |
| HeapBlocks.FirstFit | 21_HeapAllocation/v2_heap.c:30-63 | the first block that can serve a request is free and big enough and no block before it is; None exactly when no block fits |
| HeapBlocks.FirstFitAt | 21_HeapAllocation/v2_heap.c:35 | a block that fits with none fitting before it is the first fit |
| HeapBlocks.CarveShape | 21_HeapAllocation/v3_heap.c:38-60 | carving keeps the blocks before the carved one and shifts the ones after it by the block it adds, if any |
| HeapBlocks.CarveTiles | 21_HeapAllocation/v3_heap.c:40-56 | carving a block, with or without a split, keeps the tiling |
| HeapBlocks.AbsorbTiles | 21_HeapAllocation/v3_heap.c:89-90 | merging a block with the block after it keeps the tiling |
| HeapBlocks.RelabelTiles | 21_HeapAllocation/v3_heap.c:103 | rewriting the flags or the count of a block keeps the tiling |
| HeapBlocks.BlockOf | 21_HeapAllocation/v3_heap.c:79-80 | the block a payload address belongs to is the first whose header ends there |
| HeapBlocks.AbsorbKeepsAllocated | 21_HeapAllocation/v2_heap.c:87-90 | merging two free neighbours leaves the allocated blocks, in order, as they were |
| HeapV1.ChainSound | 21_HeapAllocation/1_heap.c:12-16 | the list of blocks read by following `next` from a header lies end to end up to the end of the heap, and every header on it describes its block |
| HeapV1.ChainComplete | 21_HeapAllocation/1_heap.c:12-16 | conversely, headers that describe a tiling of the heap are read back as exactly that tiling |
| HeapV1.ChainLast | 21_HeapAllocation/1_heap.c:15 | a header whose `next` is NULL and whose payload runs to the end of the heap is the last block of a chain |
| HeapV1.ChainLink | 21_HeapAllocation/1_heap.c:15 | a header whose `next` points just past its own payload, at a chain, heads a chain one block longer |
| HeapV1.AlignMask | 21_HeapAllocation/1_heap.c:9 | the mask of `ALIGN` on a 64-bit value takes away the remainder by 8 of the sum |
| HeapV1.AlignWrapped | 21_HeapAllocation/1_heap.c:9 | `ALIGN(size)` as written, with the `size + 7` wrap-around of `size_t`, is a multiple of 8 |
| HeapV1.Align | 21_HeapAllocation/1_heap.c:8-9 | the intended rounding is the least multiple of 8 not below the request |
| HeapV1.AlignWrappedAgrees | 21_HeapAllocation/1_heap.c:9 | below the top seven values of `size_t` the macro as written agrees with the intended rounding |
| HeapV1.AllocateAsWritten | 21_HeapAllocation/1_heap.c:33-65 | `my_malloc` as written returns NULL exactly for 0 bytes or when no block fits the wrapped rounding of the request, and then leaves the heap alone |
| HeapV1.Request | 21_HeapAllocation/1_heap.c:33-65 | the guarded `my_malloc` returns NULL exactly for 0 bytes, for a request too big to round, or when no block fits the rounded request, and then leaves the heap alone |
| HeapV1.Allocate | 21_HeapAllocation/1_heap.c:39-64 | the first-fit search returns NULL exactly when no free block is big enough, and then changes nothing |
| HeapV1.AllocateFirstFit | 21_HeapAllocation/1_heap.c:41-58 | allocation carves the first block that fits and returns the address just past its header |
| HeapV1.RequestAgrees | 21_HeapAllocation/1_heap.c:33-65 | the guarded request and the code as written agree on every size but the seven largest |
| HeapV1.RequestGrants | 21_HeapAllocation/1_heap.c:33-65 | a pointer `my_malloc` returns addresses an allocated block with room for the request rounded up to a multiple of 8, and no earlier block could have served it |
| HeapV1.AlignOverflowExample | 21_HeapAllocation/1_heap.c:38 | on a fresh heap, `my_malloc(SIZE_MAX)` as written rounds to 0 and returns a block of no bytes, where the guarded version returns NULL (see Findings) |
| HeapV1.BlockOfTiling | 21_HeapAllocation/1_heap.c:73 | the block whose payload starts at a pointer is the one whose header sits just before it |
| HeapV1.AllocateTiles | 21_HeapAllocation/1_heap.c:44-54 | allocation keeps the chain covering the whole heap |
| HeapV1.AllocateGrants | 21_HeapAllocation/1_heap.c:41-58 | a returned pointer addresses an allocated block of at least the requested size, and no earlier block could have served the request |
| HeapV1.Release | 21_HeapAllocation/1_heap.c:68-75 | `my_free` keeps every block's place, size and count, and marks the block of a non-NULL pointer free |
| HeapV1.ReleaseFrees | 21_HeapAllocation/1_heap.c:68-75 | `my_free` keeps the chain covering the heap and frees the block the pointer addresses and no other; NULL changes nothing |
| HeapV1.TakeUndone | 21_HeapAllocation/1_heap.c:56 | freeing a block that was handed out whole gives back the heap it was taken from |
| HeapV1.AllocateRelease | 21_HeapAllocation/1_heap.c:33-75 | freeing what was just allocated restores the heap when the block was handed out whole; a split block stays split, since this version never merges |
| HeapV1.RelabelChain | 21_HeapAllocation/1_heap.c:56 | writing one header with new flags relabels just that block of the chain |
| HeapV1.CarveChain | 21_HeapAllocation/1_heap.c:44-56 | writing the carved header, and the header of the block cut from it, gives the carved chain |
| HeapV1.HeaderOfBlock | 21_HeapAllocation/1_heap.c:12-16 | the header of each block describes it, and its `next` is NULL exactly at the last block |
| HeapV1.SearchStep | 21_HeapAllocation/1_heap.c:41-60 | what one turn of the search loop reads from the header of the current block |
| HeapV1.MarkWrite | 21_HeapAllocation/1_heap.c:73-74 | `block->is_free = 1` on the header before a payload frees that block of the chain |
| HeapV1.TakeWrite | 21_HeapAllocation/1_heap.c:56 | `is_free = 0` on a block handed out whole allocates that block |
| HeapV1.SplitWrite | 21_HeapAllocation/1_heap.c:45-56 | the new header at `current + 24 + size` takes the rest of the payload and the old `next`, the carved header the request and the new `next`: the chain is the carved one |
| HeapV1.Heap.InitHeap | 21_HeapAllocation/1_heap.c:25-30 | `init_heap` writes one free block spanning the heap after its header, and points `free_list` at it |
| HeapV1.Heap.Place | 21_HeapAllocation/1_heap.c:42-57 | once block `i` fits, the chain becomes the carved chain and the payload address is returned |
| HeapV1.Heap.FindFit | 21_HeapAllocation/1_heap.c:39-61 | the loop finds a block exactly when a first fit exists, and then stops at that first fit |
| HeapV1.Heap.Malloc | 21_HeapAllocation/1_heap.c:33-65 | `my_malloc` leaves the chain and returns the pointer `Request` describes, keeping the heap valid |
| HeapV1.Heap.Free | 21_HeapAllocation/1_heap.c:68-75 | `my_free` leaves the chain `Release` describes, keeping the heap valid |
| HeapV2.ChainSound | 21_HeapAllocation/v2_heap.c:9-13 | the blocks read by following the `next` offsets lie end to end up to the end of the heap, and every header describes its block |
| HeapV2.ChainComplete | 21_HeapAllocation/v2_heap.c:9-13 | conversely, headers that describe a tiling of the heap are read back as exactly that tiling |
| HeapV2.ChainLast | 21_HeapAllocation/v2_heap.c:12 | a header whose `next` is 0 and whose payload runs to the end of the heap is the last block |
| HeapV2.ChainLink | 21_HeapAllocation/v2_heap.c:12 | a header whose `next` is the offset just past its payload, at a chain, heads a chain one block longer |
| HeapV2.Allocate | 21_HeapAllocation/v2_heap.c:27-67 | `my_malloc` returns NULL exactly when no free block is big enough, and then changes nothing |
| HeapV2.AllocateFirstFit | 21_HeapAllocation/v2_heap.c:30-57 | allocation carves the first block that fits and returns the address just past its header |
| HeapV2.SplitUndone | 21_HeapAllocation/v2_heap.c:80-95 | freeing a block carved off the front of block `i` and coalescing merges the two halves back into block `i` |
| HeapV2.TakeUndone | 21_HeapAllocation/v2_heap.c:54 | freeing a block handed out whole gives back the heap it was taken from |
| HeapV2.AllocateReleaseCoalesce | 21_HeapAllocation/v2_heap.c:27-95 | on a heap with no two free neighbours, allocating, freeing what was handed out and coalescing gives back the heap as it was |
| HeapV2.BlockOfTiling | 21_HeapAllocation/v2_heap.c:75 | the block whose payload starts at a pointer is the one whose header sits just before it |
| HeapV2.AllocateTiles | 21_HeapAllocation/v2_heap.c:36-52 | allocation keeps the chain covering the whole heap |
| HeapV2.AllocateGrants | 21_HeapAllocation/v2_heap.c:30-57 | a returned pointer addresses an allocated block of at least the requested size, and no earlier block could have served the request |
| HeapV2.Release | 21_HeapAllocation/v2_heap.c:70-78 | `my_free` keeps every block's place, size and count, and marks the block of a non-NULL pointer free |
| HeapV2.ReleaseFrees | 21_HeapAllocation/v2_heap.c:70-78 | `my_free` keeps the chain covering the heap and frees the block the pointer addresses and no other; NULL changes nothing |
| HeapV2.CoalesceFromTiles | 21_HeapAllocation/v2_heap.c:84-94 | the coalescing loop keeps the chain covering the heap |
| HeapV2.CoalesceFromKeepsAllocated | 21_HeapAllocation/v2_heap.c:87-93 | the coalescing loop leaves the allocated blocks, in order, as they were |
| HeapV2.CoalesceFromMerges | 21_HeapAllocation/v2_heap.c:84-94 | once the walk has passed a block with no free pair behind it, no two free neighbours are left when it ends |
| HeapV2.CoalesceFromSettled | 21_HeapAllocation/v2_heap.c:91-93 | from a block on which no two neighbours are free, the walk changes nothing |
| HeapV2.CoalesceFromSkip | 21_HeapAllocation/v2_heap.c:91-93 | where the walk passes no free pair between two blocks, starting at the first is starting at the second |
| HeapV2.Coalesce | 21_HeapAllocation/v2_heap.c:80-95 | coalescing never adds a block and never empties a non-empty heap |
| HeapV2.CoalesceMerges | 21_HeapAllocation/v2_heap.c:80-95 | after `coalesce_memory` no two neighbours are free, the heap is still covered, and no allocated block has moved or changed |
| HeapV2.CoalesceIdempotent | 21_HeapAllocation/v2_heap.c:80-95 | a heap with no two free neighbours is left alone, so coalescing twice is coalescing once |
| HeapV2.RelabelChain | 21_HeapAllocation/v2_heap.c:54 | writing one header with new flags relabels just that block of the chain |
| HeapV2.CarveChain | 21_HeapAllocation/v2_heap.c:36-54 | writing the carved header, and that of the block cut from it, gives the carved chain |
| HeapV2.AbsorbChain | 21_HeapAllocation/v2_heap.c:89-90 | rewriting a header to span the block after it gives the merged chain |
| HeapV2.HeaderOfBlock | 21_HeapAllocation/v2_heap.c:9-13 | the header of each block describes it, and its `next` is 0 exactly at the last block |
| HeapV2.SearchStep | 21_HeapAllocation/v2_heap.c:30-63 | what one turn of the search loop reads from the header of the current block |
| HeapV2.HeaderOfPayload | 21_HeapAllocation/v2_heap.c:75-76 | the header at `ptr - sizeof(BlockHeader)` is that of the block the pointer addresses |
| HeapV2.MarkWrite | 21_HeapAllocation/v2_heap.c:77 | `block->is_free = 1` frees that block of the chain |
| HeapV2.CoalesceRead | 21_HeapAllocation/v2_heap.c:84-87 | one turn of the coalescing loop reads the header of the next block, merges exactly when both are free, and the merged size fits in a `uint8_t` |
| HeapV2.MergeWrite | 21_HeapAllocation/v2_heap.c:89-90 | growing the header by the next block and taking its `next` gives the merged chain |
| HeapV2.TakeWrite | 21_HeapAllocation/v2_heap.c:54 | `is_free = 0` on a block handed out whole allocates it |
| HeapV2.SplitWrite | 21_HeapAllocation/v2_heap.c:39-54 | the new free header at `offset + 3 + size` and the rewritten carved header give the carved chain |
| HeapV2.Heap.InitHeap | 21_HeapAllocation/v2_heap.c:19-24 | `init_heap` writes one free block spanning the heap after its header |
| HeapV2.Heap.Place | 21_HeapAllocation/v2_heap.c:35-56 | once block `i` fits, the chain becomes the carved chain and the payload address is returned |
| HeapV2.Heap.FindFit | 21_HeapAllocation/v2_heap.c:28-63 | the loop finds a block exactly when a first fit exists, and then stops at that first fit |
| HeapV2.Heap.Malloc | 21_HeapAllocation/v2_heap.c:27-67 | `my_malloc` leaves the chain and returns the pointer `Allocate` describes, keeping the heap valid |
| HeapV2.Heap.Free | 21_HeapAllocation/v2_heap.c:70-78 | `my_free` leaves the chain `Release` describes, keeping the heap valid |
| HeapV2.Heap.CoalesceMemory | 21_HeapAllocation/v2_heap.c:80-95 | `coalesce_memory` leaves the chain `Coalesce` describes, keeping the heap valid |
| HeapV3.ChainSound | 21_HeapAllocation/v3_heap.c:10-15 | the blocks read by following the `next` offsets lie end to end up to the end of the heap, and every header describes its block |
| HeapV3.ChainComplete | 21_HeapAllocation/v3_heap.c:10-15 | conversely, headers that describe a tiling of the heap are read back as exactly that tiling |
| HeapV3.ChainLast | 21_HeapAllocation/v3_heap.c:13 | a header whose `next` is 0 and whose payload runs to the end of the heap is the last block |
| HeapV3.ChainLink | 21_HeapAllocation/v3_heap.c:13 | a header whose `next` is the offset just past its payload, at a chain, heads a chain one block longer |
| HeapV3.Allocate | 21_HeapAllocation/v3_heap.c:30-71 | `my_malloc` returns NULL exactly when no free block is big enough, and then changes nothing |
| HeapV3.AllocateFirstFit | 21_HeapAllocation/v3_heap.c:33-61 | allocation carves the first block that fits, counts it once, and returns the address just past its header |
| HeapV3.BlockOfTiling | 21_HeapAllocation/v3_heap.c:79 | the block whose payload starts at a pointer is the one whose header sits just before it |
| HeapV3.AllocateTiles | 21_HeapAllocation/v3_heap.c:40-56 | allocation keeps the chain covering the whole heap |
| HeapV3.AllocateGrants | 21_HeapAllocation/v3_heap.c:33-61 | a returned pointer addresses an allocated block of at least the requested size with a count of 1, and no earlier block could have served the request |
| HeapV3.Release | 21_HeapAllocation/v3_heap.c:74-94 | `my_free` removes at most one block, leaves the blocks before the freed one alone and marks that one free |
| HeapV3.ReleaseTiles | 21_HeapAllocation/v3_heap.c:74-94 | `my_free` keeps the chain covering the heap |
| HeapV3.DropTiles | 21_HeapAllocation/v3_heap.c:97-121 | `increment_ref` and `decrement_ref` keep the chain covering the heap |
| HeapV3.Retain | 21_HeapAllocation/v3_heap.c:97-104 | `increment_ref` keeps every block's place, size and freedom |
| HeapV3.RetainAt | 21_HeapAllocation/v3_heap.c:97-104 | `increment_ref` on the payload of a block raises its count by one, wrapping at 256, and changes nothing else |
| HeapV3.ReleaseAt | 21_HeapAllocation/v3_heap.c:82-93 | `my_free` on the payload of a block leaves a free block alone, and otherwise marks it free and merges it with a free successor |
| HeapV3.Drop | 21_HeapAllocation/v3_heap.c:107-121 | `decrement_ref` removes at most one block and leaves the blocks before the addressed one alone |
| HeapV3.DropAt | 21_HeapAllocation/v3_heap.c:114-120 | `decrement_ref` leaves a zero count alone, lowers a positive one, and frees the block when it reaches zero |
| HeapV3.LoweredRetained | 21_HeapAllocation/v3_heap.c:103-115 | raising a count below the wrap-around and lowering it again changes nothing |
| HeapV3.DropRetained | 21_HeapAllocation/v3_heap.c:97-121 | dropping the count just taken on a block restores the heap |
| HeapV3.RetainThenDrop | 21_HeapAllocation/v3_heap.c:97-121 | a count taken and given back on a block counted at least once, below the wrap-around, leaves the heap as it was |
| HeapV3.FreedLowered | 21_HeapAllocation/v3_heap.c:115-118 | lowering a count to zero and freeing the block is one rewrite of it |
| HeapV3.SplitUndone | 21_HeapAllocation/v3_heap.c:42-56 | a free, uncounted block carved with a split and then freed again with its count dropped merges back into itself |
| HeapV3.TakeUndone | 21_HeapAllocation/v3_heap.c:58-59 | a free, uncounted block handed out whole and then freed with its count dropped is as it was |
| HeapV3.DropLastAt | 21_HeapAllocation/v3_heap.c:114-119 | dropping the last count frees the lowered block |
| HeapV3.DropTaken | 21_HeapAllocation/v3_heap.c:107-121 | dropping the only count of a block just handed out whole gives back the heap |
| HeapV3.ReleaseAlone | 21_HeapAllocation/v3_heap.c:82-83 | freeing an allocated block whose successor is absent or allocated only marks it |
| HeapV3.DropSplit | 21_HeapAllocation/v3_heap.c:107-121 | dropping the only count of a block just split off a free block gives back the heap |
| HeapV3.ReleaseMerging | 21_HeapAllocation/v3_heap.c:86-92 | freeing an allocated block whose successor is free merges the two |
| HeapV3.AllocateThenDrop | 21_HeapAllocation/v3_heap.c:30-121 | allocating and then dropping the only reference gives the heap back as it was, when no two free blocks were neighbours and no free block carried a count |
| HeapV3.ExampleFirstAllocation | 21_HeapAllocation/v3_heap.c:154 | carving 20 bytes from the fresh heap splits it |
| HeapV3.ExampleSecondAllocation | 21_HeapAllocation/v3_heap.c:161 | carving 10 bytes skips the allocated block and splits the free one after it |
| HeapV3.ExampleRun | 21_HeapAllocation/v3_heap.c:151-171 | the run of `main`: after `a`, `b` sharing it, `c`, and dropping `c`, `b` and `a`, one free block spans the heap again |
| HeapV3.ExampleRetain | 21_HeapAllocation/v3_heap.c:157-158 | sharing `a` counts its block twice |
| HeapV3.ExampleDropSplit | 21_HeapAllocation/v3_heap.c:164 | dropping the only count of `c` frees it, and it merges with the free block after it |
| HeapV3.ExampleDropShared | 21_HeapAllocation/v3_heap.c:165 | dropping one of the two counts of `a` leaves it allocated |
| HeapV3.ExampleDropLast | 21_HeapAllocation/v3_heap.c:169 | dropping the last count of `a` frees it, and it merges with the rest of the heap |
| HeapV3.RelabelChain | 21_HeapAllocation/v3_heap.c:103 | writing one header with new flags or count relabels just that block of the chain |
| HeapV3.CarveChain | 21_HeapAllocation/v3_heap.c:40-59 | writing the carved header, and that of the block cut from it, gives the carved chain |
| HeapV3.AbsorbChain | 21_HeapAllocation/v3_heap.c:89-90 | rewriting a header to span the block after it gives the merged chain |
| HeapV3.HeaderOfBlock | 21_HeapAllocation/v3_heap.c:10-15 | the header of each block describes it, and its `next` is 0 exactly at the last block |
| HeapV3.SearchStep | 21_HeapAllocation/v3_heap.c:33-67 | what one turn of the search loop reads from the header of the current block |
| HeapV3.HeaderOfPayload | 21_HeapAllocation/v3_heap.c:79-80 | the header at `ptr - sizeof(BlockHeader)` is that of the block the pointer addresses, and its `next` leads to the next block's header |
| HeapV3.RetainWrite | 21_HeapAllocation/v3_heap.c:103 | `block->ref_count++` gives the chain `Retain` describes |
| HeapV3.LowerWrite | 21_HeapAllocation/v3_heap.c:115 | `block->ref_count--` on a positive count lowers that block's count |
| HeapV3.MarkWrite | 21_HeapAllocation/v3_heap.c:83 | `block->is_free = 1` on an allocated block frees it in the chain |
| HeapV3.FreeCases | 21_HeapAllocation/v3_heap.c:82-93 | which of the three outcomes of `my_free` the headers select |
| HeapV3.MergeWrite | 21_HeapAllocation/v3_heap.c:89-90 | growing the header by the next block and taking its `next` gives the merged chain |
| HeapV3.TakeWrite | 21_HeapAllocation/v3_heap.c:58-59 | `is_free = 0`, `ref_count = 1` on a block handed out whole allocates it |
| HeapV3.SplitWrite | 21_HeapAllocation/v3_heap.c:42-59 | the new free header at `offset + 4 + size` and the rewritten carved header give the carved chain |
| HeapV3.Heap.InitHeap | 21_HeapAllocation/v3_heap.c:21-27 | `init_heap` writes one free, uncounted block spanning the heap after its header |
| HeapV3.Heap.Place | 21_HeapAllocation/v3_heap.c:38-60 | once block `i` fits, the chain becomes the carved chain and the payload address is returned |
| HeapV3.Heap.FindFit | 21_HeapAllocation/v3_heap.c:31-67 | the loop finds a block exactly when a first fit exists, and then stops at that first fit |
| HeapV3.Heap.Malloc | 21_HeapAllocation/v3_heap.c:30-71 | `my_malloc` leaves the chain and returns the pointer `Allocate` describes, keeping the heap valid |
| HeapV3.Heap.Free | 21_HeapAllocation/v3_heap.c:74-94 | `my_free` leaves the chain `Release` describes, keeping the heap valid |
| HeapV3.Heap.IncrementRef | 21_HeapAllocation/v3_heap.c:97-104 | `increment_ref` leaves the chain `Retain` describes |
| HeapV3.Heap.DecrementRef | 21_HeapAllocation/v3_heap.c:107-121 | `decrement_ref` leaves the chain `Drop` describes |
| Restrict.Dot | 22_Optimizations/restrict.c:12-16 | each entry of the result is `a`'s, or 0 where `b`'s is zero, and the result is as long as `a` |
| Restrict.DotNoZero | 22_Optimizations/restrict.c:14-15 | where `b` has no zero the result is `a` itself |
| Restrict.DotIdempotent | 22_Optimizations/restrict.c:12-16 | masking twice with the same `b` is masking once |
| Restrict.DotZero | 22_Optimizations/restrict.c:13-15 | an entry of the result is zero exactly where `a` or `b` is |
| Restrict.Dot0 | 22_Optimizations/restrict.c:10-17 | `dot0` writes `Dot` of the old `a` and `b` into the first `size` entries of `r` when `b` is not `r`, the old `a` when `b` is `r` (the caller's `result = arr1` case), and leaves the rest of `r` alone |
| Restrict.Dot1 | 22_Optimizations/restrict.c:19-26 | `dot1`, with `r` distinct from `a` and `b` as `restrict` demands, writes `Dot(a, b)` into the first `size` entries of `r` and leaves the rest alone |
| Restrict.SumConcat | 22_Optimizations/restrict.c:31-33 | sums add up over a concatenation |
| Restrict.SumArray | 22_Optimizations/restrict.c:28-35 | `sum_array` returns the sum of the first `size` entries (none when `size` is not positive) |
| Restrict.Pattern | 22_Optimizations/restrict.c:39-41 | the contents `init_array` writes has one entry per index |
| Restrict.InitArray | 22_Optimizations/restrict.c:37-42 | `init_array` makes entry `i` equal to `i % 3` for the first `size` entries and leaves the rest alone |
| Restrict.SumPattern | 22_Optimizations/restrict.c:37-42 | the pattern adds up to 3 per full round of 0, 1, 2, plus 1 when it stops after 0, 1 |
| Restrict.PatternSumsFit | 22_Optimizations/restrict.c:71-95 | every running total of the pattern fits in an `int`, so `sum_array` may add up what `init_array` wrote |
| Gcd.DividesDifference | 17_MemoryAllocation/gcd.c:15-16 | the common divisors of `m` and `n` are those of `n` and `m - n` |
| Gcd.GcdUnique | 17_MemoryAllocation/gcd.c:4-7 | two greatest common divisors of the same pair are the same number |
| Gcd.Next | 17_MemoryAllocation/gcd.c:9-18 | a call sets `answer` exactly when `m == n`, and then to `m` |
| Gcd.ZeroCycles | 17_MemoryAllocation/gcd.c:10-16 | with a zero argument and a positive one the calls alternate between two states forever and `answer` is never set |
| Gcd.NextKeepsGcd | 17_MemoryAllocation/gcd.c:10-16 | on positive arguments a step keeps both arguments positive and keeps the greatest common divisor |
| Gcd.Globals.Gcd | 17_MemoryAllocation/gcd.c:9-18 | on positive arguments `gcd` writes the greatest common divisor of `m` and `n` to `answer`, and nothing else |
| Collatz.Steps | 22_Optimizations/collatz.c:4-15 | the step count, when found within the bound, is at most the bound, and it is 0 exactly at 1 |
| Collatz.StepsUnfold | 22_Optimizations/collatz.c:6-12 | away from 1 the count is one more than the count from the next number |
| Collatz.StepsMonotone | 22_Optimizations/collatz.c:6-13 | a count found under some bound is found, the same, under any larger one |
| Collatz.NonPositiveNeverEnds | 22_Optimizations/collatz.c:6-13 | from zero or a negative number the loop never reaches 1 |
| Collatz.WalkCounts | 22_Optimizations/collatz.c:6-13 | a walk of `k` steps to 1 means `collatz` returns `k` |
| Collatz.SixTakesEight | 22_Optimizations/collatz.c:17-19 | `main` returns `collatz(6)`, which is 8 |
| Collatz.Run | 22_Optimizations/collatz.c:4-15 | the loop, allowed at most `fuel` turns, returns the step count to 1, or None when the bound is reached first |
| Factorials.Factorial | 14_CodeGeneration/factorial.c:3-10 | n! is at least 1 |
| Factorials.FactorialFits | 14_CodeGeneration/factorial.c:3-10 | up to 12, n! fits in a 32-bit `int` |
| Factorials.LoopStep | 14_CodeGeneration/factorial.c:5-8 | one turn keeps `r * (n - 1)! == N!` and the product within `int` |
| Factorials.Fact | 14_CodeGeneration/factorial.c:3-10 | `fact(n)` is `n` itself for `n <= 1` (so `fact(0) == 0`) and n! from 1 on |
| Factorials.MainValues | 14_CodeGeneration/factorial.c:13-15 | 3!, 6! and 10! are 6, 720 and 3628800 |
| FunctionFact.DyFact | 16_FunctionCodeGen/fact.c:10-15 | `dy_fact(n)` is `n` itself for `n <= 1` and n! from 1 on, and writes nothing outside its frame |
| BoundedList.List.Contents | 20_ObjectOrientation/size_oo.cpp:5-6 | the elements in use are the first `size` entries of the array |
| BoundedList.List.Add | 20_ObjectOrientation/size_oo.cpp:11-15 | `add` appends the element when fewer than 100 are held and changes nothing at 100, keeping every earlier entry |
| BoundedList.List.GetSize | 20_ObjectOrientation/size_oo.cpp:17-19 | `getSize` is the number of elements held, between 0 and 100 |
| BoundedList.ThreeAdds | 20_ObjectOrientation/size_oo.cpp:23-29 | three adds to a new list give a size of 3, holding 1, 2, 3 in order |
| BoundedList.FillThenAdd | 20_ObjectOrientation/size_oo.cpp:12 | once full, a list stays full whatever is added, and keeps its elements |

## Left out

- RecFun.Eval: runs with a `fuel` bound on nested calls and returns `FuelExhausted` when it runs out. The source recurses without bound and ends in RecursionError, or never ends.
- RecFunDynamic.Eval: runs with a `fuel` bound on nested calls and returns `FuelExhausted` when it runs out. The source recurses without bound.
- DataFlowLang.Run: follows at most `fuel` instructions and reports `OutOfFuel`. `interp` in the source follows `get_next` until None, which may never come.
- DataFlowLang.Interp: the same `fuel` bound as `Run`.
- Collatz.Run: computes `3 * n + 1` in unbounded `int`. collatz.c:11 overflows `int`, which is undefined behaviour, once an odd value above 715827882 is reached; the start 113383 gets there. The loop also runs under a `fuel` bound, because no one has shown that it stops for every positive start.
- Factorials.Fact: requires n <= 12. 13! does not fit in a 32-bit `int`, and the overflow the C code would commit is undefined behaviour.
- FunctionFact.DyFact: requires n <= 12, for the same reason.
- Restrict.SumArray: requires `PrefixSumsFit`, meaning every running total fits in an `int`. A sum that overflows is undefined behaviour in C.
- Restrict.Dot0: models aliasing only as whole-array identity (`r == a` or `r == b`). C arrays that overlap at an offset cannot be expressed.
- Restrict.Dot1: requires `r` to differ from `a` and `b`. Its parameters are `restrict`-qualified, so a call with aliased arrays is undefined behaviour.
- Gcd.Globals.Gcd: requires m, n >= 1. gcd.c:9-17 accepts any `atoi` result and recurses forever on a zero or negative argument. `Gcd.ZeroCycles` records the zero case only.
- DataFlow.AbstractInterp: requires `Consistent(eqs)`, meaning two equations with the same key are the same equation. On a list that breaks this, the source's `while changed` loop can oscillate forever. Equation lists made by the generator always meet it (`DataFlow.GenerateConsistent`).
- ArithRepresentation.Evaluate: requires that no inner node holds "/". Python's `/` there is true division, which yields a float.
- Tokens.DigitRunEnd: digits are the ASCII '0'..'9'. Python's `isdigit()` also accepts other Unicode digits such as '²' or '٣', and in the source a run of digits goes on over them.
- Tokens.DigitRunEndAt: the same ASCII digit class as `Tokens.DigitRunEnd`.
- Tokens.AlnumRunEnd: letters and digits are ASCII. Python's `isalnum()` also accepts 'é', '²' and the like, and in the source a word goes on over them.
- ArithLexer.Scan: the digit test is ASCII. On '²', 1_ArithLexing/Lexer.py:96-104 makes a NUM token that `int()` then rejects with a ValueError at :145. The model skips '²' as an unknown character.
- ArithLexer.SkipUnknown: "unknown" means not an ASCII digit, an operator, a space or a newline. The source would stop at '²' and read it as a NUM.
- ArithLexer.ScanFromFirstKnown: the same ASCII digit class as `ArithLexer.Scan`.
- ArithLexer.Lexer.GetToken: returns what `ArithLexer.Scan` describes, with the same ASCII digit class.
- ArithLexer1.Scan: the digit and letter tests are ASCII. On '²', 1_ArithLexing/Lexer1.py:146-155 makes a NUM token, and on 'é' :157-164 reads a word. The model raises ValueError "Unexpected character" on both.
- ArithLexer1.ScanAsWritten: the same ASCII classes as `ArithLexer1.Scan`. On a word that starts with a non-ASCII letter, the source raises the NameError of :165, while the model raises ValueError "Unexpected character".
- ArithLexer1.ScanAsWrittenFailsOnWords: holds for words of ASCII letters. For a word that starts with a non-ASCII letter it does not say what the source does (see `ArithLexer1.ScanAsWritten`).
- ArithLexer1.OneChar: is reached for every character that is not an ASCII digit or letter. The source reaches :167-186 only for characters that are not `isdigit()` or `isalpha()`.
- ArithLexer1.Lexer.GetToken: returns what `ArithLexer1.Scan` describes, with the same ASCII classes.
- ArithLexer1.Lexer.ReadDigits: stops at '²', which `isdigit()` at 1_ArithLexing/Lexer1.py:151 would take.
- ArithLexer1.Lexer.ReadWord: stops at 'é', which `isalnum()` at 1_ArithLexing/Lexer1.py:161 would take.
- ArithDfaLexer.ReadToken: the digit test is ASCII, while white space is all of `str.isspace()`. On '²', 1_ArithLexing/Lexer2.py:66-72 goes to `q2` and makes an INT token. The model raises "Unexpected character".
- ArithDfaLexer.RunEnd: the decimal state stops at '²', which `isdigit()` at 1_ArithLexing/Lexer2.py:101 would take.
- ArithDfaLexer.Lexer.Q2: stops at '²', as `ArithDfaLexer.RunEnd` does.
- ArithDfaLexer.Lexer.Q0: returns what `ArithDfaLexer.ReadToken` describes, with the same ASCII digit test.
- ArithDfaLexer.Q0Errors: counts '²' and the other non-ASCII digits as characters no state accepts. The source reads them as numbers.
- ParenLexer.Scan: the digit test is ASCII. On '²', 4_bottomUp/Lexer.py:174-183 makes a NUM token. The model raises ValueError "Unexpected character: ²".
- ParenLexer.OneChar: is reached for every character that is not an ASCII digit. The source reaches :185-210 only for characters that are not `isdigit()`.
- ParenLexer.Lexer.GetToken: returns what `ParenLexer.Scan` describes, with the same ASCII digit test.
- Decimal.ParseInt: reads ASCII only. Python's `int()` also reads other Unicode decimal digits ('٣' is 3) and strips all `str.isspace()` characters from both ends, such as U+3000. The model raises ValueError on both.
- ArithRepresentation.IntOf: reads a string through `Decimal.ParseInt`, so it has the same ASCII limits.
- HeapV1.Heap.Free: requires NULL or the payload address of a block on the chain. The C code reads a header before any pointer it is given, which is undefined behaviour for any other pointer.
- HeapV2.Heap.Free: the same requirement on the pointer as `HeapV1.Heap.Free`.
- HeapV3.Heap.Free: the same requirement on the pointer as `HeapV1.Heap.Free`.
- HeapV3.Heap.IncrementRef: the same requirement on the pointer as `HeapV1.Heap.Free`.
- HeapV3.Heap.DecrementRef: the same requirement on the pointer as `HeapV1.Heap.Free`.
- `st_fact` in 16_FunctionCodeGen/fact.c is not modelled. Its `result *= st_fact(...)` reads the static `result` unsequenced against the callee's writes to it.
- `run_experiment` and `main` in 22_Optimizations/restrict.c are not modelled. They time with `clock` and compute in `double`.
- `dot1` with aliased arguments is not modelled, because a violated `restrict` is undefined behaviour.
- Printing is left out. This covers:
  - `Env.dump` and the equations' `__str__` in 23_DataFlow;
  - the module-level example prints;
  - the `test_parser` printing wrappers;
  - `print_heap`/`dump`;
  - every C `main` except the expected values `Collatz.SixTakesEight` and `Factorials.MainValues` state.
- `sys.exit` and printed errors are modelled as error results, not as process exits or output.
- Python object identity and aliasing are left out. For example, the branch OUT equation shares IN's set object. Sets are never mutated in place, so they are modelled as values.
- The process-wide `Inst` counter is an explicit counter field of the `DataFlowLang.Graph` arena.
- 5_PracticalParsing is left out. It is a thin layer over ANTLR-generated code, parsy and `datetime`, none of which is visible, plus stdin I/O.
- The memory-layout, address, syscall, timing and padding demos in C and C++ are left out. Their behaviour is the compiler's and the machine's, not the program's.

## Findings

| source | as written | input that shows it | evidently intended | confidence | as-written member | corrected member |
|---|---|---|---|---|---|---|
| 1_ArithLexing/Lexer1.py:165 | the letter branch returns `Token.key_word_token(tokText)`, but `tokText` is never bound (the word is read into `id_text` at :158-164), so every word raises NameError | `Lexer("add")` on its first `getToken()` | `key_word_token(id_text)`, as the doctests at :53-59 show: "add" is '+', "sub" is '-', any other word a VAR | not executed | ArithLexer1.ScanAsWrittenFailsOnWords | ArithLexer1.Scan |
| 3_ParsingArithExp/Parser2.py:81-94 | `E ::= T ('+' E \| '-' E)` groups to the right, so "2 - 3 - 4" is 2 - (3 - 4) | "2 - 3 - 4" evaluates to 3 | -5, the value the doctest at :48-52 expects, which is the left grouping Parser3.py gives | not executed | RightAssocParser.DifferenceExample | LeftAssocParser.DifferenceExample |
| 21_HeapAllocation/1_heap.c:9 | `ALIGN(size)` adds 7 in `size_t`, so a request within 7 bytes of `SIZE_MAX` wraps to 0 and `my_malloc` (:38) hands out a block of no bytes | `my_malloc(SIZE_MAX)` on a fresh heap | a request that cannot be rounded up is refused with NULL | not executed | HeapV1.AlignOverflowExample | HeapV1.RequestGrants |
| 2_ArithRepresentation/Exp1.py:189-192 | `print_infix` tests `isinstance(s, BinaryExpression)` on the string `s = str(exp)`, which is never true, so an operation prints as its operator symbol alone | the documented `Mul(Div(28, 4), 5)` prints "*" | the recursive printer "(left) op (right)" the function's body spells out | not executed | ArithRepresentation.PrintInfixDropsOperands | ArithPrinters.InfixPiecesRender |
