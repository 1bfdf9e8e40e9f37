# PyGObject: verified models of the code generator and of the runtime protocols

PyGObject ties GObject's C objects to Python. This project models its most intricate parts in Dafny and
proves what they are for. Each part is a model of the code's own behaviour (its branches, its error
conditions, its constants) and a set of theorems over all inputs or all runs. Where a property fails for
some inputs, the exact condition for it is proved.

| part | modules | main results |
|---|---|---|
| reverse-wrapper generator (`codegen/reversewrapper.py`) | `WrapperCode`, `ReverseWrapper`, `WrapperSafety`, `WrapperVerdict` | a small compiler and an interpreter of what it emits; how every execution of every generated wrapper ends |
| GObject and wrapper lifecycle (`gobject/pygobject.c`) | `ObjectCell`, `Lifecycle`, `LifecycleSpec`, `ObjectRuntime` | an inductive invariant of the two-heap reference counting over all runs; what every event does, said without counts; identity of wrappers with an instance dictionary |
| class ordering (`codegen/codegen.py`, `codegen/h2def.py`, `codegen/docgen.py`) | `ClassOrder`, `ObjectTree` | both in-place sorts end, and put parents first exactly as specified; the class tree |
| s-expressions and definitions (`codegen/scmexpr.py`, `codegen/definitions.py`, `codegen/defsparser.py`) | `SchemeReader`, `SchemeLines`, `SchemeGrammar`, `Definitions`, `DefsLexing`, `DefsRoundTrip`, `DefsText`, `DefsParser`, `DefsForms` | the reader yields exactly the forest its input spells, from the characters of a line on; what any file of forms makes; what is written loads again |
| override files and `#line` (`codegen/override.py`, `FileOutput`) | `OverrideFiles`, `LineMap`, `OverrideTable`, `GeneratedFile` | the output holds the texts asked for, and every character of it is known to the C compiler by its true place, with the exact conditions |
| argument parsing (`codegen/argtypes.py`, `write_function_wrapper`) | `ParseCall`, `ParseFormat`, `ParseSafety`, `ParseTheorem` | well-formed format strings, every argument handed on in its place, pointers of the right types, no variable read before it is set |
| glib and small loops (`glib/*.c`, `codegen/h2def.py`) | `IOChannel`, `OptionGroups`, `OptionLedger`, `MainLoops`, `WeakRefs`, `EnumPrefix` | the chunked read, ownership of option groups, the current main loop, weak references, enumeration nicks |

`Wrappers`, `Sequences` and `TextLines` hold shared types and facts. Code that changes things step by step is
modelled by classes and loops whose contracts tie them to specification functions; the theorems are about those
functions. Check everything with `dafny verify dfyconfig.toml`.

## Conventions

- **Reverse wrappers.** Emitted C is reduced to the statements that touch Python references, the GIL and
  `retval`. The environment is an oracle that says of each constructor, call and check whether it succeeds.
  Handing NULL to the interpreter, releasing what is not held, or losing the last pointer to a reference is a
  `Fault`. Names must be distinct, or the C code would not compile.
- **Lifecycle.** One GObject with any number of wrappers over time. GLib's functions have their documented
  meaning: toggle notifications at 1→2 and 2→1 with one toggle reference. `None` means that finalised or freed
  memory is touched or an assertion fails. `pygobject_clear` is two events, because it drops the GIL between
  erasing the qdata and giving up its reference; anything can happen in between.
- **Reader.** Which words Python's `int` and `float` accept is a parameter, `numeral`.
- **Override files.** Every character carries the place it was read from; no operation looks at it. The
  preprocessor is modelled by section 6.10.4 of ISO/IEC 9899:1999. The generated file is compiled under the name
  `FileOutput` was given.
- **Argument parsing.** The sizes of `long`, `time_t` and pointers are a parameter (`Platform`).

## Findings

- A GError check in a reverse wrapper uses a snapshot of the cleanup list from before the argument tuple and
  `py_method` exist: when it fails, `py_method` is never released (`WrapperVerdict.GErrorExitLeaks` and
  `WrapperVerdict.LoneGErrorExitLeaks`; exactly when in `WrapperVerdict.VirtualsAreCleanUnless`).
- Optional reverse-wrapper arguments are stored at their position among all optional arguments, but the tuple
  has room for the given ones only: a missing one before a given one writes past the tuple
  (`WrapperSafety.GapsOverflow`). `Wrapper.write_virtuals` passes none.
- Conversions whose result is not compared with NULL put NULL into the tuple when memory runs out
  (`WrapperVerdict.CleanExactlyWhen`).
- An optional field of a definition that is an empty string is not written and comes back as None
  (`DefsRoundTrip.EmptyFieldIsLost`; exactly when in `DefsParser.WrittenLoadsAgainWhen`).
- Two classes that `define` methods of the same name share one starting line, so one of the texts gets wrong
  `#line` numbers (`GeneratedFile.MethodsOfOneNameClash`; exactly when in `OverrideTable.StartLineIsRightWhen` and,
  for whole files, `GeneratedFile.GeneratedMapIsTrueWhen`).
- A `FILE*` parameter with a default is parsed into the `FILE*` variable itself, and a `time_t` into an `int`
  unit (`ParseTheorem.ParseCallIsWellTypedWhen`). A nullable `FILE*` parameter makes the generator fail.
- From the first default on, an argument that is left out leaves a variable unset that the wrapper reads, for a
  parameter that is not `ParseSafety.OmitSafe`: one without default whose handler does not set the variable anyway
  (those of unsigned, enumeration, flags, atom and type parameters do), and, with or without default, a non-nullable
  boxed, pointer, tree path or rectangle parameter, a `PyObject*` or a cairo one
  (`ParseTheorem.OmittedArgumentsAreSafeWhen`).
- A second main group of an option context is never freed, nor is an added group without texts, and the wrappers
  of both, of a main group that was replaced and of every added group never go away
  (`OptionGroups.SecondMainGroupIsLost`; exactly when in `OptionGroups.MainGroupIsFreedWhen` and
  `OptionGroups.AddedGroupIsFreedWhen`).
- A negative `max_count` other than -1 is a limit too, close to the largest gsize (`IOChannel.Limit`).

## Model

| member | source | states |
|---|---|---|
| ReverseWrapper.Generator.Write | codegen/reversewrapper.py:135-193 | a failure exit gets a snapshot of the cleanup list as it is then, and the new cleanup action is put in front for later exits only |
| ReverseWrapper.Generator.Convert | codegen/reversewrapper.py:398-434 | what each kind of parameter converts, checks, registers for cleanup and adds to the arguments (this class and those to line 862) |
| ReverseWrapper.Generator.FillTuple | codegen/reversewrapper.py:236-267 | the tuple is allocated and filled; an entry leaves the cleanup list when the tuple steals its reference, a borrowed one is taken first |
| ReverseWrapper.Generator.WriteCall | codegen/reversewrapper.py:269-303 | method lookup, call, collected exception checks, check of the result, in this order |
| ReverseWrapper.Generator.WriteParse | codegen/reversewrapper.py:313-336 | how the result is unpacked, by the number of values to parse and the return type |
| ReverseWrapper.Generator.Generate | codegen/reversewrapper.py:195-352 | the emitted program is Program of the parameters, or none where generate() asserts |
| WrapperVerdict.RefusedExactlyWhen | codegen/reversewrapper.py:303-309 | generate() asserts exactly for a return type that is converted without being parsed, together with an output parameter |
| WrapperVerdict.ParsedValues | codegen/reversewrapper.py:313-336 | the return value is parsed first, in the format of its C type, then the output parameters in their order |
| WrapperSafety.Discharge | codegen/reversewrapper.py:164-193 | a cleanup list that names each reference held or NULL once releases exactly what is held, and faults exactly when a plain decref meets NULL |
| WrapperSafety.ConversionPhase | codegen/reversewrapper.py:208-235 | for every parameter list and execution, the conversions end held and settled, or exit clean, or fault, as predicted |
| WrapperSafety.GapsOverflow | codegen/reversewrapper.py:245-267 | an optional argument overflows the tuple exactly when a missing one comes before a given one |
| WrapperSafety.TuplePhase | codegen/reversewrapper.py:236-267 | the tuple holds exactly the call's arguments in order, each reference moved once, unless it could not be allocated or overflows |
| WrapperVerdict.CallPhase | codegen/reversewrapper.py:269-303 | how the lookup, the call and the checks behind it end, and what the method was called with |
| WrapperVerdict.ReturnPhase | codegen/reversewrapper.py:304-336 | retval is assigned from a held result, or the exit is clean |
| WrapperVerdict.WrapperVerdict | codegen/reversewrapper.py:195-352 | every execution of every generated wrapper ends as predicted from the parameters and the outcomes alone: complete with the converted value, an early clean exit, or a misuse |
| WrapperVerdict.CleanExactlyWhen | codegen/reversewrapper.py:195-352 | every reference is released or moved exactly once if and only if no misuse is predicted |
| WrapperVerdict.VirtualsAreCleanUnless | codegen/codegen.py:589-625 | wrappers of virtual methods are clean on every path, while memory lasts, unless and only unless a GError check behind the call fails |
| WrapperVerdict.VirtualsAreClean | codegen/codegen.py:589-625 | without GError parameters they are clean on every path while memory lasts |
| WrapperVerdict.GErrorExitLeaks | codegen/reversewrapper.py:836-845 | when the method has raised, the call has returned NULL and a GError check fails, the wrapper never ends clean: it releases what the tuple has stolen, or returns with py_method still held |
| WrapperVerdict.LoneGErrorExitLeaks | codegen/reversewrapper.py:836-845 | with the GError parameter alone it returns, and py_method is still held |
| ObjectRuntime.Runtime.ToggleNotify | gobject/pygobject.c:565-579 | the last-reference notification drops, the other takes, one reference of the wrapper |
| ObjectRuntime.Runtime.PyGObjectSwitchToToggleRef | gobject/pygobject.c:586-600 | the strong reference becomes a toggle reference, once |
| ObjectRuntime.Runtime.PyGObjectSink | gobject/pygobject.c:136-157 | an object that is no longer floating gains a reference, a floating one is sunk |
| ObjectRuntime.Runtime.PyGObjectRegisterWrapper | gobject/pygobject.c:611-626 | sinking, then the qdata, then the toggle reference if there is a dictionary |
| ObjectRuntime.Runtime.PyGObjectNewFull | gobject/pygobject.c:914-959 | the registered wrapper with one more reference, or a new registered one |
| ObjectRuntime.Runtime.PyGObjectGetDict | gobject/pygobject.c:2052-2064 | the dictionary is made once and then switches the reference counting |
| ObjectRuntime.Runtime.PyGObjectSetAttro | gobject/pygobject.c:2072-2085 | switches when the parent type's setattro made the dictionary |
| ObjectRuntime.Runtime.PyGObjectClear | gobject/pygobject.c:1081-1098 | up to the point where the GIL is dropped |
| ObjectRuntime.Runtime.PyGObjectFinishClear | gobject/pygobject.c:1081-1098 | the strong reference is given up and the wrapper emptied |
| ObjectRuntime.Runtime.PyGObjectDealloc | gobject/pygobject.c:1009-1022 | deallocation clears the wrapper |
| ObjectRuntime.Runtime.PyGObjectConstructv | gobject/gobjectmodule.c:2248-2270 | the new object takes this wrapper as its own |
| ObjectRuntime.Runtime.Do | gobject/pygobject.c:565-626 | from any state with the invariant any possible event runs through these functions without touching anything finalised or freed, and the invariant holds again |
| ObjectRuntime.Runtime.Run | gobject/pygobject.c:565-626 | any run ends in the state Lifecycle says, with the invariant |
| Lifecycle.StepKeeps | gobject/pygobject.c:565-626 | every possible event succeeds and keeps the invariant, also while a clear is suspended |
| Lifecycle.RunsKeepInvariant | gobject/pygobject.c:565-626 | over all runs: qdata set exactly for the one live wrapper holding the object; toggle flag exactly with object and dictionary; the wrapper's count includes a toggle-held reference exactly when the flag is set and the object's count exceeds 1; the object's count is outside plus sunk plus one for each holder, the references behind sunk being given up at any time; nothing enabled fails |
| LifecycleSpec.StepRefines | gobject/pygobject.c:565-626 | from every state with the invariant, every event does what is said of it without counts and toggle references: which wrapper is current, which hold the object and have a dictionary, which are freed, who holds what, and how often a sunk object was registered |
| LifecycleSpec.RunsRefine | gobject/pygobject.c:565-626 | so does every run |
| LifecycleSpec.DictionaryAttaches | gobject/pygobject.c:2052-2085 | reading `__dict__` or setting an attribute that makes it leaves a dictionary, counts and other wrappers as they were, and a wrapper that holds its object attached |
| Lifecycle.IdentityIsStable | gobject/pygobject.c:924-927 | once a wrapper has an instance dictionary every later lookup returns it, with its dictionary, until the object is finalised |
| Lifecycle.DeallocatedLast | gobject/pygobject.c:1086-1088 | when such a wrapper is deallocated nothing else references the object: its count is exactly 1, apart from the reference the event gives up |
| Lifecycle.PlainWrapperIsReplaced | gobject/pygobject.c:581-585 | without a dictionary the wrapper may go while the object is held, and the next lookup makes another |
| Lifecycle.SunkObjectIsFinalised | gobject/pygobject.c:136-157 | an object that was already sunk when it was wrapped is finalised once the toolkit and its wrapper have let go of it |
| ClassOrder.MoveBehindParents | codegen/codegen.py:1531-1542 | the loop ends on every acyclic hierarchy with distinct names, with a permutation in which no class precedes its parent |
| ClassOrder.InversionsAfterMove | codegen/h2def.py:222-235 | a move never raises the number of inverted edges on any ancestor chain, and lowers it on the moved class's own |
| ClassOrder.OrderedMeansAcyclic | codegen/codegen.py:1531-1542 | only acyclic hierarchies have such an order, so the condition is needed |
| ClassOrder.PullKeeps | codegen/codegen.py:1407-1430 | one round never lowers the first violation index, and where it stays, the class there has a lower rank |
| ClassOrder.FindMisplaced | codegen/codegen.py:1413-1426 | the nested loops find the first class whose parent is listed behind it, and that parent, or there is none |
| ClassOrder.SortParentChildren | codegen/codegen.py:1407-1430 | ends with a permutation in which every class is in place; with no class named GObject no class precedes its parent |
| ObjectTree.BuildObjectTree | codegen/docgen.py:24-47 | no lookup fails exactly when each parent is None, GObject or another listed class; then every class has one node, under its parent |
| ObjectTree.OncePerParent | codegen/docgen.py:37-47 | each class is listed once under its parent or the root, and nowhere else |
| SchemeReader.Parser.ReadString | codegen/scmexpr.py:60-83 | the text of a string with its escapes, and where it ends |
| SchemeReader.Parser.Round | codegen/scmexpr.py:38-99 | one round handles the next token and moves the position forward |
| SchemeReader.Parser.Parse | codegen/scmexpr.py:33-105 | the forms yielded, and the error, of any file |
| SchemeLines.EveryLineIsRead | codegen/scmexpr.py:38-99 | every line is a series of blanks, ticks, parentheses, strings with their escapes and words, up to a comment or an unclosed quote, and its tokens are theirs, however it is taken apart |
| SchemeGrammar.ReaderMeetsGrammar | codegen/scmexpr.py:33-105 | the reader yields a forest without error if and only if its input spells that forest |
| SchemeGrammar.ReadIsSound | codegen/scmexpr.py:33-105 | from any state of the machine, what is yielded spells what was read |
| SchemeGrammar.ErrorsAreFaults | codegen/scmexpr.py:44-105 | no error exactly for well-nested input; a parenthesis error exactly when the first fault is one of nesting |
| SchemeGrammar.FirstFaultIsReported | codegen/scmexpr.py:44-105 | the error names the first fault and its line, and at the end of the file the lines of the open parentheses |
| Definitions.DefsWriter.WriteDefs | codegen/definitions.py:127-144 | the lines of a definition of any of the five kinds, or failure where a field that is always written is missing |
| DefsLexing.StringSurvivesWhenFaithful | codegen/scmexpr.py:63-83 | a string between quotes is read back unchanged exactly when it is faithful: quotes only behind a backslash, no backslash before n, r, t or the end |
| DefsRoundTrip.DefinitionSpells | codegen/definitions.py:127-144 | the written lines spell the definition's s-expression |
| DefsText.DefinitionText | codegen/definitions.py:127-144 | the text of every kind of definition, letter by letter |
| DefsText.FilesAreWritableWhen | codegen/definitions.py:127-144 | a file can be written exactly when each definition in it can |
| DefsText.FileOrder | codegen/defsparser.py:95-105 | a file holds the objects, then enumerations and flags, boxed types and pointers |
| DefsText.CommandsDispatchWhen | codegen/scmexpr.py:115-122 | a command names the method of a kind exactly when it spells it, any character that is no letter or digit standing for an underscore |
| DefsRoundTrip.ConstructsAgainWhen | codegen/definitions.py:94-144 | constructing from that s-expression gives the same definition exactly when no field that is written only if true is an empty string and none belongs to another kind |
| DefsRoundTrip.EmptyFieldIsLost | codegen/definitions.py:287-288 | a pointer definition with an empty module name comes back without module |
| DefsParser.DefsFile.HandleForm | codegen/scmexpr.py:115-122 | a form is handed to the method of its command, whose constructor may fail |
| DefsParser.DefsFile.StartParsing | codegen/scmexpr.py:111-114 | all forms of a file in order; after an error, of the reader or of a handler, the definitions from the forms before it are there |
| DefsForms.FormsConstructWhen | codegen/definitions.py:94-126 | from any form: which are accepted, and the definition they give, with clauses repeated, unknown or in any order |
| DefsForms.FormsAreFiledWhen | codegen/scmexpr.py:111-122 | any file of forms is handled without an exception exactly when each form names a command and those of definitions are accepted; the four lists then hold what they describe, in order |
| DefsForms.CollectedComeFirst | codegen/scmexpr.py:111-122 | otherwise they hold what the forms in front of the first bad one describe |
| DefsForms.LoadFailsWhen | codegen/scmexpr.py:111-122 | a bad form ends the parsing before an error of the reader does; without either the file loads |
| DefsParser.DefsFile.WriteDefs | codegen/defsparser.py:95-105 | objects, enumerations, boxed types and pointers, in this order |
| DefsParser.WrittenLoadsKept | codegen/defsparser.py:95-105 | writing a whole set of definitions as text and parsing the text gives the set with empty optional fields dropped |
| DefsParser.WrittenLoadsAgainWhen | codegen/defsparser.py:49-72 | it gives the same set exactly when no definition has such a field |
| OverrideFiles.ReadSections | codegen/override.py:63-80 | the sections between separator lines, each with the line it starts at |
| OverrideFiles.NothingIsLost | codegen/override.py:63-80 | the sections hold every line but the separators, in order |
| OverrideFiles.SectionsAreWhole | codegen/override.py:63-80 | each section is all that stands between two separators or an end of the file |
| OverrideFiles.SectionsInStep | codegen/override.py:63-84 | counting from a section's start gives every character its true line |
| OverrideTable.Overrides.ParseOverride | codegen/override.py:89-208 | where a section's text is filed, and the errors of a malformed or repeated one |
| OverrideTable.SectionIsHeadAndText | codegen/override.py:89-95 | the first line is split into words, and the text is all that follows it, one line further on |
| OverrideTable.WordsAreSplit | codegen/override.py:95-96 | white space separates, and a run of other characters is one word |
| OverrideTable.CommandsAre | codegen/override.py:98-208 | where each command sends its text |
| OverrideTable.FilingFailsWhen | codegen/override.py:89-208 | filing fails exactly when some section is malformed or overrides a function a second time |
| OverrideTable.Overrides.HandleFile | codegen/override.py:55-87 | the sections of a file one after the other, up to the first error |
| OverrideTable.LookupsAre | codegen/override.py:227-240 | a lookup gives the text of the last section filed under it |
| OverrideTable.StartLineIsRightWhen | codegen/override.py:239-240 | the line found for a text is right exactly when the last section of that name, of any kind, starts there, or the text is empty |
| OverrideTable.DistinctNamesAreRight | codegen/override.py:132-150 | it is, when a name is used for one kind of entry |
| LineMap.CopyIsTrueWhenInStep | codegen/codegen.py:462-465 | text behind a directive is known by its true place exactly when the directive names it |
| GeneratedFile.FileOutput.ResetLine | codegen/codegen.py:92-94 | the directive written names the line after it |
| GeneratedFile.FileOutput.WriteFunction | codegen/codegen.py:462-467 | directive, text, reset, two newlines |
| GeneratedFile.FunctionTextIsTrueWhen | codegen/codegen.py:462-467 | the map stays true exactly when the line is right and the text ends at the start of a line |
| GeneratedFile.GeneratedHolds | codegen/codegen.py:462-467 | the copied characters of the output are the texts asked for, the last one filed under each name and all of headers, body and init, in order; the rest is the generator's own text with its newlines |
| GeneratedFile.CanEmitWhen | codegen/override.py:227-240 | only a text of the table can be missing, and it is exactly when nothing was filed under its name |
| GeneratedFile.GeneratedMapIsTrueWhen | codegen/codegen.py:77-94 | for all override files and all orders of output, every copied character is known by its file and line and every generated one by its line in the output, exactly when each function text that is not empty begins where a line begins, has its own starting line and ends at the start of a line, and so does the last part of headers and body; "only when" for an output that is not named like an override file |
| GeneratedFile.MethodsOfOneNameClash | codegen/override.py:171-205 | any file that defines a method of one name for two classes: the earlier text gets the later one's line |
| ParseCall.WrapperInfo.AddParselist | codegen/argtypes.py:69-76 | codes, pointers and keywords are appended, keywords of Python escaped |
| ParseCall.WrapperInfo.WriteParams | codegen/codegen.py:319-331 | the parts of all parameters in order, with the bar before the first default, or the first failure |
| ParseFormat.DecodeUnit | codegen/argtypes.py:69-71 | a unit appended to a format is read as one more unit |
| ParseFormat.PartsUseTheirOwn | codegen/argtypes.py:94-835 | what a handler adds is about the variables it declares itself, which are listed |
| ParseFormat.PartsFitWhen | codegen/argtypes.py:94-560 | a handler's pointers have the types its unit stores, except for a FILE* with a default and a wide time_t |
| ParseSafety.PartRunsWhen | codegen/argtypes.py:94-560 | a handler's code reads only what is set exactly when the argument is passed or may be left out |
| ParseCall.KeywordsAreUsable | codegen/argtypes.py:73-76 | no keyword list holds a keyword of Python, and only names that are one are changed |
| ParseCall.EmptyDefaultIsNone | codegen/argtypes.py:94-560 | an empty default is the value of a string, and for every other handler as good as none |
| ParseTheorem.ParseCallIsWellFormed | codegen/codegen.py:319-331 | parameter by parameter, in order: the format reads as their units, with their keywords, their pointers, their conversions, and one bar at most and in its place; and the C function is called with their values, all of them exactly when no nullable object lacks its star |
| ParseTheorem.ArgumentArrives | codegen/argtypes.py:94-835 | what the C function is given for a parameter is what was parsed for it, or converted from that |
| ParseTheorem.BuildFailsWhen | codegen/codegen.py:319-331 | which parameter lists cannot be wrapped, and with which exception |
| ParseTheorem.ParseCallIsWellTypedWhen | codegen/argtypes.py:69-76 | all pointers fit their units exactly when no parameter is one of the two exceptions |
| ParseTheorem.OmittedArgumentsAreSafeWhen | codegen/codegen.py:327-331 | no accepted call makes the wrapper read an unset variable, exactly when every parameter from the first default on may be left out |
| IOChannel.ReadAll | glib/pygiochannel.c:172-233 | exactly the bytes taken off the stream, at most max_count and without a limit for -1, never outside the buffer; it ends at the limit or after the first read that is not NORMAL |
| IOChannel.BufSize | glib/pygiochannel.c:197-203 | the whole chunk, or what is left to the limit if that is less |
| OptionGroups.OptionRuntime.TransferGroup | glib/pyglib.c:439-461 | the first transfer takes a reference and succeeds, later ones change nothing |
| OptionGroups.OptionRuntime.DestroyGroup | glib/pygoptiongroup.c:45-66 | the destroy notify empties the wrapper and drops the context's reference |
| OptionGroups.OptionRuntime.SetMainGroup | glib/pygoptioncontext.c:193-225 | transfer, the context's own taking of the first main group, and the main_group field |
| OptionGroups.OptionRuntime.AddOptionGroup | glib/pygoptioncontext.c:239-275 | transfer, an extra reference, and the context's taking of a complete group |
| OptionGroups.OptionRuntime.DeallocOptionContext | glib/pygoptioncontext.c:48-61 | the main_group reference first, then every group the context took |
| OptionGroups.GroupsAreFreedOnce | glib/pygoptiongroup.c:45-101 | over all runs no freed wrapper is touched, each GOptionGroup enters one context at most and is freed once at most, and a wrapper lives exactly as long as the ledger has a reference |
| OptionLedger.EventsDo | glib/pygoptioncontext.c:193-275 | from every sound state every event does to the ledger exactly what is said of it without reference counts: who holds a group, who will free it, how often it was freed, which references are forgotten |
| OptionGroups.MainGroupIsFreedWhen | glib/pygoptioncontext.c:193-225 | over every continuation, a group handed to set_main_group has been freed exactly when the context had no main group before and is gone; otherwise its wrapper stays for ever |
| OptionGroups.AddedGroupIsFreedWhen | glib/pygoptioncontext.c:239-275 | over every continuation, a group handed to add_group has been freed exactly when its texts are complete and the context is gone; its wrapper stays for ever |
| OptionGroups.NeverFreed | glib/pygoptiongroup.c:45-101 | from any sound state on, a group that was handed over but not taken is never freed, and it and any wrapper with a forgotten reference stay alive |
| OptionGroups.SecondMainGroupIsLost | glib/pygoptioncontext.c:211-222 | after two main groups and the end of the context, whatever follows, the second is never freed and both wrappers stay |
| OptionGroups.OptionRuntime.Do | glib/pygoptioncontext.c:48-61 | any possible event runs through these functions and keeps the ledger right |
| OptionGroups.OptionRuntime.Run | glib/pygoptioncontext.c:48-61 | so does any program |
| MainLoops.MainLoopThread.SaveCurrent | glib/pygmainloop.c:77-95 | the key holds the new loop with one more reference, and the old value is returned |
| MainLoops.MainLoopThread.RestoreCurrent | glib/pygmainloop.c:97-110 | the key holds the old value again, the inner loop has one reference less |
| MainLoops.MainLoopThread.RunLoop | glib/pygmainloop.c:317-328 | whenever control reaches a loop, at its start and after each run within it, that loop is the current one; one reference for each frame running it; a run leaves both as they were |
| MainLoops.InnermostIsCurrent | glib/pygmainloop.c:77-117 | of all that is seen in any series of runs, the current loop is that of the innermost frame |
| MainLoops.MainLoopThread.RunOutermost | glib/pygmainloop.c:317-328 | any well-nested series of runs leaves the thread as it was |
| WeakRefs.WeakRef.NotifyEnds | gobject/pygobject.c:2117-2143 | after the callback, callback and floating reference are given up |
| WeakRefs.WeakRef.UnrefObject | gobject/pygobject.c:2186-2201 | unregisters once, then fails |
| WeakRefs.WeakRef.Do | gobject/pygobject.c:2117-2201 | any possible event runs through these functions without using anything freed and keeps the record right |
| WeakRefs.EventsDo | gobject/pygobject.c:2117-2201 | every event does what is said of it without reference counts, and the weak reference lives while something refers to it |
| WeakRefs.CallbackRunsOnce | gobject/pygobject.c:2117-2201 | over any order of events the callback runs at most once and never after unref, the floating reference is dropped exactly once, and nothing freed is used |
| EnumPrefix.CommonPrefix | codegen/h2def.py:408-415 | the longest string that is empty or ends in an underscore and is a proper prefix of every entry |
| EnumPrefix.NickIs | codegen/h2def.py:416-419 | a nick is the rest of the entry in lower case, with hyphens for underscores |
| EnumPrefix.NicksTellEntriesApart | codegen/h2def.py:416-419 | no nick is empty, and two are equal exactly when the entries differ in case only |

## Left out

- ReverseWrapper.Generator.Generate: literal C text, declarations, code sinks' indentation, `CallbackInUserDataParam`
  and `code_before`/`code_after` text that touches no reference are not modelled.
- WrapperVerdict.VirtualsAreClean: stated while memory lasts, because conversions that are not compared with NULL
  do misbehave when it does not; `WrapperVerdict.WrapperVerdict` covers those executions too.
- Lifecycle.RunsKeepInvariant: sink functions registered for special types, Python weak-reference callbacks at
  deallocation, objects of Python types created by C code, dispose code that revives an object and the closures'
  watch list are not modelled; a notification is one step.
- ObjectRuntime.Runtime.PyGObjectSink: the deprecated sink functions for special types are not modelled.
- DefsParser.WrittenLoadsAgainWhen: stated for names that are symbols and for strings the reader returns as they are
  (`DefsLexing.StringSurvivesWhenFaithful` says which); documentation strings, interfaces, functions, methods and
  virtuals, the `c_name` dictionary, `include`, and fields that hold numbers or lists are not modelled.
- DefsParser.DefsFile.WriteDefs: the functions and methods that `write_defs` writes last are not modelled.
- DefsParser.DefsFile.HandleForm: commands that name other attributes of the parser object are taken to do nothing.
- ClassOrder.MoveBehindParents: the ignored types and base lists that `get_classes` returns, and the alphabetical
  sort before it in `sort_obj_defs`, are not modelled.
- ObjectTree.BuildObjectTree: the nodes for interfaces, boxed types and pointers that follow are not modelled.
- OverrideTable.Overrides.HandleFile: the recursion of `include` sections is not a method here; the theorems are about
  any series of sections, which covers it. Ignore lists, keyword flags, imports, working directories are left out.
- GeneratedFile.GeneratedMapIsTrueWhen: override texts are taken to contain no `#line` directives, comments or line
  continuations that reach past their end.
- ParseCall.WrapperInfo.WriteParams: the text of the conversion code is reduced to what it reads and sets; the
  registry from type names to handlers is not modelled, and the deprecation warning and return code are not.
- ParseTheorem.OmittedArgumentsAreSafeWhen: says that variables are set, not that an omitted argument gets its default;
  `pyg_enum_get_value` for instance stores 0 for an enumeration that was left out.
- IOChannel.ReadAll: a channel that reports NORMAL for no byte for ever, from some call on, is excluded: the loop
  need not end then. A channel that does so any number of times in between is not.
- OptionGroups.GroupsAreFreedOnce: entries added to a group, repeated `__init__` calls, groups made by
  `pyglib_option_group_new`, and the parsing of arguments are not modelled.
- MainLoops.MainLoopThread.RunLoop: one thread; the variant without thread support is not modelled.
- EnumPrefix.CommonPrefix: an empty entry, which the header patterns never give, would make the loop endless.
- Header scraping by regular expressions, GValue and libffi marshalling, signal emission, type-slot tables, file and
  process handling: their behaviour lies in the libraries they call.
