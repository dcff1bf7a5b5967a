# A verified model of the OpenAPI analyzer and generator

The program reads Go modules written for the go-bricks framework and writes an
OpenAPI 3.0.1 document for the routes they register.  This project models the
parts of it where a mistake would silently put something wrong into that
document, and proves what those parts are for.

**Which prefix a route is registered under** (`Registrar*.dfy`).  The analyzer
walks a function body once and says, at every registration, which group prefix
the variable it registers on holds.  `RegistrarSyntax` is the part of Go it
looks at: blocks, `if`/`else`, `switch` and `select` with `fallthrough`, loops,
function literals, declarations and assignments, all with source positions.
`RegistrarSemantics` is what such code does when it runs: variables live in
cells, function literals capture them, and a plan settles everything no analysis
can know, among it the branches taken, how often and in which order the parts of
a loop run, and when each function literal created so far is called.
`RegistrarTheorem.TrustedIsSound` says that in every run a registration the
analysis resolves is handed a registrar with exactly that prefix.  It gives up
only the variables written at the two kinds of place where the walk is blind,
and those built from them (`RegistrarTrust`); `RegistrarLimits` shows that those
must be given up.  Resolving nothing would be sound too: `RegistrarCertain` is a
second analysis, over sets of variables alone, that says where a registration is
certain to be resolved, and proves that the first resolves it there;
`RegistrarPrecision` says it for straight-line code and all that stands in it.
The analyzer itself does not recurse over
scopes: it is driven by positions, with writes that wait for their statement to
end.  `RegistrarWalk` has that tracker with its mutable frames,
`RegistrarRefinement` proves that it computes what the recursion does, and
`RegistrarWalk.AnalyzeBody` carries the soundness statement itself.

**Which methods a type promotes** (`MethodSets`, `MethodExactness`,
`MethodLosses`, `MethodMemo`).  The walk over embedded types stops at a type it
is already inside of, and keeps the sets it computed without stopping.  The
reference is the Go specification ("Selectors", "Struct types"): the shallowest
depth in the infinite unfolding of the embedding graph, and exactly one
occurrence there.  The walk meets it, name by name, exactly where it never comes
back, with its methods, to a type it opened without them, unless the name is
shadowed there anyway; the memo never shows.

**Resolving named types** (`BuildTags`, `Resolution`, `ResolutionCycles`,
`ResolutionState`, `ResolutionMeaning`, `LiteralCycles`, `LiteralReach`).  Named types resolve through their
declarations, build-tagged ones are merged, and anonymous structs are expanded in
place, their fields resolved in turn, until they close a cycle or a limit is
reached.  That is one recursion, over cyclic declarations and anonymous structs
together.  It ends, opens no name twice, never falls back to an untyped schema
without a note, does not depend on the order of declarations, and expands a
field's anonymous structs independently of the fields before it.  What it yields
is what the type means, by a relation that knows neither the stack nor the state
of the recursion, and nothing is cut for a cycle that stands on none.

**Names, components and references** (`RegistryClosure`, `Naming`, `Document`,
`DocumentMeaning`, `DocumentClosure`, `RegisteredDocument`, `DocumentBuild`,
`Paths`).  Types are registered before their fields are followed; every entry is
its type's own, every type reached has one, and a closed registry stays closed;
names never collide; a schema describes its Go type, by a relation that leaves no
other schema, and points at exactly the components the type shows; what registration leaves behind is what the generator needs,
and so no reference of the document dangles; a path's variables are all declared.

**Fields and their rules** (`Embed`, `EmbedTree`, `EmbedSlots`, `EmbedBuild`,
`Bounds`).  Filtering the fields of each embedded struct before promoting them
is one pass of encoding/json's dominance rule over all of them, and the rules of
a validate tag collapse onto bounds that accept the same values.

**Scopes** (`Scopes`).  Two views of lexical scope, a chain carried along and an
index of spans, answer alike at every identifier.

Code the program writes as expressions and recursion is functions here; code
that updates maps, slices and fields step by step is methods and classes, each
proved against such a function.

## Where a promise does not hold

The code is modelled as it is.  Where it does less than its comments promise,
the project has an input that shows it and the condition under which the promise
holds.

- Stopping at an open type is called exact in `marshaler.go`.  With
  `type S struct { *S }`, a method on `S`, and `type D S`, the method `D`
  promotes is lost (`MethodExactness.DefinedTypeLosesMethod`).
  `MethodLosses.ExactIffClean` is the exact condition on the graph of types, for
  each method name by itself: where the walk comes back, with its methods, to a
  type it opened without them, fields or library types shadow the name.
- Bounds that mix fractions with integers beyond 2^53 compare as float64, and a
  rule is lost or kept by its place (`Bounds.MixedComparisonLosesRule`).
  `Bounds.MergeExactIffCompareRight` is the exact condition on the numbers.
- Length rules no length meets (`lt=0`, `lte=-1`, and `gt` at the largest
  int64) leave bounds that admit a length.  `Bounds.LengthsAreExact` is the exact
  condition on the rules: there is none of these, or two rules' bounds clash
  anyway, which is when no length is admitted (`Bounds.NoneIffClash`).
- Dropping duplicate parameters inside an embedded struct can let a deeper body
  field through (`EmbedTree.SharedSlotDiffers`).
  `EmbedSlots.DedupeFirstIffHarmless` is the exact condition on the struct's
  fields, `EmbedSlots.ExtractIsFinal` the law for whole trees under it.
- A group opened on a variable the walk knows nothing of reads as prefix-less,
  and an untraced write inside a function literal to a variable not yet known as
  a registrar is not recorded (`RegistrarLimits.UnknownParentMisread`,
  `RegistrarLimits.LostWriteMisread`).  The walk of the model reports both places
  (`UnknownParent`, `LostWrite`), each with the variable written there;
  `RegistrarTheorem.TrustedIsSound` says nothing of those variables and of what is
  built from them, and everything of all others.

## Model

| member | source | states |
|---|---|---|
| RegistrarTheorem.TrustedIsSound | internal/analyzer/registrar.go:299-319 | In every run of a function, each registration reached is one the walk reports, and where the walk gives it a resolved prefix, the registrar it is handed has exactly that prefix: whatever branches are taken, however often loops run, whenever function literals are called. Nothing is said of a set of variables that holds those handed something else and those written where the walk is blind, if no other variable is built from one of them. |
| RegistrarTheorem.AnalysisIsSound | internal/analyzer/registrar.go:299-319 | So where the walk is blind nowhere and every argument is what the caller said, all of that holds of every variable. |
| RegistrarWalk.AnalyzeBody | internal/analyzer/analyzer.go:852-873 | The position-driven walk over mutable frames reports exactly the registrations of the recursive analysis, in order; it resolves every registration that is certain, and every resolved prefix it reports is the one seen in every run, of every variable not given up. |
| RegistrarCertain.CertainIsResolved | internal/analyzer/registrar.go:542-574 | Any registration is resolved where a walk over sets of variables, with neither frames nor values nor waiting writes, says so: a variable is known from the group or copy that wrote it on, through bare blocks and if or switch headers, in the branch that wrote it and in sibling branches as before it, inside loops that do not write it and function literals after whose start it is not written. |
| RegistrarCertain.CertainIsExact | internal/analyzer/registrar.go:542-574 | In every run such a registration, on a variable not given up, is handed exactly the registrar reported, resolved. |
| RegistrarCertain.CertainHolds | internal/analyzer/registrar.go:505-517 | After any code that ends, looking up a variable known there gives, resolved, what its cell holds. |
| RegistrarCertain.JudgedRight | internal/analyzer/registrar.go:229-274 | One node at a time: whatever the second walk knows after it, the analysis resolves. |
| RegistrarTrust.WalkAside | internal/analyzer/registrar.go:544-556 | Giving up variables from the start changes no prefix reported of any other, where no other is built from one of them. |
| RegistrarTheorem.WalkOrdered | internal/analyzer/analyzer.go:864-872 | Registrations are reported in source order, each position at most once, so a position identifies a report. |
| RegistrarTheorem.StartWorld | internal/analyzer/registrar.go:334-348 | The seeds of a walk are true of the arguments a caller hands over, but for the variables given up: a run starts with every claim holding and no function literal relying on anything. |
| RegistrarRuns.RunInSound | internal/analyzer/registrar.go:299-319 | Running statements from a state where every claim of the analysis holds leads to one where every claim it makes after them holds, no registration was misread, and nothing else was disturbed. |
| RegistrarRuns.RunSound | internal/analyzer/registrar.go:350-365 | The same for one statement of any kind. |
| RegistrarRuns.LoopSound | internal/analyzer/registrar.go:558-574 | Any number of iterations, parts in any order, a range clause's assignment in each, variables copied between iterations or new in each: what the analysis says inside the loop holds in all of them. |
| RegistrarRuns.BranchSound | internal/analyzer/registrar.go:471-499 | Whichever alternative is taken, after skipping any others, and through any chain of fallthrough, what the analysis says inside each clause reached holds there. |
| RegistrarRuns.InvokeSound | internal/analyzer/registrar.go:315-316 | Calling a function literal, at any time after it was created and with any arguments, disturbs no claim now made and misreads no registration inside it. |
| RegistrarRuns.AssignSound | internal/analyzer/analyzer.go:894-912 | Every right-hand side is evaluated before any variable is written, and what is recorded of the variables is what they then hold. |
| RegistrarAssign.SetClaims | internal/analyzer/registrar.go:506-517 | A variable just written is claimed only with the value written, only if that is resolved, and only where no other run of a loop or closure may see the write. |
| RegistrarSoundness.LitCreated | internal/analyzer/registrar.go:314-316 | Creating a function literal keeps every claim, makes true every claim its body starts from, and lets it rely only on variables no code runs to write later. |
| RegistrarSoundness.LitClaims | internal/analyzer/registrar.go:563-574 | What a function literal's body claims of an outer variable is what the code around it claims there, and the variable is written neither in the literal nor anywhere after it. |
| RegistrarClaims.MergeClaims | internal/analyzer/registrar.go:471-499 | After a statement that may not have run its body, standing in a block or clause, a variable is claimed only if that body does not write it, with the binding from before, or from an if or switch header that always runs, where no write in a function literal is lost. |
| RegistrarClaims.CarryClaims | internal/analyzer/registrar.go:245-255 | After a bare block, which always runs, every outer variable reads as it did at the end of the block. |
| RegistrarClaims.BranchKeepsValues | internal/analyzer/registrar.go:229-243 | Leaving a block or clause that is one alternative changes no binding its sibling alternatives read, and hands on what it reassigned exactly when it falls through. |
| RegistrarClaims.AlternativeKeepsValues | internal/analyzer/registrar.go:229-243 | The same for an alternative of any kind, an else-if among them, and every variable its own header does not write. |
| RegistrarClaims.AlternativeClaims | internal/analyzer/registrar.go:477-499 | After any alternative, an else-if among them, a variable its header did not write is claimed only with the binding from before it. |
| RegistrarClaims.FellThroughClaims | internal/analyzer/registrar.go:257-274 | A clause reached by fallthrough claims of a variable only what was claimed before, and nothing the clause before it wrote, where no write in a function literal is lost. |
| RegistrarClaims.FellThroughKeeps | internal/analyzer/registrar.go:257-274 | Every variable the clause before it did not write reads there exactly as it did before that clause, what fell through earlier included. |
| RegistrarClaims.RepeatableIsUnresolved | internal/analyzer/registrar.go:161-168 | A variable a loop or function literal writes and that outlives it is resolved at no registration anywhere inside, above the write neither. |
| RegistrarClaims.LoopVariableIsUnresolved | internal/analyzer/registrar.go:519-534 | A variable of a three-clause loop that its condition, post statement or block writes is resolved at no registration after the init. |
| RegistrarClaims.RepeatableKills | internal/analyzer/registrar.go:558-574 | What a loop or function literal writes of the variables that outlive it counts, for its frame, as reassigned while it runs, wherever in it the write stands. |
| RegistrarInvariants.WalkKeeps | internal/analyzer/registrar.go:353-388 | Walking a node keeps the frame invariant, adds only what the node declares, and changes the bindings of the variables it writes alone. |
| RegistrarInvariants.LeaveKeepsSane | internal/analyzer/registrar.go:477-499 | Leaving a scope keeps the frame invariant and forgets what the scope declared. |
| RegistrarInvariants.EnterKeepsSane | internal/analyzer/registrar.go:359-365 | Entering a scope keeps the frame invariant. |
| RegistrarInvariants.DoomedIsUnresolved | internal/analyzer/registrar.go:542-556 | A captured or path-dependent variable, or one a running loop or closure reassigns, never reads as resolved. |
| RegistrarInvariants.WalkTracks | internal/analyzer/analyzer.go:906-911 | Only a variable that is written a traceable value somewhere, or was one already, ever comes to be recorded. |
| RegistrarNotes.ScopeNotes | internal/analyzer/registrar.go:477-499 | Where no write in a function literal is lost, what a scope writes of an outer registrar is marked in the scope around it when it is left, a clause that falls through hands it on, and a closure captures it for good. |
| RegistrarNotes.WalkCaptures | internal/analyzer/registrar.go:324-326 | Where no write is lost, every variable a function literal writes is captured, or never can be a registrar. |
| RegistrarPrecision.StraightLineIsResolved | internal/analyzer/registrar.go:305-307 | Variables that only straight-line code with nested bare blocks writes, and only with groups and copies of such variables, are resolved at every registration on them once they are bound, at any depth: in branches, loops and selects as well, and in function literals created after their last write; and the walk is blind at none of their writes. |
| RegistrarPrecision.StraightLineIsExact | internal/analyzer/registrar.go:305-307 | Every registration any run reaches there, at any depth, is reported, resolved, with exactly the prefix of the registrar it is handed. |
| RegistrarPrecision.StraightLineHolds | internal/analyzer/registrar.go:505-517 | After every straight-line statement that ends, looking such a variable up gives, resolved, exactly what its cell holds: its last write. Variables written where the walk is blind are given up there. |
| RegistrarPrecision.StraightWalk | internal/analyzer/registrar.go:505-517 | Each statement of such code leaves every variable of the kind it has bound known and resolved, and is blind at none of their writes. |
| RegistrarLimits.UnknownParentMisread | internal/analyzer/analyzer.go:937-944 | A parameter no caller gave a prefix: a group opened on it is read as prefix-less, and a run sees the prefix it had. |
| RegistrarLimits.LostWriteMisread | internal/analyzer/analyzer.go:906-911 | A function literal's untraced write to a variable that becomes a registrar later: its call changes the registrar, and the walk still reports the group's prefix. |
| RegistrarRefinement.WalkRefines | internal/analyzer/registrar.go:350-388 | The position-driven tracker, whose scopes are left and writes applied only when a later node is reached, reports what the recursion does and stands at every node where the recursion does. |
| RegistrarRefinement.LookupsAgree | internal/analyzer/registrar.go:353-388 | Anywhere after a node, once what is due is settled, the position-driven tracker and the recursion have the same scopes open and the same variables captured, and every lookup answers alike. |
| RegistrarRefinement.WritesSettle | internal/analyzer/registrar.go:376-388 | The writes an assignment leaves waiting are, once applied, its writes in order, whatever other writes wait. |
| RegistrarRefinement.LeaveCommutes | internal/analyzer/registrar.go:376-388 | A waiting write of an outer statement may be applied before a scope is left or after: no binding anyone can read differs. |
| RegistrarRefinement.SameLookup | internal/analyzer/registrar.go:544-556 | Trackers that differ only in what they hold for captured variables give every lookup the same answer. |
| RegistrarWalk.RegistrarFrame.TakeWrites | internal/analyzer/registrar.go:487-498 | The outer frame takes over every write of the scope left to a variable declared outside it, as path-dependent at once or once the statement is left, and the keys handed on are exactly those. |
| RegistrarWalk.RegistrarFrame.TakeOver | internal/analyzer/registrar.go:245-255 | A bare block's writes to variables declared outside it carry over as they stand, and nothing else does. |
| RegistrarWalk.RegistrarFrame.Begin | internal/analyzer/registrar.go:266-274 | The next clause starts with what fell through as path-dependent, and the outer frame forgets it. |
| RegistrarWalk.Tracking.ApplyWritesDue | internal/analyzer/registrar.go:376-388 | Applies, in the order recorded, exactly the waiting writes that take effect by then, each to a frame still open, and keeps the others. |
| RegistrarWalk.Tracking.Pop | internal/analyzer/registrar.go:477-499 | Pops the innermost frame and leaves the stack, the captured variables and the waiting writes as leaving the scope says. |
| RegistrarWalk.Tracking.LeaveScopesEnded | internal/analyzer/registrar.go:355-357 | Leaves exactly the scopes that have ended; the open frames stay a chain ending in the function's own. |
| RegistrarWalk.Tracking.EnterScope | internal/analyzer/registrar.go:358-364 | Pushes the frame of a scope on the chain of open ones. |
| RegistrarWalk.Tracking.AdvanceTo | internal/analyzer/registrar.go:353-365 | Settles everything due at a node, then enters its scope, keeping the invariant that open frames form a chain and every waiting write's frame is open until the write. |
| RegistrarWalk.Tracking.Find | internal/analyzer/registrar.go:544-556 | The loop over the open frames finds the innermost binding, path-dependent if captured or if any loop or closure passed reassigns it. |
| RegistrarWalk.Tracking.Carried | internal/analyzer/registrar.go:524-534 | The search for the declaring frame ends, and says whether a further run of a loop or literal may see the write. |
| RegistrarWalk.Tracking.Assign | internal/analyzer/registrar.go:506-517 | Adds one waiting write and changes nothing else. |
| RegistrarWalk.Tracking.RecordBindings | internal/analyzer/analyzer.go:894-912 | Reads every value before recording any write, and records exactly the traced ones and those to known registrars. |
| MethodExactness.WalkIsExact | internal/analyzer/marshaler.go:370-402 | Where the walk never comes back, with its methods, to a type opened without them, every name's entry is the one at its shallowest depth in the infinite unfolding, ambiguous if and only if it stands there more than once, absent if and only if it stands nowhere; pointer-only as Go's embedding rule says. |
| MethodLosses.ExactIffClean | internal/analyzer/marshaler.go:370-378 | For a graph of types and any name, each of the seven recorded ones among them: the name's entry is the one Go's rule gives for every type, whatever methods are declared, if and only if every walk that comes back, with its methods, to a type it opened without them finds the name shadowed above that depth or twice at it. |
| MethodLosses.CleanIsExact | internal/analyzer/marshaler.go:370-378 | For one type and one name: where every such way back from the type finds the name shadowed, the type's entry is the one Go's rule gives, whatever methods are declared. |
| MethodLosses.LosesOnWayBack | internal/analyzer/marshaler.go:385-388 | On any way back that does not find the name shadowed, declaring a method of that name on the type come back to gives the type where it begins a wrong entry. |
| MethodLosses.FieldKeepsExact | internal/analyzer/marshaler.go:374-378 | A struct that embeds itself and has a field of the name, and a type defined over it: the walk comes back to what it opened without methods, and the name's entry is right all the same. |
| MethodExactness.StoppedIsShadowed | internal/analyzer/marshaler.go:374-378 | What the cut leaves out stands deeper than where it stood before, so it is never shallowest. |
| MethodExactness.DefinedTypeLosesMethod | internal/analyzer/marshaler.go:385-388 | A struct that embeds itself by pointer and a type defined over it: the method it promotes at depth one is not in its set. |
| MethodExactness.DefinedOverSelfEmbed | internal/analyzer/marshaler.go:385-388 | No method is in the set of any type defined over a struct that only embeds itself. |
| MethodSets.WalkSelects | internal/analyzer/marshaler.go:405-479 | The walk's entry is Go's choice among the occurrences it meets, for every type, path and name. |
| MethodSets.AddSelects | internal/analyzer/marshaler.go:338-353 | Folding in one more embedded field keeps Go's choice among all occurrences so far: shallower wins, a tie is ambiguous, a pointer embed reaches pointer methods. |
| MethodMemo.MethodWalker.MethodSetOf | internal/analyzer/marshaler.go:383-402 | Whatever was computed before, the memoized walk returns what the walk without a memo returns on the same path; and if it stopped nowhere, the type's unfolding is finite. |
| MethodMemo.MethodWalker.ComputeMethodSet | internal/analyzer/marshaler.go:405-416 | The same for the walk below a type just opened. |
| MethodMemo.MethodWalker.PromotedMethods | internal/analyzer/marshaler.go:459-479 | The same for a struct's embedded fields, with its own field names on top. |
| MethodMemo.PathIrrelevant | internal/analyzer/marshaler.go:379-382 | A type whose unfolding is finite has, on any path that leads to it, the set it has on none. |
| MethodMemo.NoReturn | internal/analyzer/marshaler.go:379-382 | A type whose unfolding is finite is on no cycle, so no type open above it can stand below it. |
| MethodMemo.PartsAreFinite | internal/analyzer/marshaler.go:393-400 | A type all of whose parts have finite unfoldings has one, so counting cuts decides what may be memoized. |
| MethodMemo.PromoteAll | internal/analyzer/marshaler.go:338-353 | The loops over embedded fields and their names compute the fold. |
| ResolutionState.ResolveState.ResolveStruct | internal/analyzer/anonymous.go:69-118 | An anonymous struct is kept as written, cut for a cycle, which is noted, cut for a limit, which is not, or opened, its fields resolved and closed again, names and nested anonymous structs in them included. |
| ResolutionCycles.ResolveKeeps | internal/analyzer/anonymous.go:98-118 | Resolving any type, through any cyclic declarations and anonymous structs, keeps the list of open structs free of duplicates and the links a forest, only grows classes while anything is open, opens nothing already open, and counts every struct expanded. |
| ResolutionCycles.FieldIsSmall | internal/analyzer/anonymous.go:110-118 | Each outermost anonymous struct of a field or payload expands no more of them than the limit, none is expanded inside itself, and nothing is left open. |
| ResolutionCycles.CutUntilClosed | internal/analyzer/anonymous.go:154-165 | A literal found on a cycle with an open one is cut every time it is met until that one closes, whatever fields, named types in them included, are resolved in between. |
| LiteralCycles.CycleJoins | internal/analyzer/anonymous.go:154-158 | Closing a cycle puts the open literal and every one opened after it into one class. |
| ResolutionCycles.HistoryForgotten | internal/analyzer/anonymous.go:134-142 | What an outermost field or payload resolves to, its notes, references and expansions, does not depend on anything resolved before it. |
| ResolutionCycles.QuietLeaves | internal/analyzer/resolution.go:222-228 | Where anonymous structs are left unexpanded, as in a quiet run, resolving neither changes the expansion's state nor reaches its limits. |
| LiteralReach.AcyclicIsNeverCut | internal/analyzer/anonymous.go:154-165 | Where no anonymous struct stands, through fields and names, in itself, none is ever cut for a cycle. |
| LiteralReach.CutIsOnCycle | internal/analyzer/anonymous.go:166-185 | A literal cut for a cycle stands in itself, and literals put into one class stand in one another. |
| LiteralReach.FreshIsExpanded | internal/analyzer/anonymous.go:69-118 | A literal that shares no class with an open one is expanded, within the two limits, and nothing is noted. |
| LiteralCycles.LinkJoins | internal/analyzer/anonymous.go:179-185 | Linking one root to another keeps a forest and moves exactly one class into the other. |
| LiteralCycles.JoinGrows | internal/analyzer/anonymous.go:177-185 | Joining puts every given literal into the root's class and never splits a class. |
| LiteralCycles.LiteralExpander.LiteralCycleRoot | internal/analyzer/anonymous.go:187-197 | Following the links ends, at the representative. |
| LiteralCycles.LiteralExpander.JoinLiteralCycle | internal/analyzer/anonymous.go:177-185 | The loop over literals joins each one's class, through representatives that change as it goes. |
| LiteralCycles.LiteralExpander.ClosesLiteralCycle | internal/analyzer/anonymous.go:166-175 | A literal is cut exactly when it shares a class with an open one, and then all opened since the first such one are joined. |
| LiteralCycles.LiteralExpander.OpenLiteral | internal/analyzer/anonymous.go:120-132 | Opening counts the literal, from one again where it is the outermost, and keeps the open ones distinct. |
| LiteralCycles.LiteralExpander.CloseLiteral | internal/analyzer/anonymous.go:134-142 | Closing takes back exactly the last opened, and closing the outermost forgets every class. |
| Resolution.ResolveIsLoud | internal/analyzer/resolution.go:269-356 | No silent fallback: a resolved shape with an untyped leaf noted why, through merges, aliases, quiet runs and expanded anonymous structs, unless it holds a uintptr, is a func or chan, or is an anonymous struct the recursion itself cut at a limit. |
| Resolution.FieldsAreLoud | internal/analyzer/anonymous.go:98-118 | The same for every field of an anonymous struct expanded in place, in the state its siblings left. |
| ResolutionMeaning.ResolveMeans | internal/analyzer/resolution.go:271-293 | Every type resolves to what it means: its boxes one for one, a name what its declarations say, aliases keeping methods and defined types dropping them, library types, structs and Marshalers by what they declare; an anonymous struct all its fields refer to; only a cut name or literal stands for itself, and a name is cut in no type whose names come to an end within the limit. |
| ResolutionMeaning.FlatResolves | internal/analyzer/resolution.go:556-598 | A field or payload whose names come to an end, and whose anonymous structs are all expanded, is exactly what it means, with nothing cut. |
| ResolutionMeaning.MeansOnce | internal/analyzer/resolution.go:556-598 | Where nothing is cut and no anonymous struct expanded, a type means one thing. |
| ResolutionMeaning.AloneAgrees | internal/analyzer/resolution.go:635-646 | A name declared once means exactly what its declaration does. |
| ResolutionMeaning.NotesAreDue | internal/analyzer/resolution.go:269-356 | Where nothing is declared twice, a fallback is noted only of a type that ends up untyped. |
| ResolutionState.ResolvePayload | internal/analyzer/payload.go:57-76 | A payload is warned of at most once, and always where it ends up untyped, but for an anonymous struct at its limit, which warns by itself: of a uintptr first, then of the first fallback, then of a reference that does not register, which is demoted in its boxes. A generic one leaves its shape out and warns, an unresolved one is left to its name. What it resolves to is what it means. |
| ResolutionState.PayloadsDoNotMeet | internal/analyzer/payload.go:57-76 | What a payload resolves to does not depend on the payloads before it. |
| ResolutionState.ResolveState.ResolveShape | internal/analyzer/resolution.go:271-293 | Resolution ends over any cyclic declarations and anonymous structs together, by registration depth, names still to open and the type's size; opens no name twice; leaves the stack as it was; and keeps the first fallback noted. |
| ResolutionState.ResolveState.ResolveLocalName | internal/analyzer/resolution.go:556-598 | The same for a named type: structs, cuts, missing declarations, Marshaler types with their quiet run, which expands nothing, and chains. |
| ResolutionState.ResolveState.ResolveEachDecl | internal/analyzer/resolution.go:656-666 | Every declaration is resolved, in order, with the name still open, and two that reach structs of one name in different directories clash. |
| ResolutionState.ResolveState.MergeResults | internal/analyzer/resolution.go:639-646 | Declarations that do not merge, or clash, fall back to the first scalar's kind, else to a noted name. |
| BuildTags.MergeIgnoresOrder | internal/analyzer/resolution.go:754-764 | Whether build-tagged declarations merge, and into what, up to the spelling of byte and rune, does not depend on their order. |
| BuildTags.MergeAssociates | internal/analyzer/resolution.go:770-807 | Merging three shapes in either grouping fails alike or agrees up to spelling, at any depth of containers. |
| BuildTags.MergeCommutes | internal/analyzer/resolution.go:770-807 | Merging two shapes in either order fails alike or agrees up to spelling. |
| BuildTags.MergeIdempotent | internal/analyzer/resolution.go:785-807 | A shape merges with itself, into itself. |
| BuildTags.MergeIsLeast | internal/analyzer/resolution.go:770-807 | Two shapes merge exactly where some shape says nothing that either does not, and into the one that says most. |
| BuildTags.MergeAllIsLeast | internal/analyzer/resolution.go:754-764 | The same for any number of declarations. |
| BuildTags.BelowBothWays | internal/analyzer/resolution.go:785-807 | Shapes that say no less than each other differ in spelling alone. |
| BuildTags.MergeSpelled | internal/analyzer/analyzer.go:4067-4078 | Merging does not look at whether a builtin is spelled byte or uint8, rune or int32. |
| BuildTags.MergeDecls | internal/analyzer/resolution.go:755-764 | The loop over declarations merges them all or fails, alike for every order. |
| RegistryClosure.TypeRegistrar.RegisterOutermost | internal/analyzer/analyzer.go:3554-3578 | From a complete registry to a complete one, around any self- or mutually recursive types: nothing registered before changes, a type registers if and only if it is declared, no entry points outside, and every entry, not only the outermost one's, is its own type's: reached along a chain of references from a type registered by itself, holding that type's fields, each reference the component of the type it names, or demoted where the chain is longer than the limit. |
| RegistryClosure.ReachedIsRegistered | internal/analyzer/resolution.go:1003-1010 | In a complete registry every declared type that can be reached from a registered one, through any number of references and anonymous structs, has an entry, where no chain of different types is longer than the limit. |
| RegistryClosure.RegisteredIsReached | internal/analyzer/analyzer.go:3680-3703 | And only those: every entry belongs to a type that can be reached. |
| RegistryClosure.TypeRegistrar.RegisterType | internal/analyzer/analyzer.go:3680-3703 | A type is entered under its name before its fields are followed; when it returns all entries but those still being filled are closed and their own types'. |
| RegistryClosure.TypeRegistrar.FillFields | internal/analyzer/analyzer.go:3699-3701 | Following the fields one by one fills the entry and touches no other entry already there. |
| RegistryClosure.TypeRegistrar.RegisterLeaves | internal/analyzer/analyzer.go:3966-3990 | Every reference of a field is stamped with the name of the component it stands for, or demoted past the depth limit or where nothing is declared, those in anonymous structs one level deeper. |
| RegistryClosure.TypeRegistrar.RegisterLeaf | internal/analyzer/resolution.go:1003-1010 | One leaf: stamped with the component's name when its type registers, with its own fields and all they refer to, and demoted to an object when it does not. |
| Naming.NamesNeverCollide | internal/analyzer/analyzer.go:3705-3711 | Over any sequence of calls no two types get one component name, every type keeps the name it got, and every type asked for has one. |
| Naming.ComponentNames.SchemaKey | internal/analyzer/analyzer.go:3720-3738 | A type keeps the name it has; a new one gets the first free name, recorded for it alone. |
| Naming.FindFree | internal/analyzer/analyzer.go:3727-3733 | The loop over numeric suffixes ends, at the first name not in use. |
| Naming.FirstFreeIsLeast | internal/analyzer/analyzer.go:3728-3733 | The suffix chosen is the least whose name is free. |
| Naming.TakenAreFew | internal/analyzer/analyzer.go:3728-3733 | Only as many suffixed names can be taken as there are names in use, which is why the loop ends. |
| Naming.NumberedIsInjective | internal/generator/openapi.go:1032-1037 | Different suffixes give different names. |
| Naming.NewNameIsNext | internal/analyzer/analyzer.go:3725-3733 | A new type gets its own name, else its package's and its own, else these with the least number from 2 on that is free. |
| Naming.ExportedIsUpper | internal/analyzer/analyzer.go:3946-3952 | A package's name is put in front with its first letter in upper case, and otherwise as it is. |
| Naming.DecimalRoundTrip | internal/generator/openapi.go:1036-1036 | Reading a suffix back gives the number written. |
| Naming.IdsAreDistinct | internal/generator/openapi.go:1005-1008 | No two operations share an id, whatever their handlers are called. |
| Naming.AssignOperationIds | internal/generator/openapi.go:1009-1042 | One id for every method and path, pairwise different, assigned in sorted order. |
| Naming.IdsAreNext | internal/generator/openapi.go:1023-1040 | Each id is its own base, else the base with the least number, that no operation before it in sorted order took. |
| Naming.FirstGivesBase | internal/generator/openapi.go:1010-1021 | The first route of a slot gives the slot its base. |
| Naming.IdsIgnoreOrder | internal/generator/openapi.go:1005-1008 | Listings of the same routes, in any order, get the same ids. |
| Naming.OrderOfRoutesIsIrrelevant | internal/generator/openapi.go:1014-1020 | Which route stands for a method and path does not depend on the order of routes whose slots differ. |
| Naming.SortedIsUnique | internal/generator/openapi.go:1022-1022 | A set of keys has one sorted listing. |
| Naming.FirstRoutes | internal/generator/openapi.go:1010-1021 | The first route of every slot, and no other, gives it its id. |
| Document.TypeRefs | internal/generator/openapi.go:1795-1845 | Every component a shape's schema points at, at any depth and through anonymous structs, is one its leaves name. |
| Document.FieldPropertyRefs | internal/generator/openapi.go:1600-1656 | The same for a field's property, its reference wrapped or not, its scalar quoted or not. |
| DocumentMeaning.TypeDescribes | internal/generator/openapi.go:1795-1845 | The schema of a shape describes it: pointers shed, byte slices base64 text, other lists arrays of the element's schema, maps objects of it, structs references, anonymous ones objects with one property a name, and every leaf by the Go type it is, an integer int32 where all its values fit. |
| DocumentMeaning.DescribesOnce | internal/generator/openapi.go:1795-1845 | And no other schema describes it. |
| DocumentMeaning.FieldDescribes | internal/generator/openapi.go:1600-1656 | A field's property describes it: a bare reference, or one wrapped where null may be written, a quoted scalar a string, a pointer nullable where there is a type to extend. |
| DocumentMeaning.PointsExactly | internal/generator/openapi.go:1795-1845 | A schema points at exactly the components its shape shows: none under bytes or in a field that a later one of the same name hides, and all others. |
| DocumentMeaning.FieldPointsExactly | internal/generator/openapi.go:1600-1656 | The same for a field's property. |
| DocumentMeaning.PayloadDescribed | internal/generator/openapi.go:926-976 | A payload is described by what it resolved to, by its component, as a list of it, or as an untyped object. |
| DocumentMeaning.PayloadNamesWhatItShows | internal/generator/openapi.go:1377-1400 | A payload neither sealed nor resolved marks a component if and only if its schema points at it. |
| DocumentMeaning.SuccessDescribed | internal/generator/openapi.go:757-775 | A success response has a body unless it says it has none: a token where sealed, the payload itself on a raw route, and otherwise an envelope whose data the payload's schema is. |
| DocumentMeaning.RequestDescribed | internal/generator/openapi.go:2177-2201 | A request has a body if and only if it has a body field, is sealed or resolved: a token, what it resolved to, its component, or an untyped object where it has no name. |
| DocumentMeaning.ParametersDescribed | internal/generator/openapi.go:2094-2125 | One schema for every parameter field, in order, describing it. |
| DocumentMeaning.ErrorDescribed | internal/generator/openapi.go:1139-1150 | Failures take the sealed envelope where either side is sealed, else the raw one on raw routes, else the plain one. |
| DocumentMeaning.ComponentDescribed | internal/generator/openapi.go:1270-1297 | There is a component for exactly the registered types that something points at or that have a body, and it describes their fields. |
| RegisteredDocument.RegisteredDocumentCloses | internal/generator/openapi.go:1299-1361 | Registered, therefore no dangling reference: with the registry that registration leaves behind, every reference of every operation and component, at any depth, is emitted. |
| RegisteredDocument.ClosedIsClosed | internal/analyzer/analyzer.go:3554-3578 | A registry the analyzer closed is closed for the generator: every name a shown field's schema can point at is registered under itself. |
| RegisteredDocument.InsideIsShown | internal/analyzer/analyzer.go:3966-3990 | The leaves registration follows in a shape lie in the registry if and only if every name its schema shows does. |
| RegisteredDocument.RegisterPayloads | internal/analyzer/analyzer.go:3554-3578 | Registering payloads one by one leaves a complete registry, whose document closes and in which everything the payloads reach is registered. |
| DocumentClosure.DocumentCloses | internal/generator/openapi.go:1299-1361 | No dangling reference: given a closed registry, every reference of every operation and every component, and every component a description names, is emitted. |
| DocumentClosure.OperationCloses | internal/generator/openapi.go:647-680 | Parameters, request body, success and error responses of a route point only at emitted components. |
| DocumentClosure.ComponentCloses | internal/generator/openapi.go:1270-1297 | An emitted component's properties point only at emitted components. |
| DocumentClosure.PayloadRefs | internal/generator/openapi.go:1377-1400 | Whatever branch types a payload, the references it shows are marked for its route and registered. |
| DocumentClosure.RequestRefsHeld | internal/generator/openapi.go:1324-1331 | A request body's own name is marked nowhere, and its component is emitted all the same. |
| DocumentClosure.SuccessRefsHeld | internal/generator/openapi.go:757-775 | The envelope, the raw payload and the token of a success response point only at emitted components. |
| DocumentClosure.ProseHeld | internal/generator/openapi.go:868-882 | Every component a JOSE description names is emitted. |
| DocumentBuild.CollectReferences | internal/generator/openapi.go:1332-1361 | The loops over routes and registered types mark exactly the names the document may point at. |
| DocumentBuild.GenerateSchemas | internal/generator/openapi.go:1270-1297 | One component for every registered type with a body, or that something points at, and no other. |
| DocumentBuild.BuildComponents | internal/generator/openapi.go:1157-1178 | The components built hold everything the operations and the components themselves point at. |
| DocumentBuild.StripAll | internal/generator/openapi.go:1678-1683 | The loop sheds every pointer level, down to a type that is none or a pointer to nothing known. |
| DocumentBuild.ObjectProperties | internal/generator/openapi.go:1513-1529 | Of fields with one name the last is the property; parameters and unnamed fields are none; all references come from the fields. |
| Paths.NormalizeNamesVars | internal/analyzer/analyzer.go:2050-2063 | The template variables of a brace-free path, once normalized, are its named segments, in order. |
| Paths.NormalizeInPlace | internal/analyzer/analyzer.go:2050-2063 | Of any path each segment that is a colon and a name becomes the name in braces, in place, and every other segment stays as it is. |
| Paths.NamesAreNamed | internal/analyzer/analyzer.go:2056-2060 | The named segments of a path are those that are a colon and a name. |
| Paths.VarsAreBraced | internal/generator/openapi.go:2131-2139 | The variables of a template are the names that stand in braces as a segment. |
| Paths.JoinOfSplit | internal/analyzer/analyzer.go:2055-2062 | Joining a path's segments gives the path back. |
| Paths.SplitOfJoin | internal/analyzer/analyzer.go:2055-2062 | Splitting joined segments gives them back. |
| Paths.CompleteParameters | internal/generator/openapi.go:2141-2166 | Every named segment of the path is a declared path parameter, each required; what was declared stays, in place; only missing variables are added; unique parameters stay unique. |
| Paths.AppendMissing | internal/generator/openapi.go:2146-2166 | The same for any template: every variable declared, nothing else added. |
| Embed.DropPart | internal/analyzer/embed.go:345-369 | Filtering a part of a list of fields first, then the whole, is filtering the whole once. |
| Embed.DropLifts | internal/analyzer/embed.go:345-369 | Filtering does not care at which depth a list stands. |
| Embed.DominantStays | internal/analyzer/embed.go:345-352 | Where one field of a key outranks all others, it stays and no other body field of that key does, as encoding/json has it. |
| Embed.SieveOnce | internal/analyzer/embed.go:345-352 | No two body fields of one key stay. |
| Embed.DropKeepsBest | internal/analyzer/embed.go:371-382 | The best rank of every key survives filtering. |
| Embed.DropIsExact | internal/analyzer/embed.go:345-369 | Filtering keeps, in order, exactly the parameters, the fields without a key, and of each key the first field that no other of the key outranks. |
| Embed.DedupeIsExact | internal/analyzer/embed.go:384-401 | Dropping duplicate parameters keeps, in order, exactly the fields that are none and the first parameter of each slot. |
| EmbedTree.ExtractIsOnePass | internal/analyzer/analyzer.go:4288-4316 | Filtering at every level of embedding is one pass of the rule over all fields, where no two parameters claim one slot. |
| EmbedTree.CutLosesNothing | internal/analyzer/analyzer.go:4383-4404 | Stopping at a struct already on the chain loses no winner, however far the embedding is unfolded. |
| EmbedTree.ExtractionIsDominance | internal/analyzer/analyzer.go:4288-4316 | For structs of body fields the extraction is the dominance rule over the whole unfolding, cyclic or not. |
| EmbedSlots.DedupeFirstIffHarmless | internal/analyzer/embed.go:384-401 | Dropping an embedded struct's duplicate parameters before its fields are promoted changes nothing in any struct that embeds it, if and only if every key keeps a field of its best rank. |
| EmbedSlots.ExtractIsFinal | internal/analyzer/analyzer.go:4288-4316 | Where no embedded struct loses a best rank with its duplicate parameters, filtering and dropping duplicates at every level is doing both once, on all fields. |
| EmbedSlots.LostRankShows | internal/analyzer/embed.go:388-401 | Where a best rank is lost, some body field next to the embedded struct comes to stay that one pass hides. |
| EmbedSlots.RunsAlike | internal/analyzer/embed.go:353-369 | The rule over a filtered list, with and without its duplicate parameters, keeps the same fields once duplicates are dropped. |
| EmbedTree.SharedSlotDiffers | internal/analyzer/embed.go:384-401 | With two parameters of one slot in an embedded struct, level by level keeps a body field that one pass hides. |
| EmbedBuild.DropDominated | internal/analyzer/embed.go:353-369 | The loop with its map of kept keys computes the rule. |
| EmbedBuild.BestByKey | internal/analyzer/embed.go:371-382 | For every key with a body value the map holds a field of the list, of that key and of its best rank. |
| EmbedBuild.DropDuplicateParams | internal/analyzer/embed.go:388-401 | In place: the slice's kept prefix holds every body field and the first parameter of each slot, in order. |
| EmbedBuild.Extractor.ExtractFields | internal/analyzer/analyzer.go:4288-4316 | Extraction ends on cyclic embedding, leaves the set of structs on the chain as it was, and yields the fields the recursion defines. |
| EmbedBuild.Extractor.EmbeddedFields | internal/analyzer/analyzer.go:4384-4404 | A struct on the chain promotes nothing; any other promotes its filtered fields one level deeper; the chain is restored. |
| Bounds.MergeIsExact | internal/generator/constraints.go:111-131 | Where comparisons are right, a number meets the merged bound, with its exclusivity, if and only if it meets every rule. |
| Bounds.MergeExactIffCompareRight | internal/generator/constraints.go:58-65 | Rules on given numbers merge exactly, however many and in whatever order, if and only if any two of the numbers compare right. |
| Bounds.WholeOrSmallCompareRight | internal/generator/constraints.go:58-65 | Comparisons are right when all bounds are integers, or no integer is larger than 2^53. |
| Bounds.MergeIgnoresOrder | internal/generator/constraints.go:67-71 | The order of the rules changes neither the merged value nor its exclusivity. |
| Bounds.MixedComparisonLosesRule | internal/generator/constraints.go:58-65 | 2^53 as a fraction and 2^53+1 as an integer compare equal, and the first one met is kept. |
| Bounds.ShownExactly | internal/generator/constraints.go:51-56 | The float64 a document shows for a bound is the bound, up to 2^53. |
| Bounds.LengthsRejectNothing | internal/generator/constraints.go:540-561 | The length bounds reject no length the rules accept, with 64-bit wrap-around in n+1 and n-1. |
| Bounds.LengthsAreExact | internal/generator/constraints.go:540-568 | They admit exactly the lengths the rules accept, if and only if no rule is one no length meets, or some rules clash: one whose upper bound is negative, or two the lower bound of one of which is above the upper bound of the other. |
| Bounds.NoneIffClash | internal/generator/constraints.go:86-102 | No length is admitted if and only if the rules clash. |
| Bounds.LengthsIgnoreOrder | internal/generator/constraints.go:86-102 | The order of length rules does not matter. |
| Bounds.BoundsFor | internal/generator/constraints.go:514-538 | The minimum and maximum a numeric tag fills admit exactly the numbers every rule admits. |
| Bounds.LengthsFor | internal/generator/constraints.go:543-561 | The minLength and maxLength a string tag fills admit every acceptable length, and only those unless a rule is one no length meets. |
| Bounds.ConstraintSet.SetMinimum | internal/generator/constraints.go:114-131 | Keeps the stricter lower bound and changes nothing else. |
| Bounds.ConstraintSet.SetMaximum | internal/generator/constraints.go:114-131 | Keeps the stricter upper bound and changes nothing else. |
| Scopes.IndexAgreesWithChain | internal/analyzer/scope.go:370-377 | At every identifier of a body, the index of spans says a name is shadowed if and only if the chain of scopes carried along resolves it there. |
| Scopes.EveryIdentifierIsSeen | internal/analyzer/scope.go:370-377 | And there is such a chain at every identifier of the body. |
| Scopes.Resolve | internal/analyzer/scope.go:33-43 | The declaration found is the innermost one already in scope at the position, and none is found only when there is none. |
| Scopes.ViewsAgreeAt | internal/analyzer/scope.go:92-108 | The same below any node, whatever chain of scopes surrounds it. |

## Left out

- `goto`, and jumps to a label, which the tracker's own comment sets aside.
- Registrars held in package-level variables, in struct fields or behind pointers, and variables whose address is taken: outside what the tracker claims.
- `bindingView.shadowedRegistrar` and the lookup of a name's declaration: an identifier stands for the declaration it refers to. `Scopes` models that lookup by itself.
- Assignments with one variable twice on the left, and statements that read a variable, call something among the same expressions, and create there a function literal that writes that variable: Go leaves the order of reading and calling open, and well-formed code here has none.
- Expressions of case clauses, and calls of helpers with a registrar (`maybeRecurseHelper`): a helper's body is analyzed by itself, with what its caller handed over.
- AnalysisIsSound: asks that the walk be blind nowhere; `TrustedIsSound` asks it of no variable but those it says nothing of.
- StraightLineIsResolved: asks that no statement end at the very position where a loop begins, which source text cannot have; `RegistrarCertain.CertainIsResolved` asks nothing of the code.
- TrustedIsSound: what it says nothing of must hold every variable written where the walk is blind, and what is built from one; `RegistrarLimits` has a counterexample for each kind of place.
- A registration on a variable with no binding at all: the program emits its route without a prefix (`registrarPrefixFor`, internal/analyzer/analyzer.go), the model reports it as unbound, and the theorem speaks only of resolved prefixes.
- The tracker's map from variables to positions of writes is a set of (variable, position, traceable) here.
- WalkIsExact: asks for a condition on the graph that does for all names at once; `MethodLosses.ExactIffClean` has the exact one for each name.
- Which methods have the exact signature, and which type a method's warning names (`home`): an entry carries its declaring type.
- The depth caps of embedding (`maxTypeRegistrationDepth` in `extractRankedFields`): they truncate with a warning; extraction here follows the graph.
- ExtractIsOnePass: asks that no two parameters claim one slot; `EmbedSlots.ExtractIsFinal` asks only that no best rank is lost, and `EmbedTree.SharedSlotDiffers` is why something must be asked.
- CutLosesNothing: for body fields alone, since a parameter is never dropped and an unfolded cycle would repeat it.
- Classifying an embedded field (alias, generic, unexported, Marshaler) and reading struct tags: each struct comes with its own fields and the structs it embeds.
- The fields an anonymous struct has or promotes, the methods its embeds promote, and whether a named type is a struct are part of the world `Resolution` is given; which field wins is the matter of `Embed`, which method that of `MethodSets`.
- MeansOnce: where anonymous structs are left unexpanded, since what an expanded one refers to depends on which of those nested in it are cut.
- NotesAreDue: where nothing is declared twice, since of declarations that merge one may have noted a fallback.
- The cause of an unresolved prefix, which words a warning, is carried along, and nothing is said of it.
- ReachedIsRegistered: asks that no chain of different types be longer than the limit, beyond which the program truncates.
- ResolvePayload: which references register is an input; `RegistryClosure` says which do.
- MergeIgnoresOrder: for build-tagged declarations without anonymous structs; of those the first one's expansion is kept, so their order is meant to matter.
- A component named after another type's same-named alias re-export, and registration of generic instantiations.
- Examples, descriptions, tags, summaries, security and validate keywords on properties, the `required` list, and the minimum of unsigned fields: none of them refers to a component.
- Properties are values here; the generator's are pointers nothing shares.
- Uniqueness of the parameters extracted from a request is an input of `CompleteParameters`, as `dropDuplicateParams` provides it.
- Fractions are real numbers and only integers are rounded to float64: reading a decimal rule into a float64 is not modelled, nor are infinities.
- Rules on items, properties, enums, patterns and formats: single-branch tables.
- Package clauses and build constraints, import paths, directories, cached packages, parsing: declarations come as finite maps.
- Success statuses and inferred error statuses, best effort by design.
- Warning texts and positions, YAML and JSON rendering, command-line handling.
