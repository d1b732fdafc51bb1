# Neutrino: a verified model

Neutrino compiles agreements that move value between parties. Its compiler checks an agreement, turns
it into a coordination plan, and a reference evaluator says what every transition of that plan does.
This project models those parts in Dafny 4.11 and proves what the checks mean for the semantics they
protect: that acceptance implies a fact about all environments, all inputs or all runs.

`dafny verify dfyconfig.toml` verifies everything.

## What is modelled

**Domain imports** (`L2Imports`, over `Graphs` and `Order`). The registry index by key strings and
the recursive search with its on-stack set, finished set and path stack, resolving each node when it
is first met. The search is an object whose fields change; a ghost trail records the nodes behind the
keys. Resolution succeeds exactly on acyclic, uniquely published, governed graphs, and every refusal
carries its own evidence.

**Kernel verifier** (`Kernel`, `ValueNature`, `GuardedBalance`). The value-nature search with one
visited set shared across siblings, which returns too little in nested calls and the exact join at the
root; the plain and guarded balance comparison with its search for an offending leg.

**Expressions** (`Decimal`, `ValueModel`, `Expr`, `ExprText`, `ExprParser`, `ExprGrammar`, `ExprNames`,
`Typing`, `ExprAttr`, `AttrSyntax`, `Frontend`, `Provenance`). From source text to the structured attribute and back:
tokenizer, recursive-descent parser, the separate character scan for dependencies, type inference with
its partial results, the attribute's canonical form, its two conversions, its printer and stream
parser, and the verifier that ties attribute, text, dependencies and types together. The parser is
proved sound and complete for a grammar written down apart from it.

**Plan** (`Plan`, `PlanAssembly`, `Agreement`, over `Bags`). Policy binding, the partition of effects
by structural guard key, the group balance check, and the bridge from a verified body to a plan.

**Evaluator** (`Evaluator`, with `Bookkeeping`, `Postings`, `Payload`, `SetSums`, `Conservation`,
`Closing`, `Ledger`, `LedgerRuns`, `ClaimedPostings`, `Refusals`, `Traces`, `TraceBounds`, `Storage`,
`ClaimAccounts`; examples in `TwoLegs`, `AliasedGuards`, `UnclaimedOperands`). One transition as a function of
plan, state and input, with its evidence-only, temporal and single-shot paths, its observation trace
and its refusal codes; then what every run keeps. A state reached from an empty ledger is explained by
its claims and its commit ledger alone.

**Coordinator** (`Coordinator`). Admission, derived bounds, and an object that hosts many instances;
its invariant says that each instance's state is what its own calls alone would have produced.

**Labels, reachability, domain records, protocol** (`Labels`, `LabelRenaming`, `Reachability`, `Domain`,
`Reduction`, `FrameCodec`, `Chunks`, `Session`). The canonical labeller and its independence of declared
names, the input worklist, the domain verifier and its reduction onto plan features, the frame codec,
and the session object with chunk assembly and manifest matching.

## Where the code and what is said about it differ

The model follows the code. Each of these is proved.

* **Evidence-only plans cannot run in the bounded coordinator.** The derived step bound counts three
  observations for a transition and four for each effect; an accepted evidence-only close makes four
  and has no effect. Such a plan is admitted, and then every accepted close is refused as
  `bounds.step_exceeded` (`Coordinator.EvidenceOnlyNeverCloses`, `Coordinator.EvidenceOnlyRefused`).
  `TraceBounds.StepBoundExactly` gives the exact condition, read from plan, state and input before the
  step; it also covers obligations, which the bound does not count either.
* **`state.invalid` without an inconsistent state.** If the success terminal has no name, re-presenting
  a completed input is refused as `state.invalid`, although the state came from the evaluator itself.
  `Refusals.StateInvalidExactly` shows for every plan that this is the only way from an empty ledger.
* **Operands outside the claim.** A party or currency may name a compute; the evaluator then looks the
  name up among the symbols of the input, which the claim does not cover, so one claim can pay two
  accounts, even under a plan assembled from a body that balances
  (`UnclaimedOperands.OneClaimTwoLedgers`). A claim decides what a leg posts exactly when the leg names
  its party and currency by literals, declared inputs or the workflow key
  (`ClaimedPostings.ClaimDecidesExactly`); the ledger invariant is proved for the plans all of whose
  legs do, and `Agreement.AgreementIsLedgerPlan` finds them in the source. What is recorded of claims,
  statuses and groups is kept for every plan (`Bookkeeping.RunRecorded`).
* **Balance under guards that only look identical.** The balance check and plan assembly pair legs by
  guard key (`lib/NeutrinoDialect.cpp:274-302`) and promise that each guarded leg balances under the
  identical guard. An input may have any string as its name (`include/Neutrino/NeutrinoOps.td:75-79`),
  and two guards over such names can share a key and differ in structure and in truth. The single-shot
  path then fires one leg without the other: `AliasedGuards.AcceptedAndNotConserved` is a body that
  debits 5 EUR under `round(x, 2) > 0` and credits 5 EUR under `round("x #2") > 0`, passes the check,
  assembles into one group, and loses 5 EUR in one transition. An environment conserves, for all
  amounts and currencies, exactly if the legs that fire in it balance (`GuardedBalance.BalancedInExactly`).
  Acceptance gives that in every environment if legs that share a key share a structure, in particular
  if no name holds a space or a closing parenthesis (`GuardedBalance.AcceptedConservesEverywhere`,
  `GuardedBalance.SafeLegsHaveOneStructure`); two structures of one meaning do as well
  (`AliasedGuards.TwoStructuresConserve`). Temporal plans read one guard for each group and conserve
  whatever the names (`Agreement.AcceptedRunConserves`).
* **Guard keys and names with spaces.** The structural guard key is promised to identify a guard. It
  does among guards whose names hold no space and no closing parenthesis, and a guard outside that
  class that shares the key of one inside has another structure (`Expr.SharedKeyExactly`). So an
  accepted attribute has the structure of its text if and only if its dependencies have such names
  (`Provenance.AcceptedIsItsTextExactly`); `Provenance.VerifierTakesAnAlias` is an accepted guard
  that has not. Every guard that comes from text is in the class (`ExprNames.ParsedIsKeySafe`).
* **Dead refusals.** The guarded-balance diagnostic always finds a guarded leg; the inconsistent-group
  refusal is unreachable for guards that type, whatever their names hold (`PlanAssembly.TypedGuardsGroup`,
  `Provenance.InferredGuardHasForm`); and so are the two admission refusals on derived bounds.
* **Instance entries.** `include/Neutrino/BoundedCoordinator.h:82` says that the state of an instance is
  null until it has committed; the code creates the entry on the first run, refused or not.
* **Status per key.** `docs/spec/COORDINATION_EVALUATOR.md:73` describes a `state.terminal` refusal; the
  code keeps a status for each key and answers with a replay.
* **Calls without arguments.** The expression parser accepts them, the attribute's rules do not, so what
  the front end builds from such a text is not canonical (`Frontend.BuiltIsAcceptedExactly`).

## Model

| member | source | states |
|---|---|---|
| L2Imports.NodeKeyInjective | lib/L2Imports.cpp:52-56 | two nodes share a key string only when they are the same node, versions being free of the separator |
| L2Imports.NodeKeyCollides | lib/L2Imports.cpp:52-56 | with a separator in a version two different nodes do share a key, so the proviso is needed |
| L2Imports.IndexIndexes | lib/L2Imports.cpp:68-101 | the index holds exactly the published capabilities, counts every key, and keeps the first entry of each |
| L2Imports.ParseRegistry | lib/L2Imports.cpp:74-102 | a catalogue is accepted exactly when every fixture names capability and version; anything else is dangling |
| L2Imports.ResolveNodeMeans | lib/L2Imports.cpp:184-204 | each verdict on a node in terms of the catalogue: dangling, unknown, ambiguous with the count, or the first entry's governed edges |
| L2Imports.EdgeCases | lib/L2Imports.cpp:237-255 | key-set membership is node membership at every edge, and an edge back onto the stack closes a real walk from the root |
| L2Imports.ImportSearch.Dfs | lib/L2Imports.cpp:228-260 | the search ends on every graph, resolves no node twice, restores the stack, justifies whatever error it returns, and finds what the search written as a function on nodes finds: the same first error, or the same finished nodes |
| L2Imports.ResolveDomainImports | lib/L2Imports.cpp:207-268 | success exactly when every reachable import is published once and governed and no cycle is reachable, the root included; a cyclic error carries a walk that revisits a stacked node; the result, first error included, is a function of the problem |
| L2Imports.ListingOrderIrrelevant | lib/L2Imports.cpp:218-223 | the order in which a domain lists its imports changes nothing, the error that is reported first included |
| ValueNature.NatureSearch.Resolve | lib/NeutrinoDialect.cpp:357-387 | one call with a shared visited set covers exactly the computes it newly visits and joins the inputs hanging off them; it ends on cyclic graphs |
| ValueNature.RootIsExact | lib/NeutrinoDialect.cpp:351-357 | with nothing visited before, what was covered is all that feeds the value |
| ValueNature.ResolveNature | lib/NeutrinoDialect.cpp:357-387 | the root result is the join over all inputs that reach the value through computes, although nested calls may return less |
| ValueNature.VerifyEntryOperand | lib/NeutrinoDialect.cpp:411-426 | accept or refuse in terms of which inputs feed the operand, both directions |
| ValueNature.VerifyEntry | lib/NeutrinoDialect.cpp:428-438 | an accepted entry moves an amount that no governed non-numeric input reaches |
| GuardedBalance.GuardBalancedIsBalanced | lib/NeutrinoDialect.cpp:262-312 | equal guarded multisets imply equal plain ones |
| GuardedBalance.OffenderExists | lib/NeutrinoDialect.cpp:312-328 | plain flows equal and guarded flows different: some guarded leg is in excess on one side |
| GuardedBalance.FlowsOf | lib/NeutrinoDialect.cpp:264-268 | the loop builds both multisets of a side |
| GuardedBalance.Offending | lib/NeutrinoDialect.cpp:316-324 | finds a guarded leg in excess over the other side if there is one |
| GuardedBalance.BlameLeg | lib/NeutrinoDialect.cpp:325-328 | the search over debits then credits always names a guarded leg; the fallback to the procedure is dead |
| GuardedBalance.VerifyProcedure | lib/NeutrinoDialect.cpp:161-341 | a procedure is accepted exactly when its version is valid, its declared instance key is a string input on which every effect keys, and, if it moves value, it asserts balance, has both sides and balances under guards; without effects, exactly when key and attestation come together |
| GuardedBalance.VerifyInstanceKey | lib/NeutrinoDialect.cpp:206-236 | a declared instance key passes exactly when it is a declared string input and the key of every effect; the first effect that keys otherwise is named |
| GuardedBalance.BalancedInExactly | lib/NeutrinoDialect.cpp:274-302 | exactly when a body conserves value in an environment, whatever its operands are worth and name: the legs whose guards hold balance by themselves, as (amount, currency) multisets |
| GuardedBalance.AlikeKeysBalance | lib/NeutrinoDialect.cpp:274-312 | an accepted body balances among its firing legs in every environment in which legs filed under one key fire together |
| GuardedBalance.AcceptedConservesEverywhere | lib/NeutrinoDialect.cpp:274-312 | if the legs of an accepted body that share a guard key share a structure, then whatever guards hold and operands are worth, the firing debits move as much of each currency as the firing credits |
| GuardedBalance.SafeLegsHaveOneStructure | lib/spec-contract/CoordinationPlan.cpp:79-86 | legs whose guards hold no space or closing parenthesis in a name meet that proviso |
| Decimal.TextParses | lib/spec-contract/CoordinationEval.cpp:56-65 | reading the decimal text of a 64-bit value back gives the value |
| Decimal.TextInjective | lib/spec-contract/CoordinationEval.cpp:154-160 | two 64-bit values with one text are one value |
| ValueModel.CategoryRoundTrip | lib/spec-contract/ValueModel.cpp:50-79 | a category survives the trip through its name |
| Expr.SameShapeSameKey | lib/spec-contract/CoordinationPlan.cpp:79-108 | guards that differ in categories only share a key |
| Expr.KeyReadsBack | lib/spec-contract/CoordinationPlan.cpp:86-108 | a guard key can be read off the front of a text in one way only |
| Expr.SharedKeyExactly | lib/spec-contract/CoordinationPlan.cpp:79-86 | among all guards that share the key of such a guard, those of its structure are exactly the ones whose names hold no delimiter either |
| Expr.GuardKeyCollides | lib/spec-contract/CoordinationPlan.cpp:79-103 | a variable named with a space makes two different calls share a key |
| Expr.SameShapeSameTruth | lib/spec-contract/Expr.cpp:543-573 | guards of one structure hold alike in every environment, faults included |
| Expr.SafeKeyFixesStructure | lib/spec-contract/CoordinationPlan.cpp:79-86 | among guards over names without space and closing parenthesis, and the missing guard, one key means one structure |
| ExprAttr.NodeRules | lib/NeutrinoDialect.cpp:46-94 | which nodes an encoding makes acceptable, kind by kind |
| ExprAttr.EncodingIsCanonical | lib/ExprAttr.cpp:22-59 | an encoding passes every structural rule if and only if the tree is over the closed vocabulary and every variable has a slot |
| ExprAttr.DecodeEncoded | lib/ExprAttr.cpp:61-91 | decoding an encoded tree gives it back, categories included, when the slots invert the dependencies |
| ExprAttr.EncodeDecoded | lib/ExprAttr.cpp:22-91 | encoding a decoded canonical attribute gives it back |
| ExprAttr.OneEncoding | lib/NeutrinoDialect.cpp:58-61 | over checked dependencies one tree has one encoding |
| ExprAttr.SlotsArePositions | lib/FrontendParser.cpp:91-99 | the slot of a dependency is its position, and slots invert dependencies |
| ExprAttr.VerifyDepNames | lib/NeutrinoDialect.cpp:485-496 | accepts exactly distinct, named dependencies; the error names the first offender |
| ExprAttr.VerifySlots | lib/NeutrinoDialect.cpp:497-513 | accepts exactly when slots and dependencies correspond; the error names a stray slot or the first dead dependency |
| ExprAttr.VerifyDepBijection | lib/NeutrinoDialect.cpp:476-514 | accepts exactly when variable slots and distinct named dependencies are in bijection |
| AttrSyntax.ParseAttr | lib/NeutrinoDialect.cpp:107-131 | whatever parses is canonical in every node and consumes at least one token |
| AttrSyntax.AttrParser.Head | lib/NeutrinoDialect.cpp:108-115 | reads kind to opening bracket as the grammar says, or fails |
| AttrSyntax.AttrParser.Children | lib/NeutrinoDialect.cpp:116-126 | the do-while over children reads exactly the list the grammar describes |
| AttrSyntax.AttrParser.Parse | lib/NeutrinoDialect.cpp:107-131 | the stream parser returns what the grammar describes and leaves exactly the rest |
| AttrSyntax.ParseUndoesPrint | lib/NeutrinoDialect.cpp:96-131 | parsing the print of any canonical attribute before any tokens returns it and exactly those tokens, at any nesting |
| AttrSyntax.PrintIsPrefixFree | lib/NeutrinoDialect.cpp:96-106 | no printed attribute is a prefix of another's print |
| ExprText.Tokenize | lib/spec-contract/Expr.cpp:13-54 | the loop yields the tokens of the text, or its first character that starts none |
| ExprText.ComputeDeps | lib/ParseUtil.cpp:17-40 | the index loop yields the uncalled identifiers of the text in order of first appearance |
| ExprText.OpensNextIsToken | lib/ParseUtil.cpp:28-31 | looking past spaces for a parenthesis agrees with the next token |
| ExprText.ScanReadsTokens | lib/ParseUtil.cpp:17-40 | on every text that has tokens, the scan finds exactly the name tokens that no parenthesis follows |
| ExprParser.Parser.Sum | lib/spec-contract/Expr.cpp:112-124 | the loop over + and - consumes and builds what the grammar function says |
| ExprParser.Parser.Product | lib/spec-contract/Expr.cpp:126-138 | the same for * and / |
| ExprParser.Parser.Factor | lib/spec-contract/Expr.cpp:140-181 | the same for parentheses, numbers, names and calls, with each error |
| ExprParser.Parser.Callee | lib/spec-contract/Expr.cpp:158-173 | the argument loop, the empty list included |
| ExprParser.ParseText | lib/spec-contract/Expr.cpp:231-237 | the parser object computes the parse of the text, value or guard |
| ExprGrammar.SumParsesWhole | lib/spec-contract/Expr.cpp:112-181 | every spelling of the grammar parses to the tree it means, before any text that ends a sum |
| ExprGrammar.SumSpelled | lib/spec-contract/Expr.cpp:112-181 | whatever parses is a spelling of the grammar with the tree returned |
| ExprGrammar.ValueTokensExactly | lib/spec-contract/Expr.cpp:60-65 | the value parser accepts exactly the spellings of the grammar, each with its tree |
| ExprGrammar.GuardTokensExactly | lib/spec-contract/Expr.cpp:67-94 | the guard parser accepts exactly comparisons of two sums and accepted() alone |
| ExprNames.WalkAddsNew | lib/spec-contract/Expr.cpp:602-618 | the walk lists variables in order of first appearance |
| ExprNames.SpellingNames | lib/ParseUtil.cpp:17-40 | the uncalled names of a spelling are the variables of its tree, callees left out |
| ExprNames.DepsAreVars | lib/ParseUtil.cpp:17-40 | for every text that parses, the character scan yields exactly the tree's variables in first-appearance order |
| ExprNames.ParsedIsKeySafe | lib/spec-contract/CoordinationPlan.cpp:79-86 | every guard that parses from text has a key that identifies its structure |
| Typing.TypeKeepsShape | lib/spec-contract/Expr.cpp:325-477 | inference sets categories only, even when it stops at a fault |
| Typing.TypeExprAgrees | lib/spec-contract/Expr.cpp:325-426 | inference depends on structure and the categories of the variables only |
| Typing.InferAgrees | lib/spec-contract/Expr.cpp:325-477 | the same for guards, undeclared variables included |
| Frontend.BuildExprAttr | lib/FrontendParser.cpp:86-118 | succeeds exactly when the text parses, and then encodes the inferred tree over the text's dependencies |
| Frontend.VerifyTypedExpr | lib/NeutrinoDialect.cpp:540-578 | accepts exactly the attributes that are bound, match their text, type without fault and carry the inferred categories |
| Frontend.EncodingIsBound | lib/FrontendParser.cpp:91-99 | with the dependencies of its own text no slot is -1, no dependency is dead and none repeats |
| Frontend.InferTwice | lib/NeutrinoDialect.cpp:565-577 | inference on its own result, in any environment that agrees on the variables, changes nothing and finds the same fault |
| Frontend.BuiltIsAcceptedExactly | lib/FrontendParser.cpp:86-118 | over declared names the built attribute is always in bijection, is canonical if and only if every call has an argument, and is then accepted by the verifier if and only if typing found no fault |
| Provenance.AcceptedIsItsTextExactly | lib/NeutrinoDialect.cpp:552-562 | an accepted attribute has the structure its provenance text parses to if and only if no dependency is named with a space or a closing parenthesis |
| Provenance.VerifierTakesAnAlias | lib/NeutrinoDialect.cpp:552-562 | a guard attribute that the verifier accepts for the text of another guard: its one-argument call stands for a two-argument one, its dependency being named with a space |
| Provenance.InferredIsKnown | lib/spec-contract/Expr.cpp:325-477 | what types without fault calls round and accepted only |
| Provenance.InferredGuardHasForm | lib/spec-contract/Expr.cpp:428-477 | a guard that types without fault is a comparison with a known operator or accepted() on one variable |
| Plan.BindEffectsIsPointwise | lib/spec-contract/CoordinationPlan.cpp:262-315 | binding succeeds effect by effect |
| Plan.AddEffectKeepsPartition | lib/spec-contract/CoordinationPlan.cpp:353-388 | filing one more effect keeps the partition by guard key in first-appearance order |
| Plan.GroupEffectsPartitions | lib/spec-contract/CoordinationPlan.cpp:350-388 | the groups partition all effect indices by guard key, each in effect order, groups in order of first appearance |
| Plan.GroupFlowsAreKeyed | lib/spec-contract/CoordinationPlan.cpp:399-404 | one side of a group is the plan's flows of that side that carry its key |
| Plan.BalanceIsGroupwise | lib/spec-contract/CoordinationPlan.cpp:390-410 | one comparison of guard-tagged multisets holds if and only if every group balances on its own |
| PlanAssembly.RespellIsSpecKey | lib/CoordinationPlanBuild.cpp:22-27 | the plan's operand identity is the verifier's, respelled |
| PlanAssembly.NormalizedFlows | lib/CoordinationPlanBuild.cpp:61-81 | one side of the plan's flows is the verifier's side, respelled, in order |
| PlanAssembly.KeyNamesPolicy | lib/spec-contract/CoordinationPlan.cpp:79-108 | whatever their names hold, guards of that form that share a key are both accepted() on one policy or both comparisons |
| PlanAssembly.SameKeySameBinding | lib/spec-contract/CoordinationPlan.cpp:361-382 | effects whose guards are comparisons or accepted() on one variable, filed under one guard key, are bound to one policy |
| PlanAssembly.TypedGuardsGroup | lib/spec-contract/CoordinationPlan.cpp:372-382 | the inconsistent-group refusal is dead for effects with such guards, whatever their names hold |
| PlanAssembly.VerifiedFlowsBalance | lib/NeutrinoDialect.cpp:302-312 | flows the kernel verifier found balanced are balanced in the plan |
| PlanAssembly.VerifiedBodyBalances | lib/spec-contract/CoordinationPlan.cpp:389-410 | a body with balanced guarded flows is never refused as an unbalanced group at assembly, whatever its guards |
| PlanAssembly.AssembledIsPartitioned | lib/spec-contract/CoordinationPlan.cpp:350-410 | assembly hands on a partition of the bound effects, balanced whenever the plan must balance |
| Agreement.NormalizedFaithfully | lib/CoordinationPlanBuild.cpp:61-81 | normalization hands over each leg's guard, in the form inference gave it, and the policy it names |
| Agreement.VerifiedBodyAssembles | lib/spec-contract/CoordinationPlan.cpp:353-410 | a verified body with typed guards is refused at assembly neither as unbalanced nor as inconsistent |
| Agreement.AcceptedYieldsBalancedPlan | lib/spec-contract/CoordinationPlan.cpp:262-410 | a body the kernel verifier accepts yields a partitioned plan whose guard-tagged flows balance, whatever its guards |
| Agreement.NormalizedFiring | lib/CoordinationPlanBuild.cpp:61-81 | what one side of a plan's effects moves in an environment is what that side of the body moves, respelled, in order |
| Agreement.AcceptedRunConserves | lib/NeutrinoDialect.cpp:262-312 | from verified source to every run: no run of an assembled temporal plan, from any state on any inputs, changes any currency's total, nor does any run of a single-shot plan on whose inputs the legs that fire balance |
| Agreement.AcceptedAgreementConserves | lib/NeutrinoDialect.cpp:262-312 | so no run at all does if the plan is temporal or legs of the body that share a guard key share a structure; otherwise AliasedGuards.AcceptedAndNotConserved |
| AliasedGuards.AcceptedAndNotConserved | lib/NeutrinoDialect.cpp:284-312 | a body whose two legs carry guards of one key and two structures: it passes the guarded comparison, assembles into one group, and one transition from the empty ledger leaves a total five short |
| AliasedGuards.BodyAssembles | lib/spec-contract/CoordinationPlan.cpp:350-410 | the plan of that example is what assembly returns for its body |
| AliasedGuards.BalancesTogether | lib/spec-contract/CoordinationEval.cpp:548-571 | such a body conserves in an environment exactly if both guards hold or neither does |
| AliasedGuards.TwoStructuresConserve | lib/NeutrinoDialect.cpp:284-312 | one structure for each key is sufficient, not necessary: two structures with one meaning conserve in every environment |
| Agreement.AgreementIsLedgerPlan | lib/CoordinationPlanBuild.cpp:45-100 | the plan of a body whose parties and currencies are inputs or constants, and whose names are declared before use, meets every condition of the ledger invariant |
| Agreement.AcceptedAgreementIsExplained | include/Neutrino/CoordinationEval.h:46-72 | from verified source to every balance: along any run of such a plan each account is its start plus the recorded commits, each once |
| Postings.StageLegAdds | lib/spec-contract/CoordinationEval.cpp:599-608 | a staged leg adds exactly its posting to exactly its account |
| Postings.StageAtomicAdds | lib/spec-contract/CoordinationEval.cpp:538-609 | single-shot staging adds the postings of exactly the firing legs, all of which resolved |
| Postings.StageGroupsAdds | lib/spec-contract/CoordinationEval.cpp:438-481 | temporal staging adds the postings of exactly the committable groups |
| Conservation.AddsTotal | include/Neutrino/CoordinationEval.h:36-50 | postings move a currency's total over all accounts by their net |
| Conservation.FiringLegsNetZero | lib/spec-contract/CoordinationEval.cpp:548-609 | legs that fire and balance net to nothing in every currency |
| Conservation.AlikeKeysFireBalanced | lib/spec-contract/CoordinationEval.cpp:548-609 | balanced guard-tagged flows leave the firing effects balanced wherever effects of one key fire together |
| Conservation.OneStructureConserves | lib/spec-contract/CoordinationEval.cpp:548-609 | effects filed under one key with guards of one structure conserve on every input |
| Conservation.GroupsNetZero | lib/spec-contract/CoordinationEval.cpp:448-481 | so do the legs of any committable groups that each conserve |
| Conservation.SingleShotMoves | lib/spec-contract/CoordinationEval.cpp:538-653 | balanced or not, a plan without accepted() guards changes each total by the net of the firing legs when it closes its key, and by nothing otherwise |
| Conservation.TransitionConserves | lib/spec-contract/CoordinationEval.cpp:118-653 | one transition of a balanced plan changes no currency's total, from any state, if the plan is temporal or its firing effects balance on the input |
| Conservation.RunConserves | include/Neutrino/CoordinationEval.h:46-72 | nor does any run of such inputs |
| Payload.PayloadAgrees | lib/spec-contract/CoordinationEval.cpp:165-212 | a claimed input agrees with its payload text, in whichever map it was presented |
| Payload.ClaimFixesEnv | lib/spec-contract/CoordinationEval.cpp:272-300 | the claim fixes every declared value and compute an attempt reads |
| Ledger.CommittedGrows | lib/spec-contract/CoordinationEval.cpp:448-481 | group by group, the recorded postings grow by what the committable groups post now |
| Ledger.RequiredFromClaim | lib/spec-contract/CoordinationEval.cpp:418-427 | which groups are required depends on the claim alone |
| Ledger.TemporalCommits | lib/spec-contract/CoordinationEval.cpp:366-536 | a temporal transition leaves the state alone or commits, once, exactly what its claim fixes for the committing groups |
| Ledger.AtomicCommits | lib/spec-contract/CoordinationEval.cpp:538-652 | a single-shot transition leaves the state alone or commits exactly what its claim fixes |
| Ledger.EvidenceCommits | lib/spec-contract/CoordinationEval.cpp:335-364 | an evidence-only transition posts nothing |
| LedgerRuns.TransitionKeeps | lib/spec-contract/CoordinationEval.cpp:118-653 | every transition keeps the ledger invariant |
| LedgerRuns.RunExplained | include/Neutrino/CoordinationEval.h:46-72 | in every reachable state each balance is its start plus the recorded (key, group) commits under that key's claim, each once |
| LedgerRuns.SameLedgerSameBalances | include/Neutrino/CoordinationEval.h:46-72 | runs that end with the same claims and commit ledger agree on every balance, whatever the order |
| Bookkeeping.TransitionKeepsRecords | lib/spec-contract/CoordinationEval.cpp:118-653 | for every plan: each transition keeps the records in order and touches at most one key's entry, which only grows |
| Bookkeeping.RunRecorded | include/Neutrino/CoordinationEval.h:50-71 | for every plan and run: posted keys are the keys with a status, all claimed and all at the success terminal; committed groups are plan groups of claimed keys |
| Bookkeeping.RecordsStay | include/Neutrino/CoordinationEval.h:46-72 | for every plan: claims, statuses and commits never change once set, however the run goes on |
| LedgerRuns.TerminalExactly | lib/spec-contract/CoordinationEval.cpp:484-536 | in every reachable state of a plan whose guards and computes read declared names, a key is terminal exactly when every group its claim requires is committed |
| UnclaimedOperands.OneClaimTwoLedgers | lib/spec-contract/CoordinationEval.cpp:461-472 | a body that passes the balance check, the plan assembly makes of it, and two inputs with one claim that pay different accounts: a party names a compute |
| ClaimedPostings.OneClaimPostsExactly | lib/spec-contract/CoordinationEval.cpp:461-472 | two inputs with one claim, under which some legs of the plan resolve, post them alike if and only if they name the same party and currency on each |
| ClaimedPostings.OneClaimCommitsExactly | lib/spec-contract/CoordinationEval.cpp:548-609 | the same for all that a single-shot transition posts |
| ClaimedPostings.ClaimDecidesExactly | lib/spec-contract/CoordinationEval.cpp:143-212 | the claim of an input decides what some legs post, among all inputs with that claim, if and only if each leg names party and currency by a literal, a declared input or the workflow key |
| UnclaimedOperands.BodyAssembles | lib/spec-contract/CoordinationPlan.cpp:262-410 | the plan of that example is what assembly returns for its body |
| Refusals.StateInvalidExactly | lib/spec-contract/CoordinationEval.cpp:214-253 | for every plan and any state with its records in order: invalid if and only if a terminal claim is presented again to a plan with replay protection and an unnamed success terminal, replayed if and only if it is named, claim mismatch if and only if another payload came first; refusals, replays and no-progress change nothing |
| Refusals.NeverInvalid | lib/spec-contract/CoordinationEval.cpp:222-253 | from an empty ledger no plan with a named success terminal is ever refused as state.invalid |
| Refusals.TerminalRecords | lib/spec-contract/CoordinationEval.cpp:643-652 | a terminal outcome puts the input's claim on record, posted, with the success status |
| Refusals.RepeatChangesNothing | lib/spec-contract/CoordinationEval.cpp:222-253 | with replay protection, presenting a committed terminal input again changes nothing, whatever happened in between |
| Refusals.TerminalIsNew | lib/spec-contract/CoordinationEval.cpp:222-253 | with replay protection a terminal outcome is the first of its key |
| Traces.AtomicIsQuiet | lib/spec-contract/CoordinationEval.cpp:548-609 | staging reports only guard and evidence observations, and how many |
| Traces.TraceIsFaithful | lib/spec-contract/CoordinationEval.cpp:124-139 | the ledger deltas in the trace are the whole change of the balances; a terminal is reported exactly on terminal and replayed outcomes and is the recorded status |
| TraceBounds.PartitionLoad | lib/spec-contract/CoordinationPlan.cpp:350-388 | a partition has no more groups and holds no more legs than there are effects |
| Closing.StagesExactly | lib/spec-contract/CoordinationEval.cpp:538-609 | single-shot staging succeeds exactly when every guard evaluates, every firing effect has its evidence and its operands, and no account leaves the 64-bit range on the way |
| Closing.ClosesExactly | lib/spec-contract/CoordinationEval.cpp:118-653 | exactly when a transition without accepted() guards closes its key, as a condition on plan, state and input: authority, a claim neither contradicted nor replayed, computes that evaluate, and accepted evidence or legs that stage |
| Closing.SingleShotConservesExactly | lib/spec-contract/CoordinationEval.cpp:538-653 | exactly when such a transition leaves a total as it was: it does not close its key, or its firing legs net to nothing in that currency |
| TraceBounds.StepBoundExactly | lib/spec-contract/BoundedCoordinator.cpp:47-53 | a transition exceeds the derived step bound if and only if, by plan, state and input, it closes its key under an evidence-only plan or under a single-shot plan with too many obligations |
| TraceBounds.NoObligationsNoOverflow | lib/spec-contract/BoundedCoordinator.cpp:47-53 | without obligations the second case cannot occur |
| TraceBounds.ObligationTooMany | lib/spec-contract/BoundedCoordinator.cpp:47-53 | one obligation is too many when every effect is guarded, attested and posted |
| ClaimAccounts.TransitionTouches | lib/spec-contract/CoordinationEval.cpp:473-481 | a transition that changes the state touches accounts fixed by its recorded claim only |
| ClaimAccounts.AccountsCount | lib/spec-contract/BoundedCoordinator.cpp:50-54 | a claim fixes at most one account for each effect |
| Coordinator.AdmissionExactly | lib/spec-contract/BoundedCoordinator.cpp:29-60 | exactly which plans are admitted; the two refusals on derived bounds are dead |
| Coordinator.SharedCoordinator.Create | lib/spec-contract/BoundedCoordinator.cpp:62-68 | a coordinator exists exactly for admitted plans, with their bounds |
| Coordinator.SharedCoordinator.Run | lib/spec-contract/BoundedCoordinator.cpp:74-103 | the result is the bounded step from the state of that instance's own calls; no other instance changes; a refused run leaves an entry |
| Coordinator.SharedCoordinator.StateOf | lib/spec-contract/BoundedCoordinator.cpp:105-108 | an instance is known once it was run, and its state is that of its own calls alone |
| Coordinator.SharedCoordinator.InstanceCount | lib/spec-contract/BoundedCoordinator.cpp:110 | counts the instance ids ever run |
| Coordinator.StorageNeverExceeded | lib/spec-contract/BoundedCoordinator.cpp:81-98 | no instance ever exceeds its storage bound |
| Coordinator.FirstStorageRefusal | lib/spec-contract/BoundedCoordinator.cpp:81-98 | exactly at which call an instance first runs out of storage, on its call sequence alone: the step is no overlong close, and the accounts and closed keys of the reference run, each key counted twice, first exceed the slots |
| Storage.TransitionKeepsStorage | lib/spec-contract/CoordinationEval.cpp:473-481 | whatever operands name, the accounts of a ledger are no more than the legs of the groups its keys committed |
| Storage.AccountsPerKey | lib/spec-contract/BoundedCoordinator.cpp:50-54 | hence at most one account for each effect and each claimed key |
| Coordinator.InstanceExplained | include/Neutrino/BoundedCoordinator.h:18-28 | every hosted instance satisfies the ledger invariant of its own claims and commits |
| Coordinator.InstanceConserves | include/Neutrino/BoundedCoordinator.h:18-28 | a balanced plan creates no value in any instance whose inputs it conserves on: all of them for a temporal plan, those that leave the firing effects balanced for a single-shot plan |
| Coordinator.EvidenceOnlyNeverCloses | lib/spec-contract/BoundedCoordinator.cpp:47-60 | under its own admitted bounds an evidence-only plan never closes: its instance stays empty for every call sequence |
| Coordinator.EvidenceOnlyRefused | lib/spec-contract/BoundedCoordinator.cpp:81-97 | a concrete plan and input that the reference evaluator accepts and the coordinator refuses as step_exceeded |
| Coordinator.RefinesExactly | include/Neutrino/BoundedCoordinator.h:18-22 | however many keys it serves, an instance follows the reference evaluator all along its calls if and only if no step of the reference run is an overlong close and the reference never keeps more than the derived bound has slots |
| Coordinator.OneKeyRefinesExactly | include/Neutrino/BoundedCoordinator.h:18-22 | an instance that serves one key follows the reference evaluator all along a run if and only if no step of it is an overlong close: an evidence-only close, or one with too many obligations |
| Coordinator.InstanceRecorded | include/Neutrino/BoundedCoordinator.h:18-28 | the records of every hosted instance are in order |
| Reachability.IndexComputes | lib/Analysis.cpp:82-84 | of several computes of one name the last is used |
| Reachability.ReachableInputs | lib/Analysis.cpp:76-102 | the worklist ends and returns exactly the declared inputs that some seed reaches through computes, inputs never expanded |
| Reachability.NeededDistributes | lib/Analysis.cpp:76-102 | the needed inputs of several seeds are those of each, taken together |
| Reachability.NeededThroughCompute | lib/Analysis.cpp:93-100 | a compute needs what its dependencies need |
| FrameCodec.U16RoundTrips | lib/spec-contract/BackendProtocol.cpp:57-72 | big-endian 16-bit fields round trip both ways |
| FrameCodec.U32RoundTrips | lib/spec-contract/BackendProtocol.cpp:62-79 | so do 32-bit fields |
| FrameCodec.EncodeFrame | lib/spec-contract/BackendProtocol.cpp:494-504 | a frame is encoded exactly when its payload is within 64 MiB and only the two low flags are set; the bytes are length, type and flags, most significant byte first, then the payload |
| FrameCodec.DecodeFrames | lib/spec-contract/BackendProtocol.cpp:506-531 | the offset loop computes the decoding of the bytes, error by error |
| FrameCodec.DecodeEncoded | lib/spec-contract/BackendProtocol.cpp:494-531 | decoding the concatenation of encoded frames gives the frames back |
| FrameCodec.EncodeDecoded | lib/spec-contract/BackendProtocol.cpp:494-531 | re-encoding accepted bytes gives the bytes back |
| FrameCodec.CutsAreRejected | lib/spec-contract/BackendProtocol.cpp:510-525 | every cut inside a frame is rejected as a truncated header or payload, whatever frames came before |
| Chunks.ArtifactIsItsChunks | lib/spec-contract/BackendProtocol.cpp:747-769 | an artifact is the bytes of its accepted chunks, in order of arrival, and nothing else |
| Chunks.NumberedFromZero | lib/spec-contract/BackendProtocol.cpp:865-873 | a chunk's number counts the earlier chunks of its path, modulo 2^32 |
| Chunks.RunsAreUninterrupted | lib/spec-contract/BackendProtocol.cpp:863-870 | the chunks of one path are never interrupted by those of another |
| Session.HeaderFaultMeans | lib/spec-contract/BackendProtocol.cpp:859-873 | the header checks pass exactly when the chunk continues the open run or opens the first run of its path |
| Session.ClosesRun | lib/spec-contract/BackendProtocol.cpp:747-770 | a final chunk completes its artifact and keeps the assembly invariant |
| Session.TakesPart | lib/spec-contract/BackendProtocol.cpp:747-757 | a non-final chunk extends its run and keeps the assembly invariant |
| Session.Session.OnHello | lib/spec-contract/BackendProtocol.cpp:786-801 | accepted exactly first, from the core, decoded, with the protocol's major version |
| Session.Session.OnCapabilities | lib/spec-contract/BackendProtocol.cpp:802-823 | accepted exactly after Hello, from the backend, with a negotiable version and ordered schema bounds |
| Session.Session.OnEmit | lib/spec-contract/BackendProtocol.cpp:824-849 | accepted exactly when ready, from the core, with identity, encoding, digest form and profile in order |
| Session.Session.OnProjection | lib/spec-contract/BackendProtocol.cpp:723-745 | the projection opens the request exactly when length, digest and schema match |
| Session.Session.OnChunkHeader | lib/spec-contract/BackendProtocol.cpp:850-878 | a chunk header is accepted exactly when it may come next |
| Session.Session.OnChunkBytes | lib/spec-contract/BackendProtocol.cpp:747-771 | chunk bytes are accepted exactly within the announced length and the output limits, and are appended to the accepted chunks |
| Session.Session.MatchManifest | lib/spec-contract/BackendProtocol.cpp:895-913 | a manifest passes exactly when it names the assembled artifacts, each once, with digest and length |
| Session.Session.OnManifest | lib/spec-contract/BackendProtocol.cpp:879-923 | a manifest completes the emission exactly when no run is open and it matches, and hands over the artifacts |
| Session.Session.OnCancel | lib/spec-contract/BackendProtocol.cpp:924-937 | accepted exactly while emitting, from the core, for the current request |
| Session.Session.OnCancelled | lib/spec-contract/BackendProtocol.cpp:938-952 | accepted exactly while cancelling, and drops the request |
| Session.Session.OnError | lib/spec-contract/BackendProtocol.cpp:953-976 | fails the handshake or ends the current emission, and is recorded |
| Session.Session.OnGoodbye | lib/spec-contract/BackendProtocol.cpp:977-988 | closes a ready session |
| Session.Session.ConsumePendingRaw | lib/spec-contract/BackendProtocol.cpp:703-772 | accepted exactly when it is the raw frame announced, from the same side, and its payload is what the header promised; the bytes of an artifact become one chunk with its header |
| Session.Session.ConsumeKnown | lib/spec-contract/BackendProtocol.cpp:774-994 | accepted exactly when raw bytes follow an Emit or a chunk header and nothing else, and the message may come in its phase; a manifest ships the chunks recorded, a cancelled or failed request drops them, anything else leaves them |
| Session.Session.ConsumeManifest | lib/spec-contract/BackendProtocol.cpp:879-923 | accepted exactly when it matches the artifacts with no run open; it ships the chunks accepted since the request began |
| Session.Session.Consume | lib/spec-contract/BackendProtocol.cpp:660-701 | accepted exactly when the frame may come next; it then joins the history, and the open request, its chunks and all completed emissions are what the history says; a refused frame fails the session for good |
| Session.Session.ChunksAreOrdered | lib/spec-contract/BackendProtocol.cpp:850-878 | in any session the chunks accepted for the open request are numbered from 0 path by path, are not interrupted by another path, and stay within the limit |
| Session.Session.Finish | lib/spec-contract/BackendProtocol.cpp:996-1003 | the stream may end only after Goodbye |
| Session.Session.TakeCompletedEmission | lib/spec-contract/BackendProtocol.cpp:1005-1011 | hands over the oldest completed emission: exactly its manifest's paths, each with the bytes of the chunks that the frames of its request carried, in order, of the announced length |
| Session.ManifestNamesAll | lib/spec-contract/BackendProtocol.cpp:895-913 | a matching manifest names every artifact |
| Session.DeliveredShips | lib/spec-contract/BackendProtocol.cpp:879-923 | a delivered emission holds, for each path of its manifest and no other, the bytes of all chunks of that path |
| Session.DeliveredExactly | lib/spec-contract/BackendProtocol.cpp:879-923 | path by path: in the manifest exactly if assembled, with the bytes of its chunks and the announced length |
| Labels.EnterKeeps | include/Neutrino/CanonicalLabels.h:96-103 | labels stay a stable bijection onto 0..n-1 with the order vector as inverse |
| Labels.ReferAllKeeps | include/Neutrino/CanonicalLabels.h:45-53 | any sequence of references leaves both tables such bijections |
| Labels.SemanticLabels.constructor | include/Neutrino/CanonicalLabels.h:37-43 | starts without labels, knowing the declared names |
| Labels.SemanticLabels.Value | include/Neutrino/CanonicalLabels.h:45-53 | returns the label of a value and enters it in the table of its kind |
| Labels.SemanticLabels.Operand | include/Neutrino/CanonicalLabels.h:55-64 | labels a ref operand and leaves any other as it is |
| Labels.SemanticLabels.Ledger | include/Neutrino/CanonicalLabels.h:66-68 | returns the ledger's number, entering it if new |
| Labels.SemanticLabels.ObserverSet | include/Neutrino/CanonicalLabels.h:70-72 | returns the observer set's number, entering it if new |
| Labels.SemanticLabels.ObserverRole | include/Neutrino/CanonicalLabels.h:74-78 | the same for roles, an unnamed role staying unnamed |
| Labels.SemanticLabels.CompleteValues | include/Neutrino/CanonicalLabels.h:80-90 | enters the leftover inputs by (type, name), then the computes in declaration order |
| LabelRenaming.LabelsIgnoreNames | include/Neutrino/CanonicalLabels.h:28-34 | any sequence of references to declared names returns the same labels under any injective renaming |
| LabelRenaming.SortedByTypeFirst | include/Neutrino/CanonicalLabels.h:85 | sorting by (type, name) lists the types in their own order, whatever the names |
| LabelRenaming.CompleteOrder | include/Neutrino/CanonicalLabels.h:80-90 | after completion the input order is the old one followed by the leftovers, sorted |
| LabelRenaming.TypesIgnoreNames | include/Neutrino/CanonicalLabels.h:80-93 | after completion the type at every input index is the same under any injective renaming, although leftovers are sorted by name |
| LabelRenaming.ComputeLabelsIgnoreNames | include/Neutrino/CanonicalLabels.h:80-90 | after completion every compute has a label, the same under any injective renaming |
| Domain.Collect | lib/L2Dialect.cpp:156-198 | the first pass accepts exactly closed bodies with unique identities and unique imports, and its tables say what is declared |
| Domain.ResolveEdges | lib/L2Dialect.cpp:200-228 | accepts exactly when every edge resolves and no descriptive concept drives an executable one; returns the traced concepts |
| Domain.CheckTraced | lib/L2Dialect.cpp:230-238 | accepts exactly when every concept has a supported edge to an L1 feature |
| Domain.CheckProvenance | lib/L2Dialect.cpp:240-259 | accepts exactly when every provenance resolves and every executable edge has an accepted one |
| Domain.CheckInvariants | lib/L2Dialect.cpp:261-267 | accepts exactly when every on_failure names a declared failure mode |
| Domain.VerifyDomain | lib/L2Dialect.cpp:146-270 | accepts exactly the acceptable domains |
| Reduction.ModelOf | lib/L2Reduction.cpp:56-67 | extracts the features and edges in record order |
| Reduction.ReduceModel | lib/L2Reduction.cpp:105-155 | succeeds exactly when every feature is registered, correctly classified and induced; the bindings are the edges', sorted by feature and edge |
| Reduction.ReduceDomain | lib/L2Reduction.cpp:158-162 | the same for a domain |
| Reduction.EdgesAreBound | lib/L2Reduction.cpp:137-149 | every non-failure edge of an accepted domain is bound to its feature, which the plan induces |
| Reduction.EveryConceptLands | lib/L2Dialect.cpp:230-238 | every concept of an accepted domain appears in a binding whose feature the plan induces |
| Reduction.ExecutableIsAccepted | lib/L2Dialect.cpp:240-259 | an executable binding has an accepted provenance for its edge and no descriptive concept behind it |
| Reduction.KeySortedUnique | lib/L2Reduction.cpp:150-153 | lists sorted by feature and edge with the same members are equal when no two members share an edge |
| Reduction.RecordOrderIrrelevant | lib/L2Reduction.cpp:105-155 | accepted domains with the same records in any order reduce to the same binding list |

## Left out

- `governedEdges` (file access, path rules, sidecar validation, hash pin) is a fixed function from registry entry and node to edges or a refusal; that versions hold no separator is assumed from the semantic-version checks that precede it.
- GuardedBalance.VerifyProcedure: the semantic-version syntax is a parameter; that names are unique and operands defined is the front end's part and not checked here.
- Execution claims and plan identity: the SHA-256 claim is replaced by the triple it hashes (plan, key, typed payload), which makes it injective by construction.
- Evaluator trace text: observations are datatype values; event names are kept as effect and side, not as rendered text, and JSON output is not modelled.
- PlanAssembly.Assemble covers policy binding, temporal legality, grouping and balance; participants, topology, workflow-key derivation, lifecycle and obligation checks of plan assembly are not modelled, and gate modes are kept only as far as the evaluator reads them.
- `planFromSpec`, the second builder of plan inputs, is not modelled.
- LedgerRuns.RunExplained: is stated for plans with replay protection, which assembly always sets, whose operands are fixed by a claim (see above for exactly when that is so, and for what fails otherwise).
- Ledger.TemporalCommits: also covers comparison groups beside accepted() groups, which assembly refuses to mix.
- Typing.TypeKeepsShape: inference is modelled on values, while the source writes the category into each node in place; the partially annotated tree of a failed inference is the returned value.
- ExprParser.ParseText: a number past 64 bits is an error of its own here; in the source the conversion throws an exception that the front end does not catch.
- AttrSyntax.AttrParser.Parse: works on tokens; the lexer of the MLIR assembly format and its string escapes are not modelled, and the printer does not escape names.
- MLIR operations, locations and diagnostics text are replaced by small datatypes and error codes.
- Session.Session.Consume: payload decoders, the digest and the projection decoder are fixed functions handed to the session; licence, feature and manifest-digest fields of the capabilities are not kept, the fields of the current request are grouped in one value, and completed artifacts are a map by path where the source lists the map's values in path order.
- Frame payload sizes, label counts and slot numbers are unbounded naturals except where a field width matters (frame header fields, chunk numbers, expression slots and literals).
- Labels: the projection walk that decides in which order names are referenced is not modelled; the results hold for every order.
- Domain.VerifyDomain: the per-record vocabulary checks (kinds, relations, lossiness, digests) and the semantic-version syntax are not modelled; a flag stands for the version check.
- Reduction.ReduceModel: the feature registry and the features a plan induces are parameters; the sidecar form of the same model is not modelled.
- Block parsing of source files, vocabulary tables, emission, renderers, the lifecycle machine, specification legality and artifact publication are outside this model.
