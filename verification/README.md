# Verification model of the SQL parser and keyword recognizer

This project models two components of the vendored SQLite (WCDBOptimizedSQLCipher) and proves their
central properties for all inputs.

**The push parser of `parse.c`.** `sqlite3Parser` is called with one token at a time and runs a loop of
table lookups, shifts, reductions, errors and accepts on a stack of entries. The modules, bottom up:

- `Grammar`: rules, the values that reductions build (kept as terms that name their rule), derivation
  trees. An entry may be a unit-descendant of the symbol its state expects, because ten unit rules were
  optimized out of the tables; `Elaborate` puts them back.
- `Bound`: how large a derivation can be, given a rank certificate that no symbol derives exactly itself.
- `ActionTables`: the packed tables, the rows they denote, and when packing loses nothing.
- `Machine`: what well-formed tables are, the specification of one pass of the loop, and the stack
  invariant. Well-formedness is checked one table entry at a time: every state carries the symbols and
  states that may lie below it (its known past), and every shift, goto and reduce entry is checked
  against it. The theorems hold for all well-formed tables.
- `Runs`, `History`, `Ownership`, `Cost`, `Conservation`: every call ends, and what every run keeps:
  soundness of accepted input, token conservation, the ledger of values, linear work.
- `Limits`: when a pass overflows, when it leaks and when it falls below the base; the fixed and the
  growable stack agree until the smaller one overflows, and exactly when a run overflows.
- `Textbook`: refinement of the textbook LR machine over the generator's rows, by passes, by calls and by
  whole runs.
- `Parser`: the object itself, with its array stack, its search loop and its grow step, updated in place.
  Each method is proved against the specification of `Machine` and `Runs`, so the theorems apply to it.
- `Sample`: the command-list rules as concrete tables. They satisfy the conditions, and a run accepts.
  `AnyList`: the recursive `anylist` rules, with the wildcard and an empty rule, which falls below the
  base. `DeepSelect`: nested subqueries, with a keyword that falls back to a name, which leak at every
  stack depth. `KeywordAsName` is a run on them that accepts such a keyword as a name.

**The reduce actions that lower SQL.**

- `Selects`: compound SELECT chains on the heap, their flags, their limit check, and their meaning.
  `SelectLaws` tells the operators of the text apart by laws.
- `Exprs`: expression trees and source spans, with the three-valued meaning of text and tree. `ExprLaws`
  has the truth tables and the laws of that meaning, `Forms` the normal form of the trees and what nodes
  they have, and `Spans` says what text a span covers.
- `Triggers`: the trigger command list with its tail pointer. `ForeignKeys`: the mask-and-or fold.

**The keyword recognizer of `keywordhash.h`.** `KeywordTables` holds the tables and what they encode,
entry by entry; `Tokens` has the token names of `parse.h`, `KeywordCodes` which of them each keyword stands
for; `Keywords` has the hash walk and its agreement with a linear scan.

Results where the code does less than a reader may expect:

- An empty rule that overflows the stack drops the top value without its destructor
  (`parse.c:1814-1832` with `parse.c:2262-2283`): the decrement in the overflow routine is meant to undo
  the increment of a shift, and a reduction has made none. The ledger names this value as leaked;
  `Limits.LeakExactly` says exactly when it happens, and `DeepSelect.EveryDepthLeaks` gives tokens on which
  it loses an expression, for every stack of at least seven entries.
- When the first allocation of a growable stack fails, one built-in entry is left (`parse.c:1527-1530`). An
  empty rule that overflows there takes the top index below the base, and a further call would read
  outside the stack. `Limits.PassFalls`, `FeedFalls` and `RunFalls` say exactly when, and
  `AnyList.EveryTokenFalls` is a parser on which every token does it.
- The recorded end of `expr IN name(args)` is the end of the table name, so the arguments are outside the
  span (`parse.c:3475`). `Spans.SpanEndIsExact` says exactly when that happens and
  `Spans.ShortSpan` is an instance.
- Masking with `~0x20` takes byte 0x7F for an underscore, so CURRENT, 0x7F, DATE is read as a keyword.
  `Keywords.RecognizerIsExact` says exactly when the recognizer and the list agree.
- The comment above `parserDoubleLinkSelect` promises a bound on the length of every chain; the code does
  not check chains whose head is a multi-row VALUES (`Selects.BuildLongValues`). The model follows the code.

## Model

| member | source | states |
|---|---|---|
| `Grammar.Reinsert` | Example/Pods/WCDBOptimizedSQLCipher/parse.c:3896-3933 | A chain of optimized-out unit rules can be put back on top of any derivation: the result is a textbook tree from the upper symbol with the same leaves and the same erasure. |
| `Grammar.Elaborate` | Example/Pods/WCDBOptimizedSQLCipher/parse.c:3895-3953 | Every value the reductions can build, whose entries may be unit-descendants of the symbols their rules ask for, is the erasure of a textbook derivation tree with the optimized-out rules reinserted and the same leaves. |
| `Grammar.WorkOfValue` | Example/Pods/WCDBOptimizedSQLCipher/parse.c:4089-4201 | The bottom-up work that builds a value shifts exactly its leaves, left to right, and makes one reduction per rule node. |
| `Bound.EmptySize` | Example/Pods/WCDBOptimizedSQLCipher/parse.c:4089-4201 | Given the rank certificate (no symbol derives exactly itself), a token-free derivation has at most a constant number of rule nodes fixed by the rank of its symbol. |
| `Bound.TreeSize` | Example/Pods/WCDBOptimizedSQLCipher/parse.c:4089-4201 | Under the certificate a derivation with tokens has at most linearly many rule nodes: the rank drops along nodes with one token-bearing child, other nodes split the tokens. |
| `Bound.ForestSize` | Example/Pods/WCDBOptimizedSQLCipher/parse.c:4089-4201 | A forest of derivations, as on the stack, has a number of rule nodes linear in its roots and its tokens. |
| `ActionTables.PackingIsFaithful` | Example/Pods/WCDBOptimizedSQLCipher/parse.c:367-385 | Reading the shared cell array back gives every state its own row if and only if states that share an offset share a row; a cell written at one offset is never a hit at another. |
| `Machine.HandleReduces` | Example/Pods/WCDBOptimizedSQLCipher/parse.c:2241-2285 | A table entry checked against the known past of its state guarantees that the right-hand side is on the stack above the base and that the uncovered state has a goto on the left-hand side. |
| `Machine.PushOk` | Example/Pods/WCDBOptimizedSQLCipher/parse.c:1857-1892 | Pushing along a checked shift or goto entry, with a state or with a fused pending reduce, keeps the stack invariant. |
| `Machine.ActionIsSafe` | Example/Pods/WCDBOptimizedSQLCipher/parse.c:1721-1778 | Whatever the look-ahead, the action found is a shift that may be made, a reduction the stack can carry out, or the error action, and the token was read as itself, its fallback or (unless 0) the wildcard. |
| `Machine.GotoIsSafe` | Example/Pods/WCDBOptimizedSQLCipher/parse.c:1784-1809 | The goto looked up by a reduction exists; it is a checked edge, or it is the accept action, met only in state 0 with nothing but the base entry left and the start symbol on the left. |
| `Machine.LandOk` | Example/Pods/WCDBOptimizedSQLCipher/parse.c:3955-3973 | The tail of a reduction ends on a consistent stack; when it accepts, the value is a derivation of the start symbol and the base entry is alone. |
| `Machine.StepKeepsStack` | Example/Pods/WCDBOptimizedSQLCipher/parse.c:4089-4201 | Every pass of the loop, on every token and with room for any number of entries from one up, keeps the depth limit and the stack invariant, except when an empty rule is reduced on a stack with room for one entry: then, and only then, the top index goes below the base. |
| `Runs.StepDoes` | Example/Pods/WCDBOptimizedSQLCipher/parse.c:4089-4201 | One pass is one of: push the token, report and drop it, fold the top trees into one derivation, accept, overflow, fall below the base; and which of them end the call. |
| `Runs.StepBurnsFuel` | Example/Pods/WCDBOptimizedSQLCipher/parse.c:4089-4201 | A pass that neither uses up the token nor empties the stack strictly decreases the number of reductions that the tokens on the stack can still support, so the loop ends. |
| `Runs.CallEnds` | Example/Pods/WCDBOptimizedSQLCipher/parse.c:4089-4201 | Every call ends with its token on top of the stack, or reported and dropped, or with nothing held after an accept or an overflow. |
| `History.EffectKeepsHonest` | Example/Pods/WCDBOptimizedSQLCipher/parse.c:3955-3973 | Every pass keeps the trees on the stack equal to the shifts and reductions made since the stack was last empty, keeps every accepted value a derivation of the start symbol made of exactly that work, and closes the call at most once. |
| `Ownership.DestroysInOrder` | Example/Pods/WCDBOptimizedSQLCipher/parse.c:1700 | Emptying a stack calls one destructor per entry above the base, from the top down, with the entry's own symbol and value. |
| `Ownership.CleanupBooks` | Example/Pods/WCDBOptimizedSQLCipher/parse.c:1814-1832 | On overflow every value above the base is destroyed once, except that an empty-rule overflow drops the top value without a destructor: the ledger gains exactly that one leaked value. |
| `Ownership.EffectKeepsAccounted` | Example/Pods/WCDBOptimizedSQLCipher/parse.c:1549-1682 | Every pass keeps the ledger balanced: values created equal values consumed, destroyed, leaked, delivered and still held, as multisets, and every destructor is chosen by the symbol its value was built for. |
| `Ownership.FreeSettles` | Example/Pods/WCDBOptimizedSQLCipher/parse.c:1692-1705 | Freeing the parser leaves nothing held and adds no leak, also when the top index is below the base. |
| `Cost.EffectKeepsAffordable` | Example/Pods/WCDBOptimizedSQLCipher/parse.c:4089-4201 | Every pass keeps the reductions made so far within what the shifts, accepts and overflows have paid for. |
| `Conservation.FeedKeepsLawful` | Example/Pods/WCDBOptimizedSQLCipher/parse.c:4060-4201 | A call keeps the run invariant and closes exactly once, on its own token. |
| `Conservation.RunIsLawful` | Example/Pods/WCDBOptimizedSQLCipher/parse.c:4060-4201 | For all token sequences the run invariant holds at the end and the tokens close their calls once each, in the order of arrival; only a run that falls below its base leaves the rest unread. |
| `Conservation.AcceptIsDerivation` | Example/Pods/WCDBOptimizedSQLCipher/parse.c:3968-3972 | Every value accepted anywhere in any run has a textbook derivation tree from the start symbol whose leaves are the tokens shifted since the stack was last empty; the work was done bottom-up and left to right along it. |
| `Conservation.ParserIsSound` | Example/Pods/WCDBOptimizedSQLCipher/parse.c:4060-4201 | Parser soundness: if a fresh parser first accepts on the last token, with nothing rejected or overflowed, the other tokens are the leaves of a derivation tree from `input`, each read as itself, its fallback or ANY. |
| `Conservation.StackHoldsTokens` | Example/Pods/WCDBOptimizedSQLCipher/parse.c:4060-4201 | Until the first accept or overflow the concatenated yields on the stack are the non-rejected tokens in order of arrival. |
| `Conservation.RunIsLinear` | Example/Pods/WCDBOptimizedSQLCipher/parse.c:4089-4201 | The reductions of a whole run are at most linear in the number of tokens, with constants fixed by the grammar and the stack depth. |
| `Conservation.NothingIsLost` | Example/Pods/WCDBOptimizedSQLCipher/parse.c:1692-1705 | After any run and the final free, every value made was consumed by one reduction, destroyed once, delivered, or is the term leaked by an empty-rule overflow. |
| `Limits.OverflowExactly` | Example/Pods/WCDBOptimizedSQLCipher/parse.c:1871-1883 | A pass overflows if and only if it would push onto a full stack without popping. |
| `Limits.PassFalls` | Example/Pods/WCDBOptimizedSQLCipher/parse.c:2276-2279 | A pass takes the top index below the base if and only if the stack has room for one entry and the pass reduces by an empty rule. |
| `Limits.FeedFalls` | Example/Pods/WCDBOptimizedSQLCipher/parse.c:1814-1816 | The same for whole calls. |
| `Limits.RunFalls` | Example/Pods/WCDBOptimizedSQLCipher/parse.c:1527-1530 | A run stays at or above its base if and only if it has room for two entries or no token makes the start state reduce by an empty rule. |
| `Limits.GrowsByOne` | Example/Pods/WCDBOptimizedSQLCipher/parse.c:2262-2283 | A pass that grows a stack with room leaves exactly one entry more, unless an empty rule on the bare base accepts at once. |
| `Limits.LeakExactly` | Example/Pods/WCDBOptimizedSQLCipher/parse.c:2262-2283 | A pass leaks if and only if it reduces by an empty rule on a full stack that holds a value, and what it leaks is the top value. |
| `Limits.StepsAgree` | Example/Pods/WCDBOptimizedSQLCipher/parse.c:2262-2283 | Parsers of two depths make the same pass, unless it needs an entry beyond the smaller depth, which is exactly when the smaller one overflows. |
| `Limits.CallsAgree` | Example/Pods/WCDBOptimizedSQLCipher/parse.c:1467-1492 | Within one call the fixed and the growable build do the same work until the smaller one overflows, and from there the smaller one only empties its stack. |
| `Limits.RunsAgree` | Example/Pods/WCDBOptimizedSQLCipher/parse.c:1467-1492 | The same over whole runs: identical, or with a common prefix of the logs after which the smaller parser only empties its stack. |
| `Limits.CallOverflowsExactly` | Example/Pods/WCDBOptimizedSQLCipher/parse.c:1871-1883 | A call of the smaller parser overflows if and only if some pass of the larger one needs an entry beyond the smaller depth; otherwise the calls are equal. |
| `Limits.RunOverflowsExactly` | Example/Pods/WCDBOptimizedSQLCipher/parse.c:1467-1492 | A run of the smaller parser overflows if and only if some pass of the larger run on the same tokens needs an entry beyond the smaller depth; otherwise the runs are equal. |
| `Textbook.OnlyTopIsComplete` | Example/Pods/WCDBOptimizedSQLCipher/parse.c:986-988 | Only the top entry ever holds a pending reduce; every entry below holds a state. |
| `Textbook.LookupIsFirst` | Example/Pods/WCDBOptimizedSQLCipher/parse.c:1721-1778 | The entry that the search finds is the first one, among the readings of the token in order of precedence (itself, its fallback, ANY unless it is the end of input), that the row has; without any it is the default. The textbook machine is defined by that order alone. |
| `Textbook.PackedDenotes` | Example/Pods/WCDBOptimizedSQLCipher/parse.c:367-385 | Tables filled from a generator's rows denote its textbook machine if and only if states that share an offset share a row. |
| `Textbook.ReadBack` | Example/Pods/WCDBOptimizedSQLCipher/parse.c:1721-1809 | Every table denotes a textbook machine: the rows it reads back as. |
| `Textbook.StepIsMove` | Example/Pods/WCDBOptimizedSQLCipher/parse.c:4089-4201 | Refinement of passes: each pass that does not overflow is one move of the textbook LR machine over the generator rows that the packed tables denote, in which a fused shift-reduce is a shift into a state whose sole action is that reduce. |
| `Textbook.LandIsMove` | Example/Pods/WCDBOptimizedSQLCipher/parse.c:3955-3973 | The tail of a reduction is the textbook goto, or its accept. |
| `Textbook.CallIsMoves` | Example/Pods/WCDBOptimizedSQLCipher/parse.c:4060-4201 | A call without overflow is a sequence of textbook moves that ends with the same verdict and the same stack. |
| `Textbook.OneEnd` | Example/Pods/WCDBOptimizedSQLCipher/parse.c:4060-4201 | The textbook machine gives a token at most one outcome, so the refinement fixes the verdicts. |
| `Textbook.RunIsTextbookRun` | Example/Pods/WCDBOptimizedSQLCipher/parse.c:4060-4201 | Refinement of whole runs: without overflow every token gets the verdict, and every accept the value, that the textbook machine gives, and both end on the same stack. |
| `Parser.Ceiling` | Example/Pods/WCDBOptimizedSQLCipher/parse.c:1472-1490 | The size at which growing by twice the size plus 100 stops: another step would not fit the allocator, and this one does. |
| `Parser.Parser.constructor` | Example/Pods/WCDBOptimizedSQLCipher/parse.c:1516-1541 | A new parser is valid and holds the base entry only, in the fixed build, in the growable build, which starts with 100 entries whenever the allocator can supply them, and when the first allocation fails and one built-in entry is all there is. |
| `Parser.Parser.FirstSize` | Example/Pods/WCDBOptimizedSQLCipher/parse.c:1523-1531 | The fixed size, or one growth step from nothing, which is 100 entries, or the one built-in entry when the allocator cannot supply those. |
| `Parser.Parser.Limit` | Example/Pods/WCDBOptimizedSQLCipher/parse.c:1467-1492 | A growable parser that can have 100 entries can have at least those, never more than the allocator supplies, and stops only where one more step would not fit. |
| `Parser.Parser.GrowStack` | Example/Pods/WCDBOptimizedSQLCipher/parse.c:1467-1492 | Growing fails exactly when the allocator cannot supply twice the size plus 100; otherwise every old entry is kept and the top index does not move. |
| `Parser.Parser.PopParserStack` | Example/Pods/WCDBOptimizedSQLCipher/parse.c:1669-1682 | Drops the top entry and calls the destructor of its own symbol on its value. |
| `Parser.Parser.PopAll` | Example/Pods/WCDBOptimizedSQLCipher/parse.c:1700 | Destroys all entries above the base, top first; a top index below the base stays. |
| `Parser.Parser.StackOverflow` | Example/Pods/WCDBOptimizedSQLCipher/parse.c:1814-1832 | The slot at the top index is dropped without a destructor call and the rest are destroyed; dropping the base leaves the top index below it. |
| `Parser.Parser.FindShiftAction` | Example/Pods/WCDBOptimizedSQLCipher/parse.c:1721-1778 | The in-place search returns a pending reduce, or else what the row of the state has: the entry of the token itself; without one that of its fallback, when it has a fallback; without either that of ANY for any token but 0; and else the default. |
| `Parser.Parser.FindReduceAction` | Example/Pods/WCDBOptimizedSQLCipher/parse.c:1784-1809 | Returns what the goto row of the state has for the symbol; the index is inside the table and the cell was written for that symbol. |
| `Parser.Parser.Room` | Example/Pods/WCDBOptimizedSQLCipher/parse.c:1871-1883 | Fails exactly at the depth limit, keeps the entries, and grows only the growable build. |
| `Parser.Parser.Shift` | Example/Pods/WCDBOptimizedSQLCipher/parse.c:1857-1892 | Refines the specification of a shift, with the original token code as the major and the fused code re-encoded, or of its overflow. |
| `Parser.Parser.Reduce` | Example/Pods/WCDBOptimizedSQLCipher/parse.c:2241-2285 | Refines the specification of a reduction, with the room check of empty rules. |
| `Parser.Parser.Land` | Example/Pods/WCDBOptimizedSQLCipher/parse.c:3955-3973 | Refines the replacement of a right-hand side by one entry, or the accept. |
| `Parser.Parser.Pass` | Example/Pods/WCDBOptimizedSQLCipher/parse.c:4089-4201 | Refines one pass of the loop and keeps the object valid. |
| `Parser.Parser.Parse` | Example/Pods/WCDBOptimizedSQLCipher/parse.c:4060-4201 | The loop ends and the new state is the specified one; the object stays valid unless its top index is below the base. |
| `Parser.Parser.Free` | Example/Pods/WCDBOptimizedSQLCipher/parse.c:1692-1705 | Everything above the base is destroyed, top first. |
| `Parser.ParseAll` | Example/Pods/WCDBOptimizedSQLCipher/parse.c:4060-4201 | A new parser object of any depth or memory, fed any token sequence until its top index is below the base, ends in the state that the run theorems speak about. |
| `Parser.ParseUnallocated` | Example/Pods/WCDBOptimizedSQLCipher/parse.c:1523-1531 | A parser whose first allocation failed has its top index below its base after the first call if and only if the token makes the start state reduce by an empty rule. |
| `Sample.SampleIsWellFormed` | Example/Pods/WCDBOptimizedSQLCipher/parse.c:3896-3899 | The command-list rules with packed, overlapping tables, a fused action and an optimized-out rule meet every well-formedness condition. |
| `Sample.SampleAccepts` | Example/Pods/WCDBOptimizedSQLCipher/parse.c:3968-3972 | On those tables the run on two semicolons and the end of input reads them as a command list and accepts. |
| `AnyList.ListIsWellFormed` | Example/Pods/WCDBOptimizedSQLCipher/parse.c:1455-1457 | The recursive `anylist` rules, with an empty rule and the wildcard, meet every well-formedness condition. |
| `AnyList.Lookups` | Example/Pods/WCDBOptimizedSQLCipher/parse.c:1750-1775 | In their packed tables every look-ahead but the parentheses and the end of input is read as ANY. |
| `AnyList.EveryTokenFalls` | Example/Pods/WCDBOptimizedSQLCipher/parse.c:1527-1530 | A concrete parser with the one built-in entry: every first token, whatever it is, takes the top index below the base. |
| `DeepSelect.DeepIsWellFormed` | Example/Pods/WCDBOptimizedSQLCipher/parse.c:1206-1222 | The nested-subquery rules, with two empty rules, meet every well-formedness condition. |
| `DeepSelect.EveryDepthLeaks` | Example/Pods/WCDBOptimizedSQLCipher/parse.c:1814-1832 | For every stack of at least seven entries, so also for the fixed one of 100, concrete tokens make the parser lose an `expr` under the empty `as` rule: it is made once and neither consumed, destroyed nor delivered, even by the final free. |
| `KeywordAsName.KeywordIsAccepted` | Example/Pods/WCDBOptimizedSQLCipher/parse.c:1735-1748 | On the nested-subquery tables, whose ABORT falls back to ID, every parser of at least five entries accepts `SELECT abort`: the keyword is shifted as an ID under its own code and becomes the column. |
| `Selects.LoweringKeepsMeaning` | Example/Pods/WCDBOptimizedSQLCipher/parse.c:2703-2727 | For every compound of SELECT and VALUES terms and every database, the built `pPrior` chain evaluates to the left-associative meaning of the text. |
| `Selects.ValuesMeaning` | Example/Pods/WCDBOptimizedSQLCipher/parse.c:2781-2796 | The UNION ALL chain of a multi-row VALUES evaluates to its rows with their multiplicities. |
| `Selects.WrappingIsNeeded` | Example/Pods/WCDBOptimizedSQLCipher/parse.c:2708-2715 | Linking a VALUES right operand without the subquery keeps only its last row; for each operator exactly when that is right: one row under UNION ALL, the other rows in the left operand under UNION, none of them in it under EXCEPT and INTERSECT. |
| `SelectLaws.ExceptLaw` | Example/Pods/WCDBOptimizedSQLCipher/parse.c:2729-2733 | EXCEPT leaves each row of the left side that the right one lacks, once: no row of the right side, and nothing at all when the sides are equal. |
| `SelectLaws.IntersectLaw` | Example/Pods/WCDBOptimizedSQLCipher/parse.c:2729-2733 | INTERSECT leaves each row that both sides have, once. |
| `SelectLaws.UnionLaw` | Example/Pods/WCDBOptimizedSQLCipher/parse.c:2729-2733 | UNION leaves each row that either side has, once. |
| `SelectLaws.UnionAllLaw` | Example/Pods/WCDBOptimizedSQLCipher/parse.c:2735-2738 | UNION ALL adds multiplicities. |
| `SelectLaws.SelfLaws` | Example/Pods/WCDBOptimizedSQLCipher/parse.c:2729-2733 | A term EXCEPT itself is empty; INTERSECT itself and UNION itself are its distinct rows. |
| `SelectLaws.CommutesExactly` | Example/Pods/WCDBOptimizedSQLCipher/parse.c:2703-2727 | The operands of UNION, UNION ALL and INTERSECT may change places; those of EXCEPT if and only if they have the same rows. |
| `SelectLaws.ExceptTwice` | Example/Pods/WCDBOptimizedSQLCipher/parse.c:2703-2727 | Operators apply from the left: `s EXCEPT a EXCEPT b` has the rows of `s` that neither has, and `a` and `b` may change places. |
| `SelectLaws.LastUnionDecides` | Example/Pods/WCDBOptimizedSQLCipher/parse.c:2703-2727 | A statement of UNION ALL and UNION that ends in UNION has every row of every term once, whatever came before the end. |
| `SelectLaws.UnionAllCounts` | Example/Pods/WCDBOptimizedSQLCipher/parse.c:2735-2738 | A statement of UNION ALL alone has every row as often as all its terms together. |
| `Selects.LinkLoop` | Example/Pods/WCDBOptimizedSQLCipher/parse.c:94-97 | The loop sets `pNext` of every select to its predecessor on the walk, marks every select compound and counts them. |
| `Selects.DoubleLinkSelect` | Example/Pods/WCDBOptimizedSQLCipher/parse.c:90-105 | Links the chain both ways with `pNext` of the head null, changes nothing for a single select, and raises the limit error if and only if the head is not a multi-row VALUES and the chain is over a positive limit. |
| `Selects.Select.constructor` | Example/Pods/WCDBOptimizedSQLCipher/parse.c:2776-2778 | A new select has no neighbours and its term is its core. |
| `Selects.Quantify` | Example/Pods/WCDBOptimizedSQLCipher/parse.c:2797-2806 | DISTINCT brings its flag, ALL brings its own, no quantifier brings none, and none of them brings a mark of VALUES or of a compound. |
| `Selects.BuildOne` | Example/Pods/WCDBOptimizedSQLCipher/parse.c:2741-2796 | A plain SELECT has the flag of its quantifier and no other; of a VALUES clause every row is flagged SF_Values, the head of several rows SF_MultiValue too, and nothing else is set. |
| `Selects.AppendRow` | Example/Pods/WCDBOptimizedSQLCipher/parse.c:2781-2796 | One more row: the new select heads the chain of the old, means UNION ALL, and alone carries the multi-row mark. |
| `Selects.WrapOperand` | Example/Pods/WCDBOptimizedSQLCipher/parse.c:2708-2715 | A right operand that is a chain is linked both ways and becomes the subquery of a fresh select; a single select is left as it is. |
| `Selects.JoinSelect` | Example/Pods/WCDBOptimizedSQLCipher/parse.c:2703-2727 | The right operand, wrapped when it is a chain, heads the chain of the left one and has the specified meaning; no multi-row mark remains on either, a wrapping select has no flag, and the wrapped rows gain only the compound mark. |
| `Selects.BuildStatement` | Example/Pods/WCDBOptimizedSQLCipher/parse.c:2689-2702 | All actions of a statement: the result denotes the text, is linked both ways, inside its subqueries too, carries entry by entry exactly the flags that the text calls for (SF_Values for rows of VALUES, the quantifier for a SELECT, none for a wrapping select, SF_MultiValue for the head of a plain multi-row VALUES, SF_Compound for all of a chain), and is rejected if and only if it has more terms than a positive limit and is not a plain multi-row VALUES. |
| `Selects.BuildLongValues` | Example/Pods/WCDBOptimizedSQLCipher/parse.c:98-103 | Any VALUES clause with more rows than a positive limit is built without the error. |
| `Exprs.LoweringKeepsMeaning` | Example/Pods/WCDBOptimizedSQLCipher/parse.c:3135-3503 | For every expression and every environment the tree that the actions build evaluates to the three-valued meaning of the text. |
| `Exprs.IsKeepsMeaning` | Example/Pods/WCDBOptimizedSQLCipher/parse.c:183-190 | IS and IS NOT mean null-safe equality, also when a literal NULL on the right has turned the node into a unary test. |
| `Exprs.BetweenKeepsMeaning` | Example/Pods/WCDBOptimizedSQLCipher/parse.c:3376-3391 | BETWEEN and NOT BETWEEN are the conjunction of two comparisons, or its negation, in three-valued logic. |
| `Exprs.LikeKeepsMeaning` | Example/Pods/WCDBOptimizedSQLCipher/parse.c:3297-3311 | LIKE and NOT LIKE call the function with the pattern first and the text second, negated as asked. |
| `Exprs.LikeEscapeKeepsMeaning` | Example/Pods/WCDBOptimizedSQLCipher/parse.c:3312-3327 | The same with the escape as third argument. |
| `Exprs.InListKeepsMeaning` | Example/Pods/WCDBOptimizedSQLCipher/parse.c:3392-3446 | The constant, the comparison and the membership form of IN and NOT IN all mean three-valued membership, for 0, 1 and more values, also with NULLs. |
| `Exprs.InSelectKeepsMeaning` | Example/Pods/WCDBOptimizedSQLCipher/parse.c:3456-3478 | IN and NOT IN over a subquery or a table mean three-valued membership in its rows. |
| `Exprs.CaseKeepsMeaning` | Example/Pods/WCDBOptimizedSQLCipher/parse.c:3489-3503 | The tree of a CASE evaluates the flat list with the ELSE appended. |
| `Exprs.WhensKeepMeaning` | Example/Pods/WCDBOptimizedSQLCipher/parse.c:3504-3519 | Walking the flat WHEN/THEN list, whose odd length marks an ELSE, picks the arm that the text picks. |
| `Exprs.DotsKeepMeaning` | Example/Pods/WCDBOptimizedSQLCipher/parse.c:3174-3197 | `a.b` and `a.b.c` read the column at the path of their names in the order written. |
| `Forms.LoweringIsNormal` | Example/Pods/WCDBOptimizedSQLCipher/parse.c:3392-3446 | For every expression the built tree is in normal form: no IN over a list of fewer than two values, no IS or IS NOT against a literal NULL, no unary node with a right operand. |
| `Forms.LoweringKeepsOps` | Example/Pods/WCDBOptimizedSQLCipher/parse.c:3135-3519 | For every expression and every operator the tree has exactly as many nodes of it as the text calls for: an IN over one value is one comparison, over none one constant, IS NULL one unary test, BETWEEN, LIKE and each NOT one node. |
| `Forms.NullText` | Example/Pods/WCDBOptimizedSQLCipher/parse.c:183-190 | An operand is built as a NULL node exactly when its text is NULL, in any number of parentheses. |
| `ExprLaws.AndLaw` | Example/Pods/WCDBOptimizedSQLCipher/parse.c:3275-3286 | AND is false when either side is, also beside an unknown one, true when both are, and unknown otherwise. |
| `ExprLaws.OrLaw` | Example/Pods/WCDBOptimizedSQLCipher/parse.c:3275-3286 | OR is true when either side is, also beside an unknown one, false when both are, and unknown otherwise. |
| `ExprLaws.NotLaw` | Example/Pods/WCDBOptimizedSQLCipher/parse.c:3355-3359 | NOT of NULL is NULL, and NOT of anything else is 1 or 0: 1 exactly when it is zero or not truthy. |
| `ExprLaws.NullComparison` | Example/Pods/WCDBOptimizedSQLCipher/parse.c:3277-3286 | A comparison with NULL on either side is unknown. |
| `ExprLaws.ComparisonLaws` | Example/Pods/WCDBOptimizedSQLCipher/parse.c:3277-3286 | Each comparison is the NOT of its opposite, and an order comparison is its mirror image with the operands exchanged. |
| `ExprLaws.IsLaws` | Example/Pods/WCDBOptimizedSQLCipher/parse.c:3328-3353 | IS is never unknown, finds NULL to be NULL only, and IS NOT is its opposite; the postfix tests mean IS NULL and IS NOT NULL. |
| `ExprLaws.BetweenLaws` | Example/Pods/WCDBOptimizedSQLCipher/parse.c:3376-3391 | `e BETWEEN lo AND hi` means `e >= lo AND e <= hi`, and NOT BETWEEN the NOT of it. |
| `ExprLaws.InLaws` | Example/Pods/WCDBOptimizedSQLCipher/parse.c:3392-3446 | `e IN ()` is 0, also for NULL, and NOT IN means the NOT of IN. |
| `ExprLaws.InFirst` | Example/Pods/WCDBOptimizedSQLCipher/parse.c:3392-3446 | `e IN (y, ...)` means `e = y OR e IN (...)`. |
| `ExprLaws.CaseArm` | Example/Pods/WCDBOptimizedSQLCipher/parse.c:3489-3519 | A CASE without operand is its first result when the first condition is true, and otherwise the CASE of the remaining arms. |
| `ExprLaws.CaseOperandLaw` | Example/Pods/WCDBOptimizedSQLCipher/parse.c:3489-3503 | A CASE with an operand means the searched CASE over equalities with it. |
| `Spans.SpanStart` | Example/Pods/WCDBOptimizedSQLCipher/parse.c:112-205 | For every expression `zStart` is the start of its first token. |
| `Spans.SpanEnd` | Example/Pods/WCDBOptimizedSQLCipher/parse.c:3135-3502 | For every expression `zEnd` is the end of its last token, unless the right edge is `expr IN name(args)`, where it is the end of the table name. |
| `Spans.SpanEndIsExact` | Example/Pods/WCDBOptimizedSQLCipher/parse.c:3466-3478 | For text in order, `zEnd` is the end of the last token if and only if the right edge is not a table-valued function. |
| `Spans.ShortSpan` | Example/Pods/WCDBOptimizedSQLCipher/parse.c:3475 | A concrete text, `x IN t(y)`: its tokens are in order, its recorded end is 6 and its last token ends at 9. |
| `KeywordTables.NextDecreases` | Example/Pods/WCDBOptimizedSQLCipher/keywordhash.h:72-83 | Chain links decrease strictly below the keyword number plus one, so every walk ends. |
| `KeywordTables.AllSpelled` | Example/Pods/WCDBOptimizedSQLCipher/keywordhash.h:27-107 | The text slice of each keyword lies inside the text and spells it. |
| `KeywordTables.AllHomed` | Example/Pods/WCDBOptimizedSQLCipher/keywordhash.h:138 | Each keyword, by its first and last letters and its length, hashes to the bucket recorded for it. |
| `KeywordTables.AllReachable` | Example/Pods/WCDBOptimizedSQLCipher/keywordhash.h:60-83 | Each keyword is met on the chain of its own bucket, with no equal keyword before it. |
| `KeywordTables.Underscores` | Example/Pods/WCDBOptimizedSQLCipher/keywordhash.h:27-58 | The only underscores in keywords are at index 7 of CURRENT_DATE, CURRENT_TIMESTAMP and CURRENT_TIME. |
| `KeywordCodes.AllNamed` | Example/Pods/WCDBOptimizedSQLCipher/keywordhash.h:108-134 | The code of every keyword is that of the token of `parse.h` with its name, but for the listed groups that share one token (JOIN_KW, LIKE_KW, CTIME_KW, TEMP, and the few with a token of another name). |
| `Keywords.KeywordCode` | Example/Pods/WCDBOptimizedSQLCipher/keywordhash.h:135-279 | The walk reads only inside the text and returns the code of the keyword that the masked word equals, which is the code of the token that stands for that keyword by name, or that of the token ID when there is none. |
| `Keywords.RecognizedNames` | Example/Pods/WCDBOptimizedSQLCipher/keywordhash.h:135-279 | What is recognized is the token whose name stands for a keyword that the masked word equals, or the token ID when no keyword does. |
| `Keywords.StartsInBucket` | Example/Pods/WCDBOptimizedSQLCipher/keywordhash.h:138 | A word that equals a keyword up to masking starts its walk in that keyword's bucket. |
| `Keywords.RecognizerIsScan` | Example/Pods/WCDBOptimizedSQLCipher/keywordhash.h:280-284 | For all byte strings the answer is that of a linear case-insensitive scan of the string with byte 0x7F read as underscore. |
| `Keywords.RecognizerIsExact` | Example/Pods/WCDBOptimizedSQLCipher/keywordhash.h:280-284 | The recognizer equals the linear scan if and only if the string is none of CURRENT_DATE, CURRENT_TIMESTAMP and CURRENT_TIME, in any case, with byte 0x7F in place of the underscore. |
| `Keywords.DelWordIsTaken` | Example/Pods/WCDBOptimizedSQLCipher/keywordhash.h:139-144 | A concrete word on which they differ: CURRENT, 0x7F, DATE is taken for a keyword that the list does not contain. |
| `Triggers.StartList` | Example/Pods/WCDBOptimizedSQLCipher/parse.c:3685-3692 | The first command is a list by itself and its own last command. |
| `Triggers.AppendStep` | Example/Pods/WCDBOptimizedSQLCipher/parse.c:3676-3684 | Appending keeps the order, the tail pointer and the null end. |
| `Triggers.BuildList` | Example/Pods/WCDBOptimizedSQLCipher/parse.c:3676-3692 | After any number of appends the list holds the commands in source order, `pLast` of the head is the final one and its `pNext` is null. |
| `Triggers.Visit` | Example/Pods/WCDBOptimizedSQLCipher/parse.c:3676-3692 | Following `pNext` from the head visits exactly the commands, in order. |
| `ForeignKeys.RefArgsIsRecord` | Example/Pods/WCDBOptimizedSQLCipher/parse.c:2527-2554 | For every sequence of clauses the mask-and-or fold is the record of the last ON DELETE and the last ON UPDATE action. |
| `ForeignKeys.RefArgsFields` | Example/Pods/WCDBOptimizedSQLCipher/parse.c:2527-2554 | Byte 0 is the last ON DELETE action, byte 1 the last ON UPDATE action, both OE_None by default, and all higher bits are zero. |

## Left out

- Conservation.ParserIsSound: says that accepted input is derivable, not that every derivable input is
  accepted. Completeness depends on how the generator resolved its conflicts, which is not in the files.
- Exprs.LoweringKeepsMeaning: collation and affinity are one equality and one order. Nodes are values, so
  the in-place rewrite of IS NULL is a functional update. What a row value, a bound variable, a register or
  a RAISE yields is left open. Node flags, among them DISTINCT in a call, heights and the errors for a
  register outside a nested parse and for too many arguments are not modelled. The sign bit that carries
  NOT in a LIKE operator is a Boolean. Evaluation of a tree is given by its operators, not by the code
  generator.
- Selects.LoweringKeepsMeaning: a plain SELECT term is its result. WITH, ORDER BY, LIMIT and nested
  selects inside a term are not modelled, nor is `hasCompound`.
- Keywords.KeywordCode: `charMap` is not in the files and is taken as ASCII lower-casing; the EBCDIC branch
  is not modelled.
- ForeignKeys.RefArgsIsRecord: the OE codes are parameters that fit a byte.
- The 1570 concrete action cells, the 460 states and the 332 rules are not loaded; the theorems hold for
  all tables that satisfy `Machine.WellFormed`, of which `Sample`, `AnyList`
  and `DeepSelect` are small instances.
- Semantic values on the parser stack are terms that name their rule. What an action does to the `Parse`
  object, and the union that stores values, are not modelled; `Selects`, `Exprs`, `Triggers` and
  `ForeignKeys` model their own actions and are not joined to the stack entries.
- Allocation failure, except of the growable stack, whose allocator can supply a fixed number of entries.
- Tracing, token names for output, error message text and the high-water mark of the stack depth.
- Error recovery, which `YYNOERRORRECOVERY` compiles out.
- The remaining reduce actions, which hand their operands to functions that are not part of this model.
- `opcodes.c`, `opcodes.h`, `sqlite3.h`, `fts5.c`, `fts5.h`: constants, declarations, or code outside the
  two components. Of `parse.h` only the token names are used.
- The Objective-C service, the example application and the AWS headers: declarations only.
