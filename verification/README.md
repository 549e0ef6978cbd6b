# A verified model of SQLite's parser front end, keyword hash and session contracts

The repository vendors SQLite 3.15.2 (SQLCipher) as a pod. This project models the parts of it that are more
than declarations and proves what they are for.

- **The Lemon push-down engine** (`Tables`, `Grammar`, `Machine`, `Termination`, `Ranks`, `Soundness`,
  `Ownership`, `PlainLR`, `Parser`, `Pragma`). The engine runs over any tables that a finite certificate covers:
  for each state, the symbols that may be on top of the stack and the states that may lie beneath them. It keeps
  the details of the original: compressed tables, one level of token fallback, the wildcard, pending
  shift-reduces that are stored as state numbers and run on the next call, unit rules that the generator removed,
  the original token code on the stack, the two ways of overflowing. `Machine` gives one turn as a function on
  stacks; `Parser` is the object with its array and index, proved to do the same in place.
- **The keyword hash** (`KeywordTables`, `KeywordTokens`, `KeywordChains`, `KeywordList`, `Keywords`), with the literal
  tables, the list of keywords they pack and the token numbers of parse.h.
- **Semantic actions**: compound SELECTs (`CompoundSelect`, and `SelectNodes` for the nodes linked in place),
  rewritten expressions and CASE (`Expressions`), text spans (`Spans`), foreign-key action bytes (`ForeignKeys`).
- **Contracts stated in sqlite3.h**: changesets (`Changesets`, `Changegroup`, `Session`) and unlock
  notification (`UnlockNotify`). The header gives rules and promises but no bodies, so the rules are the model
  and the promises are the theorems.

Reading notes.

- A semantic value is a tree that records the action and the values it was applied to, or a token. Every actual
  set of actions is a function of these trees, so what is proved about trees holds for it.
- The certificate and the acyclicity of the grammar are assumptions on tables (`Certified`, `Acyclic`), which
  `Pragma` meets for a part of the grammar, with a run that accepts and a run that loses a value.
- Where the header says that an UPDATE followed by a DELETE is "replaced by the new DELETE", the model gives
  the DELETE the values from before the UPDATE; `KeepingNewDelete` says exactly when the literal reading would do.
- `charMap`, `ExprSpan` and `Token` are declared in sqliteInt.h, which is not part of this model: charMap is taken
  as ASCII lower case, and the two structures as words in declaration order.
- A registration for an unlock notification that is refused, or answered at once, leaves an earlier one of the same
  connection in place; the header does not say.
- In `Spans` the position of an absent schema name is 0, the null pointer, so a schema name that is present does not
  start at 0. The tokens between the parts of an expression are given one stack entry each.

## Model

| member | source | states |
|---|---|---|
| `LemonTables.FindShiftAction` | Example/Pods/WCDBOptimizedSQLCipher/parse.c:1721-1778 | The lookup loop returns the explicit entry, else the fallback token's, else the wildcard's, else the default of the state; a pending reduce is its own action; no index leaves the tables although two tests may be compiled out; at most two rounds. |
| `LemonTables.FindReduceAction` | Example/Pods/WCDBOptimizedSQLCipher/parse.c:1784-1809 | The goto lookup needs none of its range tests when the entry exists. |
| `LemonTables.CompressedLookupIsPlain` | Example/Pods/WCDBOptimizedSQLCipher/parse.c:343-396 | For every correct packing of a sparse matrix the compressed lookup is the lookup on the matrix; end of input never takes the wildcard. |
| `LemonTables.GotoIsPlain` | Example/Pods/WCDBOptimizedSQLCipher/parse.c:1784-1809 | For every correct packing of the matrix the goto on the compressed tables is the entry of the matrix, and absent where the matrix has none. |
| `LemonTables.Boundaries` | Example/Pods/WCDBOptimizedSQLCipher/parse.c:318-327 | With the state and rule counts of this grammar the action boundaries are the generated defines. |
| `LemonGrammar.Restore` | Example/Pods/WCDBOptimizedSQLCipher/parse.c:3898-3933 | A tree built on the stack, where symbols match right-hand sides only up to removed unit rules, fallback and wildcard, turns into a derivation of the full grammar over the same texts. |
| `LemonMachine.ActionPossible` | Example/Pods/WCDBOptimizedSQLCipher/parse.c:1728-1777 | On every certified stack the lookup is in range and finds a shift the certificate allows, a reduce whose right-hand side is on the stack and whose goto exists, or the error action: no assertion of the engine can fire. |
| `LemonMachine.PendingFrames` | Example/Pods/WCDBOptimizedSQLCipher/parse.c:986-988 | Beneath a pending reduce there is a state, and the symbols that the reduce will pop are as the shift left them. |
| `LemonMachine.EnterKeeps` | Example/Pods/WCDBOptimizedSQLCipher/parse.c:1884-1891 | Storing the state, or the renumbered reduce of a shift-reduce, keeps the stack certified. |
| `LemonMachine.AcceptAtBase` | Example/Pods/WCDBOptimizedSQLCipher/parse.c:3970-3973 | The accept entry is only ever used by a reduce to the start symbol that pops everything above the base. |
| `LemonMachine.StepKeeps` | Example/Pods/WCDBOptimizedSQLCipher/parse.c:4091-4099 | One turn of the loop, overflow included, leads from a certified stack to a certified stack. |
| `LemonMachine.DoneMeans` | Example/Pods/WCDBOptimizedSQLCipher/parse.c:4201 | The loop stops exactly when the token is used up or the stack is back at its base. |
| `LemonTermination.TreeBound` | Example/Pods/WCDBOptimizedSQLCipher/parse.c:4089-4201 | Where no symbol derives itself, a tree over n tokens has boundedly many nodes. |
| `LemonTermination.StepProgress` | Example/Pods/WCDBOptimizedSQLCipher/parse.c:4089-4201 | Each turn that does not end the call uses up room that the tokens on the stack bound. |
| `LemonTermination.Call` | Example/Pods/WCDBOptimizedSQLCipher/parse.c:4060-4201 | What one call of the parser does, as a function that is total on certified stacks and keeps them certified. |
| `LemonTermination.CallBounded` | Example/Pods/WCDBOptimizedSQLCipher/parse.c:4089-4201 | A call makes at most as many reductions as that room. |
| `LemonRanks.RankedIsAcyclic` | Example/Pods/WCDBOptimizedSQLCipher/parse.c:1897-1957 | A ranking that can be checked rule by rule shows that no symbol derives itself. |
| `LemonRuns.RunSound` | Example/Pods/WCDBOptimizedSQLCipher/parse.c:4060-4201 | Over every run the frontier of the stack is the tokens shifted and not yet accepted or abandoned, and each accept is a tree for the start symbol over exactly those. |
| `LemonRuns.UneventfulRun` | Example/Pods/WCDBOptimizedSQLCipher/parse.c:4091-4097 | A run without error, accept or overflow has shifted exactly the tokens fed. |
| `LemonRuns.ParserSound` | Example/Pods/WCDBOptimizedSQLCipher/parse.c:4060-4201 | If the parser accepts after such a run, the tokens fed have a derivation from the start symbol in the full grammar, each read as itself, its fallback or the wildcard. |
| `LemonOwnership.TurnBalances` | Example/Pods/WCDBOptimizedSQLCipher/parse.c:1814-1822 | One turn loses a value without a destructor call exactly when an empty rule is reduced on a full stack, and then exactly the top entry. |
| `LemonOwnership.RunBalances` | Example/Pods/WCDBOptimizedSQLCipher/parse.c:2241-2283 | Over every run and for every value: put on the stack = still live + consumed by an action + destroyed + dropped. |
| `LemonOwnership.FreeSettles` | Example/Pods/WCDBOptimizedSQLCipher/parse.c:1692-1705 | After freeing, nothing is live: uses, destructor calls and drops add up to what was put on the stack. |
| `LemonOwnership.RunDrops` | Example/Pods/WCDBOptimizedSQLCipher/parse.c:2262-2273 | Over every run the entries dropped are the turns that reduce an empty rule on a full stack, at most one for each overflow; some value is lost exactly if there is such a turn. |
| `PlainLR.TurnAgrees` | Example/Pods/WCDBOptimizedSQLCipher/parse.c:318-327 | Turn by turn the engine does what a machine with real states for completed rules and unnumbered actions does. |
| `PlainLR.CallAgrees` | Example/Pods/WCDBOptimizedSQLCipher/parse.c:1884-1888 | The plain machine uses a token within as many turns as the engine has room for, with the same events and the same stack. |
| `PlainLR.RunAgrees` | Example/Pods/WCDBOptimizedSQLCipher/parse.c:3958-3965 | Over whole runs, as long as the engine does not overflow, both make the same shifts, reductions, accepts and errors in the same order. |
| `LemonParser.Parser.constructor` | Example/Pods/WCDBOptimizedSQLCipher/parse.c:1516-1542 | A new parser holds the base entry only. |
| `LemonParser.Parser.Pop` | Example/Pods/WCDBOptimizedSQLCipher/parse.c:1669-1681 | Pops one entry above the base and calls its destructor. |
| `LemonParser.Parser.StackOverflow` | Example/Pods/WCDBOptimizedSQLCipher/parse.c:1814-1832 | Gives up one entry without its destructor, pops the rest from the top down, then reports. |
| `LemonParser.Parser.Shift` | Example/Pods/WCDBOptimizedSQLCipher/parse.c:1857-1892 | The array and index after a shift are those of the stack function, overflow included. |
| `LemonParser.Parser.Reduce` | Example/Pods/WCDBOptimizedSQLCipher/parse.c:2241-3974 | The same for a reduce: the result is written in place of the first popped entry, or above the top for an empty rule, always within the array. |
| `LemonParser.Parser.Parse` | Example/Pods/WCDBOptimizedSQLCipher/parse.c:4060-4201 | The do-while loop terminates and leaves the array and the events of the call function. |
| `LemonParser.Parser.Free` | Example/Pods/WCDBOptimizedSQLCipher/parse.c:1692-1705 | Destroys every live entry from the top down. |
| `LemonParser.ParseAll` | Example/Pods/WCDBOptimizedSQLCipher/parse.c:4060-4201 | A parser fed a word call by call holds the stack and events of the run. |
| `LemonParser.ParseAndFree` | Example/Pods/WCDBOptimizedSQLCipher/parse.c:1692-1705 | End to end: a parser fed any word and freed has used or destroyed each value as often as it stacked it, but for the dropped ones. |
| `PragmaTables.IsReady` | Example/Pods/WCDBOptimizedSQLCipher/parse.c:3590-3615 | Packed tables for the real rules of the PRAGMA statements, for a stack of any depth, meet every assumption of the theorems. |
| `PragmaTables.IsPacked` | Example/Pods/WCDBOptimizedSQLCipher/parse.c:3590-3615 | The tables of the PRAGMA statements are a correct packing of their entries, terminals and gotos together. |
| `PragmaTables.WordAccepted` | Example/Pods/WCDBOptimizedSQLCipher/parse.c:3896-3936 | A run on those tables with an empty rule, fallback tokens, pending reduces and removed unit rules accepts, so the soundness theorem is not vacuous. |
| `PragmaTables.ValueLost` | Example/Pods/WCDBOptimizedSQLCipher/parse.c:2262-2273 | With a stack of four entries the empty dbnm after "PRAGMA query" drops the value of the name, and nothing is dropped before. |
| `KeywordChains.EveryKeywordFound` | Example/Pods/WCDBOptimizedSQLCipher/keywordhash.h:27-107 | Each of the 124 keywords lies within the packed text and on the chain of its own bucket, behind keywords that all differ from it. |
| `KeywordTables.ANext` | Example/Pods/WCDBOptimizedSQLCipher/keywordhash.h:72-83 | Chains run strictly downwards. |
| `KeywordList.EveryKeywordSpelled` | Example/Pods/WCDBOptimizedSQLCipher/keywordhash.h:27-131 | The packed text, with its offsets and lengths, spells the 124 keywords of the list, and the code table gives each the token number that its spelling has in parse.h. |
| `Keywords.SearchExact` | Example/Pods/WCDBOptimizedSQLCipher/keywordhash.h:137-149 | The chained search finds keyword i if and only if the comparison loop accepts keyword i: none is missed through the hash and none shadowed. |
| `Keywords.KeywordCode` | Example/Pods/WCDBOptimizedSQLCipher/keywordhash.h:137-278 | The loops over the chain and over the bytes yield the token that belongs to the spelling of the keyword found. |
| `Keywords.KeywordOrId` | Example/Pods/WCDBOptimizedSQLCipher/keywordhash.h:280-284 | For a string without a DEL byte the code is the token of the keyword that the string spells in any case, TK_ID if there is none. |
| `Keywords.OnlyDelIsMistaken` | Example/Pods/WCDBOptimizedSQLCipher/keywordhash.h:144 | The masked comparison against the packed text accepts exactly the word the keyword spells, in any case, or with DEL bytes for underscores. |
| `Keywords.DelIsMistaken` | Example/Pods/WCDBOptimizedSQLCipher/keywordhash.h:144 | CURRENT_DATE with DEL for its underscore is not a keyword, but the lookup returns the code of one. |
| `Keywords.LookupIsLinearSearch` | Example/Pods/WCDBOptimizedSQLCipher/keywordhash.h:137-284 | The code found is the token, by its spelling, that the case-insensitive linear search of the list gives, TK_ID if none, exactly unless the string is a keyword with DEL bytes for underscores. |
| `CompoundSelect.ChainMeansSource` | Example/Pods/WCDBOptimizedSQLCipher/parse.c:2703-2726 | For every list of operands and operators the chain built by the actions evaluates to the left-to-right meaning of the source. |
| `CompoundSelect.ValuesMeaning` | Example/Pods/WCDBOptimizedSQLCipher/parse.c:2774-2794 | A VALUES clause becomes one node per row, meaning the rows together. |
| `CompoundSelect.WrappingMatters` | Example/Pods/WCDBOptimizedSQLCipher/parse.c:2707-2714 | Without wrapping a right operand of several rows the meaning would differ. |
| `SelectNodes.Parse.DoubleLink` | Example/Pods/WCDBOptimizedSQLCipher/parse.c:90-105 | pNext becomes the inverse of pPrior, every node is marked compound, pPrior and the terms stay, and an error is reported exactly when the head lacks SF_MultiValue, the limit is positive and the chain longer. |
| `SelectNodes.Parse.FirstRow` | Example/Pods/WCDBOptimizedSQLCipher/parse.c:2774-2777 | The first row of a VALUES clause is a node of its own. |
| `SelectNodes.Parse.NextRow` | Example/Pods/WCDBOptimizedSQLCipher/parse.c:2781-2794 | A further row goes in front, joined by ALL, and takes over SF_MultiValue. |
| `SelectNodes.Parse.Wrap` | Example/Pods/WCDBOptimizedSQLCipher/parse.c:2707-2714 | A right operand of several nodes becomes the content of a subquery, linked without an error. |
| `SelectNodes.Parse.Compound` | Example/Pods/WCDBOptimizedSQLCipher/parse.c:2703-2726 | The right operand goes in front of the left chain with its operator; the flags that exempt from the limit are cleared on both. |
| `SelectNodes.Parse.Build` | Example/Pods/WCDBOptimizedSQLCipher/parse.c:2689-2794 | From a whole source the actions build exactly the specified chain; the limit counts the rows of a leading VALUES but does not apply to a lone one. |
| `Expressions.BuildPreserves` | Example/Pods/WCDBOptimizedSQLCipher/parse.c:3212-3505 | Every expression, whatever is rewritten inside it, evaluates in three-valued logic as its source means, for any meaning of collations, casts, signs, LIKE, division, bit operators and concatenation. |
| `Expressions.BuildRewrites` | Example/Pods/WCDBOptimizedSQLCipher/parse.c:3392-3432 | No tree built has an IN of fewer than two elements or an IS with a null literal on its right, at any depth. |
| `Expressions.RewrittenForms` | Example/Pods/WCDBOptimizedSQLCipher/parse.c:3392-3432 | IS with a null literal becomes the unary operator, an empty list 0 or 1, a list of one the comparison. |
| `Expressions.IsPreserves` | Example/Pods/WCDBOptimizedSQLCipher/parse.c:183-190 | IS and IS NOT with a null literal on the right become ISNULL and NOTNULL without changing the value. |
| `Expressions.InPreserves` | Example/Pods/WCDBOptimizedSQLCipher/parse.c:3392-3444 | The empty list gives 0 or 1, one element a comparison, more a membership, negated from outside. |
| `Expressions.LikePreserves` | Example/Pods/WCDBOptimizedSQLCipher/parse.c:3297-3324 | LIKE as a function call has the pattern first, the text second and the escape third. |
| `Expressions.FlatCase` | Example/Pods/WCDBOptimizedSQLCipher/parse.c:3489-3519 | Evaluating the flat list of a CASE tries the pairs in order and falls back on the ELSE. |
| `Expressions.FlattenReversible` | Example/Pods/WCDBOptimizedSQLCipher/parse.c:3489-3519 | The flat list has odd length exactly when there is an ELSE, and gives back the pairs by parity. |
| `Expressions.MarkReadBack` | Example/Pods/WCDBOptimizedSQLCipher/parse.c:3292-3302 | NOT and the token length can be read back from the marked length exactly for lengths below 2^31. |
| `Spans.Reduce` | Example/Pods/WCDBOptimizedSQLCipher/parse.c:3135-3478 | The actions, run bottom up over the stack entries of any expression, each writing its result over the entry of its first symbol, leave the span from the first token to the last, unless the expression ends in the arguments of a table on the right of IN. |
| `Spans.SpanExact` | Example/Pods/WCDBOptimizedSQLCipher/parse.c:3135-3478 | Of the span as a function: it starts at the first token always, and ends at the last one exactly unless the expression ends in such arguments; then it is short. |
| `Spans.SpanEnds` | Example/Pods/WCDBOptimizedSQLCipher/parse.c:3466-3476 | In every case the span ends with the last token before such arguments. |
| `Spans.ArgumentsAreCut` | Example/Pods/WCDBOptimizedSQLCipher/parse.c:3466-3476 | "e IN t(a)" has a span that stops at the name. |
| `Spans.SpanSet` | Example/Pods/WCDBOptimizedSQLCipher/parse.c:112-115 | Right though the output shares the slot of the start token; with the end token it is right only by coincidence. |
| `Spans.SpanExpr` | Example/Pods/WCDBOptimizedSQLCipher/parse.c:121-142 | A span over one token passed by value. |
| `Spans.SpanBinaryExpr` | Example/Pods/WCDBOptimizedSQLCipher/parse.c:148-156 | The left operand's slot becomes the result, ending where the right operand ends. |
| `Spans.SpanUnaryPostfix` | Example/Pods/WCDBOptimizedSQLCipher/parse.c:170-178 | The operand's slot becomes the result, ending with the operator. |
| `Spans.SpanUnaryPrefix` | Example/Pods/WCDBOptimizedSQLCipher/parse.c:195-205 | The operator's slot becomes the result; its position is read before it is overwritten. |
| `Spans.SpanInTable` | Example/Pods/WCDBOptimizedSQLCipher/parse.c:3466-3476 | The span ends with the schema-qualified name, not with the arguments. |
| `ForeignKeys.RefargsPack` | Example/Pods/WCDBOptimizedSQLCipher/parse.c:2527-2556 | The folded value packs the last ON UPDATE and the last ON DELETE action. |
| `ForeignKeys.ActionBytes` | Example/Pods/WCDBOptimizedSQLCipher/parse.c:2527-2556 | The low byte is the last ON DELETE action, the next the last ON UPDATE action; MATCH and ON INSERT leave no trace. |
| `Changesets.ApplyIsPointwise` | Example/Pods/WCDBOptimizedSQLCipher/sqlite3.h:9459-9512 | Applying a changeset succeeds exactly when each change applies where it stands, and gives the same in any order. |
| `Changesets.InvertUndoes` | Example/Pods/WCDBOptimizedSQLCipher/sqlite3.h:9179-9191 | Applying the inverted changeset, in the same order, undoes the changeset. |
| `Changesets.MergeComposes` | Example/Pods/WCDBOptimizedSQLCipher/sqlite3.h:9311-9351 | The merged change, or none if none is left, does what the two changes did one after the other. |
| `Changesets.MergeExact` | Example/Pods/WCDBOptimizedSQLCipher/sqlite3.h:9311-9351 | But for a DELETE followed by an INSERT, the merged change applies exactly where the two apply in turn, with the same effect. |
| `Changesets.MergeDiscards` | Example/Pods/WCDBOptimizedSQLCipher/sqlite3.h:9322-9342 | No change is left exactly if the row ends as it began, save that two UPDATEs are kept as one. |
| `Changesets.DeleteThenInsert` | Example/Pods/WCDBOptimizedSQLCipher/sqlite3.h:9337-9342 | A DELETE and an INSERT leave nothing if the rows are the same, else an UPDATE of exactly the columns that differ. |
| `Changesets.UpdateApplies` | Example/Pods/WCDBOptimizedSQLCipher/sqlite3.h:9501-9512 | An UPDATE of the columns in which two rows differ applies to a row exactly if that agrees with the first row there, and changes it there only. |
| `Changesets.IgnoredCannotFollow` | Example/Pods/WCDBOptimizedSQLCipher/sqlite3.h:9317-9351 | The pairs whose new change is ignored keep the existing change, and cannot both apply in turn. |
| `Changesets.InverseOfMerge` | Example/Pods/WCDBOptimizedSQLCipher/sqlite3.h:9183-9187 | Merging the inverses the other way round gives the inverse of the merge. |
| `Changesets.KeepingNewDelete` | Example/Pods/WCDBOptimizedSQLCipher/sqlite3.h:9334-9336 | Keeping the new DELETE unaltered after an UPDATE would apply to the original row exactly when the UPDATE changed nothing. |
| `Changesets.NewDeleteConflicts` | Example/Pods/WCDBOptimizedSQLCipher/sqlite3.h:9334-9336 | A case in which the unaltered DELETE conflicts. |
| `Changegroups.MergedTakes` | Example/Pods/WCDBOptimizedSQLCipher/sqlite3.h:9216-9218 | A group and a changeset that applies after it merge into a group that applies in one go. |
| `Changegroups.Changegroup.Add` | Example/Pods/WCDBOptimizedSQLCipher/sqlite3.h:9300-9364 | Adding merges row by row; a key stays unless the two changes undo each other; new tables go to the end in their order; the shape of a table already present must agree. |
| `Changegroups.Changegroup.Output` | Example/Pods/WCDBOptimizedSQLCipher/sqlite3.h:9367-9394 | The output lists the group exactly, the changes of a table together and the tables in order of first appearance. |
| `Changegroups.Concat` | Example/Pods/WCDBOptimizedSQLCipher/sqlite3.h:9213-9243 | Whatever A followed by B does to a database, the concatenation does in one go. |
| `Changegroups.Combine` | Example/Pods/WCDBOptimizedSQLCipher/sqlite3.h:9262-9281 | A changegroup fed any number of changesets and read once: it fails exactly if two of them disagree on a table; else, whatever they do to a database in turn, the output does in one go. |
| `Changegroups.NothingIgnored` | Example/Pods/WCDBOptimizedSQLCipher/sqlite3.h:9317-9351 | When each changeset was recorded where the one before ended, none of the ignored pairs occurs. |
| `Sessions.NetEffect` | Example/Pods/WCDBOptimizedSQLCipher/sqlite3.h:8739-8783 | For every run of writes with the session enabled, the changeset applied in any order to the initial contents gives the final contents. |
| `Sessions.NetTakes` | Example/Pods/WCDBOptimizedSQLCipher/sqlite3.h:8757-8776 | Whatever was recorded and when: the changeset leads from the recorded rows to the current ones and touches nothing else. |
| `Sessions.NetIsDifference` | Example/Pods/WCDBOptimizedSQLCipher/sqlite3.h:8778-8783 | The changeset has a change for a key exactly if its row differs at the end from the start: an INSERT, a DELETE, or an UPDATE of exactly the columns that differ. |
| `Sessions.RecordsAreTouched` | Example/Pods/WCDBOptimizedSQLCipher/sqlite3.h:8741-8755 | Over a run there is a record for exactly the keys that some write has touched. |
| `Sessions.AfterWrites` | Example/Pods/WCDBOptimizedSQLCipher/sqlite3.h:8741-8755 | What each write does to the row at any key. |
| `Sessions.TwoSessions` | Example/Pods/WCDBOptimizedSQLCipher/sqlite3.h:9216-9218 | The merged changesets of two sessions in a row lead from the first start to the last end. |
| `Sessions.Session.Enable` | Example/Pods/WCDBOptimizedSQLCipher/sqlite3.h:8592-8610 | Zero disables, positive enables, negative only asks; the result is the final state. |
| `Sessions.Session.Observe` | Example/Pods/WCDBOptimizedSQLCipher/sqlite3.h:8741-8755 | While enabled, the first touch of each key is recorded; keys with a NULL are not. |
| `Sessions.Session.MakeChangeset` | Example/Pods/WCDBOptimizedSQLCipher/sqlite3.h:8757-8776 | One change for each record whose row differs from what the record says, and no other: an INSERT, a DELETE, or an UPDATE of exactly the modified columns. |
| `Sessions.Watch` | Example/Pods/WCDBOptimizedSQLCipher/sqlite3.h:8741-8755 | A session present from the start holds the records of the run. |
| `UnlockNotify.ClosesCircle` | Example/Pods/WCDBOptimizedSQLCipher/sqlite3.h:7595-7606 | A new wait closes a circle exactly when the blocking connection already waits for the blocked one, at whatever distance. |
| `UnlockNotify.NeverCircular` | Example/Pods/WCDBOptimizedSQLCipher/sqlite3.h:7585-7606 | Over every interleaving of events of any number of connections the waits stay acyclic, and whoever is waited for is in a transaction. |
| `UnlockNotify.History` | Example/Pods/WCDBOptimizedSQLCipher/sqlite3.h:7526-7538 | Over every run: who is in a transaction, and by whom a connection is blocked, namely the holder of the last lock it was refused, as long as that transaction goes on. |
| `UnlockNotify.SomeoneCanConclude` | Example/Pods/WCDBOptimizedSQLCipher/sqlite3.h:7585-7593 | At the end of every chain of waits there is a connection that is not waiting and can conclude. |
| `UnlockNotify.ConcludeWakes` | Example/Pods/WCDBOptimizedSQLCipher/sqlite3.h:7533-7538 | Over every run: a registration that was not replaced, cancelled or closed is told, with its own callback, by the first event that ends its blocker's transaction and by no other. |
| `UnlockNotify.ToldOnce` | Example/Pods/WCDBOptimizedSQLCipher/sqlite3.h:7549-7558 | Each time a waiting connection is told, this answers exactly one registration, its last; so each registration ends in at most one of told, replaced, cancelled, closed. |
| `UnlockNotify.CallHandsOver` | Example/Pods/WCDBOptimizedSQLCipher/sqlite3.h:7568-7583 | Of the calls made when a registration is told, exactly one has the connection: that of its own function, with its own context pointer. |
| `UnlockNotify.CloseForgets` | Example/Pods/WCDBOptimizedSQLCipher/sqlite3.h:7556-7558 | Over every run: after a close nobody waits for the connection until it begins a transaction again, and it waits for nobody until it registers again. |
| `UnlockNotify.Registry.WouldDeadlock` | Example/Pods/WCDBOptimizedSQLCipher/sqlite3.h:7595-7606 | Following the chain of waits decides whether the wait would close a circle. |
| `UnlockNotify.Registry.Register` | Example/Pods/WCDBOptimizedSQLCipher/sqlite3.h:7526-7565 | SQLITE_LOCKED is returned and nothing registered exactly when a circle would close; without a blocking transaction the callback is invoked at once; a new registration replaces the old. |
| `UnlockNotify.Registry.Conclude` | Example/Pods/WCDBOptimizedSQLCipher/sqlite3.h:7573-7583 | All that wait for the transaction are told, each callback function being called once with the context pointers of all that gave it. |
| `UnlockNotify.Registry.Notify` | Example/Pods/WCDBOptimizedSQLCipher/sqlite3.h:7573-7583 | The calls for a set of waiting connections: each function they registered once, with the context pointer of every connection that registered it. |
| `UnlockNotify.Registry.Close` | Example/Pods/WCDBOptimizedSQLCipher/sqlite3.h:7556-7558 | Closing cancels the connection's own registration and concludes its transaction, with the calls of that. |

## Left out

- The literal 1570-entry action tables and their certificate: the engine is proved for all certified tables.
- LALR completeness and precedence: the grammar file and its item sets are not part of this model.
- The %destructor code and the semantic actions as C code, beyond the ones listed above: calls such as
  sqlite3StartTable or sqlite3Insert have no body here.
- Trace output, the error-symbol and default error-recovery branches (compiled out), allocation failure, and the
  growing stack of a zero YYSTACKDEPTH.
- Narrowing to unsigned char and unsigned short when a stack entry is stored: codes and states are natural numbers.
- The value that the accepting action computes: it is never stored, and no destructor exists for it.
- A wrapped VALUES subquery is held by content, not by pointer, so aliasing of its nodes is not modelled.
- Affinity, the effect of a collation on a comparison, and the EP_Generic mark of a one-element IN: values are numbers and NULL.
- Expressions.BuildPreserves: does not model vectors, subqueries and functions other than LIKE, whose meaning lies outside the parser; division, the bit operators, "||" and CAST may mean anything.
- Conflict handlers, UNIQUE and foreign key constraints, patchsets, streaming, indirect changes and sqlite3session_diff.
- Sessions.NetEffect: does not model runs during which the session is disabled for a while, because the header promises no net effect for them; NetTakes says what then still holds.
- The choice of a blocking connection among several readers, and the re-entrancy of unlock callbacks.
- The rest of sqlite3.h, fts5.h, opcodes, and the application and UI headers: interfaces without visible logic.
